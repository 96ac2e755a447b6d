# Mapty workout logger — model of the session logic

Mapty is a browser page where a user clicks a place on a map, fills in a
small form (running or cycling, distance, duration, cadence or elevation)
and gets a marker and a list entry for the workout; the list is kept in the
browser's storage across visits. Almost all of `script.js` is glue to the
map library and the page. This project models the logic inside it:

- `validation.dfy` (module `Validation`): the two input checks
  `#checkInputsPositive` and `#checkInputsAll`, over the numbers the form
  fields read as (`None` stands for `NaN`, an empty field reads as 0), and
  the boolean that the cycling branch passes where a number is expected.
- `workouts.dfy` (module `Workouts`): the workout record, the acceptance
  rule of the submit handler, the twelve-entry month table, the id cut from
  the millisecond clock, and the derived pace and speed of
  `#runningObject` / `#cyclingObject`.
- `app.dfy` (module `Mapty`): the `App` object as a class whose fields are
  the current workout (`#workOut`), the session's list (`#activities`), the
  list read at start-up (`#savedActivities`) and the browser storage; its
  methods are the state changes of the submit handler, `#renderMarker`, the
  replay loop `#loadSavedWorkouts`, and the id lookup of the list-click
  handler.
- `wrappers.dfy`: an `Option` type.

The clock (`Date.now()`, month and day of `new Date()`), the form values and
the initial storage are parameters. Storage is a map from key to a list of
workouts; JSON serialisation is taken as the identity.

Behaviour of the code that the model keeps, though it may be unexpected:

- A stored record that does not parse makes `JSON.parse` throw while the
  object is being created, so the application does not start; it is not read
  as an empty list. Such records are not representable in the model.
- Ids are not unique: an id is the first 12 digits of a 13-digit millisecond
  timestamp, so two workouts saved within the same 10 ms get the same id
  (`Workouts.IdsCoincide`). The lookup returns the first match.
- Running requires a cadence of at least 1; a cadence of 0 is rejected.
- Pace, speed and ids are computed in the model over exact reals and
  unbounded naturals; the equalities stated hold in the model, not
  bit-for-bit for IEEE doubles.

The record's `type` field is called `kind` in the model (`type` is a
reserved word in Dafny).

## Model

| member | source | states |
|---|---|---|
| `Validation.Plus` | script.js:72 | unary plus keeps a field's number; a boolean reads as a number that is at least 1 exactly when it is `true` |
| `Validation.Abs` | script.js:73 | `Math.abs` is `NaN` exactly for `NaN`, otherwise non-negative and equal to the input or its negation |
| `Validation.CheckInputsPositive` | script.js:72 | true iff every input, read as a number, is a number at least 1 (NaN and empty fields fail) |
| `Validation.CheckInputsAll` | script.js:73 | true iff no input is `NaN`, whatever its sign: the absolute-value test is only a numeric guard |
| `Validation.PositiveBoundaries` | script.js:72 | a single input passes iff it is at least 1; NaN, 0, and a list with -1 fail; 5, 30, 12 pass |
| `Validation.FlagDecides` | script.js:80-86 | a boolean appended to the positivity check's inputs passes iff it is `true` and the rest pass |
| `Validation.NumericGuard` | script.js:73 | any number, including -500, passes the numeric guard; NaN does not |
| `Workouts.Accepts` | script.js:80-89 | a submission is accepted iff distance >= 1, duration >= 1, and the cadence is >= 1 for running or the elevation is a number (any sign) otherwise |
| `Workouts.Decimal` | script.js:91 | the decimal text of the timestamp is non-empty and made of digits only |
| `Workouts.MonthNames` | script.js:36 | the month table has twelve distinct names, January at index 0 through December at index 11, indexed by `getMonth()` |
| `Workouts.Id` | script.js:91 | the id is the first 12 characters of the timestamp's decimal text, or all of it when shorter: a digit-only prefix of length min(12, length of the text) |
| `Workouts.DecimalLength` | script.js:91 | a number with k + 1 digits has a decimal text of length k + 1 |
| `Workouts.DecimalInjective` | script.js:91 | different timestamps have different decimal texts |
| `Workouts.IdOfMillisecondClock` | script.js:91 | for a 13-digit millisecond clock the id has exactly 12 characters and is the clock in units of 10 ms |
| `Workouts.IdsCoincide` | script.js:91 | two such clocks give the same id iff they fall in the same 10 ms slot |
| `Workouts.Pace` | script.js:115 | pace is positive and pace times distance equals duration |
| `Workouts.Speed` | script.js:119 | speed is positive and speed times duration equals 60 times distance |
| `Workouts.RunningObject` | script.js:113-116 | a running metric keeps the cadence as entered, with pace times distance equal to duration |
| `Workouts.CyclingObject` | script.js:117-120 | a cycling metric keeps the elevation as entered, with speed times duration equal to 60 times distance |
| `Workouts.Build` | script.js:91-99 | an accepted form yields a well-formed workout: id exactly the id cut from the clock, month the name of the clock's month, day, type, position, distance and duration as given, the running metric iff the type is running, cadence or elevation as entered |
| `Workouts.PaceSpeedReciprocal` | script.js:113-120 | pace and speed of the same distance and duration multiply to 60 |
| `Workouts.Examples` | script.js:80-120 | 5 km in 30 min at cadence 150 is accepted with pace 6; 20 km in 60 min at elevation -30 is accepted with speed 20 and elevation -30; distance 0, or a cycling form whose elevation is not a number, is rejected; a cycling form with an empty elevation field (read as 0) is accepted and stores elevation 0 |
| `Mapty.SavedIn` | script.js:14 | the saved list is the value under the storage key, empty when the key is absent |
| `Mapty.App.constructor` | script.js:12-22 | the saved list is read once from storage; the session list starts empty; every saved workout gets a list entry in stored order; the current workout is the last saved one, or empty when none was saved |
| `Mapty.App.SelectLocation` | script.js:58-62 | the map click puts the selected type and the clicked position into the current workout, which can then be submitted if it was a fresh one |
| `Mapty.App.SwitchType` | script.js:65-70 | changing the type selector sets the current workout's type and keeps its position |
| `Mapty.App.RenderHTMLWorkout` | script.js:122-174 | exactly one list entry is added, for the given workout |
| `Mapty.App.RenderMarker` | script.js:205-211 | exactly one workout is appended at the end with earlier ones unchanged, the whole list (not a delta) is written under the one key, the current workout is reset to empty, and storage then mirrors the list |
| `Mapty.App.LoadSavedWorkouts` | script.js:214-219 | the callback runs once per saved workout in stored order: through the marker callback the session list grows by the saved list and storage is rewritten with the result; through the list callback one entry per saved workout is rendered; nothing happens when nothing was saved |
| `Mapty.App.RenderMap` | script.js:53 | once the map is ready the saved list is appended to the session list and written back; nothing changes when nothing was saved |
| `Mapty.App.RenderActivity` | script.js:75-111 | the submission is accepted iff the acceptance rule holds; a rejected one changes nothing; an accepted one appends the built workout to the list, renders one list entry for it, writes the whole list to storage and resets the current workout |
| `Mapty.App.FindActivity` | script.js:26 | returns the position of the first activity with the clicked id, and `None` iff no activity has it |
| `Mapty.Startup` | script.js:221 | after start-up and the map being ready, the session list and the list entries equal the saved list, storage is unchanged, and storage mirrors the list |
| `Mapty.SaveThenLoad` | script.js:206-209 | reading back the list just written under the key gives that list |
| `Mapty.LoadThenSave` | script.js:14 | writing back the list just read leaves storage unchanged |

## Left out

- The map library: geolocation, the map, tile layer, markers, popups and `flyTo` (script.js:39-55, 58-62, 193-203, 27), including the geolocation failure path; `RenderMap` and `Startup` assume the position request succeeded.
- The page: showing and hiding the form, `setTimeout`, toggling the input rows, clearing the inputs, and the HTML of list entries (script.js:65-70, 103-109, 122-174); a rendered list entry is recorded only as the workout it was for, in rendering order; on the page each entry is inserted right after the form (script.js:173), so the newest entry is shown first.
- The `#date` field (script.js:16, 92): its month and day come in through `Clock`, and the reading of `Date.now()` and of `new Date()` are taken to be the same instant.
- The list-click handler's early return when the click is outside a workout entry (script.js:24-25); only the lookup is modelled.
- JSON text and storage errors: storage holds lists of workouts directly, so an unparseable record and field-order details are not representable.
- Number parsing beyond `NaN` and the empty field: `Infinity`, hexadecimal and other coercion forms, and IEEE double rounding and `toFixed`.
- Mapty.App.RenderActivity: requires a fresh current workout whose type and position are set; the form is visible only after a map click, which sets both, so the code never submits another state.
- Mapty.App.SwitchType: the code's current workout can be the saved object itself (script.js:216), so changing the type before the map is ready changes that saved entry in place; the model copies values and does not capture this aliasing.
- Mapty.App.FindActivity: when no activity has the clicked id the code throws (it reads `.coords` of `undefined`); the model returns `None` for that case instead of an exception.
- The rejection message `alert('please enter a valid numbers')` (script.js:87): `Mapty.App.RenderActivity` returns `accepted == false` in its place.
