/** The session state of the `App` object: the workout being filled in, the
    list of activities of this session, and the browser storage the list is
    saved to. Map, popups and HTML are not modelled; rendering a list entry
    is recorded only as the workout it was rendered for. */
module Mapty {
  import opened Wrappers
  import opened Validation
  import opened Workouts

  /** The one storage key the list is saved under. */
  const StorageKey := "savedWorkouts"

  /** Browser storage with serialisation taken as the identity: each key holds
      a list of workouts. */
  type Storage = map<string, seq<Workout>>

  /** `JSON.parse(localStorage.getItem('savedWorkouts'))` as the replay sees
      it: an absent key gives `null`, which the replay skips like an empty
      list. */
  function SavedIn(storage: Storage): (saved: seq<Workout>)
    ensures StorageKey !in storage ==> saved == []
    ensures StorageKey in storage ==> saved == storage[StorageKey]
  {
    if StorageKey in storage then storage[StorageKey] else []
  }

  /** The `#workOut` object. `Fresh` is an object built from `{}` that the
      type selector and a map click may have filled in; `Loaded` is a saved
      workout that the replay made current. */
  datatype Current =
    | Fresh(kind: Option<string>, coords: Option<Coords>)
    | Loaded(workout: Workout)

  /** `{}` */
  const Blank := Fresh(None, None)

  /** The callbacks `#loadSavedWorkouts` is given: `#renderHTMLWorkout` at
      start-up and `#renderMarker` once the map is ready. */
  datatype Renderer = ListRenderer | MarkerRenderer

  class App {
    /** `#savedActivities`: the list read from storage when the object is
        created; it is never read again. */
    const saved: seq<Workout>
    /** `#activities`: the workouts of this session, in the order added. */
    var activities: seq<Workout>
    /** `#workOut` */
    var current: Current
    /** The browser's storage. */
    var storage: Storage
    /** The workouts a list entry was rendered for, in rendering order. */
    var listed: seq<Workout>

    /** Storage holds exactly the session's list. */
    predicate Mirrored()
      reads this
    {
      SavedIn(storage) == activities
    }

    /** The form can be submitted: a map click has set the type and the
        position of a fresh workout. */
    predicate Located()
      reads this
    {
      current.Fresh? && current.kind.Some? && current.coords.Some?
    }

    /** Field initialisers and the constructor: read the saved list once,
        then replay it into the workout list on the page. */
    constructor (storage: Storage)
      ensures saved == SavedIn(storage) && this.storage == storage
      ensures activities == [] && listed == saved
      ensures current == if saved == [] then Blank else Loaded(saved[|saved| - 1])
    {
      this.saved := SavedIn(storage);
      this.activities := [];
      this.current := Blank;
      this.storage := storage;
      this.listed := [];
      new;
      LoadSavedWorkouts(ListRenderer);
    }

    /** The state part of the map-click handler: the selected type and the
        clicked position go into the current workout. */
    method SelectLocation(kind: string, coords: Coords)
      modifies this`current
      ensures current == match old(current)
                         case Fresh(_, _) => Fresh(Some(kind), Some(coords))
                         case Loaded(w) => Loaded(w.(kind := kind, coords := coords))
      ensures Located() <==> old(current).Fresh?
    {
      match current
      case Fresh(_, _) => current := Fresh(Some(kind), Some(coords));
      case Loaded(w) => current := Loaded(w.(kind := kind, coords := coords));
    }

    /** The state part of `#switchingInputs`: the selected type goes into the
        current workout. */
    method SwitchType(kind: string)
      modifies this`current
      ensures current == match old(current)
                         case Fresh(_, c) => Fresh(Some(kind), c)
                         case Loaded(w) => Loaded(w.(kind := kind))
      ensures old(Located()) ==> Located() && current.coords == old(current).coords
    {
      match current
      case Fresh(_, c) => current := Fresh(Some(kind), c);
      case Loaded(w) => current := Loaded(w.(kind := kind));
    }

    /** `#renderHTMLWorkout`, reduced to the fact that one list entry was
        rendered for `w`. */
    method RenderHTMLWorkout(w: Workout)
      modifies this`listed
      ensures listed == old(listed) + [w]
    {
      listed := listed + [w];
    }

    /** The state part of `#renderMarker`: append the workout, write the
        whole list under the one key, clear the current workout. */
    method RenderMarker(w: Workout)
      modifies this`activities, this`storage, this`current
      ensures activities == old(activities) + [w]
      ensures storage == old(storage)[StorageKey := activities]
      ensures current == Blank
      ensures Mirrored()
    {
      activities := activities + [w];
      storage := storage[StorageKey := activities];
      current := Blank;
    }

    /** `#loadSavedWorkouts`: for each saved workout in order, make it the
        current workout and hand it to the callback. */
    method LoadSavedWorkouts(callback: Renderer)
      modifies this`activities, this`storage, this`current, this`listed
      ensures listed == old(listed) + (if callback == ListRenderer then saved else [])
      ensures activities == old(activities) + (if callback == MarkerRenderer then saved else [])
      ensures storage == if callback == MarkerRenderer && saved != []
                         then old(storage)[StorageKey := activities] else old(storage)
      ensures current == if saved == [] then old(current)
                         else if callback == MarkerRenderer then Blank
                         else Loaded(saved[|saved| - 1])
    {
      var i := 0;
      while i < |saved|
        invariant 0 <= i <= |saved|
        invariant listed == old(listed) + (if callback == ListRenderer then saved[..i] else [])
        invariant activities == old(activities) + (if callback == MarkerRenderer then saved[..i] else [])
        invariant storage == if callback == MarkerRenderer && i > 0
                             then old(storage)[StorageKey := activities] else old(storage)
        invariant current == if i == 0 then old(current)
                             else if callback == MarkerRenderer then Blank
                             else Loaded(saved[i - 1])
      {
        current := Loaded(saved[i]);
        match callback {
          case ListRenderer => RenderHTMLWorkout(saved[i]);
          case MarkerRenderer => RenderMarker(saved[i]);
        }
        i := i + 1;
      }
      assert saved[..|saved|] == saved;
    }

    /** The state part of `#renderMap`: once the map is up, replay the saved
        list through `#renderMarker`. */
    method RenderMap()
      modifies this`activities, this`storage, this`current, this`listed
      ensures activities == old(activities) + saved
      ensures listed == old(listed)
      ensures storage == if saved == [] then old(storage) else old(storage)[StorageKey := activities]
      ensures saved != [] ==> current == Blank
      ensures saved == [] ==> current == old(current)
    {
      LoadSavedWorkouts(MarkerRenderer);
    }

    /** The submit handler `#renderActivity`: validate the form, and only if
        it is accepted build the workout, render its list entry and hand it
        to `#renderMarker`. */
    method RenderActivity(form: Form, clock: Clock) returns (accepted: bool)
      requires Located()
      modifies this`activities, this`storage, this`current, this`listed
      ensures accepted == Accepts(old(current).kind.value, form)
      ensures !accepted ==>
        activities == old(activities) && storage == old(storage) &&
        current == old(current) && listed == old(listed)
      ensures accepted ==>
        var w := Build(old(current).kind.value, old(current).coords.value, form, clock);
        && activities == old(activities) + [w]
        && storage == old(storage)[StorageKey := activities]
        && listed == old(listed) + [w]
        && current == Blank
        && Mirrored()
    {
      var kind := current.kind.value;
      accepted := Accepts(kind, form);
      if !accepted {
        return;
      }
      var w := Build(kind, current.coords.value, form, clock);
      current := Loaded(w);
      RenderHTMLWorkout(w);
      RenderMarker(w);
    }

    /** The list-click lookup: the position of the first activity whose id is
        the clicked id. `None` when no activity has that id (where `find`
        gives `undefined` and reading `.coords` of it throws). */
    method FindActivity(id: string) returns (coords: Option<Coords>)
      ensures coords.None? <==> forall i :: 0 <= i < |activities| ==> activities[i].id != id
      ensures coords.Some? ==>
        exists i :: 0 <= i < |activities| && activities[i].id == id &&
          activities[i].coords == coords.value &&
          forall j :: 0 <= j < i ==> activities[j].id != id
    {
      var i := 0;
      while i < |activities|
        invariant 0 <= i <= |activities|
        invariant forall j :: 0 <= j < i ==> activities[j].id != id
      {
        if activities[i].id == id {
          return Some(activities[i].coords);
        }
        i := i + 1;
      }
      return None;
    }
  }

  /** A session from `new App()` to the map being ready: the saved list is
      rendered, replayed into the activity list and written back unchanged. */
  method Startup(storage: Storage) returns (app: App)
    ensures fresh(app)
    ensures app.activities == SavedIn(storage) && app.listed == SavedIn(storage)
    ensures app.storage == storage
    ensures app.current == Blank
    ensures app.Mirrored()
  {
    app := new App(storage);
    app.RenderMap();
    if app.saved != [] {
      LoadThenSave(storage);
    }
  }

  /** Writing a list and reading it back gives the same list. With
      serialisation taken as the identity, this and the next round trip are
      facts about map update alone. */
  lemma SaveThenLoad(storage: Storage, activities: seq<Workout>)
    ensures SavedIn(storage[StorageKey := activities]) == activities
  {
  }

  /** Reading the list and writing it back leaves storage as it was. */
  lemma LoadThenSave(storage: Storage)
    requires StorageKey in storage
    ensures storage[StorageKey := SavedIn(storage)] == storage
  {
  }

  /** A client of the contracts above: a first run on empty storage, one
      accepted run and one rejected submission. */
  method FirstRun(coords: Coords, clock: Clock)
    requires FirstClock <= clock.now < EndClock
  {
    var app := Startup(map[]);
    app.SelectLocation(Running, coords);
    var ok := app.RenderActivity(Form(Some(5.0), Some(30.0), Some(150.0), Some(0.0)), clock);
    assert ok;
    var w := app.activities[0];
    assert app.activities == [w] && app.storage == map[StorageKey := [w]];
    assert w.metric.pace == 6.0 && w.distance == 5.0;
    IdOfMillisecondClock(clock.now);
    assert |w.id| == 12;
    var found := app.FindActivity(w.id);
    assert found == Some(coords);

    app.SelectLocation("cycling", coords);
    ok := app.RenderActivity(Form(Some(0.0), Some(30.0), Some(0.0), Some(-30.0)), clock);
    assert !ok && app.activities == [w] && app.storage == map[StorageKey := [w]];
  }
}
