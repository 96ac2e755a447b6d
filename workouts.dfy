/** The workout record and how a submitted form becomes one: the acceptance
    rule, the id taken from the clock, the month-name table and the derived
    pace and speed. */
module Workouts {
  import opened Wrappers
  import opened Validation

  /** The activity type a running workout carries; every other type is
      treated as cycling. */
  const Running := "running"

  /** The `#months` table, indexed by `Date.getMonth()`. */
  const Months: seq<string> :=
    ["January", "February", "March", "April", "May", "June", "July",
     "August", "September", "October", "November", "December"]

  /** The table holds twelve different names, from January to December. */
  lemma MonthNames()
    ensures |Months| == 12
    ensures Months[0] == "January" && Months[11] == "December"
    ensures forall i, j :: 0 <= i < j < |Months| ==> Months[i] != Months[j]
  {
  }

  /** What `Date.getMonth()` and `Date.getDate()` can return. */
  type MonthIndex = m: int | 0 <= m < 12
  type DayOfMonth = d: int | 1 <= d <= 31 witness 1

  /** The clock readings a submission uses: `Date.now()` in milliseconds and
      the month and day of `new Date()`. */
  datatype Clock = Clock(now: nat, month: MonthIndex, day: DayOfMonth)

  /** A map position, `[lat, lng]`. */
  datatype Coords = Coords(lat: real, lng: real)

  /** The numbers a submitted form reads as. */
  datatype Form = Form(distance: Number, duration: Number, cadence: Number, elevation: Number)

  /** The type-specific part of a workout. */
  datatype Metric =
    | Run(cadence: real, pace: real)
    | Ride(elevation: real, speed: real)

  /** One workout, as pushed onto the activity list and saved. `kind` is the
      record's `type` field (a reserved word here). */
  datatype Workout = Workout(
    id: string,
    kind: string,
    coords: Coords,
    month: string,
    day: int,
    distance: real,
    duration: real,
    metric: Metric)

  /** The acceptance rule of the submit handler: distance and duration go to
      the positivity check together with the cadence for running, or with the
      boolean result of the numeric guard on the elevation otherwise. */
  function Accepts(kind: string, form: Form): (ok: bool)
    ensures ok <==>
      AtLeastOne(form.distance) && AtLeastOne(form.duration) &&
      (if kind == Running then AtLeastOne(form.cadence) else form.elevation.Some?)
  {
    var third := if kind == Running then Field(form.cadence)
                 else Flag(CheckInputsAll([form.elevation]));
    var args := [Field(form.distance), Field(form.duration), third];
    assert Plus(args[0]) == form.distance && Plus(args[1]) == form.duration;
    assert Plus(args[2]) == Plus(third);
    CheckInputsPositive(args)
  }

  /** The character of a decimal digit. */
  function Digit(d: int): (c: char)
    requires 0 <= d < 10
    ensures '0' <= c <= '9'
  {
    (48 + d) as char
  }

  /** `n + ''`: the decimal text of a natural number, without leading zeros. */
  function Decimal(n: nat): (s: string)
    ensures |s| >= 1
    ensures forall i :: 0 <= i < |s| ==> '0' <= s[i] <= '9'
  {
    if n < 10 then [Digit(n)] else Decimal(n / 10) + [Digit(n % 10)]
  }

  function Pow10(k: nat): (p: nat)
    ensures p >= 1
  {
    if k == 0 then 1 else 10 * Pow10(k - 1)
  }

  /** A workout id: `(Date.now() + '').slice(0, 12)`, the first twelve
      characters of the timestamp's decimal text (all of it when shorter). */
  function Id(now: nat): (id: string)
    ensures |id| <= 12
    ensures |id| == if |Decimal(now)| < 12 then |Decimal(now)| else 12
    ensures id <= Decimal(now)
    ensures forall i :: 0 <= i < |id| ==> '0' <= id[i] <= '9'
  {
    var s := Decimal(now);
    s[..if |s| < 12 then |s| else 12]
  }

  /** `duration / distance`, minutes per kilometre. */
  function Pace(distance: real, duration: real): (pace: real)
    requires distance >= 1.0 && duration >= 1.0
    ensures pace > 0.0 && pace * distance == duration
  {
    duration / distance
  }

  /** `distance / (duration / 60)`, kilometres per hour. */
  function Speed(distance: real, duration: real): (speed: real)
    requires distance >= 1.0 && duration >= 1.0
    ensures speed > 0.0 && speed * duration == 60.0 * distance
  {
    distance / (duration / 60.0)
  }

  /** `#runningObject`: the cadence as entered and the pace derived from it. */
  function RunningObject(cadence: real, distance: real, duration: real): (m: Metric)
    requires distance >= 1.0 && duration >= 1.0
    ensures m.Run? && m.cadence == cadence
    ensures m.pace > 0.0 && m.pace * distance == duration
  {
    Run(cadence, Pace(distance, duration))
  }

  /** `#cyclingObject`: the elevation as entered and the speed derived from it. */
  function CyclingObject(elevation: real, distance: real, duration: real): (m: Metric)
    requires distance >= 1.0 && duration >= 1.0
    ensures m.Ride? && m.elevation == elevation
    ensures m.speed > 0.0 && m.speed * duration == 60.0 * distance
  {
    Ride(elevation, Speed(distance, duration))
  }

  /** What every workout built from an accepted form satisfies. */
  predicate WellFormed(w: Workout)
  {
    && |w.id| <= 12
    && w.month in Months
    && 1 <= w.day <= 31
    && w.distance >= 1.0 && w.duration >= 1.0
    && (w.kind == Running <==> w.metric.Run?)
    && (w.metric.Run? ==> w.metric.cadence >= 1.0 && w.metric.pace * w.distance == w.duration)
    && (w.metric.Ride? ==> w.metric.speed * w.duration == 60.0 * w.distance)
  }

  /** The record the submit handler builds once the form is accepted. The
      distance, duration and type-specific input are stored as entered; the
      derived field is defined because the acceptance rule already holds. */
  function Build(kind: string, coords: Coords, form: Form, clock: Clock): (w: Workout)
    requires Accepts(kind, form)
    ensures WellFormed(w)
    ensures w.id == Id(clock.now) && w.month == Months[clock.month] && w.day == clock.day
    ensures w.kind == kind && w.coords == coords
    ensures w.distance == form.distance.value && w.duration == form.duration.value
    ensures kind == Running ==> w.metric.cadence == form.cadence.value
    ensures kind != Running ==> w.metric.elevation == form.elevation.value
  {
    var distance := form.distance.value;
    var duration := form.duration.value;
    var metric := if kind == Running then RunningObject(form.cadence.value, distance, duration)
                  else CyclingObject(form.elevation.value, distance, duration);
    Workout(Id(clock.now), kind, coords, Months[clock.month], clock.day, distance, duration, metric)
  }

  /** Pace (min/km) and speed (km/h) of the same workout are reciprocal up to
      the factor 60. */
  lemma PaceSpeedReciprocal(distance: real, duration: real)
    requires distance >= 1.0 && duration >= 1.0
    ensures Pace(distance, duration) * Speed(distance, duration) == 60.0
  {
  }

  /** The decimal text of n with k + 1 digits has length k + 1. */
  lemma {:induction false} DecimalLength(n: nat, k: nat)
    requires Pow10(k) <= n < Pow10(k + 1)
    ensures |Decimal(n)| == k + 1
  {
    if k > 0 {
      assert Pow10(k) == 10 * Pow10(k - 1);
      DecimalLength(n / 10, k - 1);
    }
  }

  /** Different numbers have different decimal texts. */
  lemma {:induction false} DecimalInjective(a: nat, b: nat)
    requires Decimal(a) == Decimal(b)
    ensures a == b
  {
    if a >= 10 && b >= 10 {
      var sa, sb := Decimal(a), Decimal(b);
      assert sa[..|sa| - 1] == Decimal(a / 10);
      assert sb[..|sb| - 1] == Decimal(b / 10);
      DecimalInjective(a / 10, b / 10);
    }
  }

  /** The range of thirteen-digit millisecond clocks (September 2001 to
      November 2286). */
  const FirstClock: nat := 1_000_000_000_000
  const EndClock: nat := 10_000_000_000_000

  /** A present-day millisecond clock has thirteen digits; its id drops the
      last one, so the id is twelve digits long and is the decimal text of the
      clock in units of 10 ms. */
  lemma IdOfMillisecondClock(now: nat)
    requires FirstClock <= now < EndClock
    ensures |Id(now)| == 12
    ensures Id(now) == Decimal(now / 10)
  {
    assert Pow10(12) == FirstClock && Pow10(13) == EndClock;
    DecimalLength(now, 12);
    DecimalLength(now / 10, 11);
  }

  /** Two submissions get the same id exactly when their clocks agree to
      within the same 10 ms slot: ids are not unique. */
  lemma IdsCoincide(a: nat, b: nat)
    requires FirstClock <= a < EndClock && FirstClock <= b < EndClock
    ensures Id(a) == Id(b) <==> a / 10 == b / 10
  {
    IdOfMillisecondClock(a);
    IdOfMillisecondClock(b);
    if Id(a) == Id(b) {
      DecimalInjective(a / 10, b / 10);
    }
  }

  /** The end-to-end examples: a 5 km, 30 min run at cadence 150 has pace 6,
      and a 20 km, 60 min ride with elevation -30 has speed 20 and keeps its
      negative elevation. A cycling form whose elevation is not a number is
      rejected, while an empty elevation field reads as 0 and is accepted. */
  lemma Examples(coords: Coords, clock: Clock)
    ensures Accepts(Running, Form(Some(5.0), Some(30.0), Some(150.0), None))
    ensures Build(Running, coords, Form(Some(5.0), Some(30.0), Some(150.0), None), clock).metric
            == Run(150.0, 6.0)
    ensures Accepts("cycling", Form(Some(20.0), Some(60.0), None, Some(-30.0)))
    ensures Build("cycling", coords, Form(Some(20.0), Some(60.0), None, Some(-30.0)), clock).metric
            == Ride(-30.0, 20.0)
    ensures !Accepts(Running, Form(Some(0.0), Some(30.0), Some(150.0), None))
    ensures !Accepts("cycling", Form(Some(20.0), Some(60.0), Some(150.0), None))
    ensures Accepts("cycling", Form(Some(20.0), Some(60.0), None, Some(0.0)))
    ensures Build("cycling", coords, Form(Some(20.0), Some(60.0), None, Some(0.0)), clock).metric
            == Ride(0.0, 20.0)
  {
  }
}
