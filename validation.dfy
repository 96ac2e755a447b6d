/** The two input checks of the workout form (`#checkInputsPositive` and
    `#checkInputsAll`). Form fields hold text; both checks read each input as
    a JavaScript number, so a field is modelled directly by that number. */
module Validation {
  import opened Wrappers

  /** The number a form field reads as: `None` is `NaN` (text that does not
      parse), `Some(x)` a finite number. An empty field reads as `Some(0.0)`. */
  type Number = Option<real>

  /** An argument handed to `#checkInputsPositive`: the value of a form field
      or, for cycling, the boolean that `#checkInputsAll` returned. */
  datatype Arg = Field(n: Number) | Flag(b: bool)

  /** Unary `+`: a field keeps its number; `true` reads as 1 and `false` as 0. */
  function Plus(a: Arg): (n: Number)
    ensures a.Field? ==> n == a.n
    ensures a.Flag? ==> n.Some? && (n.value >= 1.0 <==> a.b)
  {
    match a
    case Field(x) => x
    case Flag(b) => Some(if b then 1.0 else 0.0)
  }

  /** `n >= 1`; every comparison with `NaN` is false. */
  predicate AtLeastOne(n: Number)
  {
    n.Some? && n.value >= 1.0
  }

  /** `Math.abs`: `NaN` stays `NaN`, a number loses its sign. */
  function Abs(n: Number): (r: Number)
    ensures r.Some? <==> n.Some?
    ensures r.Some? ==> r.value >= 0.0 && (r.value == n.value || r.value == -n.value)
  {
    match n
    case None => None
    case Some(x) => Some(if x < 0.0 then -x else x)
  }

  /** `n >= 0`; false for `NaN`. */
  predicate NonNegative(n: Number)
  {
    n.Some? && n.value >= 0.0
  }

  /** `inputs.every(input => +input >= 1)`: every input, read as a number,
      is at least 1. `NaN`, an empty field and `false` all fail. */
  function CheckInputsPositive(inputs: seq<Arg>): (ok: bool)
    ensures ok <==> forall i :: 0 <= i < |inputs| ==> AtLeastOne(Plus(inputs[i]))
  {
    if inputs == [] then true
    else AtLeastOne(Plus(inputs[0])) && CheckInputsPositive(inputs[1..])
  }

  /** `inputs.every(input => Math.abs(input) >= 0)`. Whatever its sign, an
      absolute value is never negative, so the check holds exactly when no
      input is `NaN`: it is a "reads as a number" guard, not a sign check. */
  function CheckInputsAll(inputs: seq<Number>): (ok: bool)
    ensures ok <==> forall i :: 0 <= i < |inputs| ==> inputs[i].Some?
  {
    if inputs == [] then true
    else NonNegative(Abs(inputs[0])) && CheckInputsAll(inputs[1..])
  }

  /** The boundary cases of the positivity check: exactly 1 passes, anything
      below 1 fails, and so do `NaN` and an empty field. */
  lemma PositiveBoundaries(x: real)
    ensures CheckInputsPositive([Field(Some(x))]) <==> x >= 1.0
    ensures !CheckInputsPositive([Field(None)])
    ensures !CheckInputsPositive([Field(Some(0.0))])
    ensures CheckInputsPositive([Field(Some(5.0)), Field(Some(30.0)), Field(Some(12.0))])
    ensures !CheckInputsPositive([Field(Some(5.0)), Field(Some(-1.0)), Field(Some(12.0))])
  {
  }

  /** A boolean passed to the positivity check passes exactly when it is
      `true`, whatever comes before it. */
  lemma FlagDecides(xs: seq<Arg>, b: bool)
    ensures CheckInputsPositive(xs + [Flag(b)]) <==> CheckInputsPositive(xs) && b
  {
    assert forall i :: 0 <= i < |xs| ==> (xs + [Flag(b)])[i] == xs[i];
    assert (xs + [Flag(b)])[|xs|] == Flag(b);
  }

  /** Negative numbers pass the numeric guard; `NaN` does not. */
  lemma NumericGuard(x: real)
    ensures CheckInputsAll([Some(x)])
    ensures CheckInputsAll([Some(-500.0)])
    ensures !CheckInputsAll([None])
  {
  }
}
