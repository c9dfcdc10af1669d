// Breakpoint-keyed values for the adaptive layout (services/hooks/useResponsive.ts):
// the breakpoint table and `getResponsiveValue`. The React hooks are not modelled.

module Responsive {
  import opened GameTypes

  /** `BreakpointKey`. */
  datatype Breakpoint = Xs | Sm | Md | Lg | Xl

  /** `BREAKPOINTS`: the minimum viewport width of each breakpoint, in pixels. */
  function Width(b: Breakpoint): (w: nat)
    ensures w >= 320
  {
    match b
    case Xs => 320
    case Sm => 480
    case Md => 768
    case Lg => 1024
    case Xl => 1280
  }

  /** The breakpoints from smallest to largest. */
  const Order: seq<Breakpoint> := [Xs, Sm, Md, Lg, Xl]

  /** `order.indexOf(breakpoint)`. */
  function IndexOf(b: Breakpoint): (i: nat)
    ensures i < |Order| && Order[i] == b
  {
    match b
    case Xs => 0
    case Sm => 1
    case Md => 2
    case Lg => 3
    case Xl => 4
  }

  /** The order lists every breakpoint once, by strictly increasing width. */
  lemma BreakpointsIncreasing()
    ensures forall i, j :: 0 <= i < j < |Order| ==> Width(Order[i]) < Width(Order[j])
    ensures forall b :: b in Order
  {
    forall b: Breakpoint
      ensures b in Order
    {
      assert Order[IndexOf(b)] == b;
    }
  }

  /**
   * The value of the nearest breakpoint at or below `Order[i]` that has one
   * (a key holding `undefined` is absent from `values`).
   */
  function Nearest<T>(values: map<Breakpoint, T>, i: int): (r: Option<T>)
    requires i < |Order|
    ensures r.None? <==> forall j :: 0 <= j <= i ==> Order[j] !in values
    ensures r.Some? ==> exists j :: 0 <= j <= i && Order[j] in values && values[Order[j]] == r.value &&
                                   forall k :: j < k <= i ==> Order[k] !in values
    decreases i
  {
    if i < 0 then None
    else if Order[i] in values then Some(values[Order[i]])
    else Nearest(values, i - 1)
  }

  /** `getResponsiveValue`: the downward search from the current breakpoint. */
  method GetResponsiveValue<T>(values: map<Breakpoint, T>, breakpoint: Breakpoint) returns (r: Option<T>)
    ensures r == Nearest(values, IndexOf(breakpoint))
  {
    var order := [Xs, Sm, Md, Lg, Xl];
    var currentIndex := IndexOf(breakpoint);
    var i: int := currentIndex;
    while i >= 0
      invariant -1 <= i <= currentIndex
      invariant Nearest(values, currentIndex) == Nearest(values, i)
      decreases i
    {
      var key := order[i];
      if key in values {
        return Some(values[key]);
      }
      i := i - 1;
    }
    return None;
  }

  /** A value given for the current breakpoint is the one used. */
  lemma ExactHit<T>(values: map<Breakpoint, T>, b: Breakpoint)
    requires b in values
    ensures Nearest(values, IndexOf(b)) == Some(values[b])
  {
  }

  /**
   * A value found comes from a breakpoint no wider than the current one, and
   * from the widest such breakpoint that has a value.
   */
  lemma {:induction false} NeverAbove<T>(values: map<Breakpoint, T>, b: Breakpoint)
    requires Nearest(values, IndexOf(b)).Some?
    ensures exists c :: c in values && Width(c) <= Width(b) && values[c] == Nearest(values, IndexOf(b)).value &&
                        forall d :: d in values && Width(d) <= Width(b) ==> Width(d) <= Width(c)
  {
    BreakpointsIncreasing();
    var i := IndexOf(b);
    var v := Nearest(values, i).value;
    var j :| 0 <= j <= i && Order[j] in values && values[Order[j]] == v && forall k :: j < k <= i ==> Order[k] !in values;
    var c := Order[j];
    forall d | d in values && Width(d) <= Width(b)
      ensures Width(d) <= Width(c)
    {
      var k := IndexOf(d);
      if k < j {
        assert Width(Order[k]) < Width(Order[j]);
      }
    }
  }

  /** Nothing is found exactly when no breakpoint at or below the current one has a value. */
  lemma NothingBelow<T>(values: map<Breakpoint, T>, b: Breakpoint)
    ensures Nearest(values, IndexOf(b)).None? <==> forall c :: c in values ==> Width(c) > Width(b)
  {
    BreakpointsIncreasing();
    if Nearest(values, IndexOf(b)).None? {
      forall c | c in values
        ensures Width(c) > Width(b)
      {
        var k := IndexOf(c);
        assert Order[k] in values;
      }
    } else {
      var j :| 0 <= j <= IndexOf(b) && Order[j] in values;
      if j < IndexOf(b) {
        assert Width(Order[j]) < Width(Order[IndexOf(b)]);
      }
    }
  }
}
