/**
 * The start screen's funnel routing (app/index.tsx): the four funnel gates
 * of the store are inspected in a fixed order and the first one that is
 * still false decides where the user is sent.
 */
module Router {

  /** The routes the funnel screens send the user to with `router.replace`. */
  datatype Destination = Onboarding | Results | Paywall | Signup | Upsell | Tabs

  /** What a screen handler does with navigation: stay, or replace the route. */
  datatype Nav = Stay | GoTo(dest: Destination)

  /** The gated screens, in the order the start screen checks their gates. */
  const GateOrder: seq<Destination> := [Onboarding, Paywall, Signup, Upsell]

  /** The if/else-if chain of the start screen's effect. */
  function Route(hasCompletedOnboarding: bool, hasSubscribed: bool,
                 hasSignedUp: bool, hasSeenUpsell: bool): (d: Destination)
    ensures d != Results
    ensures d == Onboarding <==> !hasCompletedOnboarding
    ensures d == Paywall <==> hasCompletedOnboarding && !hasSubscribed
    ensures d == Signup <==> hasCompletedOnboarding && hasSubscribed && !hasSignedUp
    ensures d == Upsell <==> hasCompletedOnboarding && hasSubscribed && hasSignedUp && !hasSeenUpsell
    ensures d == Tabs <==> hasCompletedOnboarding && hasSubscribed && hasSignedUp && hasSeenUpsell
  {
    if !hasCompletedOnboarding then Onboarding
    else if !hasSubscribed then Paywall
    else if !hasSignedUp then Signup
    else if !hasSeenUpsell then Upsell
    else Tabs
  }

  /**
   * Reference definition of the routing rule: scan the gates in order and
   * go to the screen of the first gate that is still closed; when every
   * gate is open, go to the main tabs.
   */
  function FirstClosedGate(gates: seq<bool>, screens: seq<Destination>): Destination
    requires |gates| == |screens|
  {
    if gates == [] then Tabs
    else if !gates[0] then screens[0]
    else FirstClosedGate(gates[1..], screens[1..])
  }

  /** The chain in the source is exactly "first closed gate, in GateOrder". */
  lemma {:induction false} RouteIsFirstClosedGate(a: bool, b: bool, c: bool, d: bool)
    ensures Route(a, b, c, d) == FirstClosedGate([a, b, c, d], GateOrder)
  {
    var gates, screens := [a, b, c, d], GateOrder;
    assert FirstClosedGate(gates[4..], screens[4..]) == Tabs;
    assert FirstClosedGate(gates[3..], screens[3..]) == if d then Tabs else Upsell by {
      assert gates[3..][1..] == gates[4..] && screens[3..][1..] == screens[4..];
    }
    assert FirstClosedGate(gates[2..], screens[2..]) == Route(true, true, c, d) by {
      assert gates[2..][1..] == gates[3..] && screens[2..][1..] == screens[3..];
    }
    assert FirstClosedGate(gates[1..], screens[1..]) == Route(true, b, c, d) by {
      assert gates[1..][1..] == gates[2..] && screens[1..][1..] == screens[2..];
    }
    assert gates[0..] == gates && screens[0..] == screens;
  }

  /**
   * The position of a destination in the funnel: a gated screen's index in
   * GateOrder, and 4 for the main tabs.
   */
  function Stage(d: Destination): (n: nat)
    requires d != Results
    ensures n <= 4
    ensures n < 4 ==> GateOrder[n] == d
  {
    match d
    case Onboarding => 0
    case Paywall => 1
    case Signup => 2
    case Upsell => 3
    case Tabs => 4
  }

  /**
   * Opening a gate never sends the user back to an earlier screen: the
   * route only moves forward in the funnel as gates become true.
   */
  lemma RouteMonotone(a: bool, b: bool, c: bool, d: bool, a': bool, b': bool, c': bool, d': bool)
    requires (a ==> a') && (b ==> b') && (c ==> c') && (d ==> d')
    ensures Stage(Route(a, b, c, d)) <= Stage(Route(a', b', c', d'))
  {
  }

  /** Opening exactly the gate that currently decides the route moves the route forward. */
  lemma OpeningDecidingGateAdvances(a: bool, b: bool, c: bool, d: bool)
    requires Route(a, b, c, d) != Tabs
    ensures var r := Route(a, b, c, d);
      var a', b', c', d' := a || r == Onboarding, b || r == Paywall, c || r == Signup, d || r == Upsell;
      Stage(Route(a', b', c', d')) > Stage(r)
  {
  }
}
