/**
 * The results screen (app/results.tsx): a summary with a four-bar chart,
 * then a loading animation whose counter climbs in steps of two and is
 * clamped at 89, then a complete phase that shows 100 and the way on to
 * the paywall. The screen only reads the store's goal; it writes nothing.
 */
module Results {
  import Router

  datatype Phase = Summary | Loading | Complete

  /** The interval's state update: clamp to 89 once at or past 89, else add 2. */
  function NextLoadingProgress(prev: int): (next: int)
    ensures prev >= 89 ==> next == 89
    ensures prev < 89 ==> next == prev + 2
    ensures prev <= 90 ==> next <= 90
  {
    if prev >= 89 then 89 else prev + 2
  }

  /** The counter after `k` ticks of an interval that is never cleared, from 0. */
  function ProgressAfter(k: nat): int
  {
    if k == 0 then 0 else NextLoadingProgress(ProgressAfter(k - 1))
  }

  /** From 0 the counter runs 0, 2, ..., 88, 90 and then stays at 89. */
  lemma {:induction false} ProgressAfterClosedForm(k: nat)
    ensures ProgressAfter(k) == if k <= 44 then 2 * k else if k == 45 then 90 else 89
    ensures ProgressAfter(k) <= 90
  {
    if k > 0 {
      ProgressAfterClosedForm(k - 1);
    }
  }

  /** The colours of the chart's bars. */
  datatype BarColour = Error | Warning | Success

  /** The four bars of the summary chart: growing heights, red then amber then green. */
  function BarHeight(i: nat): (h: nat)
    requires i < 4
  {
    30 + 30 * i
  }

  function BarColourAt(i: nat): BarColour
    requires i < 4
  {
    if i == 0 then Error else if i < 3 then Warning else Success
  }

  /** The chart rises strictly, starts in the error colour and ends in the success colour. */
  lemma ChartShape()
    ensures forall i, j :: 0 <= i < j < 4 ==> BarHeight(i) < BarHeight(j)
    ensures BarHeight(0) == 30 && BarHeight(1) == 60 && BarHeight(2) == 90 && BarHeight(3) == 120
    ensures BarColourAt(0) == Error && BarColourAt(1) == Warning && BarColourAt(2) == Warning
    ensures BarColourAt(3) == Success
  {
  }

  class ResultsScreen {
    var phase: Phase
    var loadingProgress: int
    /** Whether the loading interval is still scheduled. */
    var ticking: bool

    /**
     * The counter is 0 on the summary, at most 90 and even or 89 while
     * loading (the interval stops only at 89), and 100 once complete.
     */
    ghost predicate Valid()
      reads this
    {
      && (phase == Summary ==> loadingProgress == 0 && !ticking)
      && (phase == Loading ==>
            && 0 <= loadingProgress <= 90
            && (loadingProgress % 2 == 0 || loadingProgress == 89)
            && (!ticking ==> loadingProgress == 89))
      && (phase == Complete ==> loadingProgress == 100 && !ticking)
    }

    constructor ()
      ensures Valid()
      ensures phase == Summary && loadingProgress == 0
    {
      phase := Summary;
      loadingProgress := 0;
      ticking := false;
    }

    /** The summary's Continue button starts the loading phase and its interval. */
    method Continue()
      requires Valid() && phase == Summary
      modifies this
      ensures Valid()
      ensures phase == Loading && loadingProgress == 0 && ticking
    {
      phase := Loading;
      ticking := true;
    }

    /** One interval tick; at 89 or above it clamps to 89 and clears the interval. */
    method Tick()
      requires Valid()
      modifies this`loadingProgress, this`ticking
      ensures Valid()
      ensures old(phase == Loading && ticking) ==>
        && loadingProgress == NextLoadingProgress(old(loadingProgress))
        && ticking == (old(loadingProgress) < 89)
      ensures !old(phase == Loading && ticking) ==>
        loadingProgress == old(loadingProgress) && ticking == old(ticking)
      ensures phase == Loading ==> loadingProgress <= 90
    {
      if phase == Loading && ticking {
        if loadingProgress >= 89 {
          ticking := false;
        }
        loadingProgress := NextLoadingProgress(loadingProgress);
      }
    }

    /**
     * The delayed switch to the complete phase, which is scheduled only once
     * the counter has reached 89 while loading; entering it sets the counter
     * to 100 and stops the interval.
     */
    method FinishLoading()
      requires Valid()
      modifies this
      ensures Valid()
      ensures old(phase == Loading && loadingProgress >= 89) ==> phase == Complete && loadingProgress == 100
      ensures !old(phase == Loading && loadingProgress >= 89) ==>
        phase == old(phase) && loadingProgress == old(loadingProgress) && ticking == old(ticking)
    {
      if phase == Loading && loadingProgress >= 89 {
        phase := Complete;
        loadingProgress := 100;
        ticking := false;
      }
    }

    /**
     * "Get started" exists only in the complete phase and leads to the
     * paywall, so the user leaves only once the counter shows 100.
     */
    method GetStarted() returns (nav: Router.Nav)
      requires Valid()
      ensures phase == Complete ==> nav == Router.GoTo(Router.Paywall)
      ensures phase != Complete ==> nav == Router.Stay
      ensures nav != Router.Stay ==> loadingProgress == 100
    {
      nav := if phase == Complete then Router.GoTo(Router.Paywall) else Router.Stay;
    }
  }
}
