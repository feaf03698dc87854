/**
 * The upsell screen (app/upsell.tsx): a ten-minute discount countdown
 * shown as mm:ss, two pages of pitch, and two ways out that both mark the
 * upsell as seen; only buying also sets the AI-bundle flag.
 */
module Upsell {
  import Router
  import Store

  /** The countdown's starting value, in seconds. */
  const CountdownStart: nat := 600

  /** The interval's update: one second less, never below zero. */
  function NextTimeLeft(prev: nat): (next: nat)
    ensures prev > 0 ==> next == prev - 1
    ensures prev == 0 ==> next == 0
    ensures next <= prev
  {
    if prev > 0 then prev - 1 else 0
  }

  /** The countdown after `k` ticks of the interval, from the start value. */
  function TimeLeftAfter(k: nat): nat
  {
    if k == 0 then CountdownStart else NextTimeLeft(TimeLeftAfter(k - 1))
  }

  /** The countdown loses one second per tick for ten minutes and then rests at 0. */
  lemma {:induction false} TimeLeftAfterClosedForm(k: nat)
    ensures TimeLeftAfter(k) == if k <= CountdownStart then CountdownStart - k else 0
  {
    if k > 0 {
      TimeLeftAfterClosedForm(k - 1);
    }
  }

  /** `Math.floor(timeLeft / 60)` and `timeLeft % 60` for a non-negative count. */
  function Minutes(t: nat): (m: nat)
    ensures 60 * m <= t < 60 * m + 60
  {
    t / 60
  }

  function Seconds(t: nat): (sec: nat)
    ensures sec < 60 && 60 * Minutes(t) + sec == t
  {
    t % 60
  }

  /** The split is exact and the seconds part stays below a minute. */
  lemma MinutesSecondsSplit(t: nat)
    ensures Minutes(t) * 60 + Seconds(t) == t
    ensures Seconds(t) < 60
    ensures t <= CountdownStart ==> Minutes(t) <= 10
  {
  }

  /** The decimal digit character for 0..9. */
  function DigitChar(d: nat): (c: char)
    requires d < 10
    ensures '0' <= c <= '9'
  {
    "0123456789"[d]
  }

  /** `String(n)` for a non-negative integer: its decimal digits, without leading zeros. */
  function DecimalString(n: nat): (s: string)
    ensures |s| >= 1
    ensures n < 10 ==> |s| == 1
    ensures 10 <= n < 100 ==> |s| == 2
    ensures n >= 100 ==> |s| >= 3
  {
    if n < 10 then [DigitChar(n)] else DecimalString(n / 10) + [DigitChar(n % 10)]
  }

  /** `s.padStart(width, fill)` */
  function PadStart(s: string, width: nat, fill: char): (r: string)
    ensures |r| == if |s| >= width then |s| else width
    ensures r[|r| - |s|..] == s
    ensures forall k :: 0 <= k < |r| - |s| ==> r[k] == fill
    decreases width - |s|
  {
    if |s| >= width then s else PadStart([fill] + s, width, fill)
  }

  /** `String(n).padStart(2, '0')` */
  function TwoDigits(n: nat): string
  {
    PadStart(DecimalString(n), 2, '0')
  }

  /** The countdown as displayed: padded minutes, a colon, padded seconds. */
  function TimerText(t: nat): string
  {
    TwoDigits(Minutes(t)) + ":" + TwoDigits(Seconds(t))
  }

  /** The value of a decimal digit character. */
  function DigitValue(c: char): int
  {
    c as int - '0' as int
  }

  lemma DigitCharValue(d: nat)
    requires d < 10
    ensures DigitValue(DigitChar(d)) == d
  {
  }

  /** A number below 100 pads to two digits that read back as that number. */
  lemma {:induction false} TwoDigitsRoundTrip(n: nat)
    requires n < 100
    ensures |TwoDigits(n)| == 2
    ensures '0' <= TwoDigits(n)[0] <= '9' && '0' <= TwoDigits(n)[1] <= '9'
    ensures 10 * DigitValue(TwoDigits(n)[0]) + DigitValue(TwoDigits(n)[1]) == n
  {
    var s := TwoDigits(n);
    if n < 10 {
      assert DecimalString(n) == [DigitChar(n)];
      assert PadStart(DecimalString(n), 2, '0') == PadStart(['0', DigitChar(n)], 2, '0');
      assert s == ['0', DigitChar(n)];
      DigitCharValue(n);
    } else {
      assert DecimalString(n / 10) == [DigitChar(n / 10)];
      assert s == DecimalString(n) == [DigitChar(n / 10), DigitChar(n % 10)];
      DigitCharValue(n / 10);
      DigitCharValue(n % 10);
    }
  }

  /** Reads an "mm:ss" text back as a number of seconds. */
  function ParseTimerText(text: string): int
    requires |text| == 5
  {
    (10 * DigitValue(text[0]) + DigitValue(text[1])) * 60 + 10 * DigitValue(text[3]) + DigitValue(text[4])
  }

  /**
   * For every count below 100 minutes (the countdown's 0..600 among them)
   * the text is five characters "mm:ss" and reads back as the count.
   */
  lemma TimerTextRoundTrip(t: nat)
    requires t < 6000
    ensures |TimerText(t)| == 5 && TimerText(t)[2] == ':'
    ensures ParseTimerText(TimerText(t)) == t
  {
    MinutesSecondsSplit(t);
    TwoDigitsRoundTrip(Minutes(t));
    TwoDigitsRoundTrip(Seconds(t));
    ClockTextRoundTrip(TwoDigits(Minutes(t)), TwoDigits(Seconds(t)), Minutes(t), Seconds(t));
  }

  /** Two two-digit texts joined by a colon read back as minutes and seconds. */
  lemma ClockTextRoundTrip(mm: string, ss: string, m: nat, sec: nat)
    requires |mm| == 2 && 10 * DigitValue(mm[0]) + DigitValue(mm[1]) == m
    requires |ss| == 2 && 10 * DigitValue(ss[0]) + DigitValue(ss[1]) == sec
    ensures var text := mm + ":" + ss;
      |text| == 5 && text[2] == ':' && ParseTimerText(text) == m * 60 + sec
  {
    var text := mm + ":" + ss;
    assert text[0] == mm[0] && text[1] == mm[1] && text[2] == ':';
    assert text[3] == ss[0] && text[4] == ss[1];
  }

  /** The first and a late frame of the countdown. */
  lemma TimerTextExamples()
    ensures TimerText(600) == "10:00"
    ensures TimerText(59) == "00:59"
  {
    assert Minutes(600) == 10 && Seconds(600) == 0;
    assert Minutes(59) == 0 && Seconds(59) == 59;
    assert DecimalString(1) == "1";
    assert DecimalString(10) == "10";
    assert DecimalString(5) == "5";
    assert DecimalString(59) == "59";
    assert DecimalString(0) == "0";
    assert PadStart("0", 2, '0') == PadStart("00", 2, '0') == "00";
    assert TwoDigits(0) == "00";
    assert TwoDigits(10) == "10";
    assert TwoDigits(59) == "59";
  }

  datatype Page = Pitch | Offer

  class UpsellScreen {
    const store: Store.AppStore
    var page: Page
    var timeLeft: nat

    constructor (store: Store.AppStore)
      ensures this.store == store
      ensures page == Pitch && timeLeft == CountdownStart
    {
      this.store := store;
      page := Pitch;
      timeLeft := CountdownStart;
    }

    /** One second of the countdown: never negative, never increasing. */
    method Tick()
      modifies this`timeLeft
      ensures timeLeft == NextTimeLeft(old(timeLeft))
      ensures timeLeft <= old(timeLeft)
    {
      timeLeft := NextTimeLeft(timeLeft);
    }

    /** "Got it" on the first page shows the offer page. */
    method GotIt()
      requires page == Pitch
      modifies this`page
      ensures page == Offer
    {
      page := Offer;
    }

    /** Skip, on either page: mark the upsell seen and go to the main tabs. */
    method Skip() returns (nav: Router.Nav)
      modifies store
      ensures store.State() == old(store.State()).(hasSeenUpsell := true)
      ensures nav == Router.GoTo(Router.Tabs)
    {
      store.MarkUpsellSeen();
      nav := Router.GoTo(Router.Tabs);
    }

    /** Buying, on the offer page: set the bundle flag, mark the upsell seen, go to the tabs. */
    method HandlePurchase() returns (nav: Router.Nav)
      requires page == Offer
      modifies store
      ensures store.State() == old(store.State()).(hasAiBundle := true, hasSeenUpsell := true)
      ensures nav == Router.GoTo(Router.Tabs)
    {
      store.PurchaseAiBundle();
      store.MarkUpsellSeen();
      nav := Router.GoTo(Router.Tabs);
    }
  }
}
