/**
 * The application state store (src/store/useAppStore.ts): one mutable
 * record holding the four funnel gates, the onboarding answers, the
 * profile strings, the AI-bundle flag and two append-only record lists,
 * with the mutators and queries the screens use.
 */
module Store {
  import Router

  /** An onboarding answer: one option text, or the texts picked in a multi-select. */
  datatype Answer = Single(text: string) | Multi(texts: seq<string>)

  /** One completed-lesson record; `completedAt` is an opaque timestamp. */
  datatype LessonRecord = LessonRecord(lessonId: string, completedAt: string)

  /** One discovered-prompt record; `discoveredAt` is an opaque timestamp. */
  datatype PromptRecord = PromptRecord(promptId: string, exerciseId: string, discoveredAt: string)

  /** The only part of a lesson that the progress computation looks at. */
  datatype LessonRef = LessonRef(id: string)

  /** A snapshot of every field of the store. */
  datatype StoreState = StoreState(
    hasCompletedOnboarding: bool,
    hasSubscribed: bool,
    hasSignedUp: bool,
    hasSeenUpsell: bool,
    onboardingAnswers: map<int, Answer>,
    currentOnboardingStep: int,
    userGoal: string,
    dailyTime: string,
    userName: string,
    userEmail: string,
    completedLessons: seq<LessonRecord>,
    discoveredPrompts: seq<PromptRecord>,
    hasAiBundle: bool)

  /** The defaults the store is created with and that `reset` restores. */
  const InitialState := StoreState(
    false, false, false, false, map[], 1, "", "", "", "", [], [], false)

  /** The destination the start screen picks for a store snapshot. */
  function RouteOf(s: StoreState): Router.Destination
  {
    Router.Route(s.hasCompletedOnboarding, s.hasSubscribed, s.hasSignedUp, s.hasSeenUpsell)
  }

  // ---------------------------------------------------------------------
  // Queries over the record lists (pure `some` / `filter` expressions)
  // ---------------------------------------------------------------------

  /** `completedLessons.some(p => p.lessonId === lessonId)` */
  function AnyLessonWithId(records: seq<LessonRecord>, lessonId: string): (b: bool)
    ensures b <==> exists i :: 0 <= i < |records| && records[i].lessonId == lessonId
  {
    if records == [] then false
    else records[0].lessonId == lessonId || AnyLessonWithId(records[1..], lessonId)
  }

  /** `discoveredPrompts.some(p => p.promptId === promptId)` */
  function AnyPromptWithId(records: seq<PromptRecord>, promptId: string): (b: bool)
    ensures b <==> exists i :: 0 <= i < |records| && records[i].promptId == promptId
  {
    if records == [] then false
    else records[0].promptId == promptId || AnyPromptWithId(records[1..], promptId)
  }

  /** `lessons.filter(l => <l.id completed>).length` */
  function CountCompleted(records: seq<LessonRecord>, lessons: seq<LessonRef>): (c: nat)
    ensures c <= |lessons|
    ensures c == |lessons| <==> forall i :: 0 <= i < |lessons| ==> AnyLessonWithId(records, lessons[i].id)
    ensures c == 0 <==> forall i :: 0 <= i < |lessons| ==> !AnyLessonWithId(records, lessons[i].id)
  {
    if lessons == [] then 0
    else
      var rest := CountCompleted(records, lessons[1..]);
      assert forall i :: 1 <= i < |lessons| ==> lessons[i] == lessons[1..][i - 1];
      (if AnyLessonWithId(records, lessons[0].id) then 1 else 0) + rest
  }

  /** The positions in `lessons` of the lessons the records mark as completed. */
  function CompletedPositions(records: seq<LessonRecord>, lessons: seq<LessonRef>): set<int>
  {
    set i | 0 <= i < |lessons| && AnyLessonWithId(records, lessons[i].id)
  }

  /** Counting one more lesson adds one exactly when that lesson is completed. */
  lemma {:induction false} CountCompletedSnoc(records: seq<LessonRecord>, lessons: seq<LessonRef>, l: LessonRef)
    ensures CountCompleted(records, lessons + [l])
      == CountCompleted(records, lessons) + (if AnyLessonWithId(records, l.id) then 1 else 0)
  {
    if lessons == [] {
      assert lessons + [l] == [l];
      assert [l][1..] == [];
    } else {
      assert (lessons + [l])[0] == lessons[0];
      assert (lessons + [l])[1..] == lessons[1..] + [l];
      CountCompletedSnoc(records, lessons[1..], l);
    }
  }

  /** Extending the list by one lesson adds its position exactly when it is completed. */
  lemma PositionsSnoc(records: seq<LessonRecord>, front: seq<LessonRef>, last: LessonRef)
    ensures CompletedPositions(records, front + [last])
      == CompletedPositions(records, front) + (if AnyLessonWithId(records, last.id) then {|front|} else {})
  {
    var lessons := front + [last];
    var p, q := CompletedPositions(records, front), CompletedPositions(records, lessons);
    var extra := if AnyLessonWithId(records, last.id) then {|front|} else {};
    forall i | i in q ensures i in p + extra {
      if i < |front| { assert front[i] == lessons[i]; }
    }
    forall i | i in p + extra ensures i in q {
      if i < |front| { assert front[i] == lessons[i]; }
    }
  }

  /** The filtered count is the number of positions holding a completed lesson. */
  lemma {:induction false} CountCompletedIsCardinality(records: seq<LessonRecord>, lessons: seq<LessonRef>)
    ensures CountCompleted(records, lessons) == |CompletedPositions(records, lessons)|
    decreases |lessons|
  {
    if lessons == [] {
      assert CompletedPositions(records, lessons) == {};
    } else {
      var front, last := lessons[..|lessons| - 1], lessons[|lessons| - 1];
      assert lessons == front + [last];
      CountCompletedSnoc(records, front, last);
      CountCompletedIsCardinality(records, front);
      PositionsSnoc(records, front, last);
      assert |front| !in CompletedPositions(records, front);
    }
  }

  /**
   * `Math.round((c / n) * 100)` for 0 <= c <= n, n > 0, in exact integer
   * arithmetic: the integer nearest to 100c/n, halves rounded up.
   */
  function RoundedPercent(c: nat, n: nat): (r: nat)
    requires 0 < n && c <= n
    ensures r <= 100
    ensures 2 * n * r <= 200 * c + n < 2 * n * (r + 1)
  {
    RoundedPercentBounds(c, n);
    (200 * c + n) / (2 * n)
  }

  lemma RoundedPercentBounds(c: nat, n: nat)
    requires 0 < n && c <= n
    ensures var r := (200 * c + n) / (2 * n);
      r <= 100 && 2 * n * r <= 200 * c + n < 2 * n * (r + 1)
  {
    var r := (200 * c + n) / (2 * n);
    DivBounds(200 * c + n, 2 * n);
    assert 200 * c + n <= 2 * n * 101 - 1 by { assert c <= n; }
    if r > 100 {
      assert 2 * n * r >= 2 * n * 101 by { MulMono(2 * n, 101, r); }
      assert false;
    }
  }

  lemma DivBounds(a: nat, b: nat)
    requires b > 0
    ensures b * (a / b) <= a < b * (a / b + 1)
  {
  }

  lemma DivMono(a: nat, a': nat, b: nat)
    requires a <= a' && b > 0
    ensures a / b <= a' / b
  {
    DivBounds(a, b);
    DivBounds(a', b);
    if a / b > a' / b {
      MulMono(b, a' / b + 1, a / b);
      assert false;
    }
  }

  lemma MulMono(k: nat, x: nat, y: nat)
    requires x <= y
    ensures k * x <= k * y
  {
  }

  /**
   * `getLessonProgress(courseId, lessons)`: the rounded share of `lessons`
   * whose id appears among the completed-lesson records, or 0 for an empty
   * list. The course id is accepted and ignored.
   */
  function LessonProgress(records: seq<LessonRecord>, courseId: string, lessons: seq<LessonRef>): (r: nat)
    ensures r <= 100
    ensures lessons == [] ==> r == 0
    ensures lessons != [] ==>
      var c := CountCompleted(records, lessons);
      2 * |lessons| * r <= 200 * c + |lessons| < 2 * |lessons| * (r + 1)
    ensures lessons != [] && (forall i :: 0 <= i < |lessons| ==> AnyLessonWithId(records, lessons[i].id)) ==> r == 100
    ensures r == 100 && |lessons| < 200 ==> forall i :: 0 <= i < |lessons| ==> AnyLessonWithId(records, lessons[i].id)
  {
    var c := CountCompleted(records, lessons);
    if |lessons| > 0 then
      FullWhenAllDone(c, |lessons|);
      RoundedPercent(c, |lessons|)
    else 0
  }

  /**
   * A complete list gives exactly 100; an incomplete list of fewer than 200
   * lessons stays below 100 (from 200 lessons on, one missing lesson is at
   * most half a percent and rounds up to 100).
   */
  lemma FullWhenAllDone(c: nat, n: nat)
    requires 0 < n && c <= n
    ensures c == n ==> RoundedPercent(c, n) == 100
    ensures c < n < 200 ==> RoundedPercent(c, n) < 100
  {
    var r := RoundedPercent(c, n);
    if c < n < 200 && r == 100 {
      assert false;
    }
  }

  // ---------------------------------------------------------------------
  // Properties of the record queries and the progress computation
  // ---------------------------------------------------------------------

  /** Appending a record makes its lesson completed and keeps every other answer. */
  lemma CompletedAfterAppend(records: seq<LessonRecord>, r: LessonRecord, id: string)
    ensures AnyLessonWithId(records + [r], id) <==> AnyLessonWithId(records, id) || r.lessonId == id
  {
    var s := records + [r];
    if AnyLessonWithId(records, id) {
      var i :| 0 <= i < |records| && records[i].lessonId == id;
      assert s[i] == records[i];
    }
    if AnyLessonWithId(s, id) {
      var i :| 0 <= i < |s| && s[i].lessonId == id;
      if i < |records| { assert s[i] == records[i]; }
    }
    assert s[|records|] == r;
  }

  /** The same for prompt records. */
  lemma DiscoveredAfterAppend(records: seq<PromptRecord>, r: PromptRecord, id: string)
    ensures AnyPromptWithId(records + [r], id) <==> AnyPromptWithId(records, id) || r.promptId == id
  {
    var s := records + [r];
    if AnyPromptWithId(records, id) {
      var i :| 0 <= i < |records| && records[i].promptId == id;
      assert s[i] == records[i];
    }
    if AnyPromptWithId(s, id) {
      var i :| 0 <= i < |s| && s[i].promptId == id;
      if i < |records| { assert s[i] == records[i]; }
    }
    assert s[|records|] == r;
  }

  /** Appending a record never lowers the completed count of a lesson list. */
  lemma {:induction false} CountCompletedGrows(records: seq<LessonRecord>, r: LessonRecord, lessons: seq<LessonRef>)
    ensures CountCompleted(records, lessons) <= CountCompleted(records + [r], lessons)
  {
    if lessons != [] {
      CountCompletedGrows(records, r, lessons[1..]);
      CompletedAfterAppend(records, r, lessons[0].id);
    }
  }

  /** Rounding is monotone in the numerator. */
  lemma RoundedPercentMonotone(c: nat, c': nat, n: nat)
    requires 0 < n && c <= c' <= n
    ensures RoundedPercent(c, n) <= RoundedPercent(c', n)
  {
    DivMono(200 * c + n, 200 * c' + n, 2 * n);
  }

  /** Completing a lesson never lowers any course's progress. */
  lemma ProgressNeverDecreases(records: seq<LessonRecord>, r: LessonRecord, courseId: string, lessons: seq<LessonRef>)
    ensures LessonProgress(records, courseId, lessons) <= LessonProgress(records + [r], courseId, lessons)
  {
    if lessons != [] {
      CountCompletedGrows(records, r, lessons);
      RoundedPercentMonotone(CountCompleted(records, lessons), CountCompleted(records + [r], lessons), |lessons|);
    }
  }

  /** The course id plays no part in the result. */
  lemma ProgressIgnoresCourse(records: seq<LessonRecord>, courseA: string, courseB: string, lessons: seq<LessonRef>)
    ensures LessonProgress(records, courseA, lessons) == LessonProgress(records, courseB, lessons)
  {
  }

  /** Two of four lessons completed gives 50; one of three gives 33. */
  lemma ProgressExamples()
    ensures var done := [LessonRecord("l1", "t1"), LessonRecord("l2", "t2")];
      LessonProgress(done, "course-1", [LessonRef("l1"), LessonRef("l2"), LessonRef("l3"), LessonRef("l4")]) == 50
    ensures LessonProgress([LessonRecord("l1", "t1")], "course-1", [LessonRef("l1"), LessonRef("l2"), LessonRef("l3")]) == 33
  {
    var done := [LessonRecord("l1", "t1"), LessonRecord("l2", "t2")];
    var four := [LessonRef("l1"), LessonRef("l2"), LessonRef("l3"), LessonRef("l4")];
    assert AnyLessonWithId(done, "l1") && AnyLessonWithId(done, "l2") by {
      assert done[0].lessonId == "l1" && done[1].lessonId == "l2";
    }
    assert !AnyLessonWithId(done, "l3") && !AnyLessonWithId(done, "l4");
    assert four[1..][1..][1..][1..] == [];
    assert CountCompleted(done, four[1..][1..]) == 0;
    assert CountCompleted(done, four) == 2;

    var one := [LessonRecord("l1", "t1")];
    var three := [LessonRef("l1"), LessonRef("l2"), LessonRef("l3")];
    assert AnyLessonWithId(one, "l1") by { assert one[0].lessonId == "l1"; }
    assert !AnyLessonWithId(one, "l2") && !AnyLessonWithId(one, "l3");
    assert three[1..][1..][1..] == [];
    assert CountCompleted(one, three[1..]) == 0;
    assert CountCompleted(one, three) == 1;
  }

  // ---------------------------------------------------------------------
  // Last write wins for onboarding answers
  // ---------------------------------------------------------------------

  /** The answer map after a sequence of `setOnboardingAnswer` calls. */
  function ApplyAnswers(m: map<int, Answer>, writes: seq<(int, Answer)>): map<int, Answer>
    decreases |writes|
  {
    if writes == [] then m
    else ApplyAnswers(m[writes[0].0 := writes[0].1], writes[1..])
  }

  /**
   * After a sequence of writes, a step holds the answer of the last write
   * to that step, whatever was written to other steps in between.
   */
  lemma {:induction false} LastWriteWins(m: map<int, Answer>, writes: seq<(int, Answer)>, k: nat)
    requires k < |writes|
    requires forall j :: k < j < |writes| ==> writes[j].0 != writes[k].0
    ensures writes[k].0 in ApplyAnswers(m, writes)
    ensures ApplyAnswers(m, writes)[writes[k].0] == writes[k].1
    decreases |writes|
  {
    if k == 0 {
      UntouchedKeyKept(m[writes[0].0 := writes[0].1], writes[1..], writes[0].0);
    } else {
      LastWriteWins(m[writes[0].0 := writes[0].1], writes[1..], k - 1);
    }
  }

  /** A step no write mentions keeps its entry (or its absence). */
  lemma {:induction false} UntouchedKeyKept(m: map<int, Answer>, writes: seq<(int, Answer)>, step: int)
    requires forall j :: 0 <= j < |writes| ==> writes[j].0 != step
    ensures step in ApplyAnswers(m, writes) <==> step in m
    ensures step in m ==> ApplyAnswers(m, writes)[step] == m[step]
    decreases |writes|
  {
    if writes != [] {
      UntouchedKeyKept(m[writes[0].0 := writes[0].1], writes[1..], step);
    }
  }

  // ---------------------------------------------------------------------
  // The store itself
  // ---------------------------------------------------------------------

  /** The mutable store that every screen shares. */
  class AppStore {
    var hasCompletedOnboarding: bool
    var hasSubscribed: bool
    var hasSignedUp: bool
    var hasSeenUpsell: bool
    var onboardingAnswers: map<int, Answer>
    var currentOnboardingStep: int
    var userGoal: string
    var dailyTime: string
    var userName: string
    var userEmail: string
    var completedLessons: seq<LessonRecord>
    var discoveredPrompts: seq<PromptRecord>
    var hasAiBundle: bool

    /** Every field, as one value. */
    function State(): StoreState
      reads this
    {
      StoreState(hasCompletedOnboarding, hasSubscribed, hasSignedUp, hasSeenUpsell,
                 onboardingAnswers, currentOnboardingStep, userGoal, dailyTime,
                 userName, userEmail, completedLessons, discoveredPrompts, hasAiBundle)
    }

    /** The store starts from `initialState`. */
    constructor ()
      ensures State() == InitialState
    {
      hasCompletedOnboarding, hasSubscribed, hasSignedUp, hasSeenUpsell := false, false, false, false;
      onboardingAnswers, currentOnboardingStep := map[], 1;
      userGoal, dailyTime, userName, userEmail := "", "", "", "";
      completedLessons, discoveredPrompts := [], [];
      hasAiBundle := false;
    }

    method SetOnboardingAnswer(step: int, answer: Answer)
      modifies this
      ensures onboardingAnswers == old(onboardingAnswers)[step := answer]
      ensures State() == old(State()).(onboardingAnswers := onboardingAnswers)
    {
      onboardingAnswers := onboardingAnswers[step := answer];
    }

    method SetCurrentOnboardingStep(step: int)
      modifies this
      ensures State() == old(State()).(currentOnboardingStep := step)
    {
      currentOnboardingStep := step;
    }

    method CompleteOnboarding()
      modifies this
      ensures State() == old(State()).(hasCompletedOnboarding := true)
    {
      hasCompletedOnboarding := true;
    }

    method SetUserGoal(goal: string)
      modifies this
      ensures State() == old(State()).(userGoal := goal)
    {
      userGoal := goal;
    }

    method SetDailyTime(time: string)
      modifies this
      ensures State() == old(State()).(dailyTime := time)
    {
      dailyTime := time;
    }

    method Subscribe()
      modifies this
      ensures State() == old(State()).(hasSubscribed := true)
    {
      hasSubscribed := true;
    }

    /** Sets the gate and both profile fields in one update. */
    method SignUp(name: string, email: string)
      modifies this
      ensures State() == old(State()).(hasSignedUp := true, userName := name, userEmail := email)
    {
      hasSignedUp, userName, userEmail := true, name, email;
    }

    method MarkUpsellSeen()
      modifies this
      ensures State() == old(State()).(hasSeenUpsell := true)
    {
      hasSeenUpsell := true;
    }

    method PurchaseAiBundle()
      modifies this
      ensures State() == old(State()).(hasAiBundle := true)
    {
      hasAiBundle := true;
    }

    /** Appends one record, even when the lesson is already completed. */
    method CompleteLesson(lessonId: string, now: string)
      modifies this
      ensures completedLessons == old(completedLessons) + [LessonRecord(lessonId, now)]
      ensures State() == old(State()).(completedLessons := completedLessons)
      ensures IsLessonCompleted(lessonId)
      ensures forall id :: old(IsLessonCompleted(id)) ==> IsLessonCompleted(id)
    {
      completedLessons := completedLessons + [LessonRecord(lessonId, now)];
      CompletedAfterAppend(old(completedLessons), LessonRecord(lessonId, now), lessonId);
      forall id | old(IsLessonCompleted(id)) ensures IsLessonCompleted(id) {
        CompletedAfterAppend(old(completedLessons), LessonRecord(lessonId, now), id);
      }
    }

    function IsLessonCompleted(lessonId: string): (b: bool)
      reads this
      ensures b <==> exists i :: 0 <= i < |completedLessons| && completedLessons[i].lessonId == lessonId
    {
      AnyLessonWithId(completedLessons, lessonId)
    }

    /** Appends one record; the exercise id is stored and never consulted. */
    method DiscoverPrompt(promptId: string, exerciseId: string, now: string)
      modifies this
      ensures discoveredPrompts == old(discoveredPrompts) + [PromptRecord(promptId, exerciseId, now)]
      ensures State() == old(State()).(discoveredPrompts := discoveredPrompts)
      ensures IsPromptDiscovered(promptId)
      ensures forall id :: old(IsPromptDiscovered(id)) ==> IsPromptDiscovered(id)
    {
      discoveredPrompts := discoveredPrompts + [PromptRecord(promptId, exerciseId, now)];
      DiscoveredAfterAppend(old(discoveredPrompts), PromptRecord(promptId, exerciseId, now), promptId);
      forall id | old(IsPromptDiscovered(id)) ensures IsPromptDiscovered(id) {
        DiscoveredAfterAppend(old(discoveredPrompts), PromptRecord(promptId, exerciseId, now), id);
      }
    }

    function IsPromptDiscovered(promptId: string): (b: bool)
      reads this
      ensures b <==> exists i :: 0 <= i < |discoveredPrompts| && discoveredPrompts[i].promptId == promptId
    {
      AnyPromptWithId(discoveredPrompts, promptId)
    }

    function GetLessonProgress(courseId: string, lessons: seq<LessonRef>): (r: nat)
      reads this
      ensures r <= 100
      ensures lessons == [] ==> r == 0
      ensures lessons != [] && (forall i :: 0 <= i < |lessons| ==> IsLessonCompleted(lessons[i].id)) ==> r == 100
    {
      LessonProgress(completedLessons, courseId, lessons)
    }

    /** Restores every field to its default, from any state. */
    method Reset()
      modifies this
      ensures State() == InitialState
    {
      hasCompletedOnboarding, hasSubscribed, hasSignedUp, hasSeenUpsell := false, false, false, false;
      onboardingAnswers, currentOnboardingStep := map[], 1;
      userGoal, dailyTime, userName, userEmail := "", "", "", "";
      completedLessons, discoveredPrompts := [], [];
      hasAiBundle := false;
    }
  }

  /** A reset store has every gate closed and routes to onboarding. */
  lemma InitialRoutesToOnboarding()
    ensures RouteOf(InitialState) == Router.Onboarding
    ensures forall id :: !AnyLessonWithId(InitialState.completedLessons, id)
    ensures forall id :: !AnyPromptWithId(InitialState.discoveredPrompts, id)
  {
  }

  /** The route depends only on the four gates, not on the bundle flag or the profile. */
  lemma RouteIgnoresProfile(s: StoreState, t: StoreState)
    requires s.hasCompletedOnboarding == t.hasCompletedOnboarding && s.hasSubscribed == t.hasSubscribed
    requires s.hasSignedUp == t.hasSignedUp && s.hasSeenUpsell == t.hasSeenUpsell
    ensures RouteOf(s) == RouteOf(t)
  {
  }
}
