/**
 * The onboarding questionnaire screen (app/onboarding.tsx): a step index
 * into the question list, the options picked so far on a multi-select
 * question, and handlers that write answers into the store and advance.
 */
module Onboarding {
  import opened Wrappers
  import Router
  import Store

  datatype QuestionType = SingleSelect | MultiSelect | Interstitial

  /**
   * The parts of an onboarding question (src/types/content.ts) the screen's
   * handlers use; title, body, emoji and button text are presentation only.
   */
  datatype Question = Question(step: int, kind: QuestionType, storeAs: Option<string>, options: seq<string>)

  /**
   * What the content tests check of the question list: steps numbered 1..n
   * in order, and options on every selection question.
   */
  predicate WellFormed(questions: seq<Question>)
  {
    && |questions| > 0
    && (forall i :: 0 <= i < |questions| ==> questions[i].step == i + 1)
    && (forall i :: 0 <= i < |questions| && questions[i].kind != Interstitial ==> |questions[i].options| > 0)
  }

  /** No value occurs twice. */
  predicate NoDuplicates(xs: seq<string>)
  {
    forall i, j :: 0 <= i < j < |xs| ==> xs[i] != xs[j]
  }

  /** `xs.filter(v => v !== x)` */
  function RemoveAll(xs: seq<string>, x: string): (r: seq<string>)
    ensures forall y :: y in r <==> y in xs && y != x
    ensures multiset(r) == multiset(xs)[x := 0]
    ensures |r| <= |xs|
  {
    if xs == [] then []
    else
      var rest := RemoveAll(xs[1..], x);
      assert xs == [xs[0]] + xs[1..];
      if xs[0] == x then rest else [xs[0]] + rest
  }

  /**
   * Filtering works element by element, so it keeps the order of what it
   * keeps: filtering a concatenation concatenates the filtered parts.
   */
  lemma {:induction false} RemoveAllConcat(a: seq<string>, b: seq<string>, x: string)
    ensures RemoveAll(a + b, x) == RemoveAll(a, x) + RemoveAll(b, x)
  {
    if a != [] {
      assert (a + b)[1..] == a[1..] + b;
      RemoveAllConcat(a[1..], b, x);
    } else {
      assert a + b == b;
    }
  }

  /** Filtering keeps a duplicate-free list duplicate-free. */
  lemma {:induction false} RemoveAllNoDuplicates(xs: seq<string>, x: string)
    requires NoDuplicates(xs)
    ensures NoDuplicates(RemoveAll(xs, x))
  {
    if xs != [] {
      assert NoDuplicates(xs[1..]) by {
        forall i, j | 0 <= i < j < |xs[1..]| ensures xs[1..][i] != xs[1..][j] {
          assert xs[1..][i] == xs[i + 1] && xs[1..][j] == xs[j + 1];
        }
      }
      RemoveAllNoDuplicates(xs[1..], x);
      if xs[0] != x {
        var rest := RemoveAll(xs[1..], x);
        assert xs[0] !in xs[1..] by {
          forall k | 0 <= k < |xs[1..]| ensures xs[1..][k] != xs[0] {
            assert xs[1..][k] == xs[k + 1];
          }
        }
        assert xs[0] !in rest;
        var r := [xs[0]] + rest;
        forall i, j | 0 <= i < j < |r| ensures r[i] != r[j] {
          if i == 0 {
            assert r[j] == rest[j - 1];
          } else {
            assert r[i] == rest[i - 1] && r[j] == rest[j - 1];
          }
        }
      }
    }
  }

  /**
   * The multi-select toggle: an option already present is filtered out
   * (every copy of it), a new one is appended at the end.
   */
  function Toggle(values: seq<string>, option: string): (r: seq<string>)
    ensures option in r <==> option !in values
    ensures forall y :: y != option ==> (y in r <==> y in values)
    ensures option !in values ==> r == values + [option]
    ensures option in values ==> r == RemoveAll(values, option)
  {
    if option in values then RemoveAll(values, option) else values + [option]
  }

  /** A duplicate-free selection stays duplicate-free under toggling. */
  lemma ToggleNoDuplicates(values: seq<string>, option: string)
    requires NoDuplicates(values)
    ensures NoDuplicates(Toggle(values, option))
  {
    if option in values {
      RemoveAllNoDuplicates(values, option);
    } else {
      var r := values + [option];
      forall i, j | 0 <= i < j < |r| ensures r[i] != r[j] {
        if j == |values| {
          assert r[i] == values[i];
        } else {
          assert r[i] == values[i] && r[j] == values[j];
        }
      }
    }
  }

  /** Toggling the same option twice gives back the same set of selected options. */
  lemma ToggleTwice(values: seq<string>, option: string)
    ensures forall y :: y in Toggle(Toggle(values, option), option) <==> y in values
  {
  }

  /** The screen's local state, attached to the shared store. */
  class OnboardingScreen {
    const questions: seq<Question>
    const store: Store.AppStore
    var currentStep: int
    var multiSelectValues: seq<string>

    /** The step always indexes a question. */
    ghost predicate Valid()
      reads this
    {
      WellFormed(questions) && 0 <= currentStep < |questions|
    }

    constructor (questions: seq<Question>, store: Store.AppStore)
      requires WellFormed(questions)
      ensures Valid()
      ensures this.questions == questions && this.store == store
      ensures currentStep == 0 && multiSelectValues == []
    {
      this.questions := questions;
      this.store := store;
      currentStep := 0;
      multiSelectValues := [];
    }

    /** Whether the current question is the last one. */
    function AtLastQuestion(): bool
      reads this
    {
      currentStep >= |questions| - 1
    }

    /** The back arrow: a step back with the selection cleared, except on the first question. */
    method GoBack()
      requires Valid()
      modifies this
      ensures Valid()
      ensures old(currentStep) > 0 ==> currentStep == old(currentStep) - 1 && multiSelectValues == []
      ensures old(currentStep) == 0 ==> currentStep == 0 && multiSelectValues == old(multiSelectValues)
    {
      if currentStep > 0 {
        currentStep := currentStep - 1;
        multiSelectValues := [];
      }
    }

    /**
     * Advance to the next question with the selection cleared; on the last
     * question, close the onboarding gate and leave for the results screen,
     * keeping the step where it is. Interstitial pages call only this.
     */
    method GoNext() returns (nav: Router.Nav)
      requires Valid()
      modifies this, store
      ensures Valid()
      ensures !old(AtLastQuestion()) ==>
        && currentStep == old(currentStep) + 1 && multiSelectValues == []
        && nav == Router.Stay && store.State() == old(store.State())
      ensures old(AtLastQuestion()) ==>
        && currentStep == old(currentStep) && multiSelectValues == old(multiSelectValues)
        && nav == Router.GoTo(Router.Results)
        && store.State() == old(store.State()).(hasCompletedOnboarding := true)
    {
      if currentStep < |questions| - 1 {
        currentStep := currentStep + 1;
        multiSelectValues := [];
        nav := Router.Stay;
      } else {
        store.CompleteOnboarding();
        nav := Router.GoTo(Router.Results);
      }
    }

    /**
     * Tapping an option of a single-select question: store it under the
     * question's step, copy it into the goal or daily-time profile field
     * when the question says so, then advance (the source waits 300 ms).
     */
    method HandleSingleSelect(answer: string) returns (nav: Router.Nav)
      requires Valid()
      modifies this, store
      ensures Valid()
      ensures var q := old(questions[currentStep]);
        var s := old(store.State());
        var written := s.(onboardingAnswers := s.onboardingAnswers[q.step := Store.Single(answer)],
                          userGoal := if q.storeAs == Some("goal") then answer else s.userGoal,
                          dailyTime := if q.storeAs == Some("dailyTime") then answer else s.dailyTime);
        if old(AtLastQuestion()) then
          && store.State() == written.(hasCompletedOnboarding := true)
          && currentStep == old(currentStep) && multiSelectValues == old(multiSelectValues)
          && nav == Router.GoTo(Router.Results)
        else
          && store.State() == written
          && currentStep == old(currentStep) + 1 && multiSelectValues == [] && nav == Router.Stay
    {
      var q := questions[currentStep];
      store.SetOnboardingAnswer(q.step, Store.Single(answer));
      if q.storeAs == Some("goal") {
        store.SetUserGoal(answer);
      }
      if q.storeAs == Some("dailyTime") {
        store.SetDailyTime(answer);
      }
      nav := GoNext();
    }

    /** Tapping an option of a multi-select question toggles it in the selection. */
    method HandleMultiSelect(option: string)
      modifies this`multiSelectValues
      ensures multiSelectValues == Toggle(old(multiSelectValues), option)
    {
      multiSelectValues := Toggle(multiSelectValues, option);
    }

    /** The multi-select Continue handler: store the selection under the step and advance. */
    method HandleMultiSubmit() returns (nav: Router.Nav)
      requires Valid()
      modifies this, store
      ensures Valid()
      ensures var q := old(questions[currentStep]);
        var s := old(store.State());
        var written := s.(onboardingAnswers := s.onboardingAnswers[q.step := Store.Multi(old(multiSelectValues))]);
        if old(AtLastQuestion()) then
          && store.State() == written.(hasCompletedOnboarding := true)
          && currentStep == old(currentStep) && multiSelectValues == old(multiSelectValues)
          && nav == Router.GoTo(Router.Results)
        else
          store.State() == written && currentStep == old(currentStep) + 1 && multiSelectValues == [] && nav == Router.Stay
    {
      var q := questions[currentStep];
      store.SetOnboardingAnswer(q.step, Store.Multi(multiSelectValues));
      nav := GoNext();
    }

    /**
     * The multi-select Continue button, which is disabled while nothing is
     * selected: a stored multi-select answer is therefore never empty.
     */
    method TapMultiContinue() returns (nav: Router.Nav)
      requires Valid()
      modifies this, store
      ensures Valid()
      ensures old(multiSelectValues) == [] ==>
        && nav == Router.Stay && store.State() == old(store.State())
        && currentStep == old(currentStep) && multiSelectValues == old(multiSelectValues)
      ensures old(multiSelectValues) != [] ==>
        var q := old(questions[currentStep]);
        var s := old(store.State());
        var written := s.(onboardingAnswers := s.onboardingAnswers[q.step := Store.Multi(old(multiSelectValues))]);
        if old(AtLastQuestion()) then
          && store.State() == written.(hasCompletedOnboarding := true)
          && currentStep == old(currentStep) && multiSelectValues == old(multiSelectValues)
          && nav == Router.GoTo(Router.Results)
        else
          store.State() == written && currentStep == old(currentStep) + 1 && multiSelectValues == [] && nav == Router.Stay
      ensures old(multiSelectValues) != [] ==>
        var step := old(questions[currentStep]).step;
        step in store.onboardingAnswers && store.onboardingAnswers[step] == Store.Multi(old(multiSelectValues))
    {
      if multiSelectValues == [] {
        nav := Router.Stay;
      } else {
        nav := HandleMultiSubmit();
      }
    }
  }
}
