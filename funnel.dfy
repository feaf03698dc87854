/**
 * The whole funnel as a user walks it: the start screen's routing, the
 * onboarding questionnaire, the results animation, the paywall, sign-up
 * and the upsell, all sharing one store. The screens' own navigation and
 * the start screen's routing rule agree at every hand-over.
 */
module Funnel {
  import opened Router
  import Store
  import Onboarding
  import Results
  import Paywall
  import Signup
  import Upsell

  /**
   * Answer every onboarding question in turn (the first option of each
   * selection question, Continue on interstitials) until the last one
   * closes the onboarding gate and hands over to the results screen.
   */
  method WalkOnboarding(questions: seq<Onboarding.Question>, store: Store.AppStore) returns (nav: Nav)
    requires Onboarding.WellFormed(questions)
    modifies store
    ensures nav == GoTo(Results)
    ensures store.hasCompletedOnboarding
    ensures store.hasSubscribed == old(store.hasSubscribed) && store.hasSignedUp == old(store.hasSignedUp)
    ensures store.hasSeenUpsell == old(store.hasSeenUpsell) && store.hasAiBundle == old(store.hasAiBundle)
  {
    var onboarding := new Onboarding.OnboardingScreen(questions, store);
    nav := Stay;
    while nav == Stay
      invariant onboarding.Valid() && onboarding.questions == questions && onboarding.store == store
      invariant nav == Stay ==> onboarding.multiSelectValues == []
      invariant nav != Stay ==> nav == GoTo(Results) && store.hasCompletedOnboarding
      invariant store.hasSubscribed == old(store.hasSubscribed) && store.hasSignedUp == old(store.hasSignedUp)
      invariant store.hasSeenUpsell == old(store.hasSeenUpsell) && store.hasAiBundle == old(store.hasAiBundle)
      decreases if nav == Stay then 1 else 0, |questions| - onboarding.currentStep
    {
      var q := questions[onboarding.currentStep];
      if q.kind == Onboarding.SingleSelect {
        nav := onboarding.HandleSingleSelect(q.options[0]);
      } else if q.kind == Onboarding.MultiSelect {
        onboarding.HandleMultiSelect(q.options[0]);
        nav := onboarding.TapMultiContinue();
      } else {
        nav := onboarding.GoNext();
      }
    }
  }

  /** Continue from the summary, let the counter climb to 89, finish, get started. */
  method WatchResults() returns (nav: Nav, shown: int)
    ensures nav == GoTo(Paywall)
    ensures shown == 100
  {
    var results := new Results.ResultsScreen();
    results.Continue();
    while results.loadingProgress < 89
      invariant results.Valid() && results.phase == Results.Loading
      decreases 89 - results.loadingProgress
    {
      results.Tick();
    }
    results.FinishLoading();
    nav := results.GetStarted();
    shown := results.loadingProgress;
  }

  /** Through the guide, subscribe, confirm. */
  method WalkPaywall(store: Store.AppStore) returns (nav: Nav)
    modifies store
    ensures nav == GoTo(Signup)
    ensures store.State() == old(store.State()).(hasSubscribed := true)
  {
    var paywall := new Paywall.PaywallScreen(store);
    paywall.Continue();
    paywall.HandleSubscribe();
    nav := paywall.HandleConfirmOk();
  }

  /** Fill in both sign-up pages and submit. */
  method WalkSignup(store: Store.AppStore, name: string, email: string, password: string) returns (nav: Nav)
    requires Signup.CanProceedStep1(name, email) && Signup.CanProceedStep2(password, password)
    modifies store
    ensures nav == GoTo(Upsell)
    ensures store.State() == old(store.State()).(hasSignedUp := true, userName := Signup.Trim(name), userEmail := email)
  {
    var signup := new Signup.SignupScreen(store);
    signup.SetEmail(email);
    signup.SetName(name);
    signup.HandleStep1();
    signup.SetPassword(password);
    signup.SetConfirmPassword(password);
    nav := signup.HandleStep2();
  }

  /** Buy on the offer page, or skip. */
  method WalkUpsell(store: Store.AppStore, buyBundle: bool) returns (nav: Nav)
    modifies store
    ensures nav == GoTo(Tabs)
    ensures store.State() == old(store.State()).(hasSeenUpsell := true, hasAiBundle := old(store.hasAiBundle) || buyBundle)
  {
    var upsell := new Upsell.UpsellScreen(store);
    if buyBundle {
      upsell.GotIt();
      nav := upsell.HandlePurchase();
    } else {
      nav := upsell.Skip();
    }
  }

  /**
   * Starting from a fresh store, walk onboarding, the results animation,
   * the paywall, sign-up, and then skip or buy the upsell. `routes` collects
   * the start screen's choice before onboarding and after each gated
   * screen; `navs` the navigation each screen performs.
   */
  method WalkFunnel(questions: seq<Onboarding.Question>, name: string, email: string,
                    password: string, buyBundle: bool)
    returns (routes: seq<Destination>, navs: seq<Nav>, last: Store.StoreState)
    requires Onboarding.WellFormed(questions)
    requires Signup.CanProceedStep1(name, email) && Signup.CanProceedStep2(password, password)
    ensures routes == [Onboarding, Paywall, Signup, Upsell, Tabs]
    ensures navs == [GoTo(Results), GoTo(Paywall), GoTo(Signup), GoTo(Upsell), GoTo(Tabs)]
    ensures last.hasAiBundle == buyBundle
    ensures last.userName == Signup.Trim(name) && last.userEmail == email
  {
    var store := new Store.AppStore();
    var r0 := Store.RouteOf(store.State());
    var n0 := WalkOnboarding(questions, store);
    var r1 := Store.RouteOf(store.State());
    var n1, _ := WatchResults();
    var n2 := WalkPaywall(store);
    var r2 := Store.RouteOf(store.State());
    var n3 := WalkSignup(store, name, email, password);
    var r3 := Store.RouteOf(store.State());
    var n4 := WalkUpsell(store, buyBundle);
    var r4 := Store.RouteOf(store.State());
    routes := [r0, r1, r2, r3, r4];
    navs := [n0, n1, n2, n3, n4];
    last := store.State();
  }
}
