/**
 * The paywall screen (app/paywall.tsx): a guide page, then the plan
 * choice; Subscribe only opens a confirmation dialog, and its OK button is
 * what closes the subscription gate of the store.
 */
module Paywall {
  import Router
  import Store

  datatype Phase = Guide | Plans
  datatype Plan = Monthly | Weekly

  class PaywallScreen {
    const store: Store.AppStore
    var phase: Phase
    /** Exactly one plan is selected at any time: the type has one value per plan. */
    var selectedPlan: Plan
    var showConfirmation: bool

    constructor (store: Store.AppStore)
      ensures this.store == store
      ensures phase == Guide && selectedPlan == Monthly && !showConfirmation
    {
      this.store := store;
      phase := Guide;
      selectedPlan := Monthly;
      showConfirmation := false;
    }

    /** The guide's Continue button. */
    method Continue()
      requires phase == Guide
      modifies this`phase
      ensures phase == Plans
    {
      phase := Plans;
    }

    /** The back arrow on the plan page. */
    method Back()
      requires phase == Plans
      modifies this`phase
      ensures phase == Guide
    {
      phase := Guide;
    }

    /** Tapping a plan card selects that plan. */
    method SelectPlan(plan: Plan)
      requires phase == Plans
      modifies this`selectedPlan
      ensures selectedPlan == plan
    {
      selectedPlan := plan;
    }

    /** Subscribe only shows the confirmation; the store is untouched. */
    method HandleSubscribe()
      requires phase == Plans
      modifies this`showConfirmation
      ensures showConfirmation
    {
      showConfirmation := true;
    }

    /**
     * The dialog's OK button: subscribe (the chosen plan is not passed on),
     * hide the dialog and go to sign-up.
     */
    method HandleConfirmOk() returns (nav: Router.Nav)
      requires showConfirmation
      modifies this`showConfirmation, store
      ensures store.State() == old(store.State()).(hasSubscribed := true)
      ensures !showConfirmation
      ensures nav == Router.GoTo(Router.Signup)
    {
      store.Subscribe();
      showConfirmation := false;
      nav := Router.GoTo(Router.Signup);
    }
  }
}
