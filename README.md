# Onboarding and monetization funnel of a mobile learning app, in Dafny

This project models the funnel of a mobile learning app (an Expo / React
Native app written in TypeScript). A new user answers an onboarding
questionnaire, watches a personalised-results animation, passes a paywall,
signs up, and is offered an AI-bundle upsell before reaching the main tabs.

- **`Store`** (`store.dfy`) holds all of the funnel's state. It is a class
  `AppStore` with the store's fields:
  - four funnel gates and the AI-bundle flag;
  - the onboarding answer map;
  - the profile strings;
  - the append-only completed-lesson and discovered-prompt record lists.

  Each mutator states the store's whole new state as a record update of
  `old(State())`, so "nothing else changes" is part of every contract. The
  queries (`some`, `filter`, the rounded progress percentage) are pure
  functions with their own contracts and lemmas.
- **`Router`** (`router.dfy`) is the start screen's routing rule. The first
  closed gate, in a fixed order, decides the destination.
- **`Onboarding`, `Results`, `Paywall`, `Signup`, `Upsell`** each model one
  screen as a class:
  - the screen's local state (step, phase, selected plan, timer, form fields)
    is held in fields;
  - each user action or timer tick is a method;
  - the screen's store effect goes through a shared `AppStore` reference;
  - navigation (`router.replace`) is returned as a `Nav` value.
- **`Funnel`** (`funnel.dfy`) drives every screen in order from a fresh
  store. It proves that each screen hands over to the screen the start
  screen's routing would choose next, and that the gates open in routing
  order.

Timers (`setInterval`, `setTimeout`) are explicit methods (`Tick`,
`FinishLoading`). Clock timestamps are opaque string parameters.
`Math.round((c / n) * 100)` is exact integer rounding, half up:
`(200c + n) / (2n)`.

## Model

| member | source | states |
|---|---|---|
| `Router.Route` | app/index.tsx:13-23 | the destination is onboarding iff onboarding is not completed; paywall iff onboarded but not subscribed; sign-up iff subscribed but not signed up; upsell iff signed up but upsell not seen; tabs iff all four gates are open; never the results screen |
| `Router.RouteIsFirstClosedGate` | app/index.tsx:13-23 | the if/else chain equals the reference rule "first closed gate in the order onboarding, paywall, sign-up, upsell, else tabs" |
| `Router.Stage` | app/index.tsx:13-22 | numbers the routed destinations 0..4 so that each gated screen's number is its position in the gate order |
| `Router.RouteMonotone` | app/index.tsx:13-23 | opening gates never moves the route back to an earlier funnel screen |
| `Router.OpeningDecidingGateAdvances` | app/index.tsx:13-22 | opening the gate that currently decides the route moves the route strictly forward |
| `Store.AppStore.constructor` | src/store/useAppStore.ts:52-69 | a new store is exactly the initial snapshot: all gates and the bundle flag false, profile strings empty, answer map and both record lists empty, onboarding step 1 |
| `Store.AppStore.Reset` | src/store/useAppStore.ts:123 | from any state, every field is restored to the initial snapshot |
| `Store.AppStore.SetOnboardingAnswer` | src/store/useAppStore.ts:71-74 | the answer map gets `step` mapped to the answer and keeps every other key; no other field changes |
| `Store.AppStore.SetCurrentOnboardingStep` | src/store/useAppStore.ts:76-77 | only the store's onboarding step changes |
| `Store.AppStore.CompleteOnboarding` | src/store/useAppStore.ts:79-80 | only the onboarding gate changes, and it becomes true (so a second call changes nothing) |
| `Store.AppStore.SetUserGoal` | src/store/useAppStore.ts:82 | only the goal changes, to the given text |
| `Store.AppStore.SetDailyTime` | src/store/useAppStore.ts:83 | only the daily time changes, to the given text |
| `Store.AppStore.Subscribe` | src/store/useAppStore.ts:85 | only the subscription gate changes, and it becomes true |
| `Store.AppStore.SignUp` | src/store/useAppStore.ts:87-88 | the sign-up gate, name and email are set in one update; nothing else changes |
| `Store.AppStore.MarkUpsellSeen` | src/store/useAppStore.ts:90 | only the upsell gate changes, and it becomes true |
| `Store.AppStore.PurchaseAiBundle` | src/store/useAppStore.ts:92 | only the AI-bundle flag changes, and it becomes true |
| `Store.AppStore.CompleteLesson` | src/store/useAppStore.ts:94-100 | appends exactly one record with that id, even if the id is already present; the lesson is then completed; every lesson completed before stays completed; nothing else changes |
| `Store.AppStore.DiscoverPrompt` | src/store/useAppStore.ts:105-111 | appends exactly one record with the prompt and exercise ids; the prompt is then discovered; earlier discoveries stay; nothing else changes |
| `Store.AppStore.IsLessonCompleted` | src/store/useAppStore.ts:102-103 | a lesson is completed iff some completed-lesson record carries its id |
| `Store.AppStore.IsPromptDiscovered` | src/store/useAppStore.ts:113-114 | a prompt is discovered iff some prompt record carries its id |
| `Store.AppStore.GetLessonProgress` | src/store/useAppStore.ts:116-121 | the progress is in 0..100, is 0 for an empty lesson list, and is 100 when every listed lesson is completed |
| `Store.AnyLessonWithId` | src/store/useAppStore.ts:102-103 | `isLessonCompleted(id)` holds iff some completed-lesson record has that lesson id |
| `Store.AnyPromptWithId` | src/store/useAppStore.ts:113-114 | `isPromptDiscovered(id)` holds iff some prompt record has that prompt id; the exercise id plays no part |
| `Store.CompletedAfterAppend` | src/store/useAppStore.ts:94-103 | after an append, a lesson is completed iff it was before or it is the appended one |
| `Store.DiscoveredAfterAppend` | src/store/useAppStore.ts:105-114 | after an append, a prompt is discovered iff it was before or it is the appended one |
| `Store.CountCompleted` | src/store/useAppStore.ts:117-119 | the filtered count is at most the list length; it equals the length iff every listed lesson is completed, and is 0 iff none is |
| `Store.CountCompletedIsCardinality` | src/store/useAppStore.ts:117-119 | the filtered count equals the number of positions in the lesson list whose lesson has a completion record |
| `Store.RoundedPercent` | src/store/useAppStore.ts:120 | the result is the integer nearest to 100c/n, with halves rounded up, and it lies in 0..100 |
| `Store.LessonProgress` | src/store/useAppStore.ts:116-121 | the progress is in 0..100; it is 0 for an empty list; otherwise it is the rounded share of listed lessons that are completed; it is 100 when all are completed; when it is 100 and the list has fewer than 200 lessons, all are completed |
| `Store.FullWhenAllDone` | src/store/useAppStore.ts:120 | a full count rounds to 100; with fewer than 200 lessons, a count below the total rounds below 100 |
| `Store.CountCompletedGrows` | src/store/useAppStore.ts:94-100 | appending a completion record never lowers the completed count of any lesson list |
| `Store.RoundedPercentMonotone` | src/store/useAppStore.ts:120 | the rounded percentage is monotone in the completed count |
| `Store.ProgressNeverDecreases` | src/store/useAppStore.ts:94-121 | completing a lesson never lowers any course's progress |
| `Store.ProgressIgnoresCourse` | src/store/useAppStore.ts:116 | the course id does not affect the progress |
| `Store.ProgressExamples` | src/store/useAppStore.ts:116-121 | 2 of 4 lessons completed gives 50; 1 of 3 gives 33 |
| `Store.LastWriteWins` | src/store/useAppStore.ts:71-74 | after any sequence of answer writes, a step holds the answer of the last write to that step |
| `Store.UntouchedKeyKept` | src/store/useAppStore.ts:71-74 | a step that no write mentions keeps its entry, or stays absent |
| `Store.InitialRoutesToOnboarding` | src/store/useAppStore.ts:52-66 | the initial snapshot routes to onboarding; no lesson is completed and no prompt is discovered |
| `Store.RouteIgnoresProfile` | app/index.tsx:9-23 | two store states with the same four gates route alike, whatever their bundle flag and profile fields |
| `Onboarding.RemoveAll` | app/onboarding.tsx:60 | the filtered list holds every old value other than the removed option, each as often as before, and no copy of the removed option |
| `Onboarding.RemoveAllConcat` | app/onboarding.tsx:60 | filtering a concatenation gives the concatenation of the filtered parts, so the kept values stay in their order |
| `Onboarding.RemoveAllNoDuplicates` | app/onboarding.tsx:60 | filtering keeps a duplicate-free selection duplicate-free |
| `Onboarding.Toggle` | app/onboarding.tsx:57-64 | the toggled option's membership flips; every other option's membership is unchanged; a present option is filtered out as `RemoveAll` does; an absent option is appended at the end |
| `Onboarding.ToggleNoDuplicates` | app/onboarding.tsx:57-64 | toggling keeps a duplicate-free selection duplicate-free |
| `Onboarding.ToggleTwice` | app/onboarding.tsx:57-64 | toggling the same option twice gives back the same set of selected options |
| `Onboarding.OnboardingScreen.constructor` | app/onboarding.tsx:24-25 | the screen starts at step 0 with an empty selection, for a question list numbered 1..n with options on every selection question |
| `Onboarding.OnboardingScreen.GoBack` | app/onboarding.tsx:29-34 | above step 0, steps back and clears the selection; at step 0, changes nothing |
| `Onboarding.OnboardingScreen.GoNext` | app/onboarding.tsx:36-44 | before the last question, advances, clears the selection and leaves the store alone; at the last question, keeps the step, sets only the onboarding gate and routes to the results screen; the step always stays in range |
| `Onboarding.OnboardingScreen.HandleSingleSelect` | app/onboarding.tsx:46-55 | stores a single answer under the question's step; copies it to the goal iff `storeAs` is "goal" and to the daily time iff it is "dailyTime"; then advances as `GoNext` does (before the last question: next step, selection cleared; at the last question: step and selection kept, onboarding gate set, route to results) |
| `Onboarding.OnboardingScreen.HandleMultiSelect` | app/onboarding.tsx:57-64 | the selection becomes its toggle by the tapped option |
| `Onboarding.OnboardingScreen.HandleMultiSubmit` | app/onboarding.tsx:66-69 | stores the current selection under the question's step, then advances as `GoNext` does: before the last question it moves on and clears the selection; at the last question it keeps the step and the selection, sets the onboarding gate and routes to results |
| `Onboarding.OnboardingScreen.TapMultiContinue` | app/onboarding.tsx:116-122 | the Continue button does nothing (store, step and selection unchanged) while the selection is empty; otherwise it submits exactly as `HandleMultiSubmit` does, so a stored multi-select answer is never empty |
| `Results.NextLoadingProgress` | app/results.tsx:34-40 | the tick returns 89 from 89 or above and adds 2 below 89; it keeps any value up to 90 at or below 90 |
| `Results.ProgressAfterClosedForm` | app/results.tsx:33-41 | from 0 the counter runs 0, 2, ..., 88, then 90, then 89 for good, so it never exceeds 90 |
| `Results.BarHeight` | app/results.tsx:83 | bar `i` is `30 + 30i` high |
| `Results.BarColourAt` | app/results.tsx:84-89 | the first bar is in the error colour, the next two in the warning colour, the last in the success colour |
| `Results.ChartShape` | app/results.tsx:77-91 | the four bars have heights 30, 60, 90 and 120 (strictly rising); their colours are error, warning, warning, success |
| `Results.ResultsScreen.constructor` | app/results.tsx:14-15 | the screen starts in the summary phase with progress 0 |
| `Results.ResultsScreen.Continue` | app/results.tsx:103 | the summary moves to loading and starts the interval |
| `Results.ResultsScreen.Tick` | app/results.tsx:31-44 | while loading with the interval running, the counter takes one tick step and the interval stops once the counter was at least 89; otherwise nothing changes; the counter never exceeds 90 while loading |
| `Results.ResultsScreen.FinishLoading` | app/results.tsx:46-56 | loading becomes complete only once the counter is at least 89, and entering complete sets the counter to 100 |
| `Results.ResultsScreen.GetStarted` | app/results.tsx:58-60 | "Get started" routes to the paywall in the complete phase and does nothing in any other phase, so the user leaves only once the counter shows 100 |
| `Paywall.PaywallScreen.constructor` | app/paywall.tsx:21-23 | starts on the guide, with the monthly plan selected and no confirmation shown |
| `Paywall.PaywallScreen.Continue` | app/paywall.tsx:73 | the guide moves to the plan page; nothing else changes |
| `Paywall.PaywallScreen.Back` | app/paywall.tsx:84 | the plan page moves back to the guide; nothing else changes |
| `Paywall.PaywallScreen.SelectPlan` | app/paywall.tsx:123-150 | tapping a card makes that plan the one selected |
| `Paywall.PaywallScreen.HandleSubscribe` | app/paywall.tsx:25-27 | Subscribe only shows the confirmation; the store is untouched |
| `Paywall.PaywallScreen.HandleConfirmOk` | app/paywall.tsx:29-33 | OK sets only the subscription gate (the plan is not passed on), hides the confirmation and routes to sign-up |
| `Signup.ValidEmailHasShape` | app/signup.tsx:29 | an address the email pattern accepts has no whitespace and exactly one '@', not first; its domain has a '.' that is neither first nor last |
| `Signup.ShapedEmailIsValid` | app/signup.tsx:29 | every address of that shape is accepted by the pattern |
| `Signup.ValidEmailIffShape` | app/signup.tsx:29 | the email pattern accepts an address iff it has that shape |
| `Signup.IsValidEmail` | app/signup.tsx:29 | the email pattern, read as: an '@' and a later '.' split the address into three non-empty runs without whitespace or '@'; an accepted address has at least five characters and neither starts nor ends with '@' |
| `Signup.LeadingWhitespace` | app/signup.tsx:35 | counts exactly the whitespace prefix that `trim` removes at the start |
| `Signup.TrailingWhitespace` | app/signup.tsx:35 | counts exactly the whitespace suffix that `trim` removes at the end |
| `Signup.Trim` | app/signup.tsx:35 | `trim` never lengthens the text, and a non-empty result neither starts nor ends with whitespace |
| `Signup.TrimIsCore` | app/signup.tsx:35 | the trimmed text is the input's slice between leading and trailing whitespace, and neither starts nor ends with whitespace |
| `Signup.TrimNonEmpty` | app/signup.tsx:35 | a name trims to a non-empty string iff it contains a non-whitespace character |
| `Signup.TrimNoWhitespace` | app/signup.tsx:44 | a string without whitespace is its own trim |
| `Signup.ValidEmailIsTrimmed` | app/signup.tsx:29-44 | a valid email is unchanged by trimming, so the stored email is exactly the validated one |
| `Signup.Utf16Length` | app/signup.tsx:30 | a string's JavaScript `length` counts UTF-16 code units: between its character count and twice that, and equal to it when every character lies in the Basic Multilingual Plane |
| `Signup.HasMinLength` | app/signup.tsx:30 | the six-unit minimum, in UTF-16 code units: six characters always pass, fewer than three never do |
| `Signup.HasLowercase` | app/signup.tsx:31 | some character is a lowercase ASCII letter |
| `Signup.HasNumber` | app/signup.tsx:32 | some character is an ASCII digit |
| `Signup.PasswordsMatch` | app/signup.tsx:33 | the confirmation equals the password and is not empty |
| `Signup.CanProceedStep1` | app/signup.tsx:35 | the trimmed name is non-empty and the email is valid |
| `Signup.CanProceedStep2` | app/signup.tsx:36 | the four password checks hold together |
| `Signup.MinLengthCountsCodeUnits` | app/signup.tsx:30-36 | two ASCII characters and two emoji make six code units and pass the step-2 gate; five ASCII characters do not reach the minimum |
| `Signup.Step2Examples` | app/signup.tsx:30-36 | the step-2 gate needs at least six characters, a lowercase letter, a digit and a matching confirmation |
| `Signup.SignupScreen.constructor` | app/signup.tsx:22-26 | starts on step 1 with all fields empty |
| `Signup.SignupScreen.SetName` | app/signup.tsx:98 | typing in the name field replaces the name |
| `Signup.SignupScreen.SetEmail` | app/signup.tsx:83 | typing in the email field replaces the email |
| `Signup.SignupScreen.SetPassword` | app/signup.tsx:121 | typing in the password field replaces the password |
| `Signup.SignupScreen.SetConfirmPassword` | app/signup.tsx:144 | typing in the confirmation field replaces the confirmation |
| `Signup.SignupScreen.HandleStep1` | app/signup.tsx:35-40 | moves to step 2 iff the trimmed name is non-empty and the email is valid; otherwise does nothing |
| `Signup.SignupScreen.HandleStep2` | app/signup.tsx:36-47 | when the password gate holds, signs up with the trimmed name and the trimmed email (for a valid address, the email exactly as entered), and routes to the upsell; otherwise nothing changes; the password never reaches the store |
| `Signup.SignupScreen.Back` | app/signup.tsx:65-67 | the back arrow on step 2 returns to step 1 |
| `Upsell.NextTimeLeft` | app/upsell.tsx:16 | the countdown never increases: it loses one second while positive and stays at 0 |
| `Upsell.TimeLeftAfterClosedForm` | app/upsell.tsx:12-19 | after `k` ticks from 600 the countdown shows `600 - k` for the first ten minutes and 0 from then on |
| `Upsell.Minutes` | app/upsell.tsx:21 | `Math.floor(timeLeft / 60)`: the whole minutes, with `60m <= t < 60m + 60` |
| `Upsell.Seconds` | app/upsell.tsx:22 | `timeLeft % 60`: below 60, and adding it to the whole minutes gives back the count |
| `Upsell.MinutesSecondsSplit` | app/upsell.tsx:21-22 | minutes times 60 plus seconds gives back the count; seconds stay below 60; at most 10 minutes within the countdown |
| `Upsell.DecimalString` | app/upsell.tsx:23 | a number's decimal text has one digit below 10, two digits from 10 to 99, and at least three from 100 up |
| `Upsell.PadStart` | app/upsell.tsx:23 | padding reaches the width, keeps the text as its suffix and fills the front with the pad character |
| `Upsell.TwoDigits` | app/upsell.tsx:23 | `String(n).padStart(2, '0')`; its properties are those of `TwoDigitsRoundTrip` |
| `Upsell.TimerText` | app/upsell.tsx:23 | the `mm:ss` text; its properties are those of `TimerTextRoundTrip` |
| `Upsell.TwoDigitsRoundTrip` | app/upsell.tsx:23 | a number below 100 pads to two digit characters that read back as the number |
| `Upsell.TimerTextRoundTrip` | app/upsell.tsx:21-23 | for any count below 6000 seconds (so for 0..600), the timer text is five characters `mm:ss` and reads back as the count |
| `Upsell.TimerTextExamples` | app/upsell.tsx:23 | 600 seconds shows "10:00" and 59 shows "00:59" |
| `Upsell.UpsellScreen.constructor` | app/upsell.tsx:11-12 | starts on the first page with 600 seconds left |
| `Upsell.UpsellScreen.Tick` | app/upsell.tsx:14-19 | one countdown step: the time left never increases and never goes negative |
| `Upsell.UpsellScreen.GotIt` | app/upsell.tsx:71 | "Got it" moves from the first page to the offer page |
| `Upsell.UpsellScreen.Skip` | app/upsell.tsx:25-28 | on either page, sets only the upsell gate and routes to the tabs |
| `Upsell.UpsellScreen.HandlePurchase` | app/upsell.tsx:30-34 | sets the AI-bundle flag and the upsell gate, nothing else, and routes to the tabs |
| `Funnel.WalkOnboarding` | app/onboarding.tsx:36-69 | answering every question in turn ends with the onboarding gate open and a hand-over to the results screen; the other gates and the bundle flag are untouched |
| `Funnel.WatchResults` | app/results.tsx:31-60 | the results animation always completes: it ends at 100 and routes to the paywall |
| `Funnel.WalkPaywall` | app/paywall.tsx:25-33 | passing the paywall sets only the subscription gate and routes to sign-up |
| `Funnel.WalkSignup` | app/signup.tsx:38-47 | with inputs that pass both gates, sign-up sets the gate, the trimmed name and the email, and routes to the upsell |
| `Funnel.WalkUpsell` | app/upsell.tsx:25-34 | leaving the upsell sets the upsell gate, sets the bundle flag iff the user buys, and routes to the tabs |
| `Funnel.WalkFunnel` | app/index.tsx:13-23 | from a fresh store the start screen routes onboarding, paywall, sign-up, upsell, tabs in turn; each screen navigates to where the start screen would send the user next (onboarding detours through the results screen); the bundle flag ends up set iff the user bought the bundle |

## Left out

- Rendering is not modelled: JSX, `StyleSheet` objects, emoji, copy text, and the presentational components and theme constants.
- `src/components/ProgressBar.tsx` is not modelled. Its width is an unrounded floating-point percentage.
- `app/_layout.tsx` is not modelled. It is router configuration only.
- `router.replace` is modelled as the `Nav` value a handler returns. Navigation transitions are not modelled.
- Timer scheduling is not modelled. Intervals and timeouts are explicit method calls, which covers:
  - the start screen's 100 ms delay;
  - the 300 ms delay after a single-select tap (`HandleSingleSelect` advances at once);
  - the results interval and its 1500 ms timeout;
  - the upsell countdown interval.
- `Results.ResultsScreen.FinishLoading` checks its guard when the timeout fires, not when it is scheduled. The two agree because the counter stays at 89 or above after it first reaches 89.
- Clock and locale are not modelled. `new Date().toISOString()` becomes an opaque `now` parameter of `CompleteLesson` and `DiscoverPrompt`. The results screen's target date and month labels are left out.
- `Store.RoundedPercent` uses exact integer rounding (half up) for `Math.round((c / n) * 100)`. The source computes in floating point, which can land below a .5 boundary. For 23 of 40 lessons, `23 / 40` is stored just below 0.575, so `(23 / 40) * 100` comes out just below 57.5 and `Math.round` gives 57. The model gives `(4600 + 40) / 80 = 58`.
- zustand's `create` / `get` / `set` and React hooks are library plumbing. The store is a plain class, and each screen holds a reference to it.
- The content JSON files are not part of this model. Their shape checks (steps numbered 1..n, options on selection questions) are the precondition `Onboarding.WellFormed`.
- Display-only state is not modelled:
  - the results screen reads `userGoal` only for display and holds no store reference;
  - sign-up's show-password toggle;
  - the paywall's "Restore" button, which has no handler.
- `Onboarding.OnboardingScreen.HandleSingleSelect` and `HandleMultiSubmit` do not check the question's type. Neither does the source: the screen renders each handler only for its own question type.
- `Store.LessonProgress` states "100 only when everything is completed" only for lists of fewer than 200 lessons. From 200 lessons on, one missing lesson is at most half a percent and rounds up to 100, both in the source and in the model.
- Strings are sequences of Unicode scalar values. A JavaScript string holding an unpaired UTF-16 surrogate has no counterpart in the model. `Signup.Utf16Length` counts every other string as JavaScript does.
