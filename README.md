# Signup wizard model

A Dafny model of the client side of the beabee example signup flow
(`src/main.js`): a three-step membership signup wizard. Step 1 chooses a
contribution amount and period and, for monthly contributions, whether to
absorb the payment fee. Step 2 sends the signup to the beabee backend and
either follows a redirect or loads a Stripe payment widget. Step 3 confirms
the payment setup with Stripe.

The model has six modules:

- `Common` (common.dfy): `Option`, and `Outcome`, the way a step handler's
  promise settles (resolved truthy, resolved falsy, rejected, or never).
- `ContributionModel` (contribution.dfy): the form as a value
  (`FormInputs`) and as a class updated in place (`SignupForm`, whose
  `.js-period-amounts` groups are an array of records). It models
  `getContribution` (`Read`), `updateFee` and `updateStep1`.
- `SignupRequest` (signup.dfy): the URLs derived from the frontend URL and
  the request body of step 2.
- `Payment` (payment.dfy): the module-level `stripe`, `stripeElements` and
  `stripeIsComplete` as the class `Session`. It also holds the branch
  decision of step 2 and the guarded confirmation of step 3.
- `Steps` (steps.dfy): the step forms and their submit controls as an
  array of records (`Wizard`), `handleSubmit` and `handleBack` as
  transitions, and runs of events in which a handler's settlement is an
  event of its own, so clicks can come between a submit and its
  settlement.
- `SignupFlow` (flow.dfy): the page as a whole (`Signup`). It holds the
  three step handlers, their dispatch by step number, and the start-up
  calls.

The main invariant is that exactly one step is shown (`ShowsOnly`). Every
submit whose handler settles before anything else happens keeps it, and so
does every back click. A run of events keeps it as long as no back click
happens while a handler is running (`ReplayKeepsOneShown`). The code does
not prevent such a click: a back click during a pending step handler
followed by a truthy settlement leaves two steps shown
(`LateSettlementShowsTwoSteps`).

The model follows the code where it behaves in ways a reader might not expect of such a wizard:

- When a handler resolves falsy, the code leaves the submit control
  disabled and loading (src/main.js:229-236). It is not re-enabled, so that
  step can never be submitted again (`BusyControlBlocksHandler`); the same
  holds while a handler never settles.
- The submit callbacks act on the step that was submitted, whichever step
  is shown when the handler settles (src/main.js:229-235).
- In step 2, the session globals are assigned before the payment widget is
  created and mounted (src/main.js:165-175). If that throws, the handler
  rejects after the session has changed.
- The code recomputes the fee display only on a payment-method change, at
  page load and when step 1 is submitted (src/main.js:81-83, 111-114,
  269). An amount or period edit alone does not recompute it.
- The amount-1 rule is a fixed literal in the code (`ForcedFeeAmount`),
  not a configuration value.

## Model

| member | source | states |
|---|---|---|
| `ContributionModel.FindGroup` | src/main.js:45-47 | the lookup of `amount_<period>` by name finds the first period group, in document order, whose data-period is the period, or reports that there is none |
| `ContributionModel.Read` | src/main.js:41-59 | getContribution: the amount is the custom field's value when the checked option is "custom" and the preset value otherwise; period, payment method, email and names are copied from their inputs, and payFee from the fee checkbox |
| `ContributionModel.FeeUpdate` | src/main.js:68-76 | amount 1 disables and ticks the fee box, hides the opt-in indicator and shows the required one; any other amount enables the box and keeps its ticked state; the fee section is hidden exactly when the period is not monthly |
| `ContributionModel.ForcedFeeIsPaid` | src/main.js:68-72 | after updateFee, a contribution of amount 1 reads with payFee true and a locked box, whatever the box held before |
| `ContributionModel.UpdateFeeIdempotent` | src/main.js:64-78 | running updateFee twice leaves the form as running it once |
| `ContributionModel.GroupView` | src/main.js:93-101 | a group is hidden and disabled exactly when its data-period differs from the checked period; its custom field is hidden and disabled exactly when its checked option is not "custom"; period, selection and custom value are untouched |
| `ContributionModel.ShowPeriod` | src/main.js:92-102 | updateStep1 keeps the number of groups and applies that rule to each group |
| `ContributionModel.FindGroupIgnoresDisplay` | src/main.js:45-47 | the group getContribution reads depends only on the groups' periods, not on their display flags |
| `ContributionModel.Step1KeepsContribution` | src/main.js:89-103 | updateStep1 changes what is shown, never the contribution read from the form |
| `ContributionModel.UpdateStep1Idempotent` | src/main.js:89-103 | running updateStep1 twice leaves the form as running it once |
| `ContributionModel.OneGroupShown` | src/main.js:92-95 | when the groups have distinct periods and one has the checked period, exactly that group is shown and enabled afterwards |
| `ContributionModel.SignupForm.UpdateFee` | src/main.js:64-78 | updates the fee controls of the form in place as `FeeUpdate` prescribes, leaving every other input as it was |
| `ContributionModel.SignupForm.UpdateStep1` | src/main.js:89-103 | loops over the groups array, updating each group in place as `GroupView` prescribes, and changes nothing else |
| `SignupRequest.Payload` | src/main.js:124-140 | the request forwards payFee exactly when the box is ticked and the period is monthly, always sends prorate false, copies email, amount, period and payment method, and derives the four URLs from the frontend URL |
| `SignupRequest.PayloadDeterminedBy` | src/main.js:126-140 | two contributions give the same request exactly when they agree on email, amount, period, payment method and fee absorption, so names and the non-monthly fee box are never sent |
| `SignupRequest.ForcedFeeReachesRequest` | src/main.js:132 | an amount-1 contribution read after updateFee asks to absorb the fee exactly when it is monthly |
| `Payment.Step2Outcome` | src/main.js:150-182 | step 2 resolves falsy exactly on a redirect; truthy exactly when Stripe loads and the widget fires ready; rejects on a failed request or key fetch, or when Stripe loads but creating or mounting the widget throws; and never settles exactly when Stripe loads and the widget never fires ready |
| `Payment.SplitFirstJoin` | src/main.js:199 | cutting a string at the first separator recovers the two parts joined by it when the first part holds no separator |
| `Payment.ReturnUrlCarriesNames` | src/main.js:199 | the return URL (`ReturnUrl`) is the completion URL with both encoded names as query values, recoverable from it when the encoding escapes `&` |
| `Payment.BillingNameSplits` | src/main.js:203 | the billing name (`BillingName`) is the first name, a space and the last name, and splits back at the first space for a first name without spaces |
| `Payment.Session.constructor` | src/main.js:117 | the session starts with no client, no elements and an incomplete widget |
| `Payment.Session.Load` | src/main.js:164-170 | the payment branch stores the client and its elements for the setup secret and resets the completion flag, so the session is not ready |
| `Payment.Session.OnChange` | src/main.js:176 | a widget change event sets the completion flag and nothing else |
| `Payment.Session.Confirm` | src/main.js:189-208 | step 3 rejects without a confirmation call unless client, elements and completion are all set; otherwise it calls confirmation with the elements, the return URL and billing details of email and full name, and settles as that call does |
| `Steps.AfterStart` | src/main.js:224-226 | starting a step's handler disables the submitter and marks it loading, changing nothing else |
| `Steps.AfterSettle` | src/main.js:228-240 | a truthy settlement hides the submitted step, shows the one after it and restores its control; a rejection restores the control only; a falsy settlement changes nothing; no other step's control changes |
| `Steps.AfterSubmit` | src/main.js:217-241 | handleSubmit of an enabled control marks it busy; on truthy it hides step i, shows step i+1 and restores the control; on rejection it restores the control and keeps visibility; on falsy or no settlement the control stays busy; no other step changes |
| `Steps.AfterBack` | src/main.js:246-260 | a click off the back control changes nothing; a back click hides step i and shows step i-1 without touching any submit control |
| `Steps.SubmitKeepsOneShown` | src/main.js:228-235 | a submit of the one shown step leaves exactly one step shown: the next one on truthy, the same one otherwise |
| `Steps.SubmitRevealsNextIffTruthy` | src/main.js:229-235 | the next step is shown after a submit exactly when the handler resolved truthy |
| `Steps.BackKeepsOneShown` | src/main.js:258-259 | a back click in the one shown step leaves exactly the previous step shown |
| `Steps.Next` | src/main.js:224-265 | one page event: a submit starts its step's handler, a settlement ends it, a click leaves the running handlers alone; no other step's handler starts or ends, and the number of step forms is kept |
| `Steps.Replay` | src/main.js:217-265 | a run of events keeps the number of step forms, and a handler is running at its end only if it was running at its start or its step was submitted during the run |
| `Steps.EventKeepsOneShown` | src/main.js:217-265 | a submit, a settlement or a click on a shown step keeps exactly one step shown and at most its own handler running, unless it is a back click while a handler runs |
| `Steps.ReplayKeepsOneShown` | src/main.js:262-265 | any permitted run of submits, settlements and clicks with no back click while a handler runs keeps exactly one step shown |
| `Steps.LateSettlementShowsTwoSteps` | src/main.js:228-259 | submitting a middle step, clicking back before it settles, and a truthy settlement is a possible run, and it leaves both the previous and the next step shown |
| `Steps.BusyControlBlocksHandler` | src/main.js:225-240 | a disabled control whose handler has settled, or never settles, stays disabled through any permitted run, and its step is never submitted again |
| `Steps.Wizard.constructor` | src/main.js:29 | the step forms collected from the page start as the markup delivers them, which shows the first step and enables every submitter; the code itself sets neither |
| `Steps.Wizard.Start` | src/main.js:224-226 | updates the step forms in place as `AfterStart` prescribes |
| `Steps.Wizard.Settle` | src/main.js:228-240 | updates the step forms in place as `AfterSettle` prescribes |
| `Steps.Wizard.Submit` | src/main.js:224-240 | starts then settles step i, updating the step forms in place as `AfterSubmit` prescribes |
| `Steps.Wizard.Back` | src/main.js:246-260 | updates the step forms in place as `AfterBack` prescribes |
| `SignupFlow.Signup.constructor` | src/main.js:267-269 | at page load the markup shows step 1 and enables every submitter, the session holds no client, no elements and the completion flag false, and the code runs updateStep1 then updateFee on the form |
| `SignupFlow.Signup.HandleStep1` | src/main.js:111-114 | step 1 refreshes the fee controls and always resolves truthy |
| `SignupFlow.Signup.HandleStep2` | src/main.js:123-183 | step 2 posts the payload of the current contribution to the signup endpoint, and fetches the join content exactly when the reply arrived without a redirect; a redirect is navigated to and resolves falsy; the payment branch loads the session with its completion flag reset, and settles as `Step2Outcome` says, rejecting after the load when the widget fails; the session changes on no other branch |
| `SignupFlow.Signup.HandleStep3` | src/main.js:189-208 | step 3 rejects without a confirmation call when the session is not ready; otherwise it calls confirmation with the session's elements, the return URL and billing details of email and full name, and settles as that call does |
| `SignupFlow.Signup.HandleSubmit` | src/main.js:217-241 | for an enabled control, runs the handler of step i, then applies its settlement to the step forms; exactly one step stays shown; only step 1 changes the form; only step 2 changes the session, and on its payment branch leaves the loaded client, its elements for the setup secret and the completion flag false; only step 2 posts, and it posts the payload of the contribution read, fetches the join content exactly when no redirect came back, and navigates exactly when it resolves falsy, to the reply's redirect URL; only step 3 with a ready session calls confirmation, with the session's elements, the return URL and the billing details |
| `SignupFlow.Signup.HandleBack` | src/main.js:246-260 | a click runs no handler and touches only the step forms, keeping exactly one shown |
| `SignupFlow.Signup.WidgetChanged` | src/main.js:176 | the widget's change callback sets the session's completion flag |
| `SignupFlow.RedirectDoesNotAdvance` | src/main.js:153-157 | a redirect reply leaves step 2 shown with its control busy |
| `SignupFlow.ReadyWidgetAdvances` | src/main.js:178 | a loaded session whose widget fires ready moves the wizard from step 2 to step 3 |
| `SignupFlow.RedirectIsFinal` | src/main.js:153-236 | after step 2 is submitted and settles on a redirect, no later event of a permitted run submits step 2 |
| `SignupFlow.SilentWidgetBlocksStep2` | src/main.js:178-225 | a loaded session whose widget never fires ready leaves step 2's handler pending, and step 2 is never submitted again |

## Left out

- DOM lookup and event wiring (`$`, `$$`, `addEventListener`, `classList`, `preventDefault`): elements are records, and events are method calls with the step index as a parameter.
- Network I/O (`fetch`, `Request`, `resp.json()`, `JSON.stringify`): the signup reply and the public key are inputs, and the URLs fetched are an output. A missing reply or key stands for a failed request or an unreadable reply.
- The Stripe SDK (`loadStripe`, `elements`, `create`, `mount`, `confirmSetup`): only the session state and the arguments passed are modelled. How `confirmSetup` settles, and whether the widget fires ready, never does or throws on creation or mounting, are inputs.
- The widget appearance configuration: it is passed through unchanged and is not represented.
- `calcPaymentFee` and the formatted fee amount: an external library and floating-point formatting.
- `Number(...)` on the amount: amounts are integers. The only test on them is equality with 1.
- `encodeURIComponent`: it is the function parameter `encode`.
- Promise scheduling: in `SignupFlow.Signup.HandleSubmit` a handler's settlement is one value applied at once. The run model in `Steps` makes each settlement an event of its own, but does not model the order of callbacks inside one promise chain.
- `Steps.ReplayKeepsOneShown`: holds only for runs with no back click while a handler is running. The code allows such a click, and then the invariant fails (`Steps.LateSettlementShowsTwoSteps`).
- `window.location.href` and `console.log`: navigation is returned as an output value.
- Change callbacks of a widget from an earlier step-2 attempt, which the code never detaches: the model has a single change channel.
- Crash paths are excluded by preconditions, not modelled: a truthy settlement of the last step, a back click in the first step, and a form whose checked period has no amount group. In the first case the code hides step 3 before it throws.
- `SignupFlow.Signup.HandleSubmit`: its precondition excludes a truthy confirmation in step 3. A confirmation that resolves with an error object is truthy in the source and takes the crash path above.
- Each period group is assumed to have one checked amount option and a custom field. Likewise the checked period and payment method are assumed to exist; otherwise the source throws on `.value` of nothing.
