/** The wizard as a whole: the three step handlers, their dispatch by
    handleSubmit, and handleBack, over the form, the step forms and the
    payment session. */
module SignupFlow {
  import opened Common
  import opened ContributionModel
  import opened SignupRequest
  import opened Payment
  import opened Steps

  /** The number of step forms and step handlers. */
  const StepCount := 3

  /** What the world outside the page does while a handler runs. */
  datatype Environment = Environment(
    signupReply: Option<SignupResponse>,  // None: the signup request or its reply failed
    publicKey: Option<string>,            // None: the public key fetch or Stripe loading failed
    widget: WidgetFate,                   // what becomes of the payment widget
    confirmed: Outcome,                   // how `confirmSetup` settles
    encode: string -> string)             // encodeURIComponent

  /** What a step handler does outside the page: the URLs it fetches, the
      signup body it posts, where it sends the browser, and the arguments
      of its `confirmSetup` call. */
  datatype Effects = Effects(
    fetched: seq<string>,
    request: Option<SignupData>,
    navigation: Option<string>,
    call: Option<ConfirmCall>)

  /** The signup page: the form inputs, the step forms and the session. */
  class Signup {
    const form: SignupForm
    const wizard: Wizard
    const session: Session

    predicate Valid()
      reads this
    {
      wizard.steps.Length == StepCount
    }

    /** Page load: step 1 shown, no payment session, then the initial run of
        updateStep1 and updateFee. */
    constructor (form: SignupForm)
      requires Readable(form.Inputs())
      modifies form, form.groups
      ensures Valid() && this.form == form
      ensures fresh(wizard) && fresh(wizard.steps) && fresh(session)
      ensures ShowsOnly(wizard.steps[..], 0)
      ensures forall j :: 0 <= j < StepCount ==> wizard.steps[j].submit == Idle
      ensures session.stripe == None && session.elements == None && !session.isComplete
      ensures !session.Ready()
      ensures form.Inputs() == UpdateFeeView(UpdateStep1View(old(form.Inputs())))
    {
      this.form := form;
      wizard := new Wizard(StepCount);
      session := new Session();
      new;
      Step1KeepsContribution(form.Inputs());
      form.UpdateStep1();
      form.UpdateFee();
    }

    /** handleStep1: refresh the fee section and advance. */
    method HandleStep1() returns (outcome: Outcome)
      requires Readable(form.Inputs())
      modifies form
      ensures form.Inputs() == UpdateFeeView(old(form.Inputs()))
      ensures outcome == ResolvedTruthy
    {
      form.UpdateFee();
      outcome := ResolvedTruthy;
    }

    /** handleStep2: post the signup; follow a redirect, or fetch the public
        key, load the payment session and settle as the widget does. */
    method HandleStep2(env: Environment)
      returns (fetched: seq<string>, request: SignupData, navigation: Option<string>, outcome: Outcome)
      requires Readable(form.Inputs())
      modifies session
      ensures request == Payload(Read(form.Inputs()))
      ensures |fetched| > 0 && fetched[0] == SignupEndpoint
      ensures JoinContentEndpoint in fetched <==> env.signupReply.Some? && !Redirects(env.signupReply.value)
      ensures outcome == Step2Outcome(env.signupReply, env.publicKey, env.widget)
      ensures navigation.Some? <==> outcome == ResolvedFalsy
      ensures navigation.Some? ==> navigation == env.signupReply.value.redirectUrl
      ensures LoadsSession(env.signupReply, env.publicKey) ==>
        session.stripe == Some(StripeClient(env.publicKey.value)) &&
        session.elements == Some(ElementsHandle(StripeClient(env.publicKey.value), env.signupReply.value.clientSecret)) &&
        !session.isComplete
      ensures !LoadsSession(env.signupReply, env.publicKey) ==> unchanged(session)
    {
      var contribution := Read(form.Inputs());
      request := Payload(contribution);
      fetched := [SignupEndpoint];
      navigation := None;
      if env.signupReply.None? {
        outcome := Rejected;
        return;
      }
      var reply := env.signupReply.value;
      if Redirects(reply) {
        navigation := reply.redirectUrl;
        outcome := ResolvedFalsy;
        return;
      }
      fetched := fetched + [JoinContentEndpoint];
      if env.publicKey.None? {
        outcome := Rejected;
        return;
      }
      session.Load(env.publicKey.value, reply.clientSecret);
      match env.widget {
        case WidgetReady => outcome := ResolvedTruthy;
        case WidgetSilent => outcome := Pending;
        case WidgetFails => outcome := Rejected;
      }
    }

    /** handleStep3: the guarded confirmation. */
    method HandleStep3(env: Environment) returns (call: Option<ConfirmCall>, outcome: Outcome)
      requires session.Ready() ==> Readable(form.Inputs())
      ensures !session.Ready() ==> call == None && outcome == Rejected
      ensures session.Ready() ==> outcome == env.confirmed && call.Some?
      ensures session.Ready() ==> call.value.elements == session.elements.value
      ensures session.Ready() ==> call.value.returnUrl == ReturnUrl(Read(form.Inputs()), env.encode)
      ensures session.Ready() ==>
        call.value.billing == BillingDetails(form.Inputs().email, BillingName(Read(form.Inputs())))
    {
      call, outcome := session.Confirm(form.Inputs(), env.encode, env.confirmed);
    }

    /** handleSubmit for step i: the control goes busy, the step's handler
        runs, and its settlement decides whether the next step is shown. */
    method HandleSubmit(i: nat, env: Environment) returns (effects: Effects, outcome: Outcome)
      requires Valid() && i < StepCount && !wizard.steps[i].submit.disabled
      requires i < 2 ==> Readable(form.Inputs())
      requires i == 2 && session.Ready() ==> Readable(form.Inputs()) && env.confirmed != ResolvedTruthy
      modifies form, session, wizard.steps
      ensures outcome == ResolvedTruthy ==> i + 1 < StepCount
      ensures wizard.steps[..] == AfterSubmit(old(wizard.steps[..]), i, outcome)
      ensures ShowsOnly(old(wizard.steps[..]), i) ==>
        ShowsOnly(wizard.steps[..], if outcome == ResolvedTruthy then i + 1 else i)
      ensures i == 0 ==> outcome == ResolvedTruthy && unchanged(session)
      ensures i == 0 ==> form.Inputs() == UpdateFeeView(old(form.Inputs()))
      ensures i == 1 ==> outcome == Step2Outcome(env.signupReply, env.publicKey, env.widget)
      ensures i == 1 ==> unchanged(form)
      ensures i == 1 && !LoadsSession(env.signupReply, env.publicKey) ==> unchanged(session)
      ensures i == 1 && LoadsSession(env.signupReply, env.publicKey) ==>
        session.stripe == Some(StripeClient(env.publicKey.value))
      ensures i == 1 && LoadsSession(env.signupReply, env.publicKey) ==>
        session.elements == Some(ElementsHandle(StripeClient(env.publicKey.value), env.signupReply.value.clientSecret))
      ensures i == 1 && LoadsSession(env.signupReply, env.publicKey) ==> !session.isComplete
      ensures i == 2 ==> outcome == (if old(session.Ready()) then env.confirmed else Rejected)
      ensures i == 2 ==> unchanged(form) && unchanged(session)
      ensures i != 1 ==> effects.fetched == [] && effects.request == None && effects.navigation == None
      ensures i == 1 ==> effects.request == Some(Payload(Read(old(form.Inputs()))))
      ensures i == 1 ==> |effects.fetched| > 0 && effects.fetched[0] == SignupEndpoint
      ensures i == 1 ==>
        (JoinContentEndpoint in effects.fetched <==> env.signupReply.Some? && !Redirects(env.signupReply.value))
      ensures i == 1 ==> (effects.navigation.Some? <==> outcome == ResolvedFalsy)
      ensures i == 1 && effects.navigation.Some? ==> effects.navigation == env.signupReply.value.redirectUrl
      ensures !(i == 2 && old(session.Ready())) ==> effects.call == None
      ensures i == 2 && old(session.Ready()) ==> effects.call.Some?
      ensures i == 2 && old(session.Ready()) ==> effects.call.value.elements == session.elements.value
      ensures i == 2 && old(session.Ready()) ==>
        effects.call.value.returnUrl == ReturnUrl(Read(form.Inputs()), env.encode)
      ensures i == 2 && old(session.Ready()) ==>
        effects.call.value.billing == BillingDetails(form.Inputs().email, BillingName(Read(form.Inputs())))
    {
      ghost var before := wizard.steps[..];
      if i == 0 {
        outcome := HandleStep1();
        effects := Effects([], None, None, None);
      } else if i == 1 {
        var fetched, request, navigation;
        fetched, request, navigation, outcome := HandleStep2(env);
        effects := Effects(fetched, Some(request), navigation, None);
      } else {
        var call;
        call, outcome := HandleStep3(env);
        effects := Effects([], None, None, call);
      }
      assert wizard.steps[..] == before;
      wizard.Submit(i, outcome);
      if ShowsOnly(before, i) {
        SubmitKeepsOneShown(before, i, outcome);
      }
    }

    /** handleBack for a click in step i: no handler runs. */
    method HandleBack(i: nat, onBack: bool)
      requires Valid() && CanGoBack(StepCount, i, onBack)
      modifies wizard.steps
      ensures wizard.steps[..] == AfterBack(old(wizard.steps[..]), i, onBack)
      ensures ShowsOnly(old(wizard.steps[..]), i) ==>
        ShowsOnly(wizard.steps[..], if onBack then i - 1 else i)
    {
      ghost var before := wizard.steps[..];
      wizard.Back(i, onBack);
      if ShowsOnly(before, i) {
        BackKeepsOneShown(before, i, onBack);
      }
    }

    /** The payment widget's change event. */
    method WidgetChanged(complete: bool)
      modifies session`isComplete
      ensures session.isComplete == complete
    {
      session.OnChange(complete);
    }
  }

  /** A step 2 reply with a redirect never lets the wizard leave step 2. */
  lemma RedirectDoesNotAdvance(s: seq<StepForm>, env: Environment)
    requires |s| == StepCount && ShowsOnly(s, 1) && !s[1].submit.disabled
    requires env.signupReply.Some? && Redirects(env.signupReply.value)
    ensures CanSettle(s, 1, Step2Outcome(env.signupReply, env.publicKey, env.widget))
    ensures ShowsOnly(AfterSubmit(s, 1, Step2Outcome(env.signupReply, env.publicKey, env.widget)), 1)
    ensures AfterSubmit(s, 1, Step2Outcome(env.signupReply, env.publicKey, env.widget))[1].submit == Busy
  {
  }

  /** A step 2 reply with a setup secret, a loaded Stripe and a ready
      widget moves the wizard from step 2 to step 3. */
  lemma ReadyWidgetAdvances(s: seq<StepForm>, env: Environment)
    requires |s| == StepCount && ShowsOnly(s, 1) && !s[1].submit.disabled
    requires LoadsSession(env.signupReply, env.publicKey) && env.widget == WidgetReady
    ensures CanSettle(s, 1, Step2Outcome(env.signupReply, env.publicKey, env.widget))
    ensures ShowsOnly(AfterSubmit(s, 1, Step2Outcome(env.signupReply, env.publicKey, env.widget)), 2)
  {
  }

  /** A redirect in step 2 is final: once its handler has settled, no later
      event of any permitted run submits step 2 again. */
  lemma RedirectIsFinal(s: seq<StepForm>, env: Environment, es: seq<UiEvent>)
    requires |s| == StepCount
    requires env.signupReply.Some? && Redirects(env.signupReply.value)
    requires PermittedRun(RunState(s, {}),
      [Submitted(1), Settled(1, Step2Outcome(env.signupReply, env.publicKey, env.widget))] + es)
    ensures NeverSubmits(es, 1)
  {
    var settled := Settled(1, Step2Outcome(env.signupReply, env.publicKey, env.widget));
    var run := [Submitted(1), settled] + es;
    assert run[0] == Submitted(1) && run[1..] == [settled] + es;
    assert ([settled] + es)[0] == settled && ([settled] + es)[1..] == es;
    var started := Next(RunState(s, {}), Submitted(1));
    BusyControlBlocksHandler(Next(started, settled), es, 1);
  }

  /** A payment widget that never fires `ready` leaves step 2 stuck: while
      its handler does not settle, step 2 is never submitted again. */
  lemma SilentWidgetBlocksStep2(s: seq<StepForm>, env: Environment, es: seq<UiEvent>)
    requires |s| == StepCount
    requires LoadsSession(env.signupReply, env.publicKey) && env.widget == WidgetSilent
    requires PermittedRun(RunState(s, {}), [Submitted(1)] + es)
    requires NeverSettles(es, 1)
    ensures Step2Outcome(env.signupReply, env.publicKey, env.widget) == Pending
    ensures NeverSubmits(es, 1)
  {
    assert ([Submitted(1)] + es)[0] == Submitted(1) && ([Submitted(1)] + es)[1..] == es;
    BusyControlBlocksHandler(Next(RunState(s, {}), Submitted(1)), es, 1);
  }
}
