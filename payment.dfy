/** The payment session passed from step 2 to step 3: the Stripe client,
    its elements handle and the widget's completeness flag (the module-level
    `stripe`, `stripeElements` and `stripeIsComplete`). */
module Payment {
  import opened Common
  import opened ContributionModel
  import opened SignupRequest

  /** A Stripe client loaded with a public key. */
  datatype StripeClient = StripeClient(publicKey: string)

  /** An elements handle created by a client for a setup secret (the secret
      is passed on as received, even when the reply had none). */
  datatype ElementsHandle = ElementsHandle(client: StripeClient, clientSecret: Option<string>)

  /** The decoded reply to the signup request. */
  datatype SignupResponse = SignupResponse(redirectUrl: Option<string>, clientSecret: Option<string>)

  /** The reply sends the user elsewhere: its redirectUrl is present and,
      being a string, truthy only when non-empty. */
  predicate Redirects(r: SignupResponse) {
    r.redirectUrl.Some? && r.redirectUrl.value != ""
  }

  /** Step 2 reaches the payment branch and loads Stripe: the signup reply
      arrived without a redirect and the public key was fetched. */
  predicate LoadsSession(reply: Option<SignupResponse>, publicKey: Option<string>) {
    reply.Some? && !Redirects(reply.value) && publicKey.Some?
  }

  /** What becomes of the payment widget once Stripe has loaded: it fires
      `ready`, it never does, or creating or mounting it throws (for
      example when the reply carried no setup secret). */
  datatype WidgetFate = WidgetReady | WidgetSilent | WidgetFails

  /** How the step 2 handler settles. A missing reply or public key stands
      for a failed request or reply (the promise chain rejects before the
      session is touched); a widget that fails rejects after it. */
  function Step2Outcome(reply: Option<SignupResponse>, publicKey: Option<string>, widget: WidgetFate): (o: Outcome)
    ensures o == ResolvedFalsy <==> reply.Some? && Redirects(reply.value)
    ensures o == ResolvedTruthy <==> LoadsSession(reply, publicKey) && widget == WidgetReady
    ensures o == Rejected <==>
      reply.None? || (!Redirects(reply.value) && publicKey.None?) ||
      (LoadsSession(reply, publicKey) && widget == WidgetFails)
    ensures o == Pending <==> LoadsSession(reply, publicKey) && widget == WidgetSilent
  {
    if reply.None? then Rejected
    else if Redirects(reply.value) then ResolvedFalsy
    else if publicKey.None? then Rejected
    else match widget
      case WidgetReady => ResolvedTruthy
      case WidgetSilent => Pending
      case WidgetFails => Rejected
  }

  /** The billing details passed to the confirmation. */
  datatype BillingDetails = BillingDetails(email: string, name: string)

  /** The arguments of one call of `confirmSetup`. */
  datatype ConfirmCall = ConfirmCall(elements: ElementsHandle, returnUrl: string, billing: BillingDetails)

  /** Where Stripe sends the user back to: the completion page with both
      names, each encoded by `encode` (encodeURIComponent), as query
      parameters. */
  function ReturnUrl(c: Contribution, encode: string -> string): string {
    CompleteUrl + "?firstName=" + encode(c.firstName) + "&lastName=" + encode(c.lastName)
  }

  function BillingName(c: Contribution): string {
    c.firstName + " " + c.lastName
  }

  /** `s` cut at the first `sep`: the part before it and, if `sep` occurs,
      the part after it. */
  function SplitFirst(s: string, sep: char): (r: (string, Option<string>))
    ensures r.1.None? ==> r.0 == s && sep !in s
    ensures r.1.Some? ==> s == r.0 + [sep] + r.1.value && sep !in r.0
  {
    if s == [] then ([], None)
    else if s[0] == sep then ([], Some(s[1..]))
    else
      var rest := SplitFirst(s[1..], sep);
      ([s[0]] + rest.0, rest.1)
  }

  /** Cutting `a + [sep] + b` at its first `sep` gives back `a` and `b` when
      `a` holds no `sep`. */
  lemma {:induction false} SplitFirstJoin(a: string, sep: char, b: string)
    requires sep !in a
    ensures SplitFirst(a + [sep] + b, sep) == (a, Some(b))
  {
    if a != [] {
      assert (a + [sep] + b)[0] == a[0] != sep;
      assert (a + [sep] + b)[1..] == a[1..] + [sep] + b;
      SplitFirstJoin(a[1..], sep, b);
      assert [a[0]] + a[1..] == a;
    } else {
      assert (a + [sep] + b)[1..] == b;
    }
  }

  /** The two encoded names in a return URL, if it has the shape ReturnUrl
      builds. */
  function ParseReturnUrl(url: string): Option<(string, string)> {
    var prefix := CompleteUrl + "?firstName=";
    var key := "lastName=";
    if |url| < |prefix| || url[..|prefix|] != prefix then None
    else
      var cut := SplitFirst(url[|prefix|..], '&');
      if cut.1.None? then None
      else if |cut.1.value| < |key| || cut.1.value[..|key|] != key then None
      else Some((cut.0, cut.1.value[|key|..]))
  }

  /** The return URL carries both encoded names recoverably, given that the
      encoding of the first name escapes `&` (encodeURIComponent does). */
  lemma ReturnUrlCarriesNames(c: Contribution, encode: string -> string)
    requires '&' !in encode(c.firstName)
    ensures ParseReturnUrl(ReturnUrl(c, encode)) == Some((encode(c.firstName), encode(c.lastName)))
  {
    var prefix := CompleteUrl + "?firstName=";
    var first, last := encode(c.firstName), encode(c.lastName);
    var url := ReturnUrl(c, encode);
    assert url == prefix + (first + ['&'] + ("lastName=" + last));
    assert url[|prefix|..] == first + ['&'] + ("lastName=" + last);
    SplitFirstJoin(first, '&', "lastName=" + last);
  }

  /** The billing name is the first name, a space and the last name: for a
      first name without spaces it splits back at the first space. */
  lemma BillingNameSplits(c: Contribution)
    requires ' ' !in c.firstName
    ensures SplitFirst(BillingName(c), ' ') == (c.firstName, Some(c.lastName))
  {
    SplitFirstJoin(c.firstName, ' ', c.lastName);
  }

  /** The three module-level variables shared by steps 2 and 3. */
  class Session {
    var stripe: Option<StripeClient>
    var elements: Option<ElementsHandle>
    var isComplete: bool

    /** `let stripe, stripeElements, stripeIsComplete = false` */
    constructor ()
      ensures stripe == None && elements == None && !isComplete
    {
      stripe, elements, isComplete := None, None, false;
    }

    /** Step 3 may confirm: a client, an elements handle and a complete
        widget. */
    predicate Ready()
      reads this
    {
      stripe.Some? && elements.Some? && isComplete
    }

    /** The payment branch of step 2, once Stripe is loaded: keep the
        client, create its elements for the setup secret, and reset the
        completeness flag. */
    method Load(publicKey: string, clientSecret: Option<string>)
      modifies this
      ensures stripe == Some(StripeClient(publicKey))
      ensures elements == Some(ElementsHandle(StripeClient(publicKey), clientSecret))
      ensures !isComplete && !Ready()
    {
      var client := StripeClient(publicKey);
      stripe := Some(client);
      elements := Some(ElementsHandle(client, clientSecret));
      isComplete := false;
    }

    /** The payment widget's change event: the only other writer of the
        completeness flag. */
    method OnChange(complete: bool)
      modifies this`isComplete
      ensures isComplete == complete
      ensures Ready() <==> stripe.Some? && elements.Some? && complete
    {
      isComplete := complete;
    }

    /** handleStep3: reject without calling Stripe unless the session is
        ready; otherwise read the contribution and call `confirmSetup`, whose
        settlement `confirmed` becomes the handler's. */
    method Confirm(inputs: FormInputs, encode: string -> string, confirmed: Outcome)
      returns (call: Option<ConfirmCall>, outcome: Outcome)
      requires Ready() ==> Readable(inputs)
      ensures !Ready() ==> call == None && outcome == Rejected
      ensures Ready() ==> outcome == confirmed && call.Some?
      ensures Ready() ==> call.value.elements == elements.value
      ensures Ready() ==> call.value.returnUrl == ReturnUrl(Read(inputs), encode)
      ensures Ready() ==> call.value.billing == BillingDetails(inputs.email, inputs.firstName + " " + inputs.lastName)
    {
      if stripe.None? || elements.None? || !isComplete {
        return None, Rejected;
      }
      var contribution := Read(inputs);
      var billing := BillingDetails(contribution.email, BillingName(contribution));
      call := Some(ConfirmCall(elements.value, ReturnUrl(contribution, encode), billing));
      outcome := confirmed;
    }
  }
}
