/** The signup request that step 2 sends to the backend, and the URLs it
    derives from the instance's frontend URL. */
module SignupRequest {
  import opened ContributionModel

  /** The beabee instance the page talks to. */
  const FrontendUrl := "https://your.beabee.instance.io"

  const ApiUrl := FrontendUrl + "/api/1.0"
  const CompleteUrl := FrontendUrl + "/join/complete"

  /** Where step 2 posts the signup, and where it reads the public key. */
  const SignupEndpoint := ApiUrl + "/signup"
  const JoinContentEndpoint := ApiUrl + "/content/join"

  const LoginUrl := FrontendUrl + "/auth/login"
  const SetPasswordUrl := FrontendUrl + "/auth/set-password"
  const ConfirmUrl := FrontendUrl + "/join/confirm-email"

  /** The `contribution` object of the request body. */
  datatype ContributionData = ContributionData(
    amount: int,
    period: string,
    payFee: bool,
    prorate: bool,
    paymentMethod: string,
    completeUrl: string)

  /** The request body. */
  datatype SignupData = SignupData(
    email: string,
    contribution: ContributionData,
    loginUrl: string,
    setPasswordUrl: string,
    confirmUrl: string)

  /** The fee is absorbed only when asked for on a monthly contribution. */
  predicate AbsorbsFee(c: Contribution) {
    c.payFee && c.period == Monthly
  }

  /** The body step 2 builds from the contribution read. */
  function Payload(c: Contribution): (d: SignupData)
    ensures d.contribution.payFee <==> c.payFee && c.period == Monthly
    ensures !d.contribution.prorate
    ensures d.email == c.email
    ensures d.contribution.amount == c.amount && d.contribution.period == c.period
    ensures d.contribution.paymentMethod == c.paymentMethod
    ensures d.contribution.completeUrl == FrontendUrl + "/join/complete"
    ensures d.loginUrl == FrontendUrl + "/auth/login"
    ensures d.setPasswordUrl == FrontendUrl + "/auth/set-password"
    ensures d.confirmUrl == FrontendUrl + "/join/confirm-email"
  {
    SignupData(
      c.email,
      ContributionData(c.amount, c.period, AbsorbsFee(c), false, c.paymentMethod, CompleteUrl),
      LoginUrl, SetPasswordUrl, ConfirmUrl)
  }

  /** Two contributions produce the same request exactly when they agree on
      email, amount, period, payment method and whether the fee is absorbed:
      the names are not sent, nor is the fee box of a non-monthly period. */
  lemma PayloadDeterminedBy(c1: Contribution, c2: Contribution)
    ensures Payload(c1) == Payload(c2) <==>
      c1.email == c2.email && c1.amount == c2.amount && c1.period == c2.period &&
      c1.paymentMethod == c2.paymentMethod && AbsorbsFee(c1) == AbsorbsFee(c2)
  {
  }

  /** A contribution of the sentinel amount, read after updateFee, asks to
      absorb the fee exactly when it is monthly. */
  lemma ForcedFeeReachesRequest(f: FormInputs)
    requires Readable(f) && Read(f).amount == ForcedFeeAmount
    ensures Readable(UpdateFeeView(f))
    ensures Payload(Read(UpdateFeeView(f))).contribution.payFee <==> f.period == Monthly
  {
  }
}
