/** The contribution chosen in step 1 of the wizard: reading it from the
    form (getContribution), the fee controls (updateFee) and the visibility
    of the amount groups (updateStep1). */
module ContributionModel {
  import opened Common

  /** The only period for which the processing fee can be absorbed. */
  const Monthly: string := "monthly"

  /** The amount for which paying the fee is compulsory. */
  const ForcedFeeAmount: int := 1

  /** The value of the checked `amount_<period>` option: the literal
      "custom", or a preset amount. */
  datatype AmountOption = Custom | Preset(amount: int)

  /** One `.js-period-amounts` group of step 1: the amount options and the
      custom-amount field of one period, with the display flags the page
      toggles on the group and on its custom field. */
  datatype PeriodGroup = PeriodGroup(
    period: string,          // the group's data-period attribute
    selected: AmountOption,  // the amount option checked inside the group
    customAmount: int,       // the value typed into its custom_amount field
    hidden: bool,            // the group carries d-none
    disabled: bool,          // the group is disabled
    customHidden: bool,      // the custom field carries d-none
    customDisabled: bool)    // the custom field is disabled

  /** The fee section: the pay_fee checkbox, the section itself and its two
      indicators ("opt-in" and "required"). */
  datatype FeeControls = FeeControls(
    checked: bool,
    disabled: bool,
    sectionHidden: bool,
    optInHidden: bool,
    requiredHidden: bool)

  /** Everything getContribution, updateFee and updateStep1 read or write. */
  datatype FormInputs = FormInputs(
    email: string,
    period: string,          // the checked `period` option
    groups: seq<PeriodGroup>,
    paymentMethod: string,   // the checked `payment_method` option
    fee: FeeControls,
    firstName: string,
    lastName: string)

  /** The value object built afresh on every read of the form. */
  datatype Contribution = Contribution(
    email: string,
    amount: int,
    period: string,
    paymentMethod: string,
    payFee: bool,
    firstName: string,
    lastName: string)

  /** Group k is the first group, in document order, for `period`: the one
      whose `amount_<period>` and `custom_amount_<period>` fields a
      document-wide lookup by name finds. */
  predicate FirstOfPeriod(gs: seq<PeriodGroup>, period: string, k: int) {
    0 <= k < |gs| && gs[k].period == period &&
    forall j :: 0 <= j < k ==> gs[j].period != period
  }

  /** The index of the first group for `period`, if there is one. */
  function FindGroup(gs: seq<PeriodGroup>, period: string): (r: Option<nat>)
    ensures r.Some? ==> FirstOfPeriod(gs, period, r.value)
    ensures r.None? ==> forall j :: 0 <= j < |gs| ==> gs[j].period != period
  {
    if gs == [] then None
    else if gs[0].period == period then Some(0)
    else match FindGroup(gs[1..], period)
      case None => None
      case Some(k) => Some(k + 1)
  }

  /** The form can be read: a group exists for the checked period (otherwise
      the lookup yields nothing and reading `.value` of it throws). */
  predicate Readable(f: FormInputs) {
    FindGroup(f.groups, f.period).Some?
  }

  /** getContribution: the amount is the custom field's value when the
      checked option is "custom" and the preset otherwise; every other field
      is copied from its input, payFee from the fee checkbox. */
  function Read(f: FormInputs): (c: Contribution)
    requires Readable(f)
    ensures forall k :: FirstOfPeriod(f.groups, f.period, k) ==>
      (f.groups[k].selected == Custom ==> c.amount == f.groups[k].customAmount) &&
      (f.groups[k].selected.Preset? ==> c.amount == f.groups[k].selected.amount)
    ensures c.period == f.period && c.paymentMethod == f.paymentMethod
    ensures c.payFee == f.fee.checked
    ensures c.email == f.email && c.firstName == f.firstName && c.lastName == f.lastName
  {
    var g := f.groups[FindGroup(f.groups, f.period).value];
    var amount := match g.selected
      case Custom => g.customAmount
      case Preset(a) => a;
    Contribution(f.email, amount, f.period, f.paymentMethod, f.fee.checked, f.firstName, f.lastName)
  }

  // ---------------------------------------------------------------------
  // updateFee

  /** The fee section after updateFee, given the contribution read and the
      section before. */
  function FeeUpdate(c: Contribution, fee: FeeControls): (r: FeeControls)
    ensures r.disabled <==> c.amount == ForcedFeeAmount
    ensures c.amount == ForcedFeeAmount ==> r.checked
    ensures c.amount != ForcedFeeAmount ==> r.checked == fee.checked
    ensures r.sectionHidden <==> c.period != Monthly
    ensures r.optInHidden <==> c.amount == ForcedFeeAmount
    ensures r.requiredHidden <==> c.amount != ForcedFeeAmount
  {
    var force := c.amount == ForcedFeeAmount;
    FeeControls(fee.checked || force, force, c.period != Monthly, force, !force)
  }

  /** The whole form after updateFee: only the fee section changes. */
  function UpdateFeeView(f: FormInputs): FormInputs
    requires Readable(f)
  {
    f.(fee := FeeUpdate(Read(f), f.fee))
  }

  /** After updateFee, a contribution of the sentinel amount reads with
      payFee set and its checkbox locked, whatever the box held before; the
      amount and period read do not change. */
  lemma ForcedFeeIsPaid(f: FormInputs)
    requires Readable(f) && Read(f).amount == ForcedFeeAmount
    ensures Readable(UpdateFeeView(f))
    ensures Read(UpdateFeeView(f)).payFee
    ensures UpdateFeeView(f).fee.disabled
    ensures Read(UpdateFeeView(f)).amount == ForcedFeeAmount
  {
  }

  /** updateFee only touches the fee section, so running it twice is the
      same as running it once. */
  lemma UpdateFeeIdempotent(f: FormInputs)
    requires Readable(f)
    ensures Readable(UpdateFeeView(f))
    ensures UpdateFeeView(UpdateFeeView(f)) == UpdateFeeView(f)
  {
  }

  // ---------------------------------------------------------------------
  // updateStep1

  /** One group after updateStep1 with `period` checked. */
  function GroupView(g: PeriodGroup, period: string): (r: PeriodGroup)
    ensures r.hidden == r.disabled == (g.period != period)
    ensures r.customHidden == r.customDisabled == (g.selected != Custom)
    ensures r.period == g.period && r.selected == g.selected && r.customAmount == g.customAmount
  {
    var isHidden := g.period != period;
    var isPreset := g.selected != Custom;
    g.(hidden := isHidden, disabled := isHidden, customHidden := isPreset, customDisabled := isPreset)
  }

  /** Every group after updateStep1 with `period` checked. */
  function ShowPeriod(gs: seq<PeriodGroup>, period: string): (r: seq<PeriodGroup>)
    ensures |r| == |gs|
    ensures forall k :: 0 <= k < |gs| ==> r[k] == GroupView(gs[k], period)
  {
    seq(|gs|, k requires 0 <= k < |gs| => GroupView(gs[k], period))
  }

  /** The whole form after updateStep1: only the groups' display flags change. */
  function UpdateStep1View(f: FormInputs): FormInputs
    requires Readable(f)
  {
    f.(groups := ShowPeriod(f.groups, Read(f).period))
  }

  /** Two group lists that agree on the period, selection and custom value
      of every group yield the same first group for every period. */
  lemma FindGroupIgnoresDisplay(gs: seq<PeriodGroup>, hs: seq<PeriodGroup>, period: string)
    requires |gs| == |hs|
    requires forall k :: 0 <= k < |gs| ==> hs[k].period == gs[k].period
    ensures FindGroup(hs, period) == FindGroup(gs, period)
  {
  }

  /** updateStep1 changes what is shown, never what is read. */
  lemma Step1KeepsContribution(f: FormInputs)
    requires Readable(f)
    ensures Readable(UpdateStep1View(f))
    ensures Read(UpdateStep1View(f)) == Read(f)
  {
  }

  /** updateStep1 is idempotent. */
  lemma UpdateStep1Idempotent(f: FormInputs)
    requires Readable(f)
    ensures Readable(UpdateStep1View(f))
    ensures UpdateStep1View(UpdateStep1View(f)) == UpdateStep1View(f)
  {
  }

  /** When every group has its own period and one of them is the checked
      period, updateStep1 leaves exactly that group shown and enabled. */
  lemma OneGroupShown(gs: seq<PeriodGroup>, period: string, k: int)
    requires forall i, j :: 0 <= i < j < |gs| ==> gs[i].period != gs[j].period
    requires 0 <= k < |gs| && gs[k].period == period
    ensures !ShowPeriod(gs, period)[k].hidden && !ShowPeriod(gs, period)[k].disabled
    ensures forall j :: 0 <= j < |gs| && j != k ==> ShowPeriod(gs, period)[j].hidden
  {
  }

  // ---------------------------------------------------------------------
  // The form on the page

  /** The inputs of the signup page. The period groups are the page's
      `.js-period-amounts` elements, updated in place. */
  class SignupForm {
    var email: string
    var period: string
    var paymentMethod: string
    var fee: FeeControls
    var firstName: string
    var lastName: string
    const groups: array<PeriodGroup>

    /** The form as the markup delivers it. */
    constructor (inputs: FormInputs)
      ensures Inputs() == inputs && fresh(groups)
    {
      email, period, paymentMethod := inputs.email, inputs.period, inputs.paymentMethod;
      fee, firstName, lastName := inputs.fee, inputs.firstName, inputs.lastName;
      groups := new PeriodGroup[|inputs.groups|](k requires 0 <= k < |inputs.groups| => inputs.groups[k]);
    }

    /** The current state of the inputs as a value. */
    function Inputs(): FormInputs
      reads this, groups
    {
      FormInputs(email, period, groups[..], paymentMethod, fee, firstName, lastName)
    }

    /** updateFee: lock and tick the fee box for the sentinel amount, free it
        otherwise, and show the fee section only for monthly contributions. */
    method UpdateFee()
      requires Readable(Inputs())
      modifies this
      ensures Inputs() == UpdateFeeView(old(Inputs()))
    {
      var contribution := Read(Inputs());
      var forceFee := contribution.amount == ForcedFeeAmount;
      fee := fee.(disabled := forceFee);
      if forceFee {
        fee := fee.(checked := true);
      }
      fee := fee.(sectionHidden := contribution.period != Monthly);
      fee := fee.(optInHidden := forceFee);
      fee := fee.(requiredHidden := !forceFee);
    }

    /** updateStep1: show and enable only the groups of the checked period,
        and in each group the custom field only when "custom" is checked. */
    method UpdateStep1()
      requires Readable(Inputs())
      modifies groups
      ensures Inputs() == UpdateStep1View(old(Inputs()))
    {
      var contribution := Read(Inputs());
      var i := 0;
      while i < groups.Length
        invariant 0 <= i <= groups.Length
        invariant forall k :: 0 <= k < i ==> groups[k] == GroupView(old(groups[k]), contribution.period)
        invariant forall k :: i <= k < groups.Length ==> groups[k] == old(groups[k])
      {
        var el := groups[i];
        var isHidden := el.period != contribution.period;
        el := el.(hidden := isHidden, disabled := isHidden);
        var isPreset := el.selected != Custom;
        el := el.(customHidden := isPreset, customDisabled := isPreset);
        groups[i] := el;
        i := i + 1;
      }
      assert groups[..] == ShowPeriod(old(groups[..]), contribution.period);
    }
  }
}
