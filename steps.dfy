/** The step state machine: the `.js-form` step forms, of which one is
    shown, and the submit control of each (handleSubmit and handleBack). */
module Steps {
  import opened Common

  /** A submit control's `disabled` flag and `is-loading` class. */
  datatype SubmitControl = SubmitControl(disabled: bool, loading: bool)

  /** One step form: whether it carries d-none, and its submit control. */
  datatype StepForm = StepForm(hidden: bool, submit: SubmitControl)

  /** A control that accepts clicks. */
  const Idle := SubmitControl(false, false)

  /** A control while its step's handler runs. */
  const Busy := SubmitControl(true, true)

  /** Step i is the one step shown. */
  predicate ShowsOnly(s: seq<StepForm>, i: int) {
    0 <= i < |s| && forall j :: 0 <= j < |s| ==> (!s[j].hidden <==> j == i)
  }

  /** The settlement of step i's handler can be applied without the
      source's crash: there is a step after i whenever i advances. */
  predicate Resolvable(n: int, i: int, outcome: Outcome) {
    0 <= i < n && (outcome == ResolvedTruthy ==> i + 1 < n)
  }

  /** Step i can be submitted and its settlement applied: its control
      accepts clicks (a disabled submitter cannot submit its form) and the
      settlement is resolvable. */
  predicate CanSettle(s: seq<StepForm>, i: int, outcome: Outcome) {
    Resolvable(|s|, i, outcome) && !s[i].submit.disabled
  }

  /** Handling a click in step i stays clear of the source's crash: there is
      a step before i whenever the click is on the back control. */
  predicate CanGoBack(n: int, i: int, onBack: bool) {
    0 <= i < n && (onBack ==> 0 < i)
  }

  /** The step forms once handleSubmit for step i has started its handler:
      the submitter is disabled and loading, nothing else changes. */
  function AfterStart(s: seq<StepForm>, i: int): (r: seq<StepForm>)
    requires 0 <= i < |s|
    ensures |r| == |s|
    ensures r[i].submit == Busy && r[i].hidden == s[i].hidden
    ensures forall j :: 0 <= j < |s| && j != i ==> r[j] == s[j]
  {
    s[i := s[i].(submit := Busy)]
  }

  /** The step forms once the handler started for step i settles with
      `outcome`, whichever step is shown by then. */
  function AfterSettle(s: seq<StepForm>, i: int, outcome: Outcome): (r: seq<StepForm>)
    requires Resolvable(|s|, i, outcome)
    ensures |r| == |s|
    ensures outcome == ResolvedTruthy ==> r[i].hidden && !r[i + 1].hidden && r[i].submit == Idle
    ensures outcome == Rejected ==> r[i].submit == Idle
    ensures outcome == ResolvedFalsy || outcome == Pending ==> r == s
    ensures outcome != ResolvedTruthy ==> forall j :: 0 <= j < |s| ==> r[j].hidden == s[j].hidden
    ensures forall j :: 0 <= j < |s| && j != i ==> r[j].submit == s[j].submit
    ensures forall j :: 0 <= j < |s| && j != i && j != i + 1 ==> r[j] == s[j]
  {
    match outcome
    case ResolvedTruthy =>
      s[i := s[i].(hidden := true, submit := Idle)][i + 1 := s[i + 1].(hidden := false)]
    case Rejected => s[i := s[i].(submit := Idle)]
    case ResolvedFalsy => s
    case Pending => s
  }

  /** The step forms after a submit of step i whose handler settles with
      `outcome` before anything else happens. */
  function AfterSubmit(s: seq<StepForm>, i: int, outcome: Outcome): (r: seq<StepForm>)
    requires CanSettle(s, i, outcome)
    ensures |r| == |s|
    ensures r[i].submit == (if outcome == ResolvedTruthy || outcome == Rejected then Idle else Busy)
    ensures outcome == ResolvedTruthy ==> r[i].hidden && !r[i + 1].hidden
    ensures outcome != ResolvedTruthy ==> forall j :: 0 <= j < |s| ==> r[j].hidden == s[j].hidden
    ensures forall j :: 0 <= j < |s| && j != i ==> r[j].submit == s[j].submit
    ensures forall j :: 0 <= j < |s| && j != i && j != i + 1 ==> r[j] == s[j]
  {
    AfterSettle(AfterStart(s, i), i, outcome)
  }

  /** The step forms after a click in step i, on the back control or not. */
  function AfterBack(s: seq<StepForm>, i: int, onBack: bool): (r: seq<StepForm>)
    requires CanGoBack(|s|, i, onBack)
    ensures |r| == |s|
    ensures !onBack ==> r == s
    ensures onBack ==> r[i].hidden && !r[i - 1].hidden
    ensures forall j :: 0 <= j < |s| ==> r[j].submit == s[j].submit
    ensures forall j :: 0 <= j < |s| && j != i && j != i - 1 ==> r[j] == s[j]
  {
    if !onBack then s
    else s[i := s[i].(hidden := true)][i - 1 := s[i - 1].(hidden := false)]
  }

  /** A submit of the shown step keeps exactly one step shown: the next one
      when the handler resolved truthy, the same one otherwise. */
  lemma SubmitKeepsOneShown(s: seq<StepForm>, i: int, outcome: Outcome)
    requires ShowsOnly(s, i) && CanSettle(s, i, outcome)
    ensures ShowsOnly(AfterSubmit(s, i, outcome), if outcome == ResolvedTruthy then i + 1 else i)
  {
  }

  /** The step after the shown one is revealed exactly when the handler
      resolved truthy. */
  lemma SubmitRevealsNextIffTruthy(s: seq<StepForm>, i: int, outcome: Outcome)
    requires ShowsOnly(s, i) && CanSettle(s, i, outcome) && i + 1 < |s|
    ensures !AfterSubmit(s, i, outcome)[i + 1].hidden <==> outcome == ResolvedTruthy
  {
  }

  /** A click on the back control of the shown step keeps exactly one step
      shown: the previous one. Any other click changes nothing. */
  lemma BackKeepsOneShown(s: seq<StepForm>, i: int, onBack: bool)
    requires ShowsOnly(s, i) && CanGoBack(|s|, i, onBack)
    ensures ShowsOnly(AfterBack(s, i, onBack), if onBack then i - 1 else i)
  {
  }

  // ---------------------------------------------------------------------
  // Runs of events: a handler settles as an event of its own, so clicks
  // can come between a submit and its settlement.

  /** The step forms, and the steps whose handler has started and not yet
      settled. */
  datatype RunState = RunState(forms: seq<StepForm>, running: set<int>)

  /** What happens on the page: the user submits a step, the handler started
      for a step settles with a value or rejects, or the user clicks in a
      step, on its back control or elsewhere. A handler that never settles
      has no settlement event. */
  datatype UiEvent =
    | Submitted(step: int)
    | Settled(step: int, outcome: Outcome)
    | Clicked(step: int, onBack: bool)

  /** The user acts only on a shown step and submits only through a control
      that accepts clicks; only a running handler settles; and no event
      takes one of the source's crash paths. */
  predicate Permitted(r: RunState, e: UiEvent) {
    match e
    case Submitted(k) => 0 <= k < |r.forms| && !r.forms[k].hidden && !r.forms[k].submit.disabled
    case Settled(k, o) => k in r.running && o != Pending && Resolvable(|r.forms|, k, o)
    case Clicked(k, b) => CanGoBack(|r.forms|, k, b) && !r.forms[k].hidden
  }

  /** The state after the event `e`. */
  function Next(r: RunState, e: UiEvent): (t: RunState)
    requires Permitted(r, e)
    ensures |t.forms| == |r.forms|
    ensures e.Submitted? ==> e.step in t.running
    ensures e.Settled? ==> e.step !in t.running
    ensures e.Clicked? ==> t.running == r.running
    ensures forall k :: k != e.step ==> (k in t.running <==> k in r.running)
  {
    match e
    case Submitted(k) => RunState(AfterStart(r.forms, k), r.running + {k})
    case Settled(k, o) => RunState(AfterSettle(r.forms, k, o), r.running - {k})
    case Clicked(k, b) => RunState(AfterBack(r.forms, k, b), r.running)
  }

  /** Every event of `es` is permitted in the state it happens in. */
  predicate PermittedRun(r: RunState, es: seq<UiEvent>)
    decreases |es|
  {
    es == [] || (Permitted(r, es[0]) && PermittedRun(Next(r, es[0]), es[1..]))
  }

  /** The state after the run `es`. */
  function Replay(r: RunState, es: seq<UiEvent>): (t: RunState)
    requires PermittedRun(r, es)
    ensures |t.forms| == |r.forms|
    ensures forall k :: k in t.running ==> k in r.running || Submitted(k) in es
    decreases |es|
  {
    if es == [] then r else Replay(Next(r, es[0]), es[1..])
  }

  /** No back click of `es` happens while a handler is running. */
  predicate BacksOnlyWhenIdle(r: RunState, es: seq<UiEvent>)
    requires PermittedRun(r, es)
    decreases |es|
  {
    es == [] ||
    ((es[0].Clicked? && es[0].onBack ==> r.running == {}) && BacksOnlyWhenIdle(Next(r, es[0]), es[1..]))
  }

  /** The step meant to be shown after `e`, when step i was. */
  function Target(i: int, e: UiEvent): int {
    match e
    case Submitted(_) => i
    case Settled(k, o) => if o == ResolvedTruthy then k + 1 else i
    case Clicked(k, b) => if b then k - 1 else i
  }

  /** The step meant to be shown at the end of the run `es`. */
  function Position(i: int, es: seq<UiEvent>): int
    decreases |es|
  {
    if es == [] then i else Position(Target(i, es[0]), es[1..])
  }

  /** Step i is the one shown, and a running handler can only be its own. */
  predicate Consistent(r: RunState, i: int) {
    ShowsOnly(r.forms, i) && r.running <= {i}
  }

  /** One permitted event that is not a back click during a running handler
      keeps the state consistent. */
  lemma EventKeepsOneShown(r: RunState, i: int, e: UiEvent)
    requires Consistent(r, i) && Permitted(r, e)
    requires e.Clicked? && e.onBack ==> r.running == {}
    ensures Consistent(Next(r, e), Target(i, e))
  {
  }

  /** Exactly one step is shown after any permitted run with no back click
      while a handler is running, when exactly one was shown before and no
      handler of another step was running. */
  lemma {:induction false} ReplayKeepsOneShown(r: RunState, i: int, es: seq<UiEvent>)
    requires Consistent(r, i) && PermittedRun(r, es) && BacksOnlyWhenIdle(r, es)
    ensures Consistent(Replay(r, es), Position(i, es))
    decreases |es|
  {
    if es != [] {
      EventKeepsOneShown(r, i, es[0]);
      ReplayKeepsOneShown(Next(r, es[0]), Target(i, es[0]), es[1..]);
    }
  }

  /** Without that restriction the invariant fails: submit a middle step,
      click back before its handler settles, and let it resolve truthy.
      The previous step and the next one are then both shown. */
  lemma LateSettlementShowsTwoSteps(s: seq<StepForm>, i: int)
    requires ShowsOnly(s, i) && 0 < i && i + 1 < |s| && !s[i].submit.disabled
    ensures PermittedRun(RunState(s, {}), [Submitted(i), Clicked(i, true), Settled(i, ResolvedTruthy)])
    ensures var t := Replay(RunState(s, {}), [Submitted(i), Clicked(i, true), Settled(i, ResolvedTruthy)]).forms;
      !t[i - 1].hidden && !t[i + 1].hidden
  {
    var es := [Submitted(i), Clicked(i, true), Settled(i, ResolvedTruthy)];
    var r1 := Next(RunState(s, {}), es[0]);
    var r2 := Next(r1, es[1]);
    var r3 := Next(r2, es[2]);
    assert es[1..][1..] == [es[2]] && [es[2]][1..] == [];
    assert PermittedRun(r2, es[1..][1..]);
    assert Replay(r2, es[1..][1..]) == r3;
    assert Replay(RunState(s, {}), es) == r3;
  }

  /** No event of `es` submits step k. */
  predicate NeverSubmits(es: seq<UiEvent>, k: int) {
    forall m :: 0 <= m < |es| ==> es[m] != Submitted(k)
  }

  /** No event of `es` settles the handler of step k. */
  predicate NeverSettles(es: seq<UiEvent>, k: int) {
    forall m :: 0 <= m < |es| && es[m].Settled? ==> es[m].step != k
  }

  /** A disabled control whose handler is not running, or never settles,
      stays disabled, so its step's handler never runs again: a handler
      that resolved falsy, or that never settles, ends the step. */
  lemma {:induction false} BusyControlBlocksHandler(r: RunState, es: seq<UiEvent>, k: int)
    requires 0 <= k < |r.forms| && r.forms[k].submit.disabled
    requires k !in r.running || NeverSettles(es, k)
    requires PermittedRun(r, es)
    ensures NeverSubmits(es, k)
    ensures Replay(r, es).forms[k].submit.disabled
    decreases |es|
  {
    if es != [] {
      var t := Next(r, es[0]);
      assert es[0].Settled? ==> es[0].step != k by {
        if es[0].Settled? && k in r.running {
          assert NeverSettles(es, k);
        }
      }
      assert k !in t.running || NeverSettles(es[1..], k) by {
        if NeverSettles(es, k) {
          forall m | 0 <= m < |es[1..]| && es[1..][m].Settled?
            ensures es[1..][m].step != k
          {
            assert es[1..][m] == es[m + 1];
          }
        }
      }
      BusyControlBlocksHandler(t, es[1..], k);
      forall m | 0 <= m < |es|
        ensures es[m] != Submitted(k)
      {
        if 0 < m {
          assert es[m] == es[1..][m - 1];
        }
      }
    }
  }

  // ---------------------------------------------------------------------
  // The step forms on the page

  /** The page's `.js-form` elements, updated in place. */
  class Wizard {
    const steps: array<StepForm>

    /** The markup: the first of n steps shown, every control idle. */
    constructor (n: nat)
      requires 0 < n
      ensures fresh(steps) && steps.Length == n
      ensures ShowsOnly(steps[..], 0)
      ensures forall j :: 0 <= j < n ==> steps[j].submit == Idle
    {
      steps := new StepForm[n](j => StepForm(j != 0, Idle));
    }

    /** The start of handleSubmit for step i: disable the submitter and mark
        it loading. */
    method Start(i: nat)
      requires i < steps.Length
      modifies steps
      ensures steps[..] == AfterStart(old(steps[..]), i)
    {
      steps[i] := steps[i].(submit := steps[i].submit.(disabled := true));
      steps[i] := steps[i].(submit := steps[i].submit.(loading := true));
    }

    /** The callbacks of handleSubmit for step i once its handler settles. */
    method Settle(i: nat, outcome: Outcome)
      requires Resolvable(steps.Length, i, outcome)
      modifies steps
      ensures steps[..] == AfterSettle(old(steps[..]), i, outcome)
    {
      match outcome {
        case ResolvedTruthy =>
          steps[i] := steps[i].(hidden := true);
          steps[i + 1] := steps[i + 1].(hidden := false);
          steps[i] := steps[i].(submit := Idle);
        case Rejected =>
          steps[i] := steps[i].(submit := Idle);
        case ResolvedFalsy =>
        case Pending =>
      }
    }

    /** handleSubmit for step i when its handler settles with `outcome`
        before anything else happens. */
    method Submit(i: nat, outcome: Outcome)
      requires CanSettle(steps[..], i, outcome)
      modifies steps
      ensures steps[..] == AfterSubmit(old(steps[..]), i, outcome)
    {
      Start(i);
      Settle(i, outcome);
    }

    /** handleBack for a click in step i. */
    method Back(i: nat, onBack: bool)
      requires CanGoBack(steps.Length, i, onBack)
      modifies steps
      ensures steps[..] == AfterBack(old(steps[..]), i, onBack)
    {
      if !onBack {
        return;
      }
      steps[i] := steps[i].(hidden := true);
      steps[i - 1] := steps[i - 1].(hidden := false);
    }
  }
}
