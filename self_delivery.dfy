/** The self-delivery screen: a three-step machine (1 ready, 2 out for
    delivery, 3 delivered) whose first step comes from the order's status
    label and whose two transitions each wait for a backend call. */
module SelfDelivery {
  import opened Js
  import opened Backend

  /** The first step shown for an order's status label (`statusLabel || ''`):
      3 when it mentions "Delivered", else 2 when it mentions "Out For
      Delivery", else 1. */
  function InitialStep(statusLabel: JsValue): (step: int)
    requires statusLabel.Str? || !Truthy(statusLabel)
    ensures 1 <= step <= 3
    ensures !Truthy(statusLabel) ==> step == 1
  {
    var status := if Truthy(statusLabel) then statusLabel.s else "";
    if Contains(status, "Delivered") || status == "Delivered" then 3
    else if Contains(status, "Out For Delivery") || status == "Out For Delivery" then 2
    else 1
  }

  /** A label equal to a marker contains it. */
  lemma ContainsItself(s: string)
    ensures Contains(s, s)
  {
    assert OccursAt(s, s, 0);
  }

  /** The exact-match tests of the initial step add nothing to the substring
      tests: the step is 3 exactly when the label contains "Delivered", 2
      exactly when it contains "Out For Delivery" but not "Delivered", and 1
      otherwise. */
  lemma InitialStepSpec(s: string)
    ensures InitialStep(Str(s)) == 3 <==> Contains(s, "Delivered")
    ensures InitialStep(Str(s)) == 2 <==> !Contains(s, "Delivered") && Contains(s, "Out For Delivery")
    ensures InitialStep(Str(s)) == 1 <==> !Contains(s, "Delivered") && !Contains(s, "Out For Delivery")
  {
    ContainsItself("Delivered");
    ContainsItself("Out For Delivery");
  }

  datatype StepColor = SuccessColor | PrimaryColor | MutedColor

  /** `getStepColor(stepId)` for the current step. */
  function ColorOf(stepId: int, current: int): StepColor {
    if stepId < current then SuccessColor
    else if stepId == current then PrimaryColor
    else MutedColor
  }

  /** At every current step, exactly that step is drawn as the current one,
      exactly the steps before it as done and exactly those after it as
      pending; and moving forward never turns a done step back. */
  lemma ColorOfSpec(current: int, later: int)
    requires current <= later
    ensures forall s :: ColorOf(s, current) == PrimaryColor <==> s == current
    ensures forall s :: ColorOf(s, current) == SuccessColor <==> s < current
    ensures forall s :: ColorOf(s, current) == MutedColor <==> s > current
    ensures forall s :: ColorOf(s, current) == SuccessColor ==> ColorOf(s, later) == SuccessColor
  {
  }

  /** What the action area shows at a step. */
  datatype ActionArea = StartDeliveryButton | MarkDeliveredButton | CompletedState

  function ActionAt(step: int): (a: ActionArea)
    requires 1 <= step <= 3
    ensures a == StartDeliveryButton <==> step == 1
    ensures a == MarkDeliveredButton <==> step == 2
  {
    if step == 1 then StartDeliveryButton
    else if step == 2 then MarkDeliveredButton
    else CompletedState
  }

  datatype Transition = StartDelivery | MarkDelivered

  /** A request the screen sent, for the order it shows. */
  datatype Request = OutForSelfDelivery(orderId: JsValue) | OrderDelivered(orderId: JsValue)

  const START_FAILED := "Could not update status"
  const DELIVER_FAILED := "Could not mark delivered"
  const STARTED := "Journey started. Drive safely!"
  const DELIVERED := "Order marked as delivered"

  /** The step a successful transition leads to. */
  function Target(t: Transition): int {
    match t
    case StartDelivery => 2
    case MarkDelivered => 3
  }

  class SelfDeliveryScreen {
    const orderId: JsValue
    const hasRefreshCallback: bool
    var step: int
    var loading: bool
    /** The transition whose backend call is in flight. */
    var pending: Option<Transition>
    var requests: seq<Request>
    var refreshCount: nat
    /** The message of the last alert shown. */
    var alertMessage: string
    var wentBack: bool

    ghost predicate Valid()
      reads this
    {
      && 1 <= step <= 3
      && (loading <==> pending.Some?)
      && (pending == Some(StartDelivery) ==> step == 1)
      && (pending == Some(MarkDelivered) ==> step == 2)
    }

    /** The screen opened on an order: the route's order id, its status label
        and whether the route passed an `onRefresh` function. */
    constructor(id: JsValue, statusLabel: JsValue, refresh: bool)
      requires statusLabel.Str? || !Truthy(statusLabel)
      ensures Valid()
      ensures orderId == id && hasRefreshCallback == refresh
      ensures step == InitialStep(statusLabel) && !loading
      ensures requests == [] && refreshCount == 0 && alertMessage == "" && !wentBack
    {
      orderId := id;
      hasRefreshCallback := refresh;
      step := InitialStep(statusLabel);
      loading := false;
      pending := None;
      requests := [];
      refreshCount := 0;
      alertMessage := "";
      wentBack := false;
    }

    /** The action button is offered for the step and not disabled. */
    predicate CanConfirm(t: Transition)
      reads this
    {
      !loading && (if t == StartDelivery then step == 1 else step == 2)
    }

    /** The confirm branch of the Start Delivery or Mark as Delivered alert,
        up to the backend call: loading is set and the request goes out. */
    method Confirm(t: Transition)
      requires Valid() && CanConfirm(t)
      modifies this
      ensures Valid()
      ensures loading && pending == Some(t)
      ensures requests == old(requests) + [if t == StartDelivery then OutForSelfDelivery(orderId) else OrderDelivered(orderId)]
      ensures step == old(step) && refreshCount == old(refreshCount)
      ensures alertMessage == old(alertMessage) && wentBack == old(wentBack)
    {
      loading := true;
      pending := Some(t);
      var req := if t == StartDelivery then OutForSelfDelivery(orderId) else OrderDelivered(orderId);
      requests := requests + [req];
    }

    /** The rest of the handler, once the call has settled: the step advances
        and the refresh callback runs only on a `success` envelope; any other
        envelope or a thrown error shows its message (or the default text) and
        leaves the step alone; loading ends on every path. Confirming the
        delivered alert goes back. */
    method Settle(outcome: Outcome<()>)
      requires Valid() && pending.Some?
      modifies this
      ensures Valid()
      ensures !loading && pending == None
      ensures requests == old(requests)
      ensures outcome.Success? ==> step == Target(old(pending).value)
      ensures !outcome.Success? ==> step == old(step)
      ensures refreshCount == old(refreshCount) + (if outcome.Success? && hasRefreshCallback then 1 else 0)
      ensures outcome.Success? ==>
                alertMessage == (if old(pending) == Some(StartDelivery) then STARTED else DELIVERED)
      ensures !outcome.Success? ==>
                alertMessage == ErrorText(outcome.message,
                                          if old(pending) == Some(StartDelivery) then START_FAILED else DELIVER_FAILED)
      ensures wentBack == (old(wentBack) || (outcome.Success? && old(pending) == Some(MarkDelivered)))
    {
      var t := pending.value;
      if outcome.Success? {
        step := Target(t);
        if hasRefreshCallback {
          refreshCount := refreshCount + 1;
        }
        if t == StartDelivery {
          alertMessage := STARTED;
        } else {
          alertMessage := DELIVERED;
          wentBack := true;
        }
      } else {
        alertMessage := ErrorText(outcome.message, if t == StartDelivery then START_FAILED else DELIVER_FAILED);
      }
      loading := false;
      pending := None;
    }
  }

  /** A scenario driver for the whole journey: from step 1, two successful transitions reach step 3
      with two requests sent, one per transition, in order. */
  method Journey(id: JsValue) returns (steps: seq<int>, sent: seq<Request>)
    ensures steps == [1, 2, 3]
    ensures sent == [OutForSelfDelivery(id), OrderDelivered(id)]
  {
    var screen := new SelfDeliveryScreen(id, Str(StepStatus(1)), true);
    StepStatusRoundTrip(1);
    steps := [screen.step];
    screen.Confirm(StartDelivery);
    screen.Settle(Success(()));
    steps := steps + [screen.step];
    screen.Confirm(MarkDelivered);
    screen.Settle(Success(()));
    steps := steps + [screen.step];
    sent := screen.requests;
  }

  lemma NotContainsDelivered()
    ensures !Contains("Self Delivery", "Delivered")
    ensures !Contains("Out For Delivery", "Delivered")
  {
    MissingCharacterNotContained("Self Delivery", "Delivered", 8);
    MissingCharacterNotContained("Out For Delivery", "Delivered", 8);
  }

  /** The status each step stands for, as the step list on the screen names it. */
  function StepStatus(step: int): string
    requires 1 <= step <= 3
  {
    if step == 1 then "Self Delivery" else if step == 2 then "Out For Delivery" else "Delivered"
  }

  /** An order whose label is a step's own status opens at that step. */
  lemma StepStatusRoundTrip(step: int)
    requires 1 <= step <= 3
    ensures InitialStep(Str(StepStatus(step))) == step
  {
    NotContainsDelivered();
    ContainsItself("Delivered");
    ContainsItself("Out For Delivery");
  }
}
