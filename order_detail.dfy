/** The order detail screen's swipe-to-accept control: the drag progress and
    icon, the release decision, the accept/reject request it sends, and what
    happens once the request settles. */
module OrderDetail {
  import opened Js
  import opened Backend
  import Orders

  /* ---------------- pure parts of the swipe ---------------- */

  /** `Math.max(-1, Math.min(1, dx / (width * 0.7)))` */
  function Progress(dx: real, width: real): (p: real)
    requires width > 0.0
    ensures -1.0 <= p <= 1.0
    ensures -1.0 <= dx / (width * 0.7) <= 1.0 ==> p == dx / (width * 0.7)
  {
    var raw := dx / (width * 0.7);
    if raw > 1.0 then 1.0 else if raw < -1.0 then -1.0 else raw
  }

  datatype Icon = Check | Cross | Point

  /** The drag icon for a progress value. */
  function IconFor(progress: real): Icon {
    if progress > 0.5 then Check else if progress < -0.5 then Cross else Point
  }

  /** In terms of the finger's travel, the icon turns to a check past 0.35 of
      the screen width to the right and to a cross past 0.35 to the left. */
  lemma IconThresholds(dx: real, width: real)
    requires width > 0.0
    ensures IconFor(Progress(dx, width)) == Check <==> dx > 0.35 * width
    ensures IconFor(Progress(dx, width)) == Cross <==> dx < -0.35 * width
  {
    var w := width * 0.7;
    var raw := dx / w;
    assert dx == raw * w;
    if raw > 0.5 {
      assert dx > 0.5 * w;
    } else {
      assert dx <= 0.5 * w;
    }
    if raw < -0.5 {
      assert dx < -0.5 * w;
    } else {
      assert dx >= -0.5 * w;
    }
  }

  datatype Decision = Reset | AcceptSwipe | RejectSwipe

  /** The release handler as its guard is meant to work: while a request is
      in flight a release only resets; otherwise a travel strictly beyond half
      the width accepts (right) or rejects (left) and anything shorter resets. */
  function Release(dx: real, width: real, loading: bool): (d: Decision)
    requires width > 0.0
    ensures loading ==> d == Reset
    ensures !loading ==> (d == AcceptSwipe <==> dx > width * 0.5)
    ensures !loading ==> (d == RejectSwipe <==> dx < -width * 0.5)
  {
    if loading then Reset
    else if dx > width * 0.5 then AcceptSwipe
    else if dx < -width * 0.5 then RejectSwipe
    else Reset
  }

  /** The release handler as written: it is created once, with the first
      render's `loading`, which is false, so its guard never fires. */
  function ReleaseAsWritten(dx: real, width: real, loading: bool): (d: Decision)
    requires width > 0.0
    ensures d == Release(dx, width, false)
  {
    var loadingSeen := false;
    if loadingSeen then Reset
    else if dx > width * 0.5 then AcceptSwipe
    else if dx < -width * 0.5 then RejectSwipe
    else Reset
  }

  /** The progress after a move as the move handler's guard is meant to
      work: while a request is in flight the swipe stays where it is;
      otherwise it follows the finger. */
  function Moved(dx: real, width: real, loading: bool, current: real): (p: real)
    requires width > 0.0
    ensures -1.0 <= current <= 1.0 ==> -1.0 <= p <= 1.0
    ensures loading ==> p == current
    ensures !loading ==> p == Progress(dx, width)
  {
    if loading then current else Progress(dx, width)
  }

  /** The move handler as written: created once with the first render's
      `loading`, which is false, it follows the finger even while a request
      is in flight. */
  function MoveAsWritten(dx: real, width: real, loading: bool, current: real): (p: real)
    requires width > 0.0
    ensures p == Moved(dx, width, false, current)
  {
    var loadingSeen := false;
    if loadingSeen then current else Progress(dx, width)
  }

  /** A full-width drag during a request moves the swipe to its end as
      written, where the guard means it to stay put. */
  lemma StaleGuardMovesWhileLoading(width: real)
    requires width > 0.0
    ensures MoveAsWritten(width, width, true, 0.0) == 1.0
    ensures Moved(width, width, true, 0.0) == 0.0
  {
    assert width / (width * 0.7) > 1.0;
  }

  /** A full swipe made while the first request is still in flight accepts
      again as written, where the guard means it to reset. */
  lemma StaleGuardAcceptsWhileLoading(width: real)
    requires width > 0.0
    ensures ReleaseAsWritten(width, width, true) == AcceptSwipe
    ensures Release(width, width, true) == Reset
  {
  }

  /** The icon and the action disagree on a band: a travel between 0.35 and
      0.5 of the width shows the check, yet releasing there resets. Whenever
      a release accepts or rejects, the icon already showed it. */
  lemma IconLeadsRelease(dx: real, width: real)
    requires width > 0.0
    ensures Release(dx, width, false) == AcceptSwipe ==> IconFor(Progress(dx, width)) == Check
    ensures Release(dx, width, false) == RejectSwipe ==> IconFor(Progress(dx, width)) == Cross
    ensures Release(0.4 * width, width, false) == Reset && IconFor(Progress(0.4 * width, width)) == Check
  {
    IconThresholds(dx, width);
    IconThresholds(0.4 * width, width);
  }

  /** The status code an accept or reject sends, `String(statValue)`: "1" for
      an accept with self delivery checked, "2" for an accept without, "0" for
      a reject. */
  function StatValue(d: Decision, selfDelivery: bool): (code: string)
    requires d != Reset
    ensures code == "0" <==> d == RejectSwipe
    ensures code == "1" <==> d == AcceptSwipe && selfDelivery
    ensures code == "2" <==> d == AcceptSwipe && !selfDelivery
    ensures d == RejectSwipe ==> code == IntToDecimal(0)
    ensures d == AcceptSwipe ==> code == IntToDecimal(if selfDelivery then 1 else 2)
  {
    assert IntToDecimal(0) == [DigitChar(0)] == "0";
    assert IntToDecimal(1) == [DigitChar(1)] == "1";
    assert IntToDecimal(2) == [DigitChar(2)] == "2";
    match d
    case RejectSwipe => "0"
    case AcceptSwipe => if selfDelivery then "1" else "2"
  }

  /** The order identifier sent to the backend: the order number with one
      leading '#' removed. */
  function OrderIdentifier(rawOrderNumber: string): (id: string)
    ensures StartsWith(rawOrderNumber, "#") ==> "#" + id == rawOrderNumber
    ensures !StartsWith(rawOrderNumber, "#") ==> id == rawOrderNumber
  {
    if StartsWith(rawOrderNumber, "#") then rawOrderNumber[1..] else rawOrderNumber
  }

  /** For a normalised order the identifier is `String(F4_NO)` again, even
      when that itself starts with '#': only the added '#' goes. */
  lemma OrderIdentifierOfNormalised(raw: Orders.RawOrder)
    ensures OrderIdentifier(Orders.Transform(raw).orderNumber) == ToJsString(raw.number)
  {
    var n := Orders.Transform(raw).orderNumber;
    assert n[..1] == "#";
    assert n[1..] == ToJsString(raw.number);
  }

  /** The swipe control is shown only on the incoming tab, for an order whose
      `status` is neither "Accept" nor "Accepted". */
  predicate SwipeVisible(activeTab: string, status: JsValue) {
    var isAccepted := status == Str("Accept") || status == Str("Accepted");
    var shouldHide := isAccepted || activeTab == "onDelivery" || activeTab == "completed";
    !shouldHide && activeTab == "incoming"
  }

  /** Normalised orders carry no `status` field, so for them the swipe shows
      exactly on the incoming tab. */
  lemma SwipeVisibleForNormalised(activeTab: string)
    ensures SwipeVisible(activeTab, Undefined) <==> activeTab == "incoming"
  {
  }

  /* ---------------- the screen's state ---------------- */

  /** `acceptIncomingOrder(vendorId, orderIdentifier, status, String(statValue))` */
  datatype Request = AcceptIncomingOrder(vendorId: JsValue, orderId: string, status: string, statValue: string)

  const VENDOR_MISSING := "Vendor ID missing"
  const ACTION_FAILED := "Action failed"
  const NETWORK_ERROR := "Please try again"

  class OrderDetailScreen {
    const width: real
    const vendorId: JsValue
    const orderId: string
    var loading: bool
    var selfDelivery: bool
    var selfDeliveryRef: bool
    var progress: real
    var dragIcon: Icon
    /** The action ("Accept" or "Reject") whose request is in flight. */
    var pending: Option<string>
    var requests: seq<Request>
    var alertMessage: string
    var navigatedToMain: bool

    ghost predicate Valid()
      reads this
    {
      && width > 0.0
      && -1.0 <= progress <= 1.0
      && selfDeliveryRef == selfDelivery
      && (loading <==> pending.Some?)
    }

    /** The screen opened on an order: the window width, the vendor id
        (`user?.M1_CODE ?? route.params?.vendorId ?? null`) and the order number. */
    constructor(w: real, userCode: JsValue, routeVendorId: JsValue, orderNumber: string)
      requires w > 0.0
      ensures Valid()
      ensures width == w && vendorId == Coalesce(Coalesce(userCode, routeVendorId), Null)
      ensures orderId == OrderIdentifier(orderNumber)
      ensures !loading && !selfDelivery && progress == 0.0 && dragIcon == Point
      ensures requests == [] && !navigatedToMain && alertMessage == ""
    {
      width := w;
      vendorId := Coalesce(Coalesce(userCode, routeVendorId), Null);
      orderId := OrderIdentifier(orderNumber);
      loading := false;
      selfDelivery := false;
      selfDeliveryRef := false;
      progress := 0.0;
      dragIcon := Point;
      pending := None;
      requests := [];
      alertMessage := "";
      navigatedToMain := false;
    }

    /** The self-delivery checkbox: the state and the ref flip together. */
    method ToggleSelfDelivery()
      requires Valid()
      modifies this
      ensures Valid()
      ensures selfDelivery == !old(selfDelivery)
      ensures loading == old(loading) && progress == old(progress) && requests == old(requests)
      ensures pending == old(pending) && dragIcon == old(dragIcon) && alertMessage == old(alertMessage)
      ensures navigatedToMain == old(navigatedToMain)
    {
      selfDeliveryRef := !selfDelivery;
      selfDelivery := !selfDelivery;
    }

    /** A move of the finger: ignored while loading, otherwise the progress
        and the icon follow the travel. */
    method PanMove(dx: real)
      requires Valid()
      modifies this
      ensures Valid()
      ensures progress == Moved(dx, width, old(loading), old(progress))
      ensures old(loading) ==> progress == old(progress) && dragIcon == old(dragIcon)
      ensures !old(loading) ==> progress == Progress(dx, width) && dragIcon == IconFor(progress)
      ensures loading == old(loading) && pending == old(pending) && requests == old(requests)
      ensures selfDelivery == old(selfDelivery) && alertMessage == old(alertMessage)
      ensures navigatedToMain == old(navigatedToMain)
    {
      if !loading {
        progress := Progress(dx, width);
        dragIcon := IconFor(progress);
      }
    }

    /** `resetSwipe`, with its spring run to the end. */
    method ResetSwipe()
      requires Valid()
      modifies this
      ensures Valid()
      ensures progress == 0.0 && dragIcon == Point
      ensures loading == old(loading) && pending == old(pending) && requests == old(requests)
      ensures selfDelivery == old(selfDelivery) && alertMessage == old(alertMessage)
      ensures navigatedToMain == old(navigatedToMain)
    {
      progress := 0.0;
      dragIcon := Point;
    }

    /** Release of the finger, with the spring run to the end. An accept or
        reject goes to `handlePerformOrderAction`: with no vendor id it alerts
        and resets without a request; otherwise loading is set and the request
        goes out. */
    method PanRelease(dx: real)
      requires Valid()
      modifies this
      ensures Valid()
      ensures var d := Release(dx, width, old(loading));
              && (d == Reset ==> progress == 0.0 && dragIcon == Point && requests == old(requests)
                                 && loading == old(loading) && pending == old(pending)
                                 && alertMessage == old(alertMessage))
              && (d != Reset && !Truthy(vendorId) ==>
                    progress == 0.0 && dragIcon == Point && requests == old(requests)
                    && alertMessage == VENDOR_MISSING && !loading && pending == old(pending))
              && (d != Reset && Truthy(vendorId) ==>
                    progress == (if d == AcceptSwipe then 1.0 else -1.0)
                    && loading && pending == Some(if d == AcceptSwipe then "Accept" else "Reject")
                    && dragIcon == old(dragIcon) && alertMessage == old(alertMessage)
                    && requests == old(requests) + [AcceptIncomingOrder(vendorId, orderId,
                                     if d == AcceptSwipe then "Accept" else "Reject",
                                     StatValue(d, old(selfDeliveryRef)))])
      ensures selfDelivery == old(selfDelivery) && navigatedToMain == old(navigatedToMain)
    {
      var d := Release(dx, width, loading);
      if d == Reset {
        ResetSwipe();
      } else {
        progress := if d == AcceptSwipe then 1.0 else -1.0;
        var status := if d == AcceptSwipe then "Accept" else "Reject";
        var stat := StatValue(d, selfDeliveryRef);
        if !Truthy(vendorId) {
          alertMessage := VENDOR_MISSING;
          ResetSwipe();
        } else {
          loading := true;
          pending := Some(status);
          requests := requests + [AcceptIncomingOrder(vendorId, orderId, status, stat)];
        }
      }
    }

    /** The rest of `handlePerformOrderAction`, once the call has settled:
        only a `success` envelope navigates to Main (after its alert is
        confirmed), leaving the swipe where it is; any other envelope or a
        thrown error alerts and resets the swipe. Loading ends on every path.
        A success carries the envelope's message. */
    method Settle(outcome: Outcome<string>)
      requires Valid() && pending.Some?
      modifies this
      ensures Valid()
      ensures !loading && pending == None && requests == old(requests)
      ensures navigatedToMain == (old(navigatedToMain) || outcome.Success?)
      ensures outcome.Success? ==>
                progress == old(progress) && dragIcon == old(dragIcon)
                && alertMessage == ErrorText(outcome.data, old(pending).value + "ed")
      ensures !outcome.Success? ==> progress == 0.0 && dragIcon == Point
      ensures outcome.BusinessFailure? ==> alertMessage == ErrorText(outcome.message, ACTION_FAILED)
      ensures outcome.Exception? ==> alertMessage == NETWORK_ERROR
      ensures selfDelivery == old(selfDelivery)
    {
      var status := pending.value;
      match outcome {
        case Success(message) =>
          alertMessage := ErrorText(message, status + "ed");
          navigatedToMain := true;
        case BusinessFailure(message) =>
          alertMessage := ErrorText(message, ACTION_FAILED);
          ResetSwipe();
        case Exception(_) =>
          alertMessage := NETWORK_ERROR;
          ResetSwipe();
      }
      loading := false;
      pending := None;
    }
  }
}
