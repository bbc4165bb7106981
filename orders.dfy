/** The orders screen: normalising the order records the backend returns,
    splitting the four per-status queries into the five lists the screen
    shows, picking the list for the selected tab, the status badge and the
    screen a tapped card opens. */
module Orders {
  import opened Js
  import opened Backend

  /** An order record as the order list endpoint returns it. */
  datatype RawOrder = RawOrder(
    number: JsValue,              // F4_NO
    customer: JsValue,            // M1_NAME
    add1: JsValue,                // F4_ADD1
    add2: JsValue,                // F4_ADD2
    add3: JsValue,                // F4_ADD3
    add4: JsValue,                // F4_ADD4
    add7: JsValue,                // F4_ADD7
    items: Option<seq<JsValue>>,  // items
    grandTotal: JsValue,          // F4_GTOT
    date: JsValue,                // F4_DATE
    stat: JsValue,                // F4_STAT
    statusText: JsValue)               // F4_BT

  datatype DeliveryType = SelfDelivery | PartnerDelivery | UnknownDelivery

  /** An order as the screen uses it. */
  datatype Order = Order(
    id: JsValue,
    orderNumber: string,
    customerName: JsValue,
    customerAddress: string,
    items: seq<JsValue>,
    itemCount: nat,
    totalAmount: JsNumber,
    time: JsValue,
    deliveryStat: JsValue,
    deliveryType: DeliveryType,
    statusLabel: JsValue,
    raw: RawOrder)

  /* ---------------- transformApiOrderToUI ---------------- */

  /** The delivery type read off `String(F4_STAT)`. */
  function DeliveryTypeOf(stat: JsValue): DeliveryType {
    var code := ToJsString(stat);
    if code == "1" then SelfDelivery
    else if code == "2" then PartnerDelivery
    else UnknownDelivery
  }

  /** The delivery type is self exactly for the number 1 and the string "1",
      partner exactly for 2 and "2", and unknown for every other status. */
  lemma DeliveryTypeSpec(stat: JsValue)
    ensures DeliveryTypeOf(stat) == SelfDelivery <==> stat == Num(1) || stat == Str("1")
    ensures DeliveryTypeOf(stat) == PartnerDelivery <==> stat == Num(2) || stat == Str("2")
    ensures DeliveryTypeOf(stat) == UnknownDelivery <==>
              !(stat == Num(1) || stat == Str("1") || stat == Num(2) || stat == Str("2"))
  {
    assert [DigitChar(1)] == "1" && [DigitChar(2)] == "2";
    ToJsStringIsDigit(stat, 1);
    ToJsStringIsDigit(stat, 2);
  }

  /** The five address fragments, in the order the address lists them. */
  function Fragments(raw: RawOrder): seq<JsValue> {
    [raw.add1, raw.add2, raw.add3, raw.add4, raw.add7]
  }

  /** `fragments.filter(Boolean).join(", ")`, one fragment at a time. */
  function Address(fragments: seq<JsValue>): string {
    if fragments == [] then ""
    else
      var rest := Address(fragments[1..]);
      if !Truthy(fragments[0]) then rest
      else if rest == "" then ToJsString(fragments[0])
      else ToJsString(fragments[0]) + ", " + rest
  }

  /** The rendered truthy fragments are all non-empty. */
  lemma RenderedTruthyNonEmpty(fragments: seq<JsValue>)
    ensures forall i :: 0 <= i < |Rendered(TruthyValues(fragments))| ==> Rendered(TruthyValues(fragments))[i] != ""
  {
    var kept := TruthyValues(fragments);
    forall i | 0 <= i < |kept| ensures ToJsString(kept[i]) != "" {
      TruthyRendersNonEmpty(kept[i]);
    }
  }

  /** The address is the rendered truthy fragments joined by ", ". */
  lemma {:induction false} AddressIsJoin(fragments: seq<JsValue>)
    ensures Address(fragments) == Join(Rendered(TruthyValues(fragments)), ", ")
  {
    if fragments != [] {
      var f := fragments[0];
      var tail := fragments[1..];
      AddressIsJoin(tail);
      var kept := TruthyValues(tail);
      var parts := Rendered(kept);
      if Truthy(f) {
        assert TruthyValues(fragments) == [f] + kept;
        var all := Rendered([f] + kept);
        assert all == [ToJsString(f)] + parts;
        assert all[1..] == parts;
        RenderedTruthyNonEmpty(tail);
        JoinNonEmptyParts(parts, ", ");
      } else {
        assert TruthyValues(fragments) == kept;
      }
    }
  }

  /** An order record normalised for display. */
  function Transform(raw: RawOrder): (o: Order)
    ensures o.raw == raw && o.id == raw.number && o.deliveryStat == raw.stat
    ensures o.orderNumber == "#" + ToJsString(raw.number)
    ensures Truthy(o.customerName)
    ensures o.customerName == if Truthy(raw.customer) then raw.customer else Str("Customer")
    ensures o.itemCount == |o.items| && (raw.items.None? ==> o.items == [])
    ensures raw.items.Some? ==> o.items == raw.items.value
    ensures !Truthy(raw.grandTotal) ==> o.totalAmount == Finite(0.0)
    ensures Truthy(raw.grandTotal) ==> o.totalAmount == ToNumber(raw.grandTotal)
    ensures o.time == Or(raw.date, Str("")) && o.statusLabel == Or(raw.statusText, Str(""))
    ensures o.deliveryType == DeliveryTypeOf(raw.stat)
  {
    var items := raw.items.GetOr([]);
    Order(
      raw.number,
      "#" + ToJsString(raw.number),
      Or(raw.customer, Str("Customer")),
      Address(Fragments(raw)),
      items,
      |items|,
      ToNumber(Or(raw.grandTotal, Num(0))),
      Or(raw.date, Str("")),
      raw.stat,
      DeliveryTypeOf(raw.stat),
      Or(raw.statusText, Str("")),
      raw)
  }

  /** An address is empty exactly when none of its fragments is truthy. */
  lemma {:induction false} AddressEmpty(fragments: seq<JsValue>)
    ensures Address(fragments) == "" <==> forall i :: 0 <= i < |fragments| ==> !Truthy(fragments[i])
  {
    if fragments != [] {
      AddressEmpty(fragments[1..]);
      if Truthy(fragments[0]) {
        TruthyRendersNonEmpty(fragments[0]);
      } else {
        assert forall i :: 1 <= i < |fragments| ==> fragments[i] == fragments[1..][i - 1];
      }
    }
  }

  /** A truthy last fragment ends the address. */
  lemma {:induction false} AddressEndsWithLast(fragments: seq<JsValue>)
    requires fragments != [] && Truthy(fragments[|fragments| - 1])
    ensures EndsWith(Address(fragments), ToJsString(fragments[|fragments| - 1]))
  {
    var last := fragments[|fragments| - 1];
    if |fragments| > 1 {
      var tail := fragments[1..];
      assert tail[|tail| - 1] == last;
      AddressEndsWithLast(tail);
      var rest := Address(tail);
      AddressEmpty(tail);
      assert rest != "";
      if Truthy(fragments[0]) {
        EndsWithAppend(ToJsString(fragments[0]) + ", ", rest, ToJsString(last));
      }
    } else {
      assert Address(fragments) == ToJsString(last);
    }
  }

  /** The address is empty exactly when no fragment is truthy; otherwise it
      begins with the first truthy fragment and ends with the last. */
  lemma AddressSpec(raw: RawOrder)
    ensures Transform(raw).customerAddress == "" <==> forall v :: v in Fragments(raw) ==> !Truthy(v)
    ensures Truthy(raw.add1) ==> StartsWith(Transform(raw).customerAddress, ToJsString(raw.add1))
    ensures Truthy(raw.add7) ==> EndsWith(Transform(raw).customerAddress, ToJsString(raw.add7))
  {
    var fs := Fragments(raw);
    AddressEmpty(fs);
    if Truthy(raw.add7) {
      AddressEndsWithLast(fs);
    }
  }

  /** A grand total that is a string opening with a letter is NaN, not 0. */
  lemma NonNumericTotalIsNaN(raw: RawOrder, s: string)
    requires raw.grandTotal == Str(s) && s != []
    requires 'a' <= s[0] <= 'z' || 'A' <= s[0] <= 'Z'
    ensures Transform(raw).totalAmount == NotANumber
  {
    var o := Transform(raw);
    assert Truthy(raw.grandTotal);
    LetterIsNaN(s);
    assert ToNumber(raw.grandTotal) == NotANumber;
  }

  /* ---------------- fetchOrdersByType ---------------- */

  /** One order list query: the records of a `success` envelope, normalised in
      order (a missing list counting as empty); nothing otherwise. The
      argument is the envelope's `data` field. */
  function FetchOrdersByType(outcome: Outcome<Option<seq<RawOrder>>>): (r: seq<Order>)
    ensures !outcome.Success? ==> r == []
    ensures outcome.Success? ==> |r| == |outcome.data.GetOr([])|
    ensures outcome.Success? ==> forall i :: 0 <= i < |r| ==>
              r[i] == Transform(outcome.data.GetOr([])[i]) && r[i].raw == outcome.data.GetOr([])[i]
  {
    if outcome.Success? then TransformAll(outcome.data.GetOr([])) else []
  }

  /** `records.map(transformApiOrderToUI)` */
  function TransformAll(records: seq<RawOrder>): (r: seq<Order>)
    ensures |r| == |records| && forall i :: 0 <= i < |r| ==> r[i] == Transform(records[i])
  {
    if records == [] then [] else [Transform(records[0])] + TransformAll(records[1..])
  }

  /* ---------------- the buckets of fetchAllOrders ---------------- */

  /** `deliveryStat === code` for one of the given codes: a strict comparison,
      so only a string status can match. */
  predicate HasStat(o: Order, codes: set<string>) {
    o.deliveryStat.Str? && o.deliveryStat.s in codes
  }

  /** `orders.filter(o => o.deliveryStat === c1 || ...)` */
  function WithStat(orders: seq<Order>, codes: set<string>): (r: seq<Order>)
    ensures forall i :: 0 <= i < |r| ==> HasStat(r[i], codes)
    ensures forall o :: o in r <==> o in orders && HasStat(o, codes)
  {
    if orders == [] then []
    else (if HasStat(orders[0], codes) then [orders[0]] else []) + WithStat(orders[1..], codes)
  }

  /** The filter keeps every matching order as often as it occurs. */
  lemma {:induction false} WithStatCount(orders: seq<Order>, codes: set<string>, o: Order)
    ensures multiset(WithStat(orders, codes))[o] == if HasStat(o, codes) then multiset(orders)[o] else 0
  {
    if orders != [] {
      WithStatCount(orders[1..], codes, o);
      assert orders == [orders[0]] + orders[1..];
    }
  }

  /** The filter keeps the orders' relative order: it distributes over concatenation. */
  lemma {:induction false} WithStatAppend(a: seq<Order>, b: seq<Order>, codes: set<string>)
    ensures WithStat(a + b, codes) == WithStat(a, codes) + WithStat(b, codes)
  {
    if a == [] {
      assert a + b == b;
    } else {
      var ab := a + b;
      assert ab[0] == a[0] && ab[1..] == a[1..] + b;
      WithStatAppend(a[1..], b, codes);
      var head := if HasStat(a[0], codes) then [a[0]] else [];
      calc {
        WithStat(ab, codes);
        head + WithStat(ab[1..], codes);
        head + (WithStat(a[1..], codes) + WithStat(b, codes));
        (head + WithStat(a[1..], codes)) + WithStat(b, codes);
      }
    }
  }

  /** `orders.filter(o => o.deliveryStat !== '0')` */
  function NotCancelled(orders: seq<Order>): (r: seq<Order>)
    ensures forall i :: 0 <= i < |r| ==> r[i].deliveryStat != Str("0")
  {
    if orders == [] then []
    else (if orders[0].deliveryStat != Str("0") then [orders[0]] else []) + NotCancelled(orders[1..])
  }

  /** Removing cancelled orders first would not change the out-for-delivery
      list: the "1"/"2" filter already drops them. */
  lemma {:induction false} CancelledFilterRedundant(orders: seq<Order>)
    ensures WithStat(NotCancelled(orders), {"1", "2"}) == WithStat(orders, {"1", "2"})
  {
    if orders != [] {
      CancelledFilterRedundant(orders[1..]);
      var rest := NotCancelled(orders[1..]);
      if orders[0].deliveryStat != Str("0") {
        assert NotCancelled(orders) == [orders[0]] + rest;
        assert ([orders[0]] + rest)[1..] == rest;
      } else {
        assert !HasStat(orders[0], {"1", "2"});
        assert NotCancelled(orders) == rest;
        assert WithStat(orders, {"1", "2"}) == [] + WithStat(orders[1..], {"1", "2"});
      }
    }
  }

  /** The lists behind the screen's tabs. */
  datatype Buckets = Buckets(
    incoming: seq<Order>,
    onDeliverySelf: seq<Order>,
    onDeliveryPartner: seq<Order>,
    outForDelivery: seq<Order>,
    completed: seq<Order>)

  const EMPTY_BUCKETS := Buckets([], [], [], [], [])

  /** Self-delivery lists hold only status "1", partner lists only "2", and
      the out-for-delivery list only "1" or "2". */
  predicate Consistent(b: Buckets) {
    && (forall i :: 0 <= i < |b.onDeliverySelf| ==> b.onDeliverySelf[i].deliveryStat == Str("1"))
    && (forall i :: 0 <= i < |b.onDeliveryPartner| ==> b.onDeliveryPartner[i].deliveryStat == Str("2"))
    && (forall i :: 0 <= i < |b.outForDelivery| ==>
          b.outForDelivery[i].deliveryStat in {Str("1"), Str("2")})
  }

  /** The five lists built from the Placed, Accept, Out For Delivery and
      Delivered query results. */
  function Classify(placed: seq<Order>, accepted: seq<Order>, outForD: seq<Order>, delivered: seq<Order>): (b: Buckets)
    ensures b.incoming == placed && b.completed == delivered
    ensures Consistent(b)
  {
    Buckets(placed,
            WithStat(accepted, {"1"}) + WithStat(outForD, {"1"}),
            WithStat(accepted, {"2"}) + WithStat(outForD, {"2"}),
            WithStat(outForD, {"1", "2"}),
            delivered)
  }

  /** How often an order occurs in each on-delivery list: as often as in the
      Accept and Out For Delivery results together when its status is "1"
      (self) or "2" (partner), as often as in the Out For Delivery result when
      its status is either (out for delivery), and never otherwise. */
  lemma ClassifyCounts(placed: seq<Order>, accepted: seq<Order>, outForD: seq<Order>, delivered: seq<Order>, o: Order)
    ensures var b := Classify(placed, accepted, outForD, delivered);
            && multiset(b.onDeliverySelf)[o] ==
                 (if o.deliveryStat == Str("1") then multiset(accepted)[o] + multiset(outForD)[o] else 0)
            && multiset(b.onDeliveryPartner)[o] ==
                 (if o.deliveryStat == Str("2") then multiset(accepted)[o] + multiset(outForD)[o] else 0)
            && multiset(b.outForDelivery)[o] ==
                 (if o.deliveryStat in {Str("1"), Str("2")} then multiset(outForD)[o] else 0)
  {
    WithStatCount(accepted, {"1"}, o);
    WithStatCount(outForD, {"1"}, o);
    WithStatCount(accepted, {"2"}, o);
    WithStatCount(outForD, {"2"}, o);
    WithStatCount(outForD, {"1", "2"}, o);
  }

  /** In consistent lists no order is both self and partner delivery, and no
      cancelled (status "0") order is out for delivery. */
  lemma ConsistentExclusions(b: Buckets)
    requires Consistent(b)
    ensures forall o :: o in b.onDeliverySelf ==> o !in b.onDeliveryPartner
    ensures forall o :: o in b.onDeliverySelf || o in b.onDeliveryPartner || o in b.outForDelivery ==>
              o.deliveryStat != Str("0")
  {
    forall o | o in b.onDeliverySelf || o in b.onDeliveryPartner || o in b.outForDelivery
      ensures o.deliveryStat != Str("0")
      ensures o in b.onDeliverySelf ==> o !in b.onDeliveryPartner
    {
      if o in b.onDeliverySelf {
        var i :| 0 <= i < |b.onDeliverySelf| && b.onDeliverySelf[i] == o;
        assert o.deliveryStat == Str("1");
      } else if o in b.onDeliveryPartner {
        var i :| 0 <= i < |b.onDeliveryPartner| && b.onDeliveryPartner[i] == o;
      } else {
        var i :| 0 <= i < |b.outForDelivery| && b.outForDelivery[i] == o;
      }
    }
  }

  /** The self-delivery list is the self-delivery orders of the Accept result
      followed by those of the Out For Delivery result, each in its original
      order and without removing duplicates; likewise for partner delivery. */
  lemma OnDeliveryConcatenation(accepted: seq<Order>, outForD: seq<Order>, placed: seq<Order>, delivered: seq<Order>)
    ensures Classify(placed, accepted, outForD, delivered).onDeliverySelf == WithStat(accepted + outForD, {"1"})
    ensures Classify(placed, accepted, outForD, delivered).onDeliveryPartner == WithStat(accepted + outForD, {"2"})
  {
    WithStatAppend(accepted, outForD, {"1"});
    WithStatAppend(accepted, outForD, {"2"});
  }

  /** A record whose status is the number 1 is typed as self delivery, yet it
      lands in none of the on-delivery lists, because those compare the raw
      status strictly with the string "1". */
  lemma NumericStatQuirk(raw: RawOrder, placed: seq<Order>, accepted: seq<Order>, outForD: seq<Order>, delivered: seq<Order>)
    requires raw.stat == Num(1)
    ensures Transform(raw).deliveryType == SelfDelivery
    ensures var b := Classify(placed, accepted, outForD, delivered);
            Transform(raw) !in b.onDeliverySelf && Transform(raw) !in b.onDeliveryPartner
            && Transform(raw) !in b.outForDelivery
  {
    DeliveryTypeSpec(raw.stat);
  }

  /* ---------------- activeOrders, badges, card taps ---------------- */

  /** The list shown for the selected tab and on-delivery sub-tab. */
  function ActiveOrders(tab: string, subTab: string, b: Buckets): (r: seq<Order>)
    ensures tab == "incoming" ==> r == b.incoming
    ensures tab == "completed" ==> r == b.completed
    ensures tab != "incoming" && tab != "completed" ==>
              r == (if subTab == "self" then b.onDeliverySelf
                    else if subTab == "partner" then b.onDeliveryPartner
                    else b.outForDelivery)
  {
    if tab == "incoming" then b.incoming
    else if tab == "completed" then b.completed
    else if subTab == "all" then b.outForDelivery
    else if subTab == "self" then b.onDeliverySelf
    else if subTab == "partner" then b.onDeliveryPartner
    else b.outForDelivery
  }

  /** On the on-delivery tab every order shown is one with status "1" or "2". */
  lemma OnDeliveryTabShowsLiveOrders(tab: string, subTab: string, b: Buckets)
    requires Consistent(b)
    requires tab != "incoming" && tab != "completed"
    ensures forall i :: 0 <= i < |ActiveOrders(tab, subTab, b)| ==>
              ActiveOrders(tab, subTab, b)[i].deliveryStat in {Str("1"), Str("2")}
  {
    var r := ActiveOrders(tab, subTab, b);
    forall i | 0 <= i < |r| ensures r[i].deliveryStat in {Str("1"), Str("2")} {
      if subTab == "self" {
        assert r[i] == b.onDeliverySelf[i];
      } else if subTab == "partner" {
        assert r[i] == b.onDeliveryPartner[i];
      }
    }
  }

  datatype Badge = Badge(color: string, bg: string, statusText: JsValue)

  const DEFAULT_COLOR := "#64748B"
  const DEFAULT_BG := "#F1F5F9"

  /** The badge colours (text, background) of the known status labels. */
  function BadgeColors(key: string): Option<(string, string)> {
    if key == "Out For Delivery" then Some(("#F59E0B", "#FEF3C7"))
    else if key == "Self Delivery" then Some(("#3B82F6", "#DBEAFE"))
    else if key == "Delivery Partner" then Some(("#8B5CF6", "#EDE9FE"))
    else if key == "Reached Pickup" then Some(("#EC4899", "#FCE7F3"))
    else if key == "Picked Up" then Some(("#10B981", "#D1FAE5"))
    else if key == "Reached Drop" then Some(("#059669", "#A7F3D0"))
    else None
  }

  /** `getStatusBadge(order)`, on the order's status label. */
  function StatusBadge(statusText: JsValue): (r: Option<Badge>)
    ensures r.None? <==> !Truthy(statusText)
    ensures r.Some? ==> r.value.statusText == statusText
    ensures r.Some? ==> (r.value.color == DEFAULT_COLOR <==> BadgeColors(ToJsString(statusText)).None?)
    ensures r.Some? && BadgeColors(ToJsString(statusText)).None? ==> r.value.bg == DEFAULT_BG
  {
    if !Truthy(statusText) then None
    else match BadgeColors(ToJsString(statusText))
      case Some(c) => Some(Badge(c.0, c.1, statusText))
      case None => Some(Badge(DEFAULT_COLOR, DEFAULT_BG, statusText))
  }

  datatype Destination = CompletedOrderDetail | SelfDeliveryOrder | OrderDetail

  /** The screen a tapped order card opens. */
  function CardTapTarget(tab: string, subTab: string): (d: Destination)
    ensures d == SelfDeliveryOrder <==> tab == "onDelivery" && subTab == "self"
    ensures d == CompletedOrderDetail <==> tab == "completed"
  {
    if tab == "completed" then CompletedOrderDetail
    else if tab == "onDelivery" && subTab == "self" then SelfDeliveryOrder
    else OrderDetail
  }

  /** Every order a card tap can open in the self-delivery screen has the
      status string "1", and so is typed as self delivery. */
  lemma SelfDeliveryScreenGetsSelfOrders(tab: string, subTab: string, b: Buckets, i: int)
    requires Consistent(b)
    requires CardTapTarget(tab, subTab) == SelfDeliveryOrder
    requires 0 <= i < |ActiveOrders(tab, subTab, b)|
    ensures ActiveOrders(tab, subTab, b)[i].deliveryStat == Str("1")
    ensures DeliveryTypeOf(ActiveOrders(tab, subTab, b)[i].deliveryStat) == SelfDelivery
  {
    DeliveryTypeSpec(Str("1"));
  }

  /* ---------------- the screen's state ---------------- */

  class OrdersScreen {
    var activeTab: string
    var subTab: string
    var loading: bool
    var refreshing: bool
    var buckets: Buckets
    var completedToday: nat
    var rejectedToday: nat
    /** The order types queried so far, in order. */
    var queries: seq<string>

    ghost predicate Valid()
      reads this
    {
      Consistent(buckets)
    }

    constructor()
      ensures Valid()
      ensures activeTab == "incoming" && subTab == "all"
      ensures !loading && !refreshing
      ensures buckets == EMPTY_BUCKETS && completedToday == 0 && rejectedToday == 0 && queries == []
    {
      activeTab := "incoming";
      subTab := "all";
      loading := false;
      refreshing := false;
      buckets := EMPTY_BUCKETS;
      completedToday := 0;
      rejectedToday := 0;
      queries := [];
    }

    /** A press on one of the three tabs. */
    method SelectTab(tab: string)
      requires tab in {"incoming", "onDelivery", "completed"}
      modifies this
      ensures activeTab == tab
      ensures subTab == old(subTab) && buckets == old(buckets) && loading == old(loading)
      ensures refreshing == old(refreshing) && queries == old(queries)
      ensures completedToday == old(completedToday) && rejectedToday == old(rejectedToday)
    {
      activeTab := tab;
    }

    /** A press on one of the two on-delivery sub-tabs. */
    method SelectSubTab(sub: string)
      requires sub in {"self", "partner"}
      modifies this
      ensures subTab == sub
      ensures activeTab == old(activeTab) && buckets == old(buckets) && loading == old(loading)
      ensures refreshing == old(refreshing) && queries == old(queries)
      ensures completedToday == old(completedToday) && rejectedToday == old(rejectedToday)
    {
      subTab := sub;
    }

    /** `fetchAllOrders` up to its `await`: loading is set and the four
        order types are queried together. */
    method BeginFetchAll()
      modifies this
      ensures loading && queries == old(queries) + ["Placed", "Accept", "Out For Delivery", "Delivered"]
      ensures buckets == old(buckets) && refreshing == old(refreshing)
      ensures completedToday == old(completedToday) && rejectedToday == old(rejectedToday)
      ensures activeTab == old(activeTab) && subTab == old(subTab)
    {
      loading := true;
      queries := queries + ["Placed", "Accept", "Out For Delivery", "Delivered"];
    }

    /** The rest of `fetchAllOrders`, given the outcomes of the four queries:
        the lists are their classification and the day's counts follow;
        loading and refreshing end false. */
    method FinishFetchAll(placed: Outcome<Option<seq<RawOrder>>>, accepted: Outcome<Option<seq<RawOrder>>>,
                          outForD: Outcome<Option<seq<RawOrder>>>, delivered: Outcome<Option<seq<RawOrder>>>)
      modifies this
      ensures Valid()
      ensures buckets == Classify(FetchOrdersByType(placed), FetchOrdersByType(accepted),
                                  FetchOrdersByType(outForD), FetchOrdersByType(delivered))
      ensures completedToday == |buckets.completed| && rejectedToday == 0
      ensures !loading && !refreshing
      ensures activeTab == old(activeTab) && subTab == old(subTab) && queries == old(queries)
    {
      var p, a, f, d := FetchOrdersByType(placed), FetchOrdersByType(accepted),
                        FetchOrdersByType(outForD), FetchOrdersByType(delivered);
      var b := Classify(p, a, f, d);
      completedToday := |b.completed|;
      rejectedToday := 0;
      loading := false;
      refreshing := false;
      buckets := b;
    }

    /** The list on screen. */
    function Shown(): (r: seq<Order>)
      reads this
      requires Valid()
      ensures activeTab == "onDelivery" ==> forall i :: 0 <= i < |r| ==> r[i].deliveryStat in {Str("1"), Str("2")}
    {
      if activeTab == "onDelivery" then
        OnDeliveryTabShowsLiveOrders(activeTab, subTab, buckets);
        ActiveOrders(activeTab, subTab, buckets)
      else
        ActiveOrders(activeTab, subTab, buckets)
    }
  }
}
