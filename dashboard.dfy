/** The dashboard: the vendor's order counts and today's commission, shown
    as four stat cards and four quick stats once the backend has answered. */
module Dashboard {
  import opened Js
  import opened Backend

  /** The dashboard record (`data[0]`): today's commission and the five order
      counts, each as the backend sent it (a number or a numeric string). */
  datatype DashboardData = DashboardData(
    todaysCommission: JsValue,
    todayOrders: JsValue,
    pendingOrders: JsValue,
    processingOrders: JsValue,
    deliveredOrders: JsValue,
    cancelledOrders: JsValue)

  /** `count || 0` */
  function OrZero(v: JsValue): (r: JsValue)
    ensures Truthy(r) || r == Num(0)
  {
    Or(v, Num(0))
  }

  /* ---------------- the Total Orders sum ---------------- */

  /** `Number(v)` of a value that is not a string, as an integer: None for
      undefined and NaN. */
  function NumericPart(v: JsValue): Option<int>
    requires !v.Str?
  {
    match v
    case Num(n) => Some(n)
    case Null => Some(0)
    case Bool(b) => Some(if b then 1 else 0)
    case _ => None
  }

  /** JavaScript's binary `+`: string concatenation as soon as either side is
      a string, numeric addition otherwise. */
  function JsAdd(a: JsValue, b: JsValue): (r: JsValue)
    ensures (a.Str? || b.Str?) ==> r == Str(ToJsString(a) + ToJsString(b))
  {
    if a.Str? || b.Str? then Str(ToJsString(a) + ToJsString(b))
    else
      var x, y := NumericPart(a), NumericPart(b);
      if x.Some? && y.Some? then Num(x.value + y.value) else NaN
  }

  /** The Total Orders card as written: the five counts, each defaulted to 0,
      combined with `+` and rendered with `String`. */
  function TotalOrdersAsWritten(d: DashboardData): string {
    ToJsString(JsAdd(JsAdd(JsAdd(JsAdd(OrZero(d.todayOrders), OrZero(d.pendingOrders)),
                                 OrZero(d.processingOrders)),
                           OrZero(d.deliveredOrders)),
                     OrZero(d.cancelledOrders)))
  }

  /** A count as a number: `Number(count || 0)` when that is a whole number. */
  function CountValue(v: JsValue): Option<int> {
    var x := ToNumber(OrZero(v));
    if x.Finite? && x.r == x.r.Floor as real then Some(x.r.Floor) else None
  }

  /** The five counts added as numbers. */
  function TotalOrders(d: DashboardData): (total: Option<int>)
    ensures total.Some? <==>
              CountValue(d.todayOrders).Some? && CountValue(d.pendingOrders).Some?
              && CountValue(d.processingOrders).Some? && CountValue(d.deliveredOrders).Some?
              && CountValue(d.cancelledOrders).Some?
  {
    var a, b, c := CountValue(d.todayOrders), CountValue(d.pendingOrders), CountValue(d.processingOrders);
    var e, f := CountValue(d.deliveredOrders), CountValue(d.cancelledOrders);
    if a.Some? && b.Some? && c.Some? && e.Some? && f.Some? then
      Some(a.value + b.value + c.value + e.value + f.value)
    else None
  }

  /** The Total Orders card as intended: the rendered numeric sum. */
  function TotalOrdersText(d: DashboardData): (r: string)
    ensures r == "NaN" <==> TotalOrders(d).None?
  {
    match TotalOrders(d)
    case Some(n) =>
      var r := IntToDecimal(n);
      assert r[0] == '-' || IsDigit(r[0]);
      r
    case None => "NaN"
  }

  /** A count that is a number, absent or null. */
  predicate NumericCount(v: JsValue) {
    v.Num? || v.Null? || v.Undefined?
  }

  /** Its value: absent and null count as 0. */
  function CountOf(v: JsValue): int {
    if v.Num? then v.n else 0
  }

  lemma NumericCountValue(v: JsValue)
    requires NumericCount(v)
    ensures CountValue(v) == Some(CountOf(v))
    ensures OrZero(v) == Num(CountOf(v))
  {
  }

  /** When every count is a number (or absent), the written sum is the
      numeric sum, and both cards read the same. */
  lemma NumericCountsAgree(d: DashboardData)
    requires NumericCount(d.todayOrders) && NumericCount(d.pendingOrders) && NumericCount(d.processingOrders)
    requires NumericCount(d.deliveredOrders) && NumericCount(d.cancelledOrders)
    ensures TotalOrders(d) == Some(CountOf(d.todayOrders) + CountOf(d.pendingOrders) + CountOf(d.processingOrders)
                                   + CountOf(d.deliveredOrders) + CountOf(d.cancelledOrders))
    ensures TotalOrdersAsWritten(d) == TotalOrdersText(d)
  {
    NumericCountValue(d.todayOrders);
    NumericCountValue(d.pendingOrders);
    NumericCountValue(d.processingOrders);
    NumericCountValue(d.deliveredOrders);
    NumericCountValue(d.cancelledOrders);
  }

  /** `Number("1")` is 1. */
  lemma OneParses()
    ensures ParseNumber("1") == Finite(1.0)
  {
    ParseNumberRoundTrip(1);
    assert IntToDecimal(1) == [DigitChar(1)] == "1";
  }

  /** Counts sent as strings are glued together rather than added: five
      orders of one each show as "11111" instead of 5. */
  lemma StringCountsConcatenate()
    ensures var d := DashboardData(Num(0), Str("1"), Str("1"), Str("1"), Str("1"), Str("1"));
            TotalOrdersAsWritten(d) == "11111" && TotalOrders(d) == Some(5) && TotalOrdersText(d) == "5"
  {
    OneParses();
    assert IntToDecimal(5) == [DigitChar(5)] == "5";
  }

  /* ---------------- the cards ---------------- */

  /** A card's value: text, or a rupee amount (its locale formatting is not
      modelled). */
  datatype Display = Text(s: string) | Rupees(amount: JsNumber)

  datatype Stat = Stat(title: string, value: Display, subLabel: string)

  /** `String(count || 0)` */
  function CountText(v: JsValue): string {
    ToJsString(OrZero(v))
  }

  /** A count shown alone reads as its number; an absent one reads as 0. */
  lemma CountTextSpec(v: JsValue)
    ensures NumericCount(v) ==> CountText(v) == IntToDecimal(CountOf(v))
    ensures !Truthy(v) ==> CountText(v) == "0"
  {
    assert IntToDecimal(0) == [DigitChar(0)] == "0";
  }

  /** `stats`: four cards once there is data, none before. */
  function Stats(data: Option<DashboardData>): (r: seq<Stat>)
    ensures data.None? <==> r == []
    ensures data.Some? ==> |r| == 4
  {
    match data
    case None => []
    case Some(d) => [
      Stat("Today's Commission", Rupees(ToNumber(OrZero(d.todaysCommission))),
           ToJsString(d.todayOrders) + " orders today"),
      Stat("Total Orders", Text(TotalOrdersText(d)), "All time orders"),
      Stat("Pending Orders", Text(CountText(d.pendingOrders)), "Awaiting action"),
      Stat("Delivered", Text(CountText(d.deliveredOrders)), "Successfully completed")
    ]
  }

  datatype QuickStat = QuickStat(title: string, value: string)

  /** `quickStats`: four counts once there is data, none before. */
  function QuickStats(data: Option<DashboardData>): (r: seq<QuickStat>)
    ensures data.None? <==> r == []
    ensures data.Some? ==> |r| == 4
  {
    match data
    case None => []
    case Some(d) => [
      QuickStat("Processing", CountText(d.processingOrders)),
      QuickStat("Today's Orders", CountText(d.todayOrders)),
      QuickStat("Cancelled", CountText(d.cancelledOrders)),
      QuickStat("Pending", CountText(d.pendingOrders))
    ]
  }

  /** The pending count reads the same on its card and in the quick stats,
      and with numeric counts the Total Orders card is the sum of the four
      quick stats and the delivered card. */
  lemma CardsAgree(d: DashboardData)
    ensures Stats(Some(d))[2].value == Text(QuickStats(Some(d))[3].value)
    ensures NumericCount(d.todayOrders) && NumericCount(d.pendingOrders) && NumericCount(d.processingOrders)
            && NumericCount(d.deliveredOrders) && NumericCount(d.cancelledOrders) ==>
              Stats(Some(d))[1].value
              == Text(IntToDecimal(CountOf(d.processingOrders) + CountOf(d.todayOrders) + CountOf(d.cancelledOrders)
                                   + CountOf(d.pendingOrders) + CountOf(d.deliveredOrders)))
  {
    if NumericCount(d.todayOrders) && NumericCount(d.pendingOrders) && NumericCount(d.processingOrders)
       && NumericCount(d.deliveredOrders) && NumericCount(d.cancelledOrders) {
      NumericCountsAgree(d);
    }
  }

  /** The record a dashboard response carries: the first element of `data`,
      when it is there (None stands for a missing or null element). */
  function FirstRecord(list: seq<Option<DashboardData>>): Option<DashboardData> {
    if list != [] then list[0] else None
  }

  class DashboardScreen {
    /** `user.M1_CODE || user.id || user.vendorId` */
    const vendorId: JsValue
    var loading: bool
    var refreshing: bool
    var dashboardData: Option<DashboardData>
    /** The vendor ids requested so far. */
    var requests: seq<JsValue>

    constructor(m1Code: JsValue, id: JsValue, altVendorId: JsValue)
      ensures vendorId == Or(Or(m1Code, id), altVendorId)
      ensures loading && !refreshing && dashboardData == None && requests == []
    {
      vendorId := Or(Or(m1Code, id), altVendorId);
      loading := true;
      refreshing := false;
      dashboardData := None;
      requests := [];
    }

    /** `fetchDashboard` up to its call: the vendor's dashboard is requested.
        It runs on mount and on every refresh; nothing else changes. */
    method BeginFetch()
      modifies this
      ensures requests == old(requests) + [vendorId]
      ensures loading == old(loading) && refreshing == old(refreshing) && dashboardData == old(dashboardData)
    {
      requests := requests + [vendorId];
    }

    /** The rest of `fetchDashboard`, with the call's outcome: the data is
        replaced only by a `success` response carrying a first record, and
        kept otherwise. Loading and refreshing end false on every path. */
    method FinishFetch(outcome: Outcome<seq<Option<DashboardData>>>)
      modifies this
      ensures requests == old(requests)
      ensures !loading && !refreshing
      ensures outcome.Success? && FirstRecord(outcome.data).Some? ==> dashboardData == FirstRecord(outcome.data)
      ensures !(outcome.Success? && FirstRecord(outcome.data).Some?) ==> dashboardData == old(dashboardData)
      ensures old(dashboardData).Some? ==> dashboardData.Some?
    {
      if outcome.Success? {
        var first := FirstRecord(outcome.data);
        if first.Some? {
          dashboardData := first;
        }
      }
      loading := false;
      refreshing := false;
    }

    /** Pull to refresh: the spinner shows while a new fetch is in flight. */
    method Refresh()
      modifies this
      ensures refreshing && requests == old(requests) + [vendorId]
      ensures loading == old(loading) && dashboardData == old(dashboardData)
    {
      refreshing := true;
      BeginFetch();
    }

    /** The cards on screen. */
    function Cards(): (r: (seq<Stat>, seq<QuickStat>))
      reads this
      ensures (r.0 == []) == (r.1 == []) == dashboardData.None?
    {
      (Stats(dashboardData), QuickStats(dashboardData))
    }
  }
}
