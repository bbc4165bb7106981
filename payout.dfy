/** The payout screen: the vendor's commission, payout and balance summary,
    the transaction list of the selected tab, and the withdrawal form. */
module Payout {
  import opened Js
  import opened Backend

  datatype Tab = All | Commission | Payouts | Withdrawal

  /** `summary`: the three totals the backend reports. */
  datatype Summary = Summary(totalCommission: JsValue, totalPayout: JsValue, totalBalance: JsValue)

  const EMPTY_SUMMARY := Summary(Num(0), Num(0), Num(0))

  /** The summary an array leaves behind: it has none of the three totals. */
  const UNDEFINED_SUMMARY := Summary(Undefined, Undefined, Undefined)

  /** A transaction record: `F5_NO`, `F5_DATE`, `F5_TYPE`, `F5_AMT`. */
  datatype Transaction = Transaction(number: JsValue, date: JsValue, kind: JsValue, amount: JsValue)

  /** What a listing endpoint returns in `res.data.data`: the statement of
      the all tab (its totals and `transactions`, absent or falsy when there
      are none) or, for the other tabs, the list itself (absent or falsy when
      empty). */
  datatype Payload =
    | Statement(summary: Summary, transactions: Option<seq<Transaction>>)
    | Listing(list: Option<seq<Transaction>>)

  datatype Request =
    | GetAllTransactions(vendor: JsValue)
    | GetCommissionTransactions(vendor: JsValue)
    | GetPayoutTransactions(vendor: JsValue)
    | GetWithdrawalTransactions(vendor: JsValue)
    | SendWithdrawal(vendor: JsValue, amount: string)

  /** The endpoint `fetchData` calls for a tab. */
  function FetchRequest(tab: Tab, vendor: JsValue): (r: Request)
    ensures r.vendor == vendor && !r.SendWithdrawal?
    ensures r.GetAllTransactions? <==> tab == All
    ensures r.GetPayoutTransactions? <==> tab == Payouts
    ensures r.GetCommissionTransactions? <==> tab == Commission
    ensures r.GetWithdrawalTransactions? <==> tab == Withdrawal
  {
    match tab
    case All => GetAllTransactions(vendor)
    case Commission => GetCommissionTransactions(vendor)
    case Payouts => GetPayoutTransactions(vendor)
    case Withdrawal => GetWithdrawalTransactions(vendor)
  }

  /* ---------------- the sign rule ---------------- */

  /** A row is a debit on the payout tab, or when its type is "Payouts". */
  predicate IsDebit(tab: Tab, t: Transaction) {
    tab == Payouts || t.kind == Str("Payouts")
  }

  const DEBIT_COLOR := "#EF4444"
  const CREDIT_COLOR := "#10B981"

  /** How a row presents its amount: sign, amount colour and arrow icon. */
  datatype RowLook = RowLook(sign: string, color: string, icon: string)

  function RowLookOf(tab: Tab, t: Transaction): (look: RowLook)
    ensures look.sign == "-" || look.sign == "+"
  {
    RowLook(if tab == Payouts || t.kind == Str("Payouts") then "-" else "+",
            if tab == Payouts || t.kind == Str("Payouts") then DEBIT_COLOR else CREDIT_COLOR,
            if tab == Payouts || t.kind == Str("Payouts") then "arrow-down" else "arrow-up")
  }

  /** The sign, the colour and the arrow of a row all tell the same story:
      minus, red and down exactly for debits. On the payout tab every row is a
      debit; elsewhere only the rows typed "Payouts" are. */
  lemma RowLookAgrees(tab: Tab, t: Transaction)
    ensures RowLookOf(tab, t).sign == "-" <==> IsDebit(tab, t)
    ensures RowLookOf(tab, t).color == DEBIT_COLOR <==> IsDebit(tab, t)
    ensures RowLookOf(tab, t).icon == "arrow-down" <==> IsDebit(tab, t)
    ensures tab != Payouts ==> (RowLookOf(tab, t).sign == "-" <==> t.kind == Str("Payouts"))
  {
    assert DEBIT_COLOR != CREDIT_COLOR;
    assert "arrow-down" != "arrow-up";
  }

  /* ---------------- withdrawal validation ---------------- */

  datatype Verdict = InvalidAmount | InsufficientBalance | Send

  /** `submitWithdraw`'s two checks as written: `!amt || Number(amt) <= 0`,
      then `Number(amt) > Number(balance)`. Both comparisons are false when
      either side is NaN. */
  function WithdrawVerdictAsWritten(amount: string, balance: JsValue): (v: Verdict)
    ensures amount == "" ==> v == InvalidAmount
    ensures WithdrawVerdict(amount, balance) == Send ==> v == Send
  {
    if amount == "" || AtMostZero(ParseNumber(amount)) then InvalidAmount
    else if Greater(ParseNumber(amount), ToNumber(balance)) then InsufficientBalance
    else Send
  }

  /** The checks as intended: the amount must be a positive number, and the
      balance a number no smaller than it. */
  function WithdrawVerdict(amount: string, balance: JsValue): Verdict {
    var a := ParseNumber(amount);
    if amount == "" || !a.Finite? || a.r <= 0.0 then InvalidAmount
    else if !ToNumber(balance).Finite? || a.r > ToNumber(balance).r then InsufficientBalance
    else Send
  }

  /** An amount is sent exactly when it is a positive number and the balance
      a number no smaller than it, and refused as invalid exactly when it is
      not a positive number. */
  lemma WithdrawVerdictSpec(amount: string, balance: JsValue)
    ensures WithdrawVerdict(amount, balance) == Send <==>
              ParseNumber(amount).Finite? && ToNumber(balance).Finite?
              && 0.0 < ParseNumber(amount).r <= ToNumber(balance).r
    ensures WithdrawVerdict(amount, balance) == InvalidAmount <==>
              !ParseNumber(amount).Finite? || ParseNumber(amount).r <= 0.0
  {
    if amount == "" {
      assert Trim(amount) == "";
    }
  }

  /** Whenever the amount and the balance are both numbers, the written
      checks decide exactly as the intended ones. */
  lemma WithdrawVerdictAgreesOnNumbers(amount: string, balance: JsValue)
    requires ParseNumber(amount).Finite? && ToNumber(balance).Finite?
    ensures WithdrawVerdictAsWritten(amount, balance) == WithdrawVerdict(amount, balance)
  {
    if amount == "" {
      assert Trim(amount) == "";
    }
  }

  /** "1..5", which a numeric keypad lets through, is not a number. */
  lemma DoublePointIsNaN()
    ensures ParseNumber("1..5") == NotANumber
  {
    var s := "1..5";
    UnsignedParse(s);
    assert LeadingDigits(s[1..]) == 0;
    StrayCharacterIsNaN(s, 1);
  }

  /** As written, an amount that is not a number passes both checks and is
      sent, even against a zero balance; the intended checks reject it. */
  lemma NotANumberAmountIsSent()
    ensures WithdrawVerdictAsWritten("1..5", Num(0)) == Send
    ensures WithdrawVerdict("1..5", Num(0)) == InvalidAmount
  {
    DoublePointIsNaN();
  }

  /** Withdrawing exactly the balance is allowed; one more is not; an empty,
      zero or negative amount is invalid. */
  lemma WithdrawBoundaries(n: int)
    ensures WithdrawVerdict("", Num(n)) == InvalidAmount
    ensures n > 0 ==> WithdrawVerdict(IntToDecimal(n), Num(n)) == Send
    ensures n > 0 ==> WithdrawVerdict(IntToDecimal(n + 1), Num(n)) == InsufficientBalance
    ensures n <= 0 ==> WithdrawVerdict(IntToDecimal(n), Num(n)) == InvalidAmount
  {
    var a, b := IntToDecimal(n), IntToDecimal(n + 1);
    ParseNumberRoundTrip(n);
    ParseNumberRoundTrip(n + 1);
    assert ToNumber(Num(n)) == Finite(n as real);
    assert a != "" && b != "";
    assert ParseNumber(a) == Finite(n as real);
    assert ParseNumber(b) == Finite((n + 1) as real);
  }

  /** `summary.total_balance <= 0` disables the withdraw button: a balance that
      is not a number (an absent one, say) leaves it enabled. */
  predicate WithdrawEnabled(s: Summary) {
    !AtMostZero(ToNumber(s.totalBalance))
  }

  /** Any withdrawal the intended checks send was reachable: its balance
      enables the button. */
  lemma SendableMeansEnabled(amount: string, s: Summary)
    requires WithdrawVerdict(amount, s.totalBalance) == Send
    ensures WithdrawEnabled(s)
  {
  }

  const LOAD_FAILED := "Failed to load payout data"
  const INVALID_AMOUNT := "Invalid Amount"
  const INSUFFICIENT_BALANCE := "Insufficient Balance"
  const WITHDRAWAL_SENT := "Withdrawal request sent"
  const WITHDRAWAL_FAILED := "Withdrawal request failed"

  class PayoutScreen {
    /** The logged-in vendor's `M1_CODE`. */
    const vendor: JsValue
    var activeTab: Tab
    var loading: bool
    var summary: Summary
    var transactions: seq<Transaction>
    var showWithdraw: bool
    var withdrawAmount: string
    var requests: seq<Request>
    var alertMessage: string

    constructor(vendorCode: JsValue)
      ensures vendor == vendorCode && activeTab == All && !loading
      ensures summary == EMPTY_SUMMARY && transactions == []
      ensures !showWithdraw && withdrawAmount == "" && requests == [] && alertMessage == ""
    {
      vendor := vendorCode;
      activeTab := All;
      loading := false;
      summary := EMPTY_SUMMARY;
      transactions := [];
      showWithdraw := false;
      withdrawAmount := "";
      requests := [];
      alertMessage := "";
    }

    /** A tab is pressed; its effect then starts a fetch. */
    method SelectTab(t: Tab)
      modifies this
      ensures activeTab == t
      ensures loading == old(loading) && summary == old(summary) && transactions == old(transactions)
      ensures requests == old(requests) && showWithdraw == old(showWithdraw)
      ensures withdrawAmount == old(withdrawAmount) && alertMessage == old(alertMessage)
    {
      activeTab := t;
    }

    /** `fetchData` up to its call: loading is set and the active tab's
        listing is requested. */
    method BeginFetch()
      modifies this
      ensures loading && requests == old(requests) + [FetchRequest(activeTab, vendor)]
      ensures activeTab == old(activeTab) && summary == old(summary) && transactions == old(transactions)
      ensures showWithdraw == old(showWithdraw) && withdrawAmount == old(withdrawAmount)
      ensures alertMessage == old(alertMessage)
    {
      loading := true;
      requests := requests + [FetchRequest(activeTab, vendor)];
    }

    /** The rest of `fetchData`, answering the call made for `tab`: the tab
        the handler saw when it started, which a later tab press does not
        change. Only the all tab sets the summary: a statement gives its
        totals and transactions; an array has no totals and no
        `transactions`, so all three totals read `undefined` and the list is
        empty. The other tabs only replace the transactions with the listed
        ones, none when the list is absent. A thrown error alerts and keeps
        both. Loading ends false on every path. */
    method FinishFetch(tab: Tab, reply: Reply<Payload>)
      requires FetchRequest(tab, vendor) in requests
      modifies this
      ensures !loading
      ensures tab != All ==> summary == old(summary)
      ensures tab == All && reply.Returned? && reply.body.Statement? ==>
                summary == reply.body.summary && transactions == reply.body.transactions.GetOr([])
      ensures tab == All && reply.Returned? && reply.body.Listing? ==>
                summary == UNDEFINED_SUMMARY && transactions == []
      ensures tab != All && reply.Returned? && reply.body.Listing? ==>
                transactions == reply.body.list.GetOr([])
      ensures tab != All && reply.Returned? && reply.body.Statement? ==> transactions == []
      ensures reply.Threw? ==>
                summary == old(summary) && transactions == old(transactions) && alertMessage == LOAD_FAILED
      ensures reply.Returned? ==> alertMessage == old(alertMessage)
      ensures activeTab == old(activeTab) && requests == old(requests)
      ensures showWithdraw == old(showWithdraw) && withdrawAmount == old(withdrawAmount)
    {
      match reply {
        case Returned(body) =>
          if tab == All {
            match body {
              case Statement(s, ts) =>
                summary := s;
                transactions := ts.GetOr([]);
              case Listing(_) =>
                summary := UNDEFINED_SUMMARY;
                transactions := [];
            }
          } else {
            match body {
              case Listing(ts) =>
                transactions := ts.GetOr([]);
              case Statement(_, _) =>
                transactions := [];
            }
          }
        case Threw(_) =>
          alertMessage := LOAD_FAILED;
      }
      loading := false;
    }

    /** The withdraw button opens the form; it is disabled unless the balance
        is positive (or not a number). */
    method OpenWithdraw()
      requires WithdrawEnabled(summary)
      modifies this
      ensures showWithdraw
      ensures withdrawAmount == old(withdrawAmount) && requests == old(requests) && summary == old(summary)
      ensures activeTab == old(activeTab) && loading == old(loading) && transactions == old(transactions)
      ensures alertMessage == old(alertMessage)
    {
      showWithdraw := true;
    }

    /** The close icon and the Cancel button both hide the form; the typed
        amount stays for the next time it opens. */
    method CloseWithdraw()
      modifies this
      ensures !showWithdraw
      ensures withdrawAmount == old(withdrawAmount) && requests == old(requests) && summary == old(summary)
      ensures activeTab == old(activeTab) && loading == old(loading) && transactions == old(transactions)
      ensures alertMessage == old(alertMessage)
    {
      showWithdraw := false;
    }

    /** Typing into the amount field. */
    method SetAmount(text: string)
      modifies this
      ensures withdrawAmount == text
      ensures showWithdraw == old(showWithdraw) && requests == old(requests) && summary == old(summary)
      ensures activeTab == old(activeTab) && loading == old(loading) && transactions == old(transactions)
      ensures alertMessage == old(alertMessage)
    {
      withdrawAmount := text;
    }

    /** `submitWithdraw`, with the withdrawal call's result: a rejected amount
        only alerts; an accepted one is sent, and on success the form closes,
        the amount is cleared and the listing is fetched again; a failed call
        alerts and leaves the form as it was. */
    method SubmitWithdraw(reply: Reply<()>)
      modifies this
      ensures var verdict := WithdrawVerdict(old(withdrawAmount), old(summary).totalBalance);
              && (verdict == InvalidAmount ==> alertMessage == INVALID_AMOUNT)
              && (verdict == InsufficientBalance ==> alertMessage == INSUFFICIENT_BALANCE)
              && (verdict != Send ==>
                    requests == old(requests) && showWithdraw == old(showWithdraw)
                    && withdrawAmount == old(withdrawAmount) && loading == old(loading))
              && (verdict == Send && reply.Returned? ==>
                    requests == old(requests) + [SendWithdrawal(vendor, old(withdrawAmount)), FetchRequest(activeTab, vendor)]
                    && alertMessage == WITHDRAWAL_SENT && !showWithdraw && withdrawAmount == "" && loading)
              && (verdict == Send && reply.Threw? ==>
                    requests == old(requests) + [SendWithdrawal(vendor, old(withdrawAmount))]
                    && alertMessage == WITHDRAWAL_FAILED && showWithdraw == old(showWithdraw)
                    && withdrawAmount == old(withdrawAmount) && loading == old(loading))
      ensures activeTab == old(activeTab) && summary == old(summary) && transactions == old(transactions)
    {
      var verdict := WithdrawVerdict(withdrawAmount, summary.totalBalance);
      assert verdict == InvalidAmount || verdict == InsufficientBalance || verdict == Send;
      if verdict == InvalidAmount {
        alertMessage := INVALID_AMOUNT;
        return;
      }
      if verdict == InsufficientBalance {
        alertMessage := INSUFFICIENT_BALANCE;
        return;
      }
      requests := requests + [SendWithdrawal(vendor, withdrawAmount)];
      if reply.Threw? {
        alertMessage := WITHDRAWAL_FAILED;
        return;
      }
      alertMessage := WITHDRAWAL_SENT;
      showWithdraw := false;
      withdrawAmount := "";
      BeginFetch();
    }
  }
}
