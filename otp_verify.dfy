/** The OTP entry screen: six one-digit cells, verification of the six-digit
    code, the resend countdown, and autofill from the clipboard. Timers are
    explicit: `Tick` is one second of the countdown, and a verification the
    screen schedules with `setTimeout` waits in `scheduled` until
    `FireScheduledVerify` runs it. */
module OtpVerify {
  import opened Js
  import opened Backend

  /** `cells.join('')` */
  function Concat(cells: seq<string>): string {
    if cells == [] then "" else cells[0] + Concat(cells[1..])
  }

  /** The number of non-empty cells. */
  function Filled(cells: seq<string>): nat {
    if cells == [] then 0 else (if cells[0] != "" then 1 else 0) + Filled(cells[1..])
  }

  /** With at most one character per cell, the joined code is as long as the
      number of filled cells; so six cells join to six characters exactly
      when all of them are filled. */
  lemma {:induction false} ConcatLength(cells: seq<string>)
    requires forall i :: 0 <= i < |cells| ==> |cells[i]| <= 1
    ensures |Concat(cells)| == Filled(cells) <= |cells|
    ensures |Concat(cells)| == |cells| <==> forall i :: 0 <= i < |cells| ==> cells[i] != ""
  {
    if cells != [] {
      ConcatLength(cells[1..]);
      assert forall i :: 1 <= i < |cells| ==> cells[i] == cells[1..][i - 1];
    }
  }

  /** `s.split('')`: one cell per character. */
  function Split(s: string): (cells: seq<string>)
    ensures |cells| == |s| && forall i :: 0 <= i < |s| ==> cells[i] == [s[i]]
  {
    if s == [] then [] else [[s[0]]] + Split(s[1..])
  }

  /** Splitting a code into cells and joining them gives the code back. */
  lemma {:induction false} SplitConcat(s: string)
    ensures Concat(Split(s)) == s
  {
    if s != [] {
      SplitConcat(s[1..]);
      assert Split(s)[1..] == Split(s[1..]);
      assert s == [s[0]] + s[1..];
    }
  }

  /** `val.replace(/[^0-9]/g, '').slice(-1)`: the last digit typed, or "". */
  function LastDigit(val: string): (d: string)
    ensures |d| <= 1 && AllDigits(d)
    ensures d == "" <==> DigitsOnly(val) == ""
    ensures d != "" ==> d[0] == DigitsOnly(val)[|DigitsOnly(val)| - 1]
  {
    var digits := DigitsOnly(val);
    if digits == "" then "" else digits[|digits| - 1..]
  }

  /** A digit typed into an empty cell is what the cell then holds. */
  lemma LastDigitOfDigit(c: char)
    requires IsDigit(c)
    ensures LastDigit([c]) == [c]
  {
    DigitsOnlyKeepsDigits([c]);
  }

  /** Six digits starting at position i (`\d{6}`). */
  predicate SixDigitsAt(s: string, i: int) {
    0 <= i && i + 6 <= |s| && AllDigits(s[i..i + 6])
  }

  /** The first six-digit run at or after position `from`. */
  function FindSixDigits(s: string, from: nat): (r: Option<nat>)
    decreases |s| - from
    ensures r.Some? ==> from <= r.value && SixDigitsAt(s, r.value)
                        && forall j :: from <= j < r.value ==> !SixDigitsAt(s, j)
    ensures r.None? ==> forall j :: from <= j ==> !SixDigitsAt(s, j)
  {
    if from + 6 > |s| then None
    else if SixDigitsAt(s, from) then Some(from)
    else FindSixDigits(s, from + 1)
  }

  /** `text.match(/(\d{6})/)?.[1]`: the leftmost six consecutive digits. */
  function FirstSixDigitRun(text: string): (r: Option<string>)
    ensures r.Some? ==> |r.value| == 6 && AllDigits(r.value)
    ensures r.Some? <==> exists i :: SixDigitsAt(text, i)
    ensures r.Some? ==> exists i :: SixDigitsAt(text, i) && r.value == text[i..i + 6]
                          && forall j :: 0 <= j < i ==> !SixDigitsAt(text, j)
  {
    match FindSixDigits(text, 0)
    case None => None
    case Some(i) => Some(text[i..i + 6])
  }

  /** The run the clipboard check autofills: none when the clipboard text is
      the text seen last time, none without a six-digit run, and none when
      the run is already the entry `entry`. */
  function ClipboardRun(text: string, last: string, entry: string): (r: Option<string>)
    ensures r.Some? <==> text != last && FirstSixDigitRun(text).Some? && FirstSixDigitRun(text).value != entry
    ensures r.Some? ==> r == FirstSixDigitRun(text)
  {
    if text == last then None
    else
      match FirstSixDigitRun(text)
      case Some(run) => if run != entry then Some(run) else None
      case None => None
  }

  /** The clipboard check as written: the keyboard and app-state listeners
      are registered once, so the entry they compare against is the one of
      the first render, six empty cells. */
  function ClipboardRunAsWritten(text: string, last: string): Option<string> {
    ClipboardRun(text, last, Concat(["", "", "", "", "", ""]))
  }

  /** Compared with the empty first entry, a run is never skipped for being
      the current entry: a code already typed in is autofilled and verified
      again when the clipboard holds it, where the intended check skips it. */
  lemma StaleEntryNeverSkips(text: string, last: string)
    ensures ClipboardRunAsWritten(text, last) == (if text != last then FirstSixDigitRun(text) else None)
    ensures ClipboardRunAsWritten("123456", "") == Some("123456")
    ensures ClipboardRun("123456", "", "123456") == None
  {
    assert Concat(["", "", "", "", "", ""]) == "";
    var code := "123456";
    assert code[0..6] == code;
    assert AllDigits(code);
    assert FindSixDigits(code, 0) == Some(0);
  }

  datatype Request = VerifyOtp(code: JsValue, otp: string) | SendOtp(code: JsValue)

  const INVALID_OTP := "Please check your OTP and try again"
  const NETWORK_ERROR := "Please check your connection and try again"
  const OTP_SENT := "A new OTP has been sent to your mobile number"
  const RESEND_FAILED := "Failed to resend OTP. Please try again"
  const CLIPBOARD_EMPTY := "No content found in clipboard"
  const NO_OTP_IN_CLIPBOARD := "No 6-digit OTP found in clipboard"
  const RESEND_SECONDS := 30

  class OtpScreen {
    /** The vendor code the login screen passed along. */
    const code: JsValue
    const otp: array<string>
    var timer: int
    var canResend: bool
    var loading: bool
    var lastClipboard: string
    /** Verifications scheduled with `setTimeout`, oldest first. */
    var scheduled: seq<string>
    var requests: seq<Request>
    /** The `M1_CODE` of the user record saved after a successful verification. */
    var savedUser: Option<JsValue>
    /** Vendor codes whose push token registration has been scheduled. */
    var fcmScheduled: seq<JsValue>
    var alertMessage: string

    ghost predicate Valid()
      reads this, otp
    {
      && otp.Length == 6
      && (forall i :: 0 <= i < 6 ==> |otp[i]| <= 1 && AllDigits(otp[i]))
      && 0 <= timer <= RESEND_SECONDS
      && (canResend <==> timer == 0)
    }

    constructor(vendorCode: JsValue)
      ensures Valid() && fresh(otp)
      ensures code == vendorCode
      ensures otp[..] == ["", "", "", "", "", ""]
      ensures timer == RESEND_SECONDS && !canResend && !loading
      ensures lastClipboard == "" && scheduled == [] && requests == []
      ensures savedUser == None && fcmScheduled == [] && alertMessage == ""
    {
      code := vendorCode;
      otp := new string[6](_ => "");
      timer := RESEND_SECONDS;
      canResend := false;
      loading := false;
      lastClipboard := "";
      scheduled := [];
      requests := [];
      savedUser := None;
      fcmScheduled := [];
      alertMessage := "";
      new;
      assert otp[..] == ["", "", "", "", "", ""];
    }

    /** `isOtpComplete`: every cell holds a digit. */
    predicate IsComplete()
      reads this, otp
      requires otp.Length == 6
    {
      forall i :: 0 <= i < 6 ==> otp[i] != ""
    }

    /** The verify button is enabled. */
    predicate VerifyEnabled()
      reads this, otp
      requires otp.Length == 6
    {
      IsComplete() && !loading
    }

    /** A complete entry joins to a six-character code, and only a complete one. */
    lemma CompleteIffSixCharacters()
      requires Valid()
      ensures IsComplete() <==> |Concat(otp[..])| == 6
    {
      ConcatLength(otp[..]);
    }

    /** The verify button is enabled exactly when the joined cells make a
        six-character code, the one the handler verifies, and no call is in
        flight. */
    lemma VerifyEnabledIffSixCharacters()
      requires Valid()
      ensures VerifyEnabled() <==> |Concat(otp[..])| == 6 && !loading
    {
      CompleteIffSixCharacters();
    }

    method ClearCells()
      requires Valid()
      modifies otp
      ensures Valid()
      ensures otp[..] == ["", "", "", "", "", ""]
    {
      forall i | 0 <= i < 6 {
        otp[i] := "";
      }
      assert otp[..] == ["", "", "", "", "", ""];
    }

    /** Text entered into cell `index`: the cell keeps the last digit typed
        and no other cell changes; a digit in the last cell schedules a
        verification of the joined cells. */
    method HandleOtpChange(val: string, index: int)
      requires Valid() && 0 <= index < 6
      modifies otp, this
      ensures Valid()
      ensures otp[index] == LastDigit(val)
      ensures forall j :: 0 <= j < 6 && j != index ==> otp[j] == old(otp[j])
      ensures scheduled == old(scheduled) + (if index == 5 && LastDigit(val) != "" then [Concat(otp[..])] else [])
      ensures timer == old(timer) && canResend == old(canResend) && loading == old(loading)
      ensures requests == old(requests) && savedUser == old(savedUser) && lastClipboard == old(lastClipboard)
      ensures alertMessage == old(alertMessage) && fcmScheduled == old(fcmScheduled)
    {
      var digit := LastDigit(val);
      otp[index] := digit;
      if index == 5 && digit != "" {
        scheduled := scheduled + [Concat(otp[..])];
      }
    }

    /** `autofillOtp(codeStr)`, called with a run of digits: anything but six
        of them is ignored; otherwise cell i gets character i and a
        verification of the code is scheduled. */
    method Autofill(codeStr: string)
      requires Valid() && AllDigits(codeStr)
      modifies otp, this
      ensures Valid()
      ensures |codeStr| != 6 ==> otp[..] == old(otp[..]) && scheduled == old(scheduled)
      ensures |codeStr| == 6 ==> otp[..] == Split(codeStr) && Concat(otp[..]) == codeStr && IsComplete()
      ensures |codeStr| == 6 ==> scheduled == old(scheduled) + [codeStr]
      ensures timer == old(timer) && canResend == old(canResend) && loading == old(loading)
      ensures requests == old(requests) && savedUser == old(savedUser) && lastClipboard == old(lastClipboard)
      ensures alertMessage == old(alertMessage) && fcmScheduled == old(fcmScheduled)
    {
      if |codeStr| != 6 {
        return;
      }
      forall i | 0 <= i < 6 {
        otp[i] := [codeStr[i]];
      }
      assert otp[..] == Split(codeStr);
      SplitConcat(codeStr);
      scheduled := scheduled + [codeStr];
    }

    /** `handleVerifyOTP(forceOtp)` up to its call: nothing happens unless
        the code (the forced one, or the joined cells) has six characters;
        otherwise loading is set and the code is sent for verification. The
        handler has no guard of its own, so a scheduled verification may
        start while another is in flight. */
    method BeginVerify(force: Option<string>)
      requires Valid()
      modifies this
      ensures Valid()
      ensures var value := if force.Some? then force.value else Concat(otp[..]);
              && (|value| != 6 ==> requests == old(requests) && loading == old(loading))
              && (|value| == 6 ==> requests == old(requests) + [VerifyOtp(code, value)] && loading)
      ensures otp[..] == old(otp[..]) && savedUser == old(savedUser) && fcmScheduled == old(fcmScheduled)
      ensures alertMessage == old(alertMessage) && timer == old(timer) && canResend == old(canResend)
      ensures scheduled == old(scheduled) && lastClipboard == old(lastClipboard)
    {
      var value := if force.Some? then force.value else Concat(otp[..]);
      if |value| != 6 {
        return;
      }
      loading := true;
      requests := requests + [VerifyOtp(code, value)];
    }

    /** The verification's answer: a `success` saves the user and schedules
        push registration for a truthy one; any other envelope alerts and
        clears the cells; a thrown error only alerts. Loading ends false,
        whatever other verification may still be in flight. */
    method SettleVerify(outcome: Outcome<JsValue>)
      requires Valid()
      modifies otp, this
      ensures Valid() && !loading
      ensures outcome.Success? ==>
                savedUser == Some(outcome.data) && otp[..] == old(otp[..]) && alertMessage == old(alertMessage)
                && fcmScheduled == old(fcmScheduled) + (if Truthy(outcome.data) then [outcome.data] else [])
      ensures outcome.BusinessFailure? ==>
                otp[..] == ["", "", "", "", "", ""] && alertMessage == INVALID_OTP
      ensures outcome.Exception? ==> otp[..] == old(otp[..]) && alertMessage == NETWORK_ERROR
      ensures !outcome.Success? ==> savedUser == old(savedUser) && fcmScheduled == old(fcmScheduled)
      ensures timer == old(timer) && canResend == old(canResend)
      ensures scheduled == old(scheduled) && lastClipboard == old(lastClipboard) && requests == old(requests)
    {
      match outcome {
        case Success(user) =>
          savedUser := Some(user);
          if Truthy(user) {
            fcmScheduled := fcmScheduled + [user];
          }
        case BusinessFailure(_) =>
          alertMessage := INVALID_OTP;
          ClearCells();
        case Exception(_) =>
          alertMessage := NETWORK_ERROR;
      }
      loading := false;
    }

    /** The oldest scheduled verification comes due: it leaves the queue and
        starts as `BeginVerify` does with that code forced. */
    method FireScheduledVerify()
      requires Valid() && scheduled != []
      modifies this
      ensures Valid()
      ensures scheduled == old(scheduled[1..])
      ensures var value := old(scheduled[0]);
              && (|value| != 6 ==> requests == old(requests) && loading == old(loading))
              && (|value| == 6 ==> requests == old(requests) + [VerifyOtp(code, value)] && loading)
      ensures otp[..] == old(otp[..]) && savedUser == old(savedUser) && fcmScheduled == old(fcmScheduled)
      ensures alertMessage == old(alertMessage) && timer == old(timer) && canResend == old(canResend)
      ensures lastClipboard == old(lastClipboard)
    {
      var value := scheduled[0];
      scheduled := scheduled[1..];
      BeginVerify(Some(value));
    }

    /** One second of the countdown: the timer drops by one while positive,
        and resending becomes possible once it is zero. */
    method Tick()
      requires Valid()
      modifies this
      ensures Valid()
      ensures timer == (if old(timer) > 0 then old(timer) - 1 else 0)
      ensures canResend <==> timer == 0
      ensures otp[..] == old(otp[..]) && requests == old(requests) && loading == old(loading)
      ensures scheduled == old(scheduled) && savedUser == old(savedUser) && alertMessage == old(alertMessage)
      ensures lastClipboard == old(lastClipboard) && fcmScheduled == old(fcmScheduled)
    {
      if timer > 0 {
        timer := timer - 1;
      }
      if timer == 0 {
        canResend := true;
      }
    }

    /** `handleResendOTP`, with the call's result: a no-op unless resending is
        possible; otherwise the countdown restarts, the cells are cleared and
        the code is sent again; a thrown error makes resending possible again
        at once. */
    method Resend(reply: Reply<()>)
      requires Valid()
      modifies otp, this
      ensures Valid()
      ensures !old(canResend) ==>
                timer == old(timer) && !canResend && otp[..] == old(otp[..]) && requests == old(requests)
                && alertMessage == old(alertMessage)
      ensures old(canResend) ==> otp[..] == ["", "", "", "", "", ""] && requests == old(requests) + [SendOtp(code)]
      ensures old(canResend) && reply.Returned? ==> timer == RESEND_SECONDS && !canResend && alertMessage == OTP_SENT
      ensures old(canResend) && reply.Threw? ==> timer == 0 && canResend && alertMessage == RESEND_FAILED
      ensures loading == old(loading) && scheduled == old(scheduled) && savedUser == old(savedUser)
      ensures lastClipboard == old(lastClipboard) && fcmScheduled == old(fcmScheduled)
    {
      if !canResend {
        return;
      }
      canResend := false;
      timer := RESEND_SECONDS;
      ClearCells();
      requests := requests + [SendOtp(code)];
      if reply.Threw? {
        alertMessage := RESEND_FAILED;
        canResend := true;
        timer := 0;
      } else {
        alertMessage := OTP_SENT;
      }
    }

    /** The clipboard check run when the keyboard opens or the app resumes,
        with the entry comparison corrected to the current entry (see
        `ClipboardRunAsWritten`): when `ClipboardRun` picks a run, the whole
        clipboard text is remembered and the run autofilled. */
    method CheckClipboard(text: string)
      requires Valid()
      modifies otp, this
      ensures Valid()
      ensures var run := ClipboardRun(text, old(lastClipboard), Concat(old(otp[..])));
              if run.Some? then
                lastClipboard == text && otp[..] == Split(run.value)
                && scheduled == old(scheduled) + [run.value]
              else
                lastClipboard == old(lastClipboard) && otp[..] == old(otp[..]) && scheduled == old(scheduled)
      ensures requests == old(requests) && timer == old(timer) && canResend == old(canResend)
      ensures loading == old(loading) && savedUser == old(savedUser) && alertMessage == old(alertMessage)
      ensures fcmScheduled == old(fcmScheduled)
    {
      var run := ClipboardRun(text, lastClipboard, Concat(otp[..]));
      if run.Some? {
        lastClipboard := text;
        Autofill(run.value);
      }
    }

    /** The paste button: empty clipboard text and text without a six-digit
        run only alert; otherwise the whole clipboard text is remembered and
        the run autofilled. */
    method Paste(text: string)
      requires Valid()
      modifies otp, this
      ensures Valid()
      ensures text == "" ==> alertMessage == CLIPBOARD_EMPTY && otp[..] == old(otp[..])
                             && lastClipboard == old(lastClipboard) && scheduled == old(scheduled)
      ensures text != "" && FirstSixDigitRun(text).None? ==>
                alertMessage == NO_OTP_IN_CLIPBOARD && otp[..] == old(otp[..])
                && lastClipboard == old(lastClipboard) && scheduled == old(scheduled)
      ensures text != "" && FirstSixDigitRun(text).Some? ==>
                lastClipboard == text && otp[..] == Split(FirstSixDigitRun(text).value)
                && scheduled == old(scheduled) + [FirstSixDigitRun(text).value]
                && alertMessage == old(alertMessage)
      ensures requests == old(requests) && timer == old(timer) && canResend == old(canResend)
      ensures loading == old(loading) && savedUser == old(savedUser) && fcmScheduled == old(fcmScheduled)
    {
      if text == "" {
        alertMessage := CLIPBOARD_EMPTY;
        return;
      }
      var run := FirstSixDigitRun(text);
      if run.Some? {
        lastClipboard := text;
        Autofill(run.value);
      } else {
        alertMessage := NO_OTP_IN_CLIPBOARD;
      }
    }
  }
}
