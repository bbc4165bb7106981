/** The login screen: a ten-digit mobile number field and the Send OTP
    button, which logs in with the number, has the code sent to the vendor
    and opens the OTP screen. */
module Login {
  import opened Js
  import opened Backend

  const MOBILE_LENGTH := 10

  /** `onChangeMobile` stores `DigitsOnly(text)`, which keeps exactly the
      digits, in order: a number of digits is kept as typed, filtering twice
      changes nothing, and text typed after the number only adds its own
      digits. */
  lemma MobileTextSpec(text: string, more: string)
    ensures forall c :: multiset(DigitsOnly(text))[c] == if IsDigit(c) then multiset(text)[c] else 0
    ensures AllDigits(text) ==> DigitsOnly(text) == text
    ensures DigitsOnly(DigitsOnly(text)) == DigitsOnly(text)
    ensures DigitsOnly(text + more) == DigitsOnly(text) + DigitsOnly(more)
  {
    forall c {
      DigitsOnlyCount(text, c);
    }
    DigitsOnlyKeepsDigits(DigitsOnly(text));
    if AllDigits(text) {
      DigitsOnlyKeepsDigits(text);
    }
    DigitsOnlyAppend(text, more);
  }

  /** Every typed character survives the filter exactly when all of them
      are digits. */
  lemma {:induction false} FilterKeepsAllIffDigits(text: string)
    ensures |DigitsOnly(text)| == |text| <==> AllDigits(text)
  {
    if text != [] {
      FilterKeepsAllIffDigits(text[1..]);
      assert AllDigits(text) <==> IsDigit(text[0]) && AllDigits(text[1..]) by {
        assert forall i :: 1 <= i < |text| ==> text[i] == text[1..][i - 1];
      }
    }
  }

  /** For one text that the field hands to `onChangeMobile`, which holds at
      most ten characters: the number reaches ten digits exactly when the
      text is ten characters, all of them digits. A stray character in that
      text leaves the button disabled until a later text (the field shows
      the filtered number back) completes the ten digits. */
  lemma TenDigitsTyped(text: string)
    requires |text| <= MOBILE_LENGTH
    ensures |DigitsOnly(text)| == MOBILE_LENGTH <==> |text| == MOBILE_LENGTH && AllDigits(text)
  {
    FilterKeepsAllIffDigits(text);
  }

  datatype Request = LoginUser(mobile: string) | SendOtp(code: JsValue)

  /** The OTP screen opened with the vendor code and the number. */
  datatype OtpRoute = OtpRoute(code: JsValue, mobileNumber: string)

  /** How far a press of Send OTP has got: no call in flight, the login call
      for the number pressed with, or the send call for the vendor code the
      login returned. */
  datatype Stage = Idle | AwaitingLogin(mobile: string) | AwaitingSend(code: JsValue, mobile: string)

  const INVALID_NUMBER := "Invalid number"
  const NETWORK_ERROR := "Network error"

  class LoginScreen {
    var mobileNumber: string
    var loading: bool
    var stage: Stage
    var requests: seq<Request>
    var navigatedTo: Option<OtpRoute>
    var alertMessage: string

    ghost predicate Valid()
      reads this
    {
      && |mobileNumber| <= MOBILE_LENGTH && AllDigits(mobileNumber)
      && (loading <==> !stage.Idle?)
    }

    constructor()
      ensures Valid()
      ensures mobileNumber == "" && !loading && stage == Idle
      ensures requests == [] && navigatedTo == None && alertMessage == ""
    {
      mobileNumber := "";
      loading := false;
      stage := Idle;
      requests := [];
      navigatedTo := None;
      alertMessage := "";
    }

    /** The Send OTP button is enabled: ten digits and no call in flight. */
    predicate SendEnabled()
      reads this
    {
      |mobileNumber| == MOBILE_LENGTH && !loading
    }

    /** Text from the number field, which holds at most ten characters and
        stays editable while a call is in flight. */
    method ChangeMobile(text: string)
      requires Valid() && |text| <= MOBILE_LENGTH
      modifies this
      ensures Valid()
      ensures mobileNumber == DigitsOnly(text)
      ensures SendEnabled() <==> |DigitsOnly(text)| == MOBILE_LENGTH && !loading
      ensures loading == old(loading) && stage == old(stage) && requests == old(requests)
      ensures navigatedTo == old(navigatedTo) && alertMessage == old(alertMessage)
    {
      mobileNumber := DigitsOnly(text);
    }

    /** `handleSendOTP` up to the login call: a number that is not ten digits
        long does nothing; otherwise loading is set and the login requested. */
    method BeginSendOtp()
      requires Valid() && !loading
      modifies this
      ensures Valid() && mobileNumber == old(mobileNumber)
      ensures |mobileNumber| != MOBILE_LENGTH ==>
                !loading && stage == old(stage) && requests == old(requests)
      ensures |mobileNumber| == MOBILE_LENGTH ==>
                loading && stage == AwaitingLogin(mobileNumber)
                && requests == old(requests) + [LoginUser(mobileNumber)]
      ensures navigatedTo == old(navigatedTo) && alertMessage == old(alertMessage)
    {
      if |mobileNumber| != MOBILE_LENGTH {
        return;
      }
      loading := true;
      stage := AwaitingLogin(mobileNumber);
      requests := requests + [LoginUser(mobileNumber)];
    }

    /** The login call's outcome (the vendor's `M1_CODE` on success): a
        `success` has the code sent to that vendor and keeps loading; any
        other envelope or a thrown error alerts and ends loading. */
    method LoginAnswered(login: Outcome<JsValue>)
      requires Valid() && stage.AwaitingLogin?
      modifies this
      ensures Valid()
      ensures login.Success? ==>
                loading && stage == AwaitingSend(login.data, old(stage).mobile)
                && requests == old(requests) + [SendOtp(login.data)] && alertMessage == old(alertMessage)
      ensures !login.Success? ==> !loading && stage == Idle && requests == old(requests)
      ensures login.BusinessFailure? ==> alertMessage == INVALID_NUMBER
      ensures login.Exception? ==> alertMessage == NETWORK_ERROR
      ensures mobileNumber == old(mobileNumber) && navigatedTo == old(navigatedTo)
    {
      match login {
        case Success(code) =>
          stage := AwaitingSend(code, stage.mobile);
          requests := requests + [SendOtp(code)];
        case BusinessFailure(_) =>
          alertMessage := INVALID_NUMBER;
          loading := false;
          stage := Idle;
        case Exception(_) =>
          alertMessage := NETWORK_ERROR;
          loading := false;
          stage := Idle;
      }
    }

    /** The send call's result: when it returns, the OTP screen opens with
        the vendor code and the number the button was pressed with; a thrown
        error alerts. Loading ends either way. */
    method OtpSent(send: Reply<()>)
      requires Valid() && stage.AwaitingSend?
      modifies this
      ensures Valid() && !loading && stage == Idle
      ensures send.Returned? ==>
                navigatedTo == Some(OtpRoute(old(stage).code, old(stage).mobile)) && alertMessage == old(alertMessage)
      ensures send.Threw? ==> navigatedTo == old(navigatedTo) && alertMessage == NETWORK_ERROR
      ensures mobileNumber == old(mobileNumber) && requests == old(requests)
    {
      if send.Returned? {
        navigatedTo := Some(OtpRoute(stage.code, stage.mobile));
      } else {
        alertMessage := NETWORK_ERROR;
      }
      loading := false;
      stage := Idle;
    }
  }

  /** A scenario driver, typing a number and pressing the button: whatever the field receives,
      the OTP screen opens for its digits exactly when there are ten of them
      and both calls succeed. */
  method TypeAndSend(text: string, code: JsValue) returns (route: Option<OtpRoute>)
    requires |text| <= MOBILE_LENGTH
    ensures route.Some? <==> |DigitsOnly(text)| == MOBILE_LENGTH
    ensures route.Some? ==> route.value == OtpRoute(code, DigitsOnly(text))
  {
    var screen := new LoginScreen();
    screen.ChangeMobile(text);
    screen.BeginSendOtp();
    if screen.loading {
      screen.LoginAnswered(Success(code));
      screen.OtpSent(Returned(()));
    }
    route := screen.navigatedTo;
  }
}
