/** The OTP screen: six digit boxes, a verify action and a 30-second resend countdown. */
module OtpScreen {
  import opened Wrappers
  import opened DigitInput

  const OtpLength: nat := 6
  const ResendDelay: nat := 30

  /** The resend countdown: seconds left and whether resending is allowed. */
  datatype ResendState = ResendState(timer: nat, canResend: bool)

  const InitialResend: ResendState := ResendState(ResendDelay, false)

  /** One run of the countdown effect: a positive timer drops by one (after a second); at 0
      resending becomes allowed and the effect schedules nothing more. */
  function ResendTick(s: ResendState): (r: ResendState)
    ensures s.timer > 0 ==> r.timer == s.timer - 1 && r.canResend == s.canResend
    ensures s.timer == 0 ==> r == ResendState(0, true)
  {
    if s.timer > 0 then ResendState(s.timer - 1, s.canResend) else ResendState(0, true)
  }

  /** `n` runs of the countdown effect. */
  function AfterTicks(s: ResendState, n: nat): ResendState
    decreases n
  {
    if n == 0 then s else AfterTicks(ResendTick(s), n - 1)
  }

  /** `handleResendOTP`: nothing while resending is not allowed; otherwise it is disallowed
      again and the timer restarts at 30. */
  function ResendPressed(s: ResendState): (r: ResendState)
    ensures !s.canResend ==> r == s
    ensures s.canResend ==> r == InitialResend
  {
    if !s.canResend then s else ResendState(ResendDelay, false)
  }

  lemma {:induction false} CountdownDecrements(t: nat, k: nat)
    requires k <= t
    ensures AfterTicks(ResendState(t, false), k) == ResendState(t - k, false)
  {
    if k > 0 {
      CountdownDecrements(t - 1, k - 1);
    }
  }

  /** Resending stays disallowed for the 30 runs that count down, and is allowed after the
      run that finds the timer at 0; a resend then starts the same countdown again. */
  lemma ResendCycle()
    ensures forall k :: 0 <= k <= ResendDelay ==> !AfterTicks(InitialResend, k).canResend
    ensures AfterTicks(InitialResend, ResendDelay + 1) == ResendState(0, true)
    ensures ResendPressed(AfterTicks(InitialResend, ResendDelay + 1)) == InitialResend
  {
    forall k | 0 <= k <= ResendDelay
      ensures !AfterTicks(InitialResend, k).canResend
    {
      CountdownDecrements(ResendDelay, k);
    }
    CountdownDecrements(ResendDelay, ResendDelay);
    assert AfterTicks(ResendState(0, false), 1) == ResendState(0, true);
    AfterTicksSplit(InitialResend, ResendDelay, 1);
  }

  lemma {:induction false} AfterTicksSplit(s: ResendState, m: nat, n: nat)
    ensures AfterTicks(s, m + n) == AfterTicks(AfterTicks(s, m), n)
    decreases m
  {
    if m > 0 {
      AfterTicksSplit(ResendTick(s), m - 1, n);
    }
  }

  class Screen {
    const entry: DigitEntry
    var resend: ResendState
    var isLoading: bool
    /** Verification timers still running. */
    var pendingVerifies: nat

    ghost predicate Valid()
      reads this, entry
    {
      entry.Valid() && entry.size == OtpLength
    }

    /** Six empty boxes, timer at 30, resend disallowed, not loading. */
    constructor ()
      ensures Valid() && fresh(entry)
      ensures forall i :: 0 <= i < OtpLength ==> entry.digits[i] == ""
      ensures resend == InitialResend && !isLoading && pendingVerifies == 0
    {
      entry := new DigitEntry(OtpLength);
      resend := InitialResend;
      isLoading := false;
      pendingVerifies := 0;
    }

    /** `handleDigitChange`: the last digit typed is stored at `index` only; focus advances
        when a digit was stored and `index` is below 5. */
    method DigitChange(index: nat, value: string) returns (focus: Option<nat>)
      requires Valid() && index < OtpLength
      modifies entry
      ensures Valid()
      ensures entry.digits == old(entry.digits)[index := TypedDigit(value)]
      ensures focus == AdvanceFocus(index, TypedDigit(value), OtpLength)
      ensures focus.Some? <==> TypedDigit(value) != "" && index < 5
    {
      focus := entry.ChangeDigit(index, value);
    }

    /** `handlePaste`: at most the first six digits overwrite the first boxes; focus goes to
        the first empty box, or to box 5. */
    method Paste(text: string) returns (focus: nat)
      requires Valid()
      modifies entry
      ensures Valid()
      ensures entry.digits == Pasted(old(entry.digits), PastedDigits(text, OtpLength))
      ensures focus == PasteFocus(entry.digits) && focus <= 5
    {
      focus := entry.Paste(text);
    }

    /** `handleKeyDown`: the row's focus moves (`KeyDownFocus`) over boxes 0..5. */
    function KeyDown(index: nat, key: Key): (r: Option<nat>)
      requires Valid() && index < OtpLength
      reads this, entry
      ensures r == KeyDownFocus(entry.digits, index, key) && (r.Some? ==> r.value <= 5)
    {
      KeyDownFocus(entry.digits, index, key)
    }

    /** The countdown effect, run once per change of the timer. */
    method ResendTimerStep()
      modifies this
      ensures resend == ResendTick(old(resend)) && isLoading == old(isLoading)
      ensures pendingVerifies == old(pendingVerifies)
      ensures old(resend.timer) == 0 ==> !ResendDisabled()
    {
      if resend.timer > 0 {
        resend := ResendState(resend.timer - 1, resend.canResend);
      } else {
        resend := resend.(canResend := true);
      }
    }

    /** `handleResendOTP`; `sent` says whether the resend toast is shown. */
    method ResendOtp() returns (sent: bool)
      modifies this
      ensures sent == old(resend.canResend)
      ensures resend == ResendPressed(old(resend)) && isLoading == old(isLoading)
      ensures pendingVerifies == old(pendingVerifies)
      ensures ResendDisabled() && resend.timer == (if sent then ResendDelay else old(resend.timer))
    {
      if !resend.canResend {
        sent := false;
        return;
      }
      resend := ResendState(ResendDelay, false);
      sent := true;
    }

    /** `handleVerify`: rejected unless the joined code has 6 characters; otherwise loading
        starts and the request timer runs. */
    method Verify() returns (accepted: bool)
      requires Valid()
      modifies this
      ensures accepted <==> IsComplete(entry.digits)
      ensures isLoading == (old(isLoading) || accepted) && resend == old(resend)
      ensures pendingVerifies == old(pendingVerifies) + (if accepted then 1 else 0)
      ensures accepted ==> VerifyDisabled()
    {
      var otp := Join(entry.digits);
      CompleteIffFullLength(entry.digits, OtpLength);
      if |otp| != OtpLength {
        accepted := false;
        return;
      }
      isLoading := true;
      pendingVerifies := pendingVerifies + 1;
      accepted := true;
    }

    /** The timer of an accepted verification fires: loading stops and the screen goes to
        "/verified". */
    method VerifyCompletes() returns (route: string)
      requires pendingVerifies > 0
      modifies this
      ensures !isLoading && resend == old(resend) && route == "/verified"
      ensures pendingVerifies == old(pendingVerifies) - 1
    {
      isLoading := false;
      pendingVerifies := pendingVerifies - 1;
      route := "/verified";
    }

    /** The verify button's `disabled`: the joined code is not 6 characters long, or a
        request is loading. */
    function VerifyDisabled(): (disabled: bool)
      requires Valid()
      reads this, entry
      ensures disabled <==> |Join(entry.digits)| != OtpLength || isLoading
    {
      CompleteIffFullLength(entry.digits, OtpLength);
      !IsComplete(entry.digits) || isLoading
    }

    /** The resend button is disabled while resending is not allowed. */
    function ResendDisabled(): bool
      reads this
    {
      !resend.canResend
    }
  }
}
