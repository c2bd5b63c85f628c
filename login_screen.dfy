/** The login screen: ten digit boxes for the phone number and a proceed action. */
module LoginScreen {
  import opened Wrappers
  import opened DigitInput

  const PhoneLength: nat := 10

  class Screen {
    const entry: DigitEntry
    var isLoading: bool
    /** The numbers captured by proceed requests whose 1.5-second timers still run, oldest
        first. */
    var pendingNumbers: seq<string>

    ghost predicate Valid()
      reads this, entry
    {
      entry.Valid() && entry.size == PhoneLength
    }

    /** Ten empty boxes, not loading. */
    constructor ()
      ensures Valid() && fresh(entry) && !isLoading && pendingNumbers == []
      ensures forall i :: 0 <= i < PhoneLength ==> entry.digits[i] == ""
    {
      entry := new DigitEntry(PhoneLength);
      isLoading := false;
      pendingNumbers := [];
    }

    /** `handleDigitChange`: the last digit typed is stored at `index` only; focus advances
        when a digit was stored and `index` is below 9. */
    method DigitChange(index: nat, value: string) returns (focus: Option<nat>)
      requires Valid() && index < PhoneLength
      modifies entry
      ensures Valid()
      ensures entry.digits == old(entry.digits)[index := TypedDigit(value)]
      ensures focus == AdvanceFocus(index, TypedDigit(value), PhoneLength)
      ensures focus.Some? <==> TypedDigit(value) != "" && index < 9
    {
      focus := entry.ChangeDigit(index, value);
    }

    /** `handlePaste`: at most the first ten digits overwrite the first boxes; focus goes to
        the first empty box, or to box 9. */
    method Paste(text: string) returns (focus: nat)
      requires Valid()
      modifies entry
      ensures Valid()
      ensures entry.digits == Pasted(old(entry.digits), PastedDigits(text, PhoneLength))
      ensures focus == PasteFocus(entry.digits) && focus <= 9
    {
      focus := entry.Paste(text);
    }

    /** `handleKeyDown`: the row's focus moves (`KeyDownFocus`) over boxes 0..9. */
    function KeyDown(index: nat, key: Key): (r: Option<nat>)
      requires Valid() && index < PhoneLength
      reads this, entry
      ensures r == KeyDownFocus(entry.digits, index, key) && (r.Some? ==> r.value <= 9)
    {
      KeyDownFocus(entry.digits, index, key)
    }

    /** `handleProceed`: rejected unless the joined number has 10 characters; an accepted
        number starts loading and is kept for the timer's toast. */
    method Proceed() returns (accepted: bool)
      requires Valid()
      modifies this
      ensures accepted <==> IsComplete(entry.digits)
      ensures isLoading == (old(isLoading) || accepted)
      ensures !accepted ==> pendingNumbers == old(pendingNumbers)
      ensures accepted ==> pendingNumbers == old(pendingNumbers) + [Join(entry.digits)]
                           && |Join(entry.digits)| == PhoneLength
      ensures accepted ==> ProceedDisabled()
    {
      var phoneNumber := Join(entry.digits);
      CompleteIffFullLength(entry.digits, PhoneLength);
      if |phoneNumber| != PhoneLength {
        accepted := false;
        return;
      }
      isLoading := true;
      pendingNumbers := pendingNumbers + [phoneNumber];
      accepted := true;
    }

    /** The oldest timer fires: loading stops and the success toast names the number
        captured when proceed was pressed, whatever the boxes hold by then. */
    method ProceedCompletes() returns (phoneNumber: string)
      requires pendingNumbers != []
      modifies this
      ensures !isLoading && phoneNumber == old(pendingNumbers)[0]
      ensures pendingNumbers == old(pendingNumbers)[1..]
    {
      isLoading := false;
      phoneNumber := pendingNumbers[0];
      pendingNumbers := pendingNumbers[1..];
    }

    /** The proceed button's `disabled`: the joined number is not 10 characters long, or a
        request is loading. */
    function ProceedDisabled(): (r: bool)
      requires Valid()
      reads this, entry
      ensures r <==> |Join(entry.digits)| != PhoneLength || isLoading
    {
      CompleteIffFullLength(entry.digits, PhoneLength);
      !IsComplete(entry.digits) || isLoading
    }
  }
}
