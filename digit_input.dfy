/**
 * A row of single-digit input boxes (6 for the OTP, 10 for the phone number): typing,
 * pasting, focus moves and the completeness checks. Focus moves are returned as the
 * index to focus, `None` when focus stays.
 */
module DigitInput {
  import opened Wrappers
  import opened Strings

  /** What a slot can hold: "" or one ASCII digit. */
  predicate IsSlotValue(d: string) {
    d == "" || (|d| == 1 && IsAsciiDigit(d[0]))
  }

  predicate ValidSlots(digits: seq<string>, size: nat) {
    |digits| == size && forall i :: 0 <= i < size ==> IsSlotValue(digits[i])
  }

  /** `value.replace(/\D/g, "").slice(-1)`: the last ASCII digit typed, or "" if none. */
  function TypedDigit(value: string): (r: string)
    ensures IsSlotValue(r)
    ensures r == "" <==> !HasDigit(value)
    ensures r != "" ==> exists i :: 0 <= i < |value| && r == [value[i]]
                                 && forall j :: i < j < |value| ==> !IsAsciiDigit(value[j])
  {
    if HasDigit(value) then LastKeptDigit(value); LastChar(KeepDigits(value))
    else LastChar(KeepDigits(value))
  }

  /** Auto-advance after typing: only when a digit was stored and a next box exists. */
  function AdvanceFocus(index: nat, digit: string, size: nat): (r: Option<nat>)
    ensures r.Some? <==> digit != "" && index + 1 < size
    ensures r.Some? ==> r.value == index + 1 && r.value < size
  {
    if digit != "" && index + 1 < size then Some(index + 1) else None
  }

  datatype Key = Backspace | ArrowLeft | ArrowRight | OtherKey

  /** `handleKeyDown`: Backspace on an empty box and ArrowLeft move left unless at the
      first box; ArrowRight moves right unless at the last; focus never leaves the row. */
  function KeyDownFocus(digits: seq<string>, index: nat, key: Key): (r: Option<nat>)
    requires index < |digits|
    ensures r.Some? ==> r.value < |digits|
    ensures key == Backspace ==>
              (r.Some? <==> digits[index] == "" && index > 0) && (r.Some? ==> r.value == index - 1)
    ensures key == ArrowLeft ==> (r.Some? <==> index > 0) && (r.Some? ==> r.value == index - 1)
    ensures key == ArrowRight ==>
              (r.Some? <==> index + 1 < |digits|) && (r.Some? ==> r.value == index + 1)
    ensures key == OtherKey ==> r.None?
  {
    match key
    case Backspace => if digits[index] == "" && index > 0 then Some(index - 1) else None
    case ArrowLeft => if index > 0 then Some(index - 1) else None
    case ArrowRight => if index + 1 < |digits| then Some(index + 1) else None
    case OtherKey => None
  }

  /** ArrowRight then ArrowLeft comes back to the starting box, and Backspace on an empty
      box goes where ArrowLeft does. */
  lemma KeyDownMovesAgree(digits: seq<string>, index: nat)
    requires index < |digits|
    ensures index + 1 < |digits| ==>
              KeyDownFocus(digits, index, ArrowRight) == Some(index + 1)
              && KeyDownFocus(digits, index + 1, ArrowLeft) == Some(index)
    ensures digits[index] == "" ==>
              KeyDownFocus(digits, index, Backspace) == KeyDownFocus(digits, index, ArrowLeft)
  {
  }

  /** `text.replace(/\D/g, "").slice(0, size)`: at most `size` digits, the first ones pasted. */
  function PastedDigits(text: string, size: nat): (r: string)
    ensures |r| <= size
    ensures forall i :: 0 <= i < |r| ==> IsAsciiDigit(r[i])
    ensures |r| <= |KeepDigits(text)| && r == KeepDigits(text)[..|r|]
    ensures |r| < size ==> r == KeepDigits(text)
  {
    Take(KeepDigits(text), size)
  }

  /** The slots after a paste of `pasted`: slot `i` holds `pasted[i]` for `i < |pasted|`
      and keeps its value otherwise. */
  function Pasted(digits: seq<string>, pasted: string): (r: seq<string>)
    requires |pasted| <= |digits|
    ensures |r| == |digits|
  {
    seq(|digits|, i requires 0 <= i < |digits| => if i < |pasted| then [pasted[i]] else digits[i])
  }

  /** `findIndex(d => !d)`: the first empty slot. */
  function FirstEmpty(digits: seq<string>): (r: Option<nat>)
    ensures r.Some? ==> r.value < |digits| && digits[r.value] == ""
    ensures r.Some? ==> forall j :: 0 <= j < r.value ==> digits[j] != ""
    ensures r.None? ==> forall j :: 0 <= j < |digits| ==> digits[j] != ""
  {
    if digits == [] then None
    else if digits[0] == "" then Some(0)
    else match FirstEmpty(digits[1..])
      case None => None
      case Some(k) => Some(k + 1)
  }

  /** Focus after a paste: the first empty slot, or the last slot when none is empty. */
  function PasteFocus(digits: seq<string>): (r: nat)
    requires |digits| > 0
    ensures r < |digits|
    ensures forall j :: 0 <= j < r ==> digits[j] != ""
    ensures digits[r] == "" || (r == |digits| - 1 && forall j :: 0 <= j < |digits| ==> digits[j] != "")
  {
    match FirstEmpty(digits)
    case Some(i) => i
    case None => |digits| - 1
  }

  /** `digits.join("")`. */
  function Join(digits: seq<string>): string {
    if digits == [] then "" else digits[0] + Join(digits[1..])
  }

  /** `digits.every(d => d !== "")`. */
  predicate IsComplete(digits: seq<string>) {
    forall i :: 0 <= i < |digits| ==> digits[i] != ""
  }

  lemma {:induction false} JoinLength(digits: seq<string>)
    requires ValidSlots(digits, |digits|)
    ensures |Join(digits)| <= |digits|
    ensures |Join(digits)| == |digits| <==> IsComplete(digits)
  {
    if digits != [] {
      JoinLength(digits[1..]);
      assert ValidSlots(digits[1..], |digits| - 1);
    }
  }

  /** Since every slot holds at most one character, the joined string has the full length
      exactly when every slot is filled: the length check of verify/proceed and the
      `every` check that enables the button agree. */
  lemma CompleteIffFullLength(digits: seq<string>, size: nat)
    requires ValidSlots(digits, size)
    ensures |Join(digits)| == size <==> IsComplete(digits)
  {
    JoinLength(digits);
  }

  /** A paste overwrites slots `0..k-1` with the `k` pasted digits, keeps slots `k..`, and
      focus lands at or after `k` (on the last slot when everything is filled). */
  lemma PasteFocusAfterPrefix(digits: seq<string>, pasted: string)
    requires 0 < |digits| && |pasted| <= |digits|
    requires forall i :: 0 <= i < |pasted| ==> IsAsciiDigit(pasted[i])
    ensures var after := Pasted(digits, pasted);
      && (|pasted| < |digits| ==> PasteFocus(after) >= |pasted|)
      && (|pasted| == |digits| ==> IsComplete(after) && PasteFocus(after) == |digits| - 1)
  {
  }

  /** An input row of `size` boxes. The source copies its array, writes the copy and
      stores it back; here the row's `digits` are replaced by the written copy. */
  class DigitEntry {
    const size: nat
    var digits: seq<string>

    ghost predicate Valid()
      reads this
    {
      ValidSlots(digits, size)
    }

    /** `Array(size).fill("")`. */
    constructor (size: nat)
      ensures Valid() && this.size == size
      ensures forall i :: 0 <= i < size ==> digits[i] == ""
    {
      this.size := size;
      digits := seq(size, _ => "");
    }

    /** `handleDigitChange(index, value)`: only slot `index` changes; the returned focus is
        the auto-advance target. */
    method ChangeDigit(index: nat, value: string) returns (focus: Option<nat>)
      requires Valid() && index < size
      modifies this
      ensures Valid()
      ensures digits == old(digits)[index := TypedDigit(value)]
      ensures focus == AdvanceFocus(index, TypedDigit(value), size)
    {
      var digit := LastChar(KeepDigits(value));
      var newDigits := digits;
      newDigits := newDigits[index := digit];
      digits := newDigits;
      if digit != "" && index < size - 1 {
        focus := Some(index + 1);
      } else {
        focus := None;
      }
    }

    /** `handlePaste(text)`: the loop writes the pasted digits over the first slots; the
        returned focus is the first empty slot or the last one. */
    method Paste(text: string) returns (focus: nat)
      requires Valid() && size > 0
      modifies this
      ensures Valid()
      ensures digits == Pasted(old(digits), PastedDigits(text, size))
      ensures focus == PasteFocus(digits)
    {
      var pasted := Take(KeepDigits(text), size);
      var newDigits := digits;
      for i := 0 to |pasted|
        invariant |newDigits| == size
        invariant forall j :: 0 <= j < i ==> newDigits[j] == [pasted[j]]
        invariant forall j :: i <= j < size ==> newDigits[j] == digits[j]
      {
        newDigits := newDigits[i := [pasted[i]]];
      }
      digits := newDigits;
      focus := match FirstEmpty(newDigits) case Some(k) => k case None => size - 1;
    }
  }
}
