/**
 * The four-slot one-time-code buffer that the identity-confirmation and the
 * two-factor verification screens both keep: each slot holds "" or one ASCII
 * digit, a write touches one slot, "clear" empties all of them, and the
 * submitted pin is the slots joined in order.
 */
module Otp {

  /** Number of slots. */
  const Size: nat := 4

  /** A value `handleInputChange` accepts: `/^[0-9]$/` or the empty string. */
  predicate IsSlotValue(v: string) {
    v == "" || (|v| == 1 && '0' <= v[0] <= '9')
  }

  /** A string of ASCII digits. */
  predicate IsDigits(s: string) {
    forall k :: 0 <= k < |s| ==> '0' <= s[k] <= '9'
  }

  /** A buffer the screens can hold: four slots, each accepted by `IsSlotValue`. */
  predicate WellFormed(code: seq<string>) {
    |code| == Size && forall k :: 0 <= k < |code| ==> IsSlotValue(code[k])
  }

  /** The buffer on screen entry and after "clear": four empty slots. */
  function EmptyCode(): (code: seq<string>)
    ensures WellFormed(code)
    ensures forall k :: 0 <= k < |code| ==> code[k] == ""
  {
    ["", "", "", ""]
  }

  /** The buffer after `handleInputChange(index, value)`. */
  function Written(code: seq<string>, index: nat, value: string): (r: seq<string>)
    requires index < |code|
    ensures |r| == |code|
    ensures r[index] == (if IsSlotValue(value) then value else code[index])
    ensures forall k :: 0 <= k < |code| && k != index ==> r[k] == code[k]
  {
    if IsSlotValue(value) then code[index := value] else code
  }

  /** `code.join('')`: the slots concatenated in order. */
  function Join(code: seq<string>): (pin: string)
    ensures (forall k :: 0 <= k < |code| ==> IsSlotValue(code[k])) ==> |pin| <= |code| && IsDigits(pin)
  {
    if code == [] then "" else code[0] + Join(code[1..])
  }

  /** Number of non-empty slots. */
  function Filled(code: seq<string>): (n: nat)
    ensures n <= |code|
  {
    if code == [] then 0 else (if code[0] == "" then 0 else 1) + Filled(code[1..])
  }

  /** The pin has one digit per filled slot: empty slots are simply missing from it. */
  lemma {:induction false} JoinLength(code: seq<string>)
    requires forall k :: 0 <= k < |code| ==> IsSlotValue(code[k])
    ensures |Join(code)| == Filled(code)
  {
    if code != [] {
      JoinLength(code[1..]);
    }
  }

  /** With every slot filled, the pin is the slots' digits in order, one per slot. */
  lemma {:induction false} JoinComplete(code: seq<string>)
    requires forall k :: 0 <= k < |code| ==> |code[k]| == 1
    ensures |Join(code)| == |code|
    ensures forall k :: 0 <= k < |code| ==> Join(code)[k] == code[k][0]
  {
    if code != [] {
      JoinComplete(code[1..]);
      assert Join(code) == code[0] + Join(code[1..]);
      forall k | 1 <= k < |code| ensures Join(code)[k] == code[k][0] {
        assert Join(code)[k] == Join(code[1..])[k - 1];
      }
    }
  }

  /** Submitting right after "clear" sends the empty pin. */
  lemma JoinOfEmptyCode()
    ensures Join(EmptyCode()) == ""
  {
  }

  /** Slots "1", "2", "3", "4" are submitted as "1234". */
  lemma JoinExample()
    ensures Join(["1", "2", "3", "4"]) == "1234"
  {
  }

  /** Writing the same value twice has the effect of writing it once. */
  lemma WrittenIdempotent(code: seq<string>, index: nat, value: string)
    requires index < |code|
    ensures Written(Written(code, index, value), index, value) == Written(code, index, value)
  {
  }

  /** Writes keep the buffer four slots of "" or one digit. */
  lemma WrittenWellFormed(code: seq<string>, index: nat, value: string)
    requires WellFormed(code) && index < Size
    ensures WellFormed(Written(code, index, value))
  {
  }

  /** The buffer as a fixed-size array, written in place one slot at a time. */
  class CodeBuffer {
    const slots: array<string>

    ghost predicate Valid()
      reads this, slots
    {
      slots.Length == Size && WellFormed(slots[..])
    }

    /** `useState(['', '', '', ''])`. */
    constructor ()
      ensures Valid() && fresh(slots)
      ensures slots[..] == EmptyCode()
    {
      slots := new string[Size](_ => "");
    }

    /** `handleInputChange(index, value)`: overwrite one slot with an accepted value. */
    method Set(index: nat, value: string)
      requires Valid() && index < Size
      modifies slots
      ensures Valid()
      ensures slots[..] == Written(old(slots[..]), index, value)
    {
      if IsSlotValue(value) {
        slots[index] := value;
      }
    }

    /** `handleClear`: four empty slots again. */
    method Clear()
      requires Valid()
      modifies slots
      ensures Valid()
      ensures slots[..] == EmptyCode()
    {
      forall k | 0 <= k < slots.Length {
        slots[k] := "";
      }
    }

    /** `code.join('')`, sent as the pin with no completeness check. */
    method Submission() returns (pin: string)
      requires Valid()
      ensures pin == Join(slots[..])
      ensures |pin| <= Size && IsDigits(pin)
    {
      pin := Join(slots[..]);
    }
  }
}
