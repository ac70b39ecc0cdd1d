/** The six one-character boxes in which the password-reset page (src/pages/ResetPassword.jsx)
    and the e-mail verification page (src/pages/VerifyOTP.jsx) take a numeric code. Both pages
    define the same single-box entry, paste and completeness check; they are defined here once. */
module CodeEntry {
  import opened Common

  /** The number of boxes. */
  const Slots: nat := 6

  /** The buffer both pages start from and reset to. */
  const EmptyCode: seq<string> := ["", "", "", "", "", ""]

  /** What `/^\d$/` accepts: exactly one decimal digit. */
  predicate IsOneDigit(value: string) {
    |value| == 1 && IsDigit(value[0])
  }

  /** What a box may hold: nothing, or one digit. */
  predicate IsEntry(value: string) {
    value == "" || IsOneDigit(value)
  }

  /** The invariant of the buffer: six boxes, each empty or holding one digit. */
  predicate WellFormed(code: seq<string>) {
    |code| == Slots && forall i :: 0 <= i < |code| ==> IsEntry(code[i])
  }

  /** `code.join('')`: empty exactly when every box is, and made of the boxes' characters. */
  function Concat(code: seq<string>): (r: string)
    ensures r == "" <==> forall i :: 0 <= i < |code| ==> code[i] == ""
    ensures forall c :: c in r ==> exists i :: 0 <= i < |code| && c in code[i]
  {
    if code == [] then "" else code[0] + Concat(code[1..])
  }

  /** The single-box change handler (`handleCodeChange`, `handleChange`): a value that is
      neither empty nor one digit is ignored; any other value replaces box `index` and no
      other box. */
  function Entered(code: seq<string>, index: nat, value: string): (r: seq<string>)
    requires index < |code|
    ensures |r| == |code|
    ensures !IsEntry(value) ==> r == code
    ensures IsEntry(value) ==> r[index] == value
    ensures forall i :: 0 <= i < |code| && i != index ==> r[i] == code[i]
    ensures WellFormed(code) ==> WellFormed(r)
  {
    if value != "" && !IsOneDigit(value) then code else code[index := value]
  }

  /** Where the focus moves after a box change: to the next box after a digit in boxes 0..4. */
  function EnteredFocus(index: nat, value: string): (r: Option<nat>)
    ensures r.Some? <==> IsOneDigit(value) && index < 5
    ensures r.Some? ==> r.value == index + 1 && r.value < Slots
  {
    if value == "" || !IsOneDigit(value) then None
    else if index < 5 then Some(index + 1) else None
  }

  /** `text.slice(0, 6)`. */
  function Clip(text: string): (r: string)
    ensures |r| <= Slots && IsPrefix(r, text)
    ensures |text| >= Slots ==> |r| == Slots
    ensures |text| <= Slots ==> r == text
  {
    text[..if |text| < Slots then |text| else Slots]
  }

  /** What `/^\d+$/` accepts: one digit or more and nothing else. */
  predicate AllDigits(s: string) {
    |s| > 0 && forall i :: 0 <= i < |s| ==> IsDigit(s[i])
  }

  /** The paste handler: the first six characters are kept; unless they are all digits
      (and at least one) the paste is ignored; otherwise character k goes to box k and the
      boxes after the pasted text are left as they were. */
  function Pasted(code: seq<string>, text: string): (r: seq<string>)
    requires |code| == Slots
    ensures |r| == Slots
    ensures !AllDigits(Clip(text)) ==> r == code
    ensures AllDigits(Clip(text)) ==>
      (forall i :: 0 <= i < |Clip(text)| ==> r[i] == [Clip(text)[i]])
      && (forall i :: |Clip(text)| <= i < Slots ==> r[i] == code[i])
    ensures WellFormed(code) ==> WellFormed(r)
  {
    var p := Clip(text);
    if !AllDigits(p) then code
    else seq(Slots, i requires 0 <= i < Slots => if i < |p| then [p[i]] else code[i])
  }

  /** `Math.min(pastedData.length, 5)`, the box focused after an accepted paste: the first box
      the paste left alone, or the last box when the paste filled them all. */
  function PasteFocus(text: string): (r: Option<nat>)
    ensures r.Some? <==> AllDigits(Clip(text))
    ensures r.Some? ==> r.value < Slots
    ensures r.Some? && |Clip(text)| < Slots ==> r.value == |Clip(text)|
    ensures r.Some? && |Clip(text)| == Slots ==> r.value == Slots - 1
  {
    var p := Clip(text);
    if !AllDigits(p) then None else Some(if |p| < 5 then |p| else 5)
  }

  /** In boxes holding at most one character each, the joined code is as long as the number of
      boxes exactly when no box is empty. */
  lemma {:induction false} ConcatLength(code: seq<string>)
    requires forall i :: 0 <= i < |code| ==> |code[i]| <= 1
    ensures |Concat(code)| <= |code|
    ensures |Concat(code)| == |code| <==> forall i :: 0 <= i < |code| ==> code[i] != ""
  {
    if code != [] {
      var tail := code[1..];
      assert forall i :: 0 <= i < |tail| ==> tail[i] == code[i + 1];
      ConcatLength(tail);
      if |Concat(code)| == |code| {
        forall i | 0 <= i < |code| ensures code[i] != "" {
          if i > 0 {
            assert tail[i - 1] == code[i];
          }
        }
      }
    }
  }

  /** The completeness check `join('').length !== 6` of both pages rejects exactly the codes
      with an empty box. */
  lemma CompleteIffFilled(code: seq<string>)
    requires WellFormed(code)
    ensures |Concat(code)| == Slots <==> forall i :: 0 <= i < Slots ==> code[i] != ""
  {
    ConcatLength(code);
  }

  /** Joining one-character boxes spells the characters. */
  lemma {:induction false} ConcatSingletons(code: seq<string>, p: string)
    requires |code| == |p| && forall i :: 0 <= i < |p| ==> code[i] == [p[i]]
    ensures Concat(code) == p
  {
    if p != [] {
      ConcatSingletons(code[1..], p[1..]);
      assert p == [p[0]] + p[1..];
    }
  }

  /** Pasting six digits or more fills every box, and the joined code is the first six
      characters of the pasted text. */
  lemma PasteFillsCode(code: seq<string>, text: string)
    requires WellFormed(code) && |text| >= Slots && AllDigits(Clip(text))
    ensures Concat(Pasted(code, text)) == text[..Slots]
    ensures forall i :: 0 <= i < Slots ==> Pasted(code, text)[i] != ""
  {
    ConcatSingletons(Pasted(code, text), Clip(text));
  }

  /** A server answer to one of the code requests: accepted, or refused with
      `err.response?.data?.message` ("" when missing). */
  datatype AuthReply = Accepted | Refused(serverMessage: string)

  /** The six boxes of a page, as the mutable buffer the handlers write box by box. */
  class CodeBoxes {
    const slots: array<string>

    predicate Valid()
      reads this, slots
    {
      slots.Length == Slots && WellFormed(slots[..])
    }

    /** The page's initial `useState(['', '', '', '', '', ''])`. */
    constructor ()
      ensures fresh(slots) && slots[..] == EmptyCode && Valid()
    {
      var boxes := new string[Slots](_ => "");
      assert boxes[..] == EmptyCode;
      slots := boxes;
    }

    /** The joined code. */
    function Code(): string
      reads this, slots
    {
      Concat(slots[..])
    }

    /** The single-box change handler, with the box it focuses next. */
    method Enter(index: nat, value: string) returns (focus: Option<nat>)
      requires Valid() && index < Slots
      modifies slots
      ensures Valid()
      ensures slots[..] == Entered(old(slots[..]), index, value)
      ensures focus == EnteredFocus(index, value)
    {
      if value != "" && !IsOneDigit(value) {
        return None;
      }
      slots[index] := value;
      focus := if value != "" && index < 5 then Some(index + 1) else None;
    }

    /** The paste handler: the accepted characters are written box by box. */
    method Paste(text: string) returns (focus: Option<nat>)
      requires Valid()
      modifies slots
      ensures Valid()
      ensures slots[..] == Pasted(old(slots[..]), text)
      ensures focus == PasteFocus(text)
    {
      var pasted := text[..if |text| < Slots then |text| else Slots];
      if !AllDigits(pasted) {
        return None;
      }
      var k := 0;
      while k < |pasted|
        invariant 0 <= k <= |pasted|
        invariant forall j :: 0 <= j < k ==> slots[j] == [pasted[j]]
        invariant forall j :: k <= j < Slots ==> slots[j] == old(slots[j])
      {
        if k < Slots {
          slots[k] := [pasted[k]];
        }
        k := k + 1;
      }
      assert slots[..] == Pasted(old(slots[..]), text);
      focus := Some(if |pasted| < 5 then |pasted| else 5);
    }

    /** `setCode(['', '', '', '', '', ''])`. */
    method Clear()
      requires slots.Length == Slots
      modifies slots
      ensures slots[..] == EmptyCode && Valid()
    {
      forall i | 0 <= i < Slots {
        slots[i] := "";
      }
      assert slots[..] == EmptyCode;
    }
  }
}
