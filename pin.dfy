/**
 * What the two login screens share: the PIN length limit, measured as Kotlin's
 * `String.length` measures it, in UTF-16 code units.
 */
module Pin {
  const MaxPinLength: nat := 4

  /** Code units one character takes in UTF-16: two above the Basic Multilingual Plane, else one. */
  function Utf16Width(c: char): (w: nat)
    ensures w == 1 || w == 2
    ensures w == 2 <==> c as int >= 0x1_0000
  {
    if c as int >= 0x1_0000 then 2 else 1
  }

  /** `String.length`: the number of UTF-16 code units. */
  function Utf16Length(s: string): (n: nat)
    ensures |s| <= n <= 2 * |s|
    ensures n == |s| <==> forall i :: 0 <= i < |s| ==> s[i] as int < 0x1_0000
  {
    if s == [] then 0
    else
      var init := s[..|s| - 1];
      assert forall i :: 0 <= i < |init| ==> init[i] == s[i];
      Utf16Length(init) + Utf16Width(s[|s| - 1])
  }

  /** Appending a character adds its width. */
  lemma Utf16LengthAppend(s: string, c: char)
    ensures Utf16Length(s + [c]) == Utf16Length(s) + Utf16Width(c)
  {
    assert (s + [c])[..|s|] == s;
  }

  /** A decimal digit is one code unit, so a digit key lengthens the PIN by exactly one. */
  lemma DigitIsOneUnit(s: string, c: char)
    requires '0' <= c <= '9'
    ensures Utf16Length(s + [c]) == Utf16Length(s) + 1
  {
    Utf16LengthAppend(s, c);
  }
}
