/** Small building blocks shared by every handler: optional values, the
    caller-id check, the .NET string tests the handlers use, and the decimal
    rendering of ids that goes into response texts. */
module Common {

  /** A value that may be absent: a claim that is missing, a nullable string. */
  datatype Option<+T> = None | Some(value: T)

  /** The caller-id guard every handler starts with: the NameIdentifier claim
      must be present and `string.IsNullOrEmpty` must be false for its value. */
  predicate Authenticated(callerId: Option<string>)
  {
    callerId.Some? && callerId.value != ""
  }

  /** `char.IsWhiteSpace`: the characters of the Unicode categories
      SpaceSeparator, LineSeparator and ParagraphSeparator, plus U+0009 to
      U+000D and U+0085. */
  predicate IsWhiteSpace(c: char)
  {
    var n := c as int;
    || (0x09 <= n <= 0x0D) || n == 0x20 || n == 0x85 || n == 0xA0 || n == 0x1680
    || (0x2000 <= n <= 0x200A) || n == 0x2028 || n == 0x2029 || n == 0x202F
    || n == 0x205F || n == 0x3000
  }

  /** `string.IsNullOrWhiteSpace`: null, empty, or made only of white space. */
  predicate IsNullOrWhiteSpace(s: Option<string>)
  {
    s.None? || forall i :: 0 <= i < |s.value| ==> IsWhiteSpace(s.value[i])
  }

  /** Every character of `s` is white space (vacuously true of ""). */
  predicate Blank(s: string)
  {
    forall i :: 0 <= i < |s| ==> IsWhiteSpace(s[i])
  }

  /** `string.TrimStart()`: drops the leading white space. */
  function TrimStart(s: string): string
  {
    if s == [] || !IsWhiteSpace(s[0]) then s else TrimStart(s[1..])
  }

  /** `string.TrimEnd()`: drops the trailing white space. */
  function TrimEnd(s: string): string
  {
    if s == [] || !IsWhiteSpace(s[|s| - 1]) then s else TrimEnd(s[..|s| - 1])
  }

  /** `string.Trim()`: drops white space at both ends. */
  function Trim(s: string): string
  {
    TrimEnd(TrimStart(s))
  }

  lemma {:induction false} TrimStartBlank(s: string)
    ensures TrimStart(s) == [] <==> Blank(s)
    ensures TrimStart(s) != [] ==> !IsWhiteSpace(TrimStart(s)[0])
    decreases |s|
  {
    if s != [] && IsWhiteSpace(s[0]) {
      TrimStartBlank(s[1..]);
      assert Blank(s) <==> Blank(s[1..]) by {
        if Blank(s[1..]) {
          forall i | 0 <= i < |s| ensures IsWhiteSpace(s[i]) {
            if i > 0 { assert s[i] == s[1..][i - 1]; }
          }
        }
      }
    }
  }

  lemma {:induction false} TrimEndBlank(s: string)
    ensures TrimEnd(s) == [] <==> Blank(s)
    decreases |s|
  {
    if s != [] && IsWhiteSpace(s[|s| - 1]) {
      var init := s[..|s| - 1];
      TrimEndBlank(init);
      assert Blank(s) <==> Blank(init) by {
        if Blank(init) {
          forall i | 0 <= i < |s| ensures IsWhiteSpace(s[i]) {
            if i < |s| - 1 { assert s[i] == init[i]; }
          }
        }
      }
    }
  }

  /** Trimming leaves nothing exactly when the string is all white space. */
  lemma TrimBlank(s: string)
    ensures Trim(s) == [] <==> Blank(s)
  {
    TrimStartBlank(s);
    var t := TrimStart(s);
    TrimEndBlank(t);
    if t != [] {
      assert !Blank(t) by { assert !IsWhiteSpace(t[0]); }
    }
  }

  /** The room-name guard agrees with the trimming test: a name passes
      `string.IsNullOrWhiteSpace` exactly when it is present and
      `name.Trim()` is not empty. */
  lemma NameGuard(s: Option<string>)
    ensures !IsNullOrWhiteSpace(s) <==> s.Some? && Trim(s.value) != ""
  {
    if s.Some? {
      TrimBlank(s.value);
    }
  }

  /** Worked instances of the guard: absent, empty and blank names are refused,
      an ordinary name is accepted. */
  lemma NameGuardExamples()
    ensures IsNullOrWhiteSpace(None)
    ensures IsNullOrWhiteSpace(Some(""))
    ensures IsNullOrWhiteSpace(Some(" \t\n"))
    ensures !IsNullOrWhiteSpace(Some("general"))
  {
    assert !IsWhiteSpace("general"[0]);
  }

  function DigitChar(d: nat): char
    requires d < 10
  {
    "0123456789"[d]
  }

  /** Decimal digits of a natural number, most significant first. */
  function NatToString(n: nat): string
    decreases n
  {
    if n < 10 then [DigitChar(n)] else NatToString(n / 10) + [DigitChar(n % 10)]
  }

  /** Interpolation of an `int` into a C# string. */
  function IntToString(i: int): string
  {
    if i < 0 then "-" + NatToString(-i) else NatToString(i)
  }
}
