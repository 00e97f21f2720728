/** The string operations the forms use: the regular-expression input
    guards, `trim`, `slice(-n)`, `toLowerCase` and global `replace`. */
module Text {

  /** `\d` in a regular expression without the `u` flag: ASCII digits. */
  predicate IsDigit(c: char)
  {
    '0' <= c <= '9'
  }

  predicate AllDigits(s: string)
  {
    forall i :: 0 <= i < |s| ==> IsDigit(s[i])
  }

  /** The phone guard `/^\d*$/.test(v) && v.length <= 10`. */
  predicate PhoneEditAccepted(v: string)
  {
    AllDigits(v) && |v| <= 10
  }

  /** A phone field's value after the user types `typed`: the guarded
      setter either takes the new text or keeps the old one. */
  function EditPhone(current: string, typed: string): (r: string)
    ensures r == typed || r == current
    ensures PhoneEditAccepted(current) ==> PhoneEditAccepted(r)
    ensures r != typed ==> !AllDigits(typed) || |typed| > 10
  {
    if PhoneEditAccepted(typed) then typed else current
  }

  /** `\s` and the characters `String.prototype.trim` strips: the
      ECMAScript WhiteSpace and LineTerminator code points. */
  predicate IsJsWhitespace(c: char)
  {
    c == '\t' || c == '\n' || c == '\U{000B}' || c == '\U{000C}' || c == '\r'
    || c == ' ' || c == '\U{00A0}' || c == '\U{1680}'
    || ('\U{2000}' <= c <= '\U{200A}')
    || c == '\U{2028}' || c == '\U{2029}' || c == '\U{202F}' || c == '\U{205F}'
    || c == '\U{3000}' || c == '\U{FEFF}'
  }

  predicate IsAsciiLetter(c: char)
  {
    ('a' <= c <= 'z') || ('A' <= c <= 'Z')
  }

  /** The name guard `/^[a-zA-Z\s]*$/.test(v)`. */
  predicate NameEditAccepted(v: string)
  {
    forall i :: 0 <= i < |v| ==> IsAsciiLetter(v[i]) || IsJsWhitespace(v[i])
  }

  /** A name field's value after the user types `typed`. */
  function EditName(current: string, typed: string): (r: string)
    ensures r == typed || r == current
    ensures NameEditAccepted(current) ==> NameEditAccepted(r)
    ensures r != typed ==> exists i :: 0 <= i < |typed| && !IsAsciiLetter(typed[i]) && !IsJsWhitespace(typed[i])
  {
    if NameEditAccepted(typed) then typed else current
  }

  /** Leading whitespace removed: what is dropped is whitespace, and what
      is left is a suffix that does not start with whitespace. */
  function TrimStart(s: string): (r: string)
    ensures |r| <= |s| && r == s[|s| - |r|..]
    ensures r == [] || !IsJsWhitespace(r[0])
    ensures forall i :: 0 <= i < |s| - |r| ==> IsJsWhitespace(s[i])
  {
    if s != [] && IsJsWhitespace(s[0]) then TrimStart(s[1..]) else s
  }

  /** Trailing whitespace removed. */
  function TrimEnd(s: string): (r: string)
    ensures |r| <= |s| && r == s[..|r|]
    ensures r == [] || !IsJsWhitespace(r[|r| - 1])
    ensures forall i :: |r| <= i < |s| ==> IsJsWhitespace(s[i])
  {
    if s != [] && IsJsWhitespace(s[|s| - 1]) then TrimEnd(s[..|s| - 1]) else s
  }

  /** `s.trim()`. */
  function Trim(s: string): string
  {
    TrimEnd(TrimStart(s))
  }

  /** `!s.trim()`: the trimmed text is empty exactly when every character
      is whitespace (so the empty string is blank too). */
  lemma TrimEmptyIffBlank(s: string)
    ensures Trim(s) == [] <==> forall i :: 0 <= i < |s| ==> IsJsWhitespace(s[i])
  {
    var t := TrimStart(s);
    if Trim(s) == [] {
      assert t == [];
    }
  }

  /** `s.slice(-n)`: the last n characters, or all of s when it is shorter. */
  function TakeLast(s: string, n: nat): (r: string)
    ensures |r| == if |s| <= n then |s| else n
    ensures s == s[..|s| - |r|] + r
  {
    if |s| <= n then s else s[|s| - n..]
  }

  /** The country code the forms prepend to a 10-digit number. */
  const CountryCode: string := "+91"

  function WithCountryCode(phone: string): string
  {
    CountryCode + phone
  }

  /** Taking the last 10 characters of a stored `+91` number gives back
      the 10-digit number the customer typed. */
  lemma TakeLastUndoesCountryCode(phone: string)
    requires |phone| == 10
    ensures TakeLast(WithCountryCode(phone), 10) == phone
  {
    assert WithCountryCode(phone)[3..] == phone;
  }

  /** `toLowerCase` on ASCII letters. */
  function LowerChar(c: char): char
  {
    if 'A' <= c <= 'Z' then (c as int + 32) as char else c
  }

  function LowerAscii(s: string): (r: string)
    ensures |r| == |s|
    ensures forall i :: 0 <= i < |r| ==> !('A' <= r[i] <= 'Z')
    ensures forall i :: 0 <= i < |r| ==> (r[i] == ' ' <==> s[i] == ' ')
  {
    seq(|s|, i requires 0 <= i < |s| => LowerChar(s[i]))
  }

  /** `s.replace(/pat/g, rep)` for a pattern of literal characters:
      leftmost, non-overlapping matches, scanning left to right. */
  function ReplaceAll(s: string, pat: string, rep: string): string
    requires pat != []
    decreases |s|
  {
    if |s| < |pat| then s
    else if s[..|pat|] == pat then rep + ReplaceAll(s[|pat|..], pat, rep)
    else [s[0]] + ReplaceAll(s[1..], pat, rep)
  }

  /** Every character of a replacement's result comes from the input or
      from the replacement text. */
  lemma {:induction false} ReplaceAllChars(s: string, pat: string, rep: string)
    requires pat != []
    ensures forall c :: c in ReplaceAll(s, pat, rep) ==> c in s || c in rep
    decreases |s|
  {
    if |s| < |pat| {
    } else if s[..|pat|] == pat {
      ReplaceAllChars(s[|pat|..], pat, rep);
    } else {
      ReplaceAllChars(s[1..], pat, rep);
    }
  }

  /** Replacing every space by a dash: same length, the spaces become
      dashes and every other character stays where it was. */
  lemma {:induction false} ReplaceSpaces(s: string)
    ensures |ReplaceAll(s, " ", "-")| == |s|
    ensures forall i :: 0 <= i < |s| ==>
      ReplaceAll(s, " ", "-")[i] == if s[i] == ' ' then '-' else s[i]
  {
    if s != [] {
      ReplaceSpaces(s[1..]);
      var r := ReplaceAll(s, " ", "-");
      if s[0] == ' ' {
        assert s[..1] == " ";
        assert r == "-" + ReplaceAll(s[1..], " ", "-");
      } else {
        assert s[..1] != " ";
        assert r == [s[0]] + ReplaceAll(s[1..], " ", "-");
      }
    }
  }
}
