/** Text measures that validation rules use: white space, byte length, hash format. */
module TextRules {

  predicate IsUnicodeSpace(c: char) {
    var code := c as int;
    9 <= code <= 13 || code == 0x20 || code == 0x85 || code == 0xA0 || code == 0x1680 ||
    0x2000 <= code <= 0x200A || code == 0x2028 || code == 0x2029 || code == 0x202F ||
    code == 0x205F || code == 0x3000
  }

  function TrimLeft(s: string): (r: string)
    ensures |r| <= |s|
    ensures r != "" ==> !IsUnicodeSpace(r[0]) && r[|r| - 1] == s[|s| - 1]
  {
    if s != "" && IsUnicodeSpace(s[0]) then TrimLeft(s[1..]) else s
  }

  function TrimRight(s: string): (r: string)
    ensures |r| <= |s|
    ensures r != "" ==> r[0] == s[0] && !IsUnicodeSpace(r[|r| - 1])
  {
    if s != "" && IsUnicodeSpace(s[|s| - 1]) then TrimRight(s[..|s| - 1]) else s
  }

  /** The text without leading and trailing white space. */
  function TrimSpace(s: string): (r: string)
    ensures r != "" ==> !IsUnicodeSpace(r[0]) && !IsUnicodeSpace(r[|r| - 1])
  {
    TrimRight(TrimLeft(s))
  }

  lemma TrimSpaceIdempotent(s: string)
    ensures TrimSpace(TrimSpace(s)) == TrimSpace(s)
  {
  }

  predicate Blank(s: string) {
    TrimSpace(s) == ""
  }

  predicate Trimmed(s: string) {
    TrimSpace(s) == s
  }

  /** The number of bytes of the UTF-8 encoding. */
  function Utf8Length(s: string): nat {
    if s == "" then 0
    else
      var code := s[0] as int;
      (if code < 0x80 then 1 else if code < 0x800 then 2 else if code < 0x10000 then 3 else 4)
      + Utf8Length(s[1..])
  }

  predicate LowerHex(c: char) {
    '0' <= c <= '9' || 'a' <= c <= 'f'
  }

  /** `sha256:` followed by 64 lower-case hexadecimal digits. */
  predicate IsSha256(s: string) {
    |s| == 71 && s[..7] == "sha256:" && forall i | 7 <= i < 71 :: LowerHex(s[i])
  }

  const MAX_STABLE_ID_BYTES := 128

  predicate StableId(s: string) {
    s != "" && Trimmed(s) && Utf8Length(s) <= MAX_STABLE_ID_BYTES
  }

  // ---- What the measures are ----

  /** How many characters have a code point of at least `low`. */
  function CountFrom(s: string, low: int): nat {
    if s == "" then 0 else (if s[0] as int >= low then 1 else 0) + CountFrom(s[1..], low)
  }

  /** Every character takes a byte, and one more for each of the three thresholds it reaches. */
  lemma {:induction false} Utf8LengthIs(s: string)
    ensures Utf8Length(s) == |s| + CountFrom(s, 0x80) + CountFrom(s, 0x800) + CountFrom(s, 0x1_0000)
  {
    if s != "" {
      Utf8LengthIs(s[1..]);
    }
  }

  /** The white space of Unicode: 25 code points. */
  lemma SpaceIs(c: char)
    ensures IsUnicodeSpace(c) <==>
            c as int in {0x9, 0xA, 0xB, 0xC, 0xD, 0x20, 0x85, 0xA0, 0x1680, 0x2000, 0x2001, 0x2002, 0x2003, 0x2004, 0x2005, 0x2006,
                         0x2007, 0x2008, 0x2009, 0x200A, 0x2028, 0x2029, 0x202F, 0x205F, 0x3000}
  {
  }

  predicate AllSpace(s: string) {
    forall i | 0 <= i < |s| :: IsUnicodeSpace(s[i])
  }

  lemma Regrouped(a: string, b: string, c: string)
    ensures a + (b + c) == (a + b) + c
  {
  }

  lemma {:induction false} TrimLeftIs(s: string) returns (left: string)
    ensures AllSpace(left) && s == left + TrimLeft(s)
  {
    hide IsUnicodeSpace;
    if s != "" && IsUnicodeSpace(s[0]) {
      var later := TrimLeftIs(s[1..]);
      left := [s[0]] + later;
      Regrouped([s[0]], later, TrimLeft(s[1..]));
      assert s == [s[0]] + s[1..];
    } else {
      left := "";
      assert s == "" + s;
    }
  }

  lemma {:induction false} TrimRightIs(s: string) returns (right: string)
    ensures AllSpace(right) && s == TrimRight(s) + right
  {
    hide IsUnicodeSpace;
    if s != "" && IsUnicodeSpace(s[|s| - 1]) {
      var earlier := TrimRightIs(s[..|s| - 1]);
      right := earlier + [s[|s| - 1]];
      Regrouped(TrimRight(s[..|s| - 1]), earlier, [s[|s| - 1]]);
      assert s == s[..|s| - 1] + [s[|s| - 1]];
    } else {
      right := "";
      assert s == s + "";
    }
  }

  /** Trimming takes white space off both ends, all of it and nothing else. */
  lemma TrimSpaceIs(s: string) returns (left: string, right: string)
    ensures AllSpace(left) && AllSpace(right) && s == left + TrimSpace(s) + right
    ensures TrimSpace(s) != "" ==> !IsUnicodeSpace(TrimSpace(s)[0]) && !IsUnicodeSpace(TrimSpace(s)[|TrimSpace(s)| - 1])
  {
    left := TrimLeftIs(s);
    right := TrimRightIs(TrimLeft(s));
    assert s == left + (TrimSpace(s) + right);
  }
}
