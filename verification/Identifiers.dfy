/** UUID identifiers: the canonical form the database prints, and the forms the parser accepts. */
module Identifiers {
  import opened Outcomes
  import opened TextRules

  predicate IsDash(i: int) {
    i == 8 || i == 13 || i == 18 || i == 23
  }

  /** 36 characters: lower-case hexadecimal digits with dashes at fixed positions. */
  predicate IsCanonical(s: string) {
    |s| == 36 && forall i | 0 <= i < 36 :: if IsDash(i) then s[i] == '-' else LowerHex(s[i])
  }

  const NIL_ID: string := "00000000-0000-0000-0000-000000000000"

  type Id = s: string | IsCanonical(s) witness NIL_ID

  predicate IsHex(c: char) {
    '0' <= c <= '9' || 'a' <= c <= 'f' || 'A' <= c <= 'F'
  }

  function Lower(c: char): (r: char)
    requires IsHex(c)
    ensures LowerHex(r)
    ensures LowerHex(c) ==> r == c
  {
    if 'A' <= c <= 'F' then (c as int + 32) as char else c
  }

  /** Reads 36 characters of the dashed form. */
  function ReadDashed(s: string): (r: Option<Id>)
    requires |s| == 36
    ensures IsCanonical(s) ==> r == Some(s)
  {
    if forall i | 0 <= i < 36 :: if IsDash(i) then s[i] == '-' else IsHex(s[i]) then
      var id := seq(36, i requires 0 <= i < 36 => if IsDash(i) then '-' else Lower(s[i]));
      assert IsCanonical(s) ==> id == s;
      Some(id)
    else None
  }

  /** The position in the undashed form of each digit of the dashed one. */
  function Undashed(i: int): int {
    if i < 8 then i else if i < 13 then i - 1 else if i < 18 then i - 2 else if i < 23 then i - 3 else i - 4
  }

  const URN_PREFIX := "urn:uuid:"

  function LowerLetter(c: char): char {
    if 'A' <= c <= 'Z' then (c as int + 32) as char else c
  }

  /**
   * Accepts the dashed form, the form with the `urn:uuid:` prefix, the form in
   * braces (whose brackets are not examined) and 32 bare digits.
   */
  function ParseUuid(s: string): (r: Option<Id>)
    ensures IsCanonical(s) ==> r == Some(s)
  {
    if |s| == 36 then ReadDashed(s)
    else if |s| == 45 then
      if forall i | 0 <= i < 9 :: LowerLetter(s[i]) == URN_PREFIX[i] then ReadDashed(s[9..]) else None
    else if |s| == 38 then ReadDashed(s[1..37])
    else if |s| == 32 then
      ReadDashed(seq(36, i requires 0 <= i < 36 => if IsDash(i) then '-' else s[Undashed(i)]))
    else None
  }

  // ---- Which spellings denote an identifier ----

  function Lowered(s: string): (r: string)
    ensures |r| == |s| && forall i | 0 <= i < |s| :: r[i] == LowerLetter(s[i])
  {
    seq(|s|, i requires 0 <= i < |s| => LowerLetter(s[i]))
  }

  /** The digits of an identifier without its dashes. */
  function Bare(id: Id): (r: string)
    ensures |r| == 32 && forall i | 0 <= i < 36 && !IsDash(i) :: r[Undashed(i)] == id[i]
  {
    id[..8] + id[9..13] + id[14..18] + id[19..23] + id[24..]
  }

  /** Up to case: the identifier, behind the prefix, between any two characters, or its bare digits. */
  predicate Spells(s: string, id: Id) {
    || Lowered(s) == id
    || Lowered(s) == URN_PREFIX + id
    || (|s| == 38 && Lowered(s)[1..37] == id)
    || Lowered(s) == Bare(id)
  }

  lemma LowerHexOfLetter(c: char)
    ensures LowerHex(LowerLetter(c)) <==> IsHex(c)
    ensures IsHex(c) ==> Lower(c) == LowerLetter(c)
    ensures LowerLetter(c) == '-' <==> c == '-'
  {
  }

  lemma ReadDashedIff(s: string, id: Id)
    requires |s| == 36
    ensures ReadDashed(s) == Some(id) <==> Lowered(s) == id
  {
    hide IsDash, Lower, LowerLetter, IsHex, LowerHex;
    forall i | 0 <= i < 36
      ensures (LowerHex(LowerLetter(s[i])) <==> IsHex(s[i])) && (LowerLetter(s[i]) == '-' <==> s[i] == '-')
      ensures IsHex(s[i]) ==> Lower(s[i]) == LowerLetter(s[i])
    {
      LowerHexOfLetter(s[i]);
    }
    if ReadDashed(s) == Some(id) {
      assert forall i | 0 <= i < 36 :: id[i] == LowerLetter(s[i]);
      assert Lowered(s) == id;
    }
    if Lowered(s) == id {
      assert forall i | 0 <= i < 36 :: LowerLetter(s[i]) == id[i];
      assert ReadDashed(s).Some? && ReadDashed(s).value == id;
    }
  }

  lemma WithPrefixIff(s: string, id: Id)
    requires |s| == 45
    ensures Lowered(s) == URN_PREFIX + id <==>
            (forall i | 0 <= i < 9 :: LowerLetter(s[i]) == URN_PREFIX[i]) && Lowered(s[9..]) == id
  {
    hide LowerLetter, IsCanonical;
    assert Lowered(s) == Lowered(s)[..9] + Lowered(s)[9..];
    assert Lowered(s)[9..] == Lowered(s[9..]);
    assert (URN_PREFIX + id)[..9] == URN_PREFIX && (URN_PREFIX + id)[9..] == id;
  }

  lemma BareIff(s: string, id: Id)
    requires |s| == 32
    ensures var dashed := seq(36, i requires 0 <= i < 36 => if IsDash(i) then '-' else s[Undashed(i)]);
            Lowered(dashed) == id <==> Lowered(s) == Bare(id)
  {
    hide LowerLetter, LowerHex;
    var dashed := seq(36, i requires 0 <= i < 36 => if IsDash(i) then '-' else s[Undashed(i)]);
    DashStays();
    if Lowered(s) == Bare(id) {
      forall i | 0 <= i < 36 ensures Lowered(dashed)[i] == id[i] {
        if !IsDash(i) { assert Bare(id)[Undashed(i)] == id[i]; }
      }
      assert Lowered(dashed) == id;
    }
    if Lowered(dashed) == id {
      forall j | 0 <= j < 32 ensures Lowered(s)[j] == Bare(id)[j] {
        var i := Dashed(j);
        assert Lowered(dashed)[i] == id[i] == Bare(id)[Undashed(i)];
      }
      assert Lowered(s) == Bare(id);
    }
  }

  lemma DashStays()
    ensures LowerLetter('-') == '-'
  {
  }

  /** The position in the dashed form of each bare digit. */
  function Dashed(j: int): (i: int)
    requires 0 <= j < 32
    ensures 0 <= i < 36 && !IsDash(i) && Undashed(i) == j
  {
    if j < 8 then j else if j < 12 then j + 1 else if j < 16 then j + 2 else if j < 20 then j + 3 else j + 4
  }

  /** A text is read as an identifier if and only if it spells it. */
  lemma ParseUuidIff(s: string, id: Id)
    ensures ParseUuid(s) == Some(id) <==> Spells(s, id)
  {
    hide ReadDashed, IsCanonical, LowerLetter;
    assert |id| == 36 by { CanonicalLength(id); }
    if |s| == 36 {
      ReadDashedIff(s, id);
    } else if |s| == 45 {
      WithPrefixIff(s, id);
      ReadDashedIff(s[9..], id);
    } else if |s| == 38 {
      ReadDashedIff(s[1..37], id);
      assert Lowered(s)[1..37] == Lowered(s[1..37]);
    } else if |s| == 32 {
      BareIff(s, id);
      ReadDashedIff(seq(36, i requires 0 <= i < 36 => if IsDash(i) then '-' else s[Undashed(i)]), id);
    }
  }

  lemma CanonicalLength(id: Id)
    ensures |id| == 36
  {
  }

  lemma CanonicalIsTrimmed(id: Id)
    ensures TrimSpace(id) == id && id != ""
    ensures ParseUuid(TrimSpace(id)) == Some(id)
  {
    assert LowerHex(id[0]) && LowerHex(id[35]);
  }
}
