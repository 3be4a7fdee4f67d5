/** String literals: every way to write a text, what the decoder makes of each, and which of them the printer chooses. */
module CanonicalStrings {
  import opened JsonValues
  import opened Outcomes
  import opened CanonicalJson
  import opened CanonicalRoundTrip
  import CT = CanonicalText
  import Utf16

  // ---- Spellings ----

  /** A character as it is, a two-character escape, four hexadecimal digits, or two such groups for one character. */
  datatype Piece = Raw(c: char) | Short(letter: char) | Unit(hex: string) | Pair(high: string, low: string)

  type Spelling = seq<Piece>

  /** The character that the letter after a backslash stands for. */
  function Shorthand(letter: char): Option<char> {
    if letter == '"' || letter == '\\' || letter == '/' then Some(letter)
    else if letter == 'b' then Some(0x8 as char)
    else if letter == 'f' then Some(0xC as char)
    else if letter == 'n' then Some('\n')
    else if letter == 'r' then Some('\r')
    else if letter == 't' then Some('\t')
    else None
  }

  predicate IsHigh(hex: string) {
    FourHex(hex).Some? && 0xD800 <= FourHex(hex).value < 0xDC00
  }

  predicate IsLow(hex: string) {
    FourHex(hex).Some? && 0xDC00 <= FourHex(hex).value < 0xE000
  }

  predicate PieceOk(p: Piece) {
    match p
    case Raw(c) => c as int >= 0x20 && c != '"' && c != '\\'
    case Short(letter) => Shorthand(letter).Some?
    case Unit(hex) => |hex| == 4 && FourHex(hex).Some?
    case Pair(high, low) => |high| == 4 && |low| == 4 && IsHigh(high) && IsLow(low)
  }

  /** Two surrogate groups in a row that belong together are one piece. */
  predicate SpellingOk(sp: Spelling) {
    && (forall i | 0 <= i < |sp| :: PieceOk(sp[i]))
    && forall i | 0 < i < |sp| :: !(sp[i - 1].Unit? && sp[i].Unit? && IsHigh(sp[i - 1].hex) && IsLow(sp[i].hex))
  }

  function PieceText(p: Piece): string {
    match p
    case Raw(c) => [c]
    case Short(letter) => ['\\', letter]
    case Unit(hex) => "\\u" + hex
    case Pair(high, low) => "\\u" + high + "\\u" + low
  }

  function SpelledText(sp: Spelling): string {
    if sp == [] then "" else PieceText(sp[0]) + SpelledText(sp[1..])
  }

  /** The character a piece denotes; half of a surrogate pair alone is the replacement character. */
  function PieceChar(p: Piece): char
    requires PieceOk(p)
  {
    match p
    case Raw(c) => c
    case Short(letter) => Shorthand(letter).value
    case Unit(hex) => if IsHigh(hex) || IsLow(hex) then 0xFFFD as char else FourHex(hex).value as char
    case Pair(high, low) => (0x10000 + (FourHex(high).value - 0xD800) * 0x400 + (FourHex(low).value - 0xDC00)) as char
  }

  function Chars(sp: Spelling): (text: string)
    requires SpellingOk(sp)
    ensures |text| == |sp| && forall i | 0 <= i < |sp| :: text[i] == PieceChar(sp[i])
  {
    seq(|sp|, i requires 0 <= i < |sp| => PieceChar(sp[i]))
  }

  const HEX_DIGITS := "0123456789abcdef"
  const UPPER_HEX_DIGITS := "0123456789ABCDEF"

  /** A hexadecimal digit is worth its place among the sixteen, in either case. */
  lemma HexValueIs(c: char, n: int)
    ensures HexValue(c) == Some(n) <==> 0 <= n < 16 && (HEX_DIGITS[n] == c || UPPER_HEX_DIGITS[n] == c)
  {
    assert forall i | 0 <= i < 10 :: HEX_DIGITS[i] as int == '0' as int + i && UPPER_HEX_DIGITS[i] as int == '0' as int + i;
    assert forall i | 10 <= i < 16 :: HEX_DIGITS[i] as int == 'a' as int + i - 10 && UPPER_HEX_DIGITS[i] as int == 'A' as int + i - 10;
  }

  /** Four hexadecimal digits, most significant first. */
  lemma FourHexIs(hex: string, u: int)
    requires |hex| == 4
    ensures FourHex(hex) == Some(u) <==>
            && HexValue(hex[0]).Some? && HexValue(hex[1]).Some? && HexValue(hex[2]).Some? && HexValue(hex[3]).Some?
            && u == ((HexValue(hex[0]).value * 16 + HexValue(hex[1]).value) * 16 + HexValue(hex[2]).value) * 16 + HexValue(hex[3]).value
  {
  }

  /** Between tokens only these four characters are space. */
  lemma JsonSpaceIs(c: char)
    ensures IsSpace(c) <==> c as int in {0x9, 0xA, 0xD, 0x20}
  {
  }

  // ---- Every spelling is read ----

  lemma FourHexPrefix(hex: string, post: string)
    requires |hex| == 4
    ensures FourHex(hex + post) == FourHex(hex)
  {
    var t := hex + post;
    assert t[0] == hex[0] && t[1] == hex[1] && t[2] == hex[2] && t[3] == hex[3];
  }

  /** The text does not go on with the second half of a surrogate pair. */
  predicate NoLow(post: string) {
    FollowingLow(post).None?
  }

  lemma UnitRead(hex: string, post: string)
    requires PieceOk(Unit(hex)) && (IsHigh(hex) ==> NoLow(post))
    ensures ScanUnicode(hex + post) == Parsed(PieceChar(Unit(hex)), post)
  {
    hide FourHex, FollowingLow;
    assert (hex + post)[4..] == post;
    FourHexPrefix(hex, post);
  }

  lemma PairRead(high: string, low: string, post: string)
    requires PieceOk(Pair(high, low))
    ensures ScanUnicode(high + ("\\u" + low + post)) == Parsed(PieceChar(Pair(high, low)), post)
  {
    hide FourHex;
    var later := "\\u" + low + post;
    assert (high + later)[4..] == later && (high + later)[10..] == post;
    FourHexPrefix(high, later);
    assert later[0] == '\\' && later[1] == 'u' && later[2..] == low + post;
    FourHexPrefix(low, post);
  }

  lemma PieceRead(p: Piece, post: string)
    requires PieceOk(p) && (p.Unit? && IsHigh(p.hex) ==> NoLow(post))
    ensures ScanChar(PieceText(p) + post) == Parsed(PieceChar(p), post)
    ensures PieceText(p)[0] != '"'
  {
    hide FourHex, ScanUnicode, FollowingLow;
    var t := PieceText(p) + post;
    match p
    case Raw(c) => assert t[0] == c && t[1..] == post;
    case Short(letter) => assert t[0] == '\\' && t[1] == letter && t[2..] == post;
    case Unit(hex) =>
      assert t[0] == '\\' && t[1] == 'u' && t[2..] == hex + post;
      UnitRead(hex, post);
    case Pair(high, low) =>
      assert t[0] == '\\' && t[1] == 'u' && t[2..] == high + ("\\u" + low + post);
      PairRead(high, low, post);
  }

  /** Only a low surrogate group is one. */
  lemma PieceNoLow(p: Piece, later: string)
    requires PieceOk(p) && !(p.Unit? && IsLow(p.hex))
    ensures NoLow(PieceText(p) + later)
  {
    hide FourHex;
    var t := PieceText(p) + later;
    match p
    case Raw(c) => assert t[0] == c;
    case Short(letter) => assert t[0] == '\\' && t[1] == letter;
    case Unit(hex) => GroupNoLow(hex, later);
    case Pair(high, low) =>
      assert t == ("\\u" + high) + ("\\u" + low + later);
      GroupNoLow(high, "\\u" + low + later);
  }

  lemma GroupNoLow(hex: string, later: string)
    requires |hex| == 4 && FourHex(hex).Some? && !IsLow(hex)
    ensures NoLow(("\\u" + hex) + later)
  {
    hide FourHex;
    assert (("\\u" + hex) + later)[2..] == hex + later;
    FourHexPrefix(hex, later);
  }

  /** What follows a piece in a spelling, or the closing quote, is no second half. */
  lemma NoLowAfter(sp: Spelling, tail: string)
    requires SpellingOk(sp) && sp != [] && sp[0].Unit? && IsHigh(sp[0].hex) && tail != "" && tail[0] == '"'
    ensures NoLow(SpelledText(sp[1..]) + tail)
  {
    hide PieceOk, PieceText, IsHigh, IsLow, FourHex;
    if sp[1..] == [] {
      assert SpelledText(sp[1..]) + tail == tail;
    } else {
      var later := SpelledText(sp[1..][1..]) + tail;
      assert SpelledText(sp[1..]) + tail == PieceText(sp[1]) + later;
      PieceNoLow(sp[1], later);
    }
  }

  lemma {:induction false} SpellingRead(sp: Spelling, tail: string, acc: string)
    requires SpellingOk(sp) && tail != "" && tail[0] == '"'
    ensures ScanString(SpelledText(sp) + tail, acc) == Parsed(acc + Chars(sp), tail[1..])
    decreases |sp|
  {
    hide ScanChar, PieceText, PieceChar, FourHex, FollowingLow;
    if sp == [] {
      assert SpelledText(sp) + tail == tail && acc + Chars(sp) == acc;
    } else {
      var later := SpelledText(sp[1..]) + tail;
      assert SpelledText(sp) + tail == PieceText(sp[0]) + later;
      if sp[0].Unit? && IsHigh(sp[0].hex) { NoLowAfter(sp, tail); }
      PieceRead(sp[0], later);
      PieceFirst(sp[0], later);
      assert forall i | 0 < i < |sp| :: sp[1..][i - 1] == sp[i];
      SpellingRead(sp[1..], tail, acc + [PieceChar(sp[0])]);
      assert acc + [PieceChar(sp[0])] + Chars(sp[1..]) == acc + Chars(sp);
    }
  }

  lemma PieceFirst(p: Piece, later: string)
    ensures PieceText(p) + later != "" && (PieceOk(p) ==> (PieceText(p) + later)[0] != '"')
  {
  }

  // ---- Whatever is read is a spelling ----

  /** The piece that a scanned character was written as. */
  lemma ScannedPiece(t: string) returns (p: Piece)
    requires ScanChar(t).Parsed? && t != "" && t[0] != '"'
    ensures PieceOk(p) && t == PieceText(p) + ScanChar(t).rest && PieceChar(p) == ScanChar(t).value
    ensures p.Unit? && IsHigh(p.hex) ==> NoLow(ScanChar(t).rest)
  {
    if t[0] != '\\' {
      p := Raw(t[0]);
    } else if t[1] != 'u' {
      p := Short(t[1]);
      assert t == ['\\', t[1]] + t[2..];
    } else {
      p := ScannedUnicode(t);
    }
  }

  lemma ScannedUnicode(t: string) returns (p: Piece)
    requires ScanChar(t).Parsed? && |t| >= 2 && t[0] == '\\' && t[1] == 'u'
    ensures PieceOk(p) && t == PieceText(p) + ScanChar(t).rest && PieceChar(p) == ScanChar(t).value
    ensures p.Unit? && IsHigh(p.hex) ==> NoLow(ScanChar(t).rest)
  {
    hide FourHex;
    var u := t[2..];
    var hex := u[..4];
    assert u == hex + u[4..];
    FourHexPrefix(hex, u[4..]);
    var later := u[4..];
    if IsHigh(hex) && FollowingLow(later).Some? {
      var low := later[2..6];
      assert later[2..] == low + later[6..];
      FourHexPrefix(low, later[6..]);
      p := Pair(hex, low);
      assert u[10..] == later[6..];
      assert t == "\\u" + hex + "\\u" + low + later[6..];
    } else {
      p := Unit(hex);
      assert t == "\\u" + hex + later;
    }
  }

  /** A text that goes on with a spelled low surrogate does. */
  lemma LowFollows(p: Piece, later: string)
    requires p.Unit? && PieceOk(p) && IsLow(p.hex)
    ensures !NoLow(PieceText(p) + later)
  {
    hide FourHex;
    var t := PieceText(p) + later;
    assert t[0] == '\\' && t[1] == 'u' && t[2..] == p.hex + later;
    FourHexPrefix(p.hex, later);
  }

  lemma SpellingCons(p: Piece, later: Spelling)
    requires PieceOk(p) && SpellingOk(later)
    requires later != [] ==> !(p.Unit? && later[0].Unit? && IsHigh(p.hex) && IsLow(later[0].hex))
    ensures SpellingOk([p] + later) && Chars([p] + later) == [PieceChar(p)] + Chars(later)
  {
    hide PieceOk, PieceChar, IsHigh, IsLow;
    var sp := [p] + later;
    assert forall i | 0 < i < |sp| :: sp[i] == later[i - 1];
  }

  /** Every text that the decoder accepts as a string is a spelling of what it reads, followed by the closing quote. */
  lemma {:induction false} ScannedSpelling(t: string, acc: string) returns (sp: Spelling)
    requires ScanString(t, acc).Parsed?
    ensures SpellingOk(sp) && ScanString(t, acc).value == acc + Chars(sp)
    ensures t == SpelledText(sp) + ("\"" + ScanString(t, acc).rest)
    decreases |t|
  {
    hide ScanChar, PieceText, PieceChar, PieceOk, IsHigh, IsLow, NoLow;
    if t[0] == '"' {
      sp := [];
      assert acc + Chars(sp) == acc && t == "" + ("\"" + t[1..]);
    } else {
      var p := ScannedPiece(t);
      var rest, c := ScanChar(t).rest, ScanChar(t).value;
      var later := ScannedSpelling(rest, acc + [c]);
      var tail := "\"" + ScanString(rest, acc + [c]).rest;
      sp := [p] + later;
      if later != [] && p.Unit? && later[0].Unit? && IsHigh(p.hex) && IsLow(later[0].hex) {
        assert rest == PieceText(later[0]) + (SpelledText(later[1..]) + tail);
        LowFollows(later[0], SpelledText(later[1..]) + tail);
      }
      SpellingCons(p, later);
      assert acc + [c] + Chars(later) == acc + Chars(sp);
      assert sp[1..] == later && t == PieceText(p) + (SpelledText(later) + tail);
    }
  }

  // ---- The printer's choice ----

  /** What stands between the quotes of a printed text. */
  function Inner(s: string): (inner: string)
    ensures CT.Quoted(s) == "\"" + inner + "\""
  {
    CT.EscapedText(s)
  }

  predicate LowerHexDigit(c: char) {
    '0' <= c <= '9' || 'a' <= c <= 'f'
  }

  /**
   * One printed character: a backslash exactly before the quote, the backslash
   * and the characters below the space, with the short form where there is one
   * and two lower-case digits otherwise; every other character as it is.
   */
  predicate PrintedAs(c: char, text: string) {
    if c == '"' || c == '\\' then text == ['\\', c]
    else if c == 0x8 as char then text == ['\\', 'b']
    else if c == 0xC as char then text == ['\\', 'f']
    else if c == 0xA as char then text == ['\\', 'n']
    else if c == 0xD as char then text == ['\\', 'r']
    else if c == 0x9 as char then text == ['\\', 't']
    else if c as int < 0x20 then
      |text| == 6 && text[..4] == ['\\', 'u', '0', '0'] && LowerHexDigit(text[4]) && LowerHexDigit(text[5])
      && FourHex(text[2..]) == Some(c as int)
    else text == [c]
  }

  lemma PrintedCharacter(c: char)
    ensures PrintedAs(c, Inner([c]))
  {
    assert CT.EscapedText([c]) == CT.Escaped(c) + CT.EscapedText("") == CT.Escaped(c);
    if 0 <= c as int < 0x20 && |CT.Escaped(c)| == 6 {
      var text := CT.Escaped(c);
      assert text[2..][0] == '0' && text[2..][1] == '0';
      assert text[2..][2] == CT.HexDigit(c as int / 16) && text[2..][3] == CT.HexDigit(c as int % 16);
      assert HexValue(text[2..][2]) == Some(c as int / 16) && HexValue(text[2..][3]) == Some(c as int % 16);
    }
  }

  /** A printed text is its printed characters one after the other. */
  lemma {:induction false} PrintedText(a: string, b: string)
    ensures Inner(a + b) == Inner(a) + Inner(b)
    decreases |a|
  {
    hide CT.Escaped;
    if a == "" {
      assert a + b == b;
    } else {
      assert (a + b)[1..] == a[1..] + b;
      PrintedText(a[1..], b);
    }
  }

  lemma PieceCost(p: Piece)
    requires PieceOk(p)
    ensures |CT.Escaped(PieceChar(p))| <= |PieceText(p)|
  {
  }

  lemma {:induction false} SpellingCost(sp: Spelling)
    requires SpellingOk(sp)
    ensures |CT.EscapedText(Chars(sp))| <= |SpelledText(sp)|
  {
    hide PieceOk, PieceText, PieceChar, CT.Escaped;
    if sp != [] {
      assert forall i | 0 < i < |sp| :: sp[1..][i - 1] == sp[i];
      assert Chars(sp)[1..] == Chars(sp[1..]);
      PieceCost(sp[0]);
      SpellingCost(sp[1..]);
    }
  }

  /** Of all literals that are read as a text, the printed one is among the shortest. */
  lemma PrintedShortest(t: string, s: string, rest: string)
    requires t != "" && t[0] == '"' && ScanString(t[1..], "") == Parsed(s, rest)
    ensures |CT.Quoted(s)| <= |t| - |rest|
  {
    hide ScanString, CT.EscapedText;
    var sp := ScannedSpelling(t[1..], "");
    assert "" + Chars(sp) == Chars(sp);
    SpellingCost(sp);
  }
}
