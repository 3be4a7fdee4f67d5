/**
 * Decoding of JSON text into values without duplicate object keys, and the
 * methods that decode and print one value at a time.
 */
module CanonicalJson {
  import opened JsonValues
  import opened Outcomes
  import CT = CanonicalText
  import Utf16

  datatype JsonError = Malformed | DuplicateKey | TrailingData | UnsupportedNumber

  /** A parsed prefix of the input and what is left of it. */
  datatype Parsed<+T> = Parsed(value: T, rest: string) | Failed(error: JsonError)

  // ---- Lexical elements ----

  predicate IsSpace(c: char) {
    c == ' ' || c == '\t' || c == '\n' || c == '\r'
  }

  function SkipSpace(t: string): (rest: string)
    ensures |rest| <= |t|
    ensures rest != "" ==> !IsSpace(rest[0])
  {
    if t != "" && IsSpace(t[0]) then SkipSpace(t[1..]) else t
  }

  function DigitValue(c: char): (d: int)
    requires CT.IsDigit(c)
    ensures 0 <= d < 10
  {
    c as int - '0' as int
  }

  /** Reads digits to the end of the run, most significant first. */
  function ScanDigits(t: string, acc: nat): (r: (nat, string))
    ensures |r.1| <= |t|
  {
    if t != "" && CT.IsDigit(t[0]) then ScanDigits(t[1..], 10 * acc + DigitValue(t[0]))
    else (acc, t)
  }

  /** What may not follow an integer literal: a fraction or an exponent. */
  predicate ContinuesNumber(t: string) {
    t != "" && (t[0] == '.' || t[0] == 'e' || t[0] == 'E')
  }

  function ScanNatural(t: string): (r: Parsed<nat>)
    ensures r.Parsed? ==> |r.rest| < |t|
  {
    if t == "" || !CT.IsDigit(t[0]) then Failed(Malformed)
    else
      var (n, rest) := if t[0] == '0' then (0, t[1..]) else ScanDigits(t[1..], DigitValue(t[0]));
      if ContinuesNumber(rest) || n > MAX_EXACT_INTEGER then Failed(UnsupportedNumber)
      else Parsed(n, rest)
  }

  function ScanNumber(t: string): (r: Parsed<int>)
    ensures r.Parsed? ==> |r.rest| < |t|
    ensures r.Parsed? ==> Exact(Num(r.value))
  {
    if t != "" && t[0] == '-' then
      match ScanNatural(t[1..])
      case Parsed(n, rest) => Parsed(0 - n, rest)
      case Failed(e) => Failed(e)
    else
      match ScanNatural(t)
      case Parsed(n, rest) => Parsed(n, rest)
      case Failed(e) => Failed(e)
  }

  function HexValue(c: char): Option<int> {
    if CT.IsDigit(c) then Some(DigitValue(c))
    else if 'a' <= c <= 'f' then Some(c as int - 'a' as int + 10)
    else if 'A' <= c <= 'F' then Some(c as int - 'A' as int + 10)
    else None
  }

  /** The code unit written as four hexadecimal digits, if the text starts with them. */
  function FourHex(t: string): (r: Option<int>)
    ensures r.Some? ==> 0 <= r.value < 0x10000 && |t| >= 4
  {
    if |t| < 4 then None
    else
      match (HexValue(t[0]), HexValue(t[1]), HexValue(t[2]), HexValue(t[3]))
      case (Some(a), Some(b), Some(c), Some(d)) =>
        var unit := 0x1000 * a + 0x100 * b + 0x10 * c + d;
        if 0 <= unit < 0x10000 then Some(unit) else None
      case _ => None
  }

  const REPLACEMENT: char := 0xFFFD as char

  predicate HighSurrogate(u: int) {
    0xD800 <= u < 0xDC00
  }

  predicate LowSurrogate(u: int) {
    0xDC00 <= u < 0xE000
  }

  /** The low surrogate written directly after a high one, if there is one. */
  function FollowingLow(t: string): (r: Option<int>)
    ensures r.Some? ==> LowSurrogate(r.value) && |t| >= 6
  {
    if |t| >= 6 && t[0] == '\\' && t[1] == 'u' then
      match FourHex(t[2..])
      case Some(u) => if LowSurrogate(u) then Some(u) else None
      case None => None
    else None
  }

  /** The character after backslash and `u`; unpaired surrogates become U+FFFD. */
  function ScanUnicode(t: string): (r: Parsed<char>)
    ensures r.Parsed? ==> |r.rest| < |t|
  {
    match FourHex(t)
    case None => Failed(Malformed)
    case Some(u) =>
      if HighSurrogate(u) then
        match FollowingLow(t[4..])
        case Some(low) =>
          Parsed((Utf16.SUPPLEMENTARY + (u - 0xD800) * 0x400 + (low - 0xDC00)) as char, t[10..])
        case None => Parsed(REPLACEMENT, t[4..])
      else if LowSurrogate(u) then Parsed(REPLACEMENT, t[4..])
      else Parsed(u as char, t[4..])
  }

  /** One character of a string literal, escaped or not. */
  function ScanChar(t: string): (r: Parsed<char>)
    ensures r.Parsed? ==> |r.rest| < |t|
  {
    if t == "" || t[0] as int < 0x20 then Failed(Malformed)
    else if t[0] != '\\' then Parsed(t[0], t[1..])
    else if |t| == 1 then Failed(Malformed)
    else if t[1] == '"' || t[1] == '\\' || t[1] == '/' then Parsed(t[1], t[2..])
    else if t[1] == 'b' then Parsed(CT.BACKSPACE, t[2..])
    else if t[1] == 'f' then Parsed(CT.FORM_FEED, t[2..])
    else if t[1] == 'n' then Parsed('\n', t[2..])
    else if t[1] == 'r' then Parsed('\r', t[2..])
    else if t[1] == 't' then Parsed('\t', t[2..])
    else if t[1] == 'u' then ScanUnicode(t[2..])
    else Failed(Malformed)
  }

  /** The rest of a string literal after its opening quote. */
  function ScanString(t: string, acc: string): (r: Parsed<string>)
    ensures r.Parsed? ==> |r.rest| < |t|
    decreases |t|
  {
    if t != "" && t[0] == '"' then Parsed(acc, t[1..])
    else
      match ScanChar(t)
      case Parsed(c, rest) => ScanString(rest, acc + [c])
      case Failed(e) => Failed(e)
  }

  predicate StartsWith(t: string, prefix: string) {
    |prefix| <= |t| && forall i | 0 <= i < |prefix| :: t[i] == prefix[i]
  }

  // ---- Values ----

  /** A value that is neither an object nor an array; `t` starts at it. */
  function ParseScalar(t: string): (r: Parsed<Json>)
    ensures r.Parsed? ==> |r.rest| < |t| && Exact(r.value)
  {
    if t != "" && t[0] == '"' then
      match ScanString(t[1..], "")
      case Parsed(s, rest) => Parsed(Str(s), rest)
      case Failed(e) => Failed(e)
    else if StartsWith(t, "null") then Parsed(Null, t[4..])
    else if StartsWith(t, "true") then Parsed(Bool(true), t[4..])
    else if StartsWith(t, "false") then Parsed(Bool(false), t[5..])
    else
      match ScanNumber(t)
      case Parsed(n, rest) => Parsed(Num(n), rest)
      case Failed(e) => Failed(e)
  }

  function ParseValue(text: string): (r: Parsed<Json>)
    ensures r.Parsed? ==> |r.rest| < |text| && Exact(r.value)
    decreases |text|, 0
  {
    var t := SkipSpace(text);
    if t == "" then Failed(Malformed)
    else if t[0] == '[' then ParseItems(t[1..], [], true)
    else if t[0] == '{' then ParseMembers(t[1..], map[], true)
    else ParseScalar(t)
  }

  /** The rest of an array whose items so far are `acc`. */
  function ParseItems(text: string, acc: seq<Json>, first: bool): (r: Parsed<Json>)
    requires Exact(Arr(acc))
    ensures r.Parsed? ==> |r.rest| < |text| && Exact(r.value)
    decreases |text|, 1
  {
    var t := SkipSpace(text);
    if t == "" then Failed(Malformed)
    else if t[0] == ']' then Parsed(Arr(acc), t[1..])
    else if !first && t[0] != ',' then Failed(Malformed)
    else
      match ParseValue(if first then t else t[1..])
      case Parsed(v, rest) => ParseItems(rest, acc + [v], false)
      case Failed(e) => Failed(e)
  }

  /** An object key and the colon after it; `t` starts at the key. */
  function ParseKey(text: string): (r: Parsed<string>)
    ensures r.Parsed? ==> |r.rest| < |text|
  {
    var t := SkipSpace(text);
    if t == "" || t[0] != '"' then Failed(Malformed) else ScanString(t[1..], "")
  }

  /** The rest of an object whose members so far are `acc`. */
  function ParseMembers(text: string, acc: map<string, Json>, first: bool): (r: Parsed<Json>)
    requires Exact(Obj(acc))
    ensures r.Parsed? ==> |r.rest| < |text| && Exact(r.value)
    decreases |text|, 1
  {
    var t := SkipSpace(text);
    if t == "" then Failed(Malformed)
    else if t[0] == '}' then Parsed(Obj(acc), t[1..])
    else if !first && t[0] != ',' then Failed(Malformed)
    else
      match ParseKey(if first then t else t[1..])
      case Failed(e) => Failed(e)
      case Parsed(key, afterKey) =>
        if key in acc then Failed(DuplicateKey)
        else
          var u := SkipSpace(afterKey);
          if u == "" || u[0] != ':' then Failed(Malformed)
          else
            match ParseValue(u[1..])
            case Failed(e) => Failed(e)
            case Parsed(v, rest) => ParseMembers(rest, acc[key := v], false)
  }

  /** The single value a text denotes. */
  function Decode(text: string): (r: Result<Json, JsonError>)
    ensures r.Ok? ==> Exact(r.value)
  {
    match ParseValue(text)
    case Failed(e) => Err(e)
    case Parsed(v, rest) => if SkipSpace(rest) == "" then Ok(v) else Err(TrailingData)
  }

  /** The value of a text together with its canonical text. */
  function Canonicalize(text: string): (r: Result<(Json, string), JsonError>) {
    match Decode(text)
    case Ok(v) => Ok((v, CT.Text(v)))
    case Err(e) => Err(e)
  }
}
