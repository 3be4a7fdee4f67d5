/** The canonical printer: one text for every value, object keys in UTF-16 order. */
module CanonicalText {
  import opened JsonValues
  import Utf16

  // ---- Numbers ----

  function Digit(d: int): char
    requires 0 <= d < 10
  {
    ('0' as int + d) as char
  }

  predicate IsDigit(c: char) {
    '0' <= c <= '9'
  }

  /** Decimal digits without leading zeros. */
  function Digits(n: nat): (s: string)
    ensures |s| > 0
    ensures forall i | 0 <= i < |s| :: IsDigit(s[i])
    ensures n > 0 ==> s[0] != '0'
  {
    if n < 10 then [Digit(n)] else Digits(n / 10) + [Digit(n % 10)]
  }

  function NumberText(n: int): string {
    if n < 0 then "-" + Digits(-n) else Digits(n)
  }

  // ---- Strings ----

  function HexDigit(d: int): char
    requires 0 <= d < 16
  {
    if d < 10 then Digit(d) else ('a' as int + d - 10) as char
  }

  const BACKSPACE: char := 0x8 as char
  const FORM_FEED: char := 0xC as char

  function Escaped(c: char): string {
    if c == '"' || c == '\\' then ['\\', c]
    else if c == BACKSPACE then "\\b"
    else if c == FORM_FEED then "\\f"
    else if c == '\n' then "\\n"
    else if c == '\r' then "\\r"
    else if c == '\t' then "\\t"
    else if c as int < 0x20 then "\\u00" + [HexDigit(c as int / 16), HexDigit(c as int % 16)]
    else [c]
  }

  function EscapedText(s: string): string {
    if s == "" then "" else Escaped(s[0]) + EscapedText(s[1..])
  }

  function Quoted(s: string): string {
    "\"" + EscapedText(s) + "\""
  }

  // ---- Keys ----

  predicate StrictlyOrdered(keys: seq<string>) {
    forall i, j | 0 <= i < j < |keys| :: Utf16.Order(keys[i], keys[j]) < 0
  }

  predicate IsLeast(k: string, keys: set<string>) {
    k in keys && forall j | j in keys :: Utf16.Order(k, j) <= 0
  }

  lemma {:induction false} LeastExists(keys: set<string>)
    requires keys != {}
    ensures exists k :: IsLeast(k, keys)
  {
    var k :| k in keys;
    Utf16.OrderTotal(k, k);
    if keys - {k} == {} {
      assert keys == {k};
      assert IsLeast(k, keys);
    } else {
      LeastExists(keys - {k});
      var m :| IsLeast(m, keys - {k});
      Utf16.OrderTotal(k, m);
      if Utf16.Order(k, m) <= 0 {
        forall j | j in keys ensures Utf16.Order(k, j) <= 0 {
          if j != k { Utf16.OrderTransitive(k, m, j); }
        }
        assert IsLeast(k, keys);
      } else {
        assert IsLeast(m, keys);
      }
    }
  }

  lemma LeastUnique(keys: set<string>)
    ensures forall a, b | IsLeast(a, keys) && IsLeast(b, keys) :: a == b
  {
    forall a, b | IsLeast(a, keys) && IsLeast(b, keys) ensures a == b {
      Utf16.OrderTotal(a, b);
    }
  }

  /** The elements of the set in increasing UTF-16 order. */
  function SortedKeys(keys: set<string>): (sorted: seq<string>)
    ensures forall k :: k in sorted <==> k in keys
  {
    if keys == {} then []
    else
      LeastExists(keys);
      LeastUnique(keys);
      var k :| k in keys && IsLeast(k, keys);
      [k] + SortedKeys(keys - {k})
  }

  lemma {:induction false} SortedKeysOrdered(keys: set<string>)
    ensures StrictlyOrdered(SortedKeys(keys))
    ensures |SortedKeys(keys)| == |keys|
  {
    var sorted := SortedKeys(keys);
    if keys != {} {
      var k, rest := sorted[0], sorted[1..];
      assert sorted == [k] + rest;
      LeastExists(keys);
      LeastUnique(keys);
      assert IsLeast(k, keys) && rest == SortedKeys(keys - {k});
      SortedKeysOrdered(keys - {k});
      forall i | 0 <= i < |rest| ensures Utf16.Order(k, rest[i]) < 0 {
        assert rest[i] in rest;
        Utf16.OrderTotal(k, rest[i]);
      }
    }
  }

  /** Whatever order the keys are visited in, sorting them gives one sequence. */
  lemma {:induction false} SortedUnique(a: seq<string>, b: seq<string>)
    requires StrictlyOrdered(a) && StrictlyOrdered(b)
    requires forall k :: k in a <==> k in b
    ensures a == b
    decreases |a|
  {
    if a == [] {
      assert forall i | 0 <= i < |b| :: b[i] in b;
    } else {
      assert a[0] in a && a[0] in b;
      assert b[0] in b && b[0] in a;
      Utf16.OrderTotal(a[0], b[0]);
      assert a[0] == b[0];
      var p, q := a[1..], b[1..];
      forall k ensures k in p <==> k in q {
        Utf16.OrderTotal(a[0], a[0]);
        assert a == [a[0]] + p && b == [b[0]] + q;
        if k in p { assert k in a; }
        if k in q { assert k in b; }
      }
      SortedUnique(p, q);
    }
  }

  // ---- Values ----

  function Text(v: Json): string
    requires Exact(v)
    decreases v, 1, 0
  {
    match v
    case Null => "null"
    case Bool(flag) => if flag then "true" else "false"
    case Num(n) => NumberText(n)
    case Str(s) => Quoted(s)
    case Arr(_) => "[" + ItemsText(v, 0)
    case Obj(fields) => "{" + MembersText(v, SortedKeys(fields.Keys), 0)
  }

  /** The items from index `i` on, with separators and the closing bracket. */
  function ItemsText(v: Json, i: nat): string
    requires Exact(v) && v.Arr? && i <= |v.items|
    decreases v, 0, |v.items| - i
  {
    if i == |v.items| then "]"
    else (if i > 0 then "," else "") + (Text(v.items[i]) + ItemsText(v, i + 1))
  }

  /** The members for `keys[i..]`, with separators and the closing brace. */
  function MembersText(v: Json, keys: seq<string>, i: nat): string
    requires Exact(v) && v.Obj? && i <= |keys| && forall k | k in keys :: k in v.fields
    decreases v, 0, |keys| - i
  {
    if i == |keys| then "}"
    else
      (if i > 0 then "," else "")
      + (Quoted(keys[i]) + (":" + (Text(v.fields[keys[i]]) + MembersText(v, keys, i + 1))))
  }
}
