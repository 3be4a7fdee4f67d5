/** The decoder inverts the printer, and what follows from it. */
module CanonicalRoundTrip {
  import opened JsonValues
  import opened Outcomes
  import opened CanonicalJson
  import CT = CanonicalText
  import Utf16

  /** A text at which a number literal before it ends. */
  predicate Ends(post: string) {
    post == "" || (!CT.IsDigit(post[0]) && !ContinuesNumber(post))
  }

  // ---- Numbers ----

  lemma {:induction false} ScanPrintedDigits(n: nat, post: string)
    ensures ScanDigits(CT.Digits(n) + post, 0) == ScanDigits(post, n)
    decreases n
  {
    var d := [CT.Digit(n % 10)];
    if n < 10 {
      assert (CT.Digits(n) + post)[1..] == post;
    } else {
      ScanPrintedDigits(n / 10, d + post);
      assert CT.Digits(n) + post == CT.Digits(n / 10) + (d + post);
      assert (d + post)[1..] == post;
    }
  }

  lemma ScanPrintedNatural(n: nat, post: string)
    requires Ends(post) && n <= MAX_EXACT_INTEGER
    ensures ScanNatural(CT.Digits(n) + post) == Parsed(n, post)
  {
    var t := CT.Digits(n) + post;
    assert t[0] == CT.Digits(n)[0];
    if n == 0 {
      assert t[1..] == post;
    } else {
      ScanPrintedDigits(n, post);
      assert 10 * 0 + DigitValue(t[0]) == DigitValue(t[0]);
      assert ScanDigits(t, 0) == ScanDigits(t[1..], DigitValue(t[0]));
    }
  }

  lemma ScanPrintedNumber(n: int, post: string)
    requires Ends(post) && Exact(Num(n))
    ensures ScanNumber(CT.NumberText(n) + post) == Parsed(n, post)
    ensures var head := CT.NumberText(n)[0]; head == '-' || CT.IsDigit(head)
  {
    hide ScanNatural;
    if n < 0 {
      ScanPrintedNatural(-n, post);
      assert (CT.NumberText(n) + post)[1..] == CT.Digits(-n) + post;
    } else {
      ScanPrintedNatural(n, post);
    }
  }

  // ---- Strings ----

  lemma ScanEscaped(c: char, post: string)
    ensures ScanChar(CT.Escaped(c) + post) == Parsed(c, post)
    ensures CT.Escaped(c)[0] != '"'
  {
    var e := CT.Escaped(c);
    var t := e + post;
    assert t[0] == e[0];
    if |e| == 1 {
      assert t[1..] == post;
    } else if |e| == 2 {
      assert t[1] == e[1];
      assert t[2..] == post;
    } else {
      var code := c as int;
      assert t[..6] == e && t[1] == 'u';
      var u := t[2..];
      assert u[0] == '0' && u[1] == '0' && u[2] == CT.HexDigit(code / 16) && u[3] == CT.HexDigit(code % 16);
      assert HexValue(u[2]) == Some(code / 16) && HexValue(u[3]) == Some(code % 16);
      assert FourHex(u) == Some(code);
      assert u[4..] == post;
    }
  }

  /** The closing quote that follows an escaped text ends it. */
  lemma {:induction false} ScanEscapedText(s: string, tail: string, acc: string)
    requires tail != "" && tail[0] == '"'
    ensures ScanString(CT.EscapedText(s) + tail, acc) == Parsed(acc + s, tail[1..])
    decreases |s|
  {
    hide CT.Escaped, ScanChar;
    if s == "" {
      assert CT.EscapedText(s) + tail == tail;
      assert acc + s == acc;
    } else {
      var later := CT.EscapedText(s[1..]) + tail;
      assert CT.EscapedText(s) + tail == CT.Escaped(s[0]) + later;
      ScanEscaped(s[0], later);
      EscapedFirst(s[0], later);
      ScanEscapedText(s[1..], tail, acc + [s[0]]);
      assert acc + [s[0]] + s[1..] == acc + s;
    }
  }

  lemma EscapedFirst(c: char, later: string)
    ensures CT.Escaped(c) + later != "" && (CT.Escaped(c) + later)[0] != '"'
  {
    ScanEscaped(c, later);
  }

  lemma ScanQuoted(s: string, post: string)
    ensures CT.Quoted(s)[0] == '"'
    ensures ScanString((CT.Quoted(s) + post)[1..], "") == Parsed(s, post)
  {
    hide CT.EscapedText;
    ScanEscapedText(s, "\"" + post, "");
    assert (CT.Quoted(s) + post)[1..] == CT.EscapedText(s) + ("\"" + post);
    assert "" + s == s;
  }

  // ---- Values ----

  /** The printed value is read back in front of any text that ends a literal. */
  ghost predicate Readable(v: Json) {
    Exact(v) && forall post | Ends(post) :: ParseValue(CT.Text(v) + post) == Parsed(v, post)
  }

  /** No printed value starts with a space, a separator or a closing delimiter. */
  lemma TextHead(v: Json)
    requires Exact(v)
    ensures var t := CT.Text(v);
            t != "" && !IsSpace(t[0]) && t[0] != ']' && t[0] != '}' && t[0] != ','
  {
    if v.Num? {
      ScanPrintedNumber(v.n, "");
    }
  }

  lemma ScalarReadable(v: Json)
    requires Exact(v) && !v.Arr? && !v.Obj?
    ensures Readable(v)
  {
    forall post | Ends(post) ensures ParseValue(CT.Text(v) + post) == Parsed(v, post) {
      var w := CT.Text(v);
      var t := w + post;
      TextHead(v);
      assert t[0] == w[0] && t[|w|..] == post;
      assert forall i | 0 <= i < |w| :: t[i] == w[i];
      match v
      case Null => assert StartsWith(t, "null");
      case Bool(flag) => assert StartsWith(t, w) && t[0] == if flag then 't' else 'f';
      case Num(n) => ScanPrintedNumber(n, post);
      case Str(s) => ScanQuoted(s, post);
    }
  }

  lemma ParseItemsEnd(acc: seq<Json>, first: bool, post: string)
    requires Exact(Arr(acc))
    ensures ParseItems("]" + post, acc, first) == Parsed(Arr(acc), post)
  {
    assert ("]" + post)[1..] == post;
  }

  lemma ParseItemsStep(x: Json, acc: seq<Json>, first: bool, later: string)
    requires Readable(x) && Ends(later) && Exact(Arr(acc))
    ensures Exact(Arr(acc + [x]))
    ensures ParseItems((if first then "" else ",") + (CT.Text(x) + later), acc, first)
         == ParseItems(later, acc + [x], false)
  {
    hide CT.Text;
    TextHead(x);
    var body := CT.Text(x) + later;
    var t := (if first then "" else ",") + body;
    assert body[0] == CT.Text(x)[0];
    if first {
      assert t == body;
    } else {
      assert t[0] == ',' && t[1..] == body;
    }
    assert ParseValue(body) == Parsed(x, later);
  }

  lemma {:induction false} ParsePrintedItems(v: Json, i: nat, post: string)
    requires Exact(v) && v.Arr? && i <= |v.items|
    requires forall x | x in v.items :: Readable(x)
    ensures ParseItems(CT.ItemsText(v, i) + post, v.items[..i], i == 0) == Parsed(v, post)
    decreases |v.items| - i
  {
    hide ParseItems, ParseValue, CT.Text;
    var t := CT.ItemsText(v, i) + post;
    if i == |v.items| {
      ParseItemsEnd(v.items, i == 0, post);
      assert v.items[..i] == v.items;
    } else {
      var x := v.items[i];
      assert x in v.items;
      var later := CT.ItemsText(v, i + 1) + post;
      assert Ends(later);
      ParseItemsStep(x, v.items[..i], i == 0, later);
      ParsePrintedItems(v, i + 1, post);
      assert v.items[..i] + [x] == v.items[..i + 1];
      assert t == (if i == 0 then "" else ",") + (CT.Text(x) + later);
    }
  }

  // ---- Objects, with their members in any order ----

  type Member = (string, Json)

  predicate ExactMembers(ps: seq<Member>) {
    forall p | p in ps :: Exact(p.1)
  }

  /** Members in the given order, with separators and the closing brace. */
  function PairsText(ps: seq<Member>, first: bool): string
    requires ExactMembers(ps)
  {
    if ps == [] then "}"
    else
      (if first then "" else ",")
      + (CT.Quoted(ps[0].0) + (":" + (CT.Text(ps[0].1) + PairsText(ps[1..], false))))
  }

  /** The map the members build one by one, unless a key occurs twice. */
  function Merge(acc: map<string, Json>, ps: seq<Member>): (r: Option<map<string, Json>>)
    decreases |ps|
  {
    if ps == [] then Some(acc)
    else if ps[0].0 in acc then None
    else Merge(acc[ps[0].0 := ps[0].1], ps[1..])
  }

  lemma ParseMembersEnd(acc: map<string, Json>, first: bool, post: string)
    requires Exact(Obj(acc))
    ensures ParseMembers("}" + post, acc, first) == Parsed(Obj(acc), post)
  {
    assert ("}" + post)[1..] == post;
  }

  lemma ParseMemberText(key: string, x: Json, later: string)
    requires Readable(x) && Ends(later)
    ensures var member := CT.Quoted(key) + (":" + (CT.Text(x) + later));
            && member[0] == '"'
            && ParseKey(member) == Parsed(key, ":" + (CT.Text(x) + later))
    ensures ParseValue(CT.Text(x) + later) == Parsed(x, later)
  {
    hide ParseValue, CT.Text, CT.Quoted, ScanString;
    ScanQuoted(key, ":" + (CT.Text(x) + later));
  }

  lemma ParseMembersStep(key: string, x: Json, acc: map<string, Json>, first: bool, later: string)
    requires Readable(x) && Ends(later) && Exact(Obj(acc))
    ensures Exact(Obj(acc[key := x]))
    ensures ParseMembers((if first then "" else ",") + (CT.Quoted(key) + (":" + (CT.Text(x) + later))), acc, first)
         == if key in acc then Failed(DuplicateKey) else ParseMembers(later, acc[key := x], false)
  {
    hide CT.Text, CT.Quoted, ParseKey;
    var afterKey := ":" + (CT.Text(x) + later);
    var member := CT.Quoted(key) + afterKey;
    ParseMemberText(key, x, later);
    assert afterKey[0] == ':' && afterKey[1..] == CT.Text(x) + later;
    if first {
      assert "" + member == member;
    } else {
      assert ("," + member)[1..] == member;
    }
  }

  lemma {:induction false} ParsePairs(ps: seq<Member>, acc: map<string, Json>, first: bool, post: string)
    requires Exact(Obj(acc)) && ExactMembers(ps)
    requires forall p | p in ps :: Readable(p.1)
    ensures ParseMembers(PairsText(ps, first) + post, acc, first) ==
            match Merge(acc, ps)
            case Some(m) => Parsed(Obj(m), post)
            case None => Failed(DuplicateKey)
    decreases |ps|
  {
    hide ParseMembers, ParseValue, CT.Text, CT.Quoted;
    var t := PairsText(ps, first) + post;
    if ps == [] {
      ParseMembersEnd(acc, first, post);
    } else {
      var (key, x) := ps[0];
      assert ps[0] in ps;
      var later := PairsText(ps[1..], false) + post;
      assert Ends(later);
      ParseMembersStep(key, x, acc, first, later);
      assert t == (if first then "" else ",") + (CT.Quoted(key) + (":" + (CT.Text(x) + later)));
      if key !in acc {
        ParsePairs(ps[1..], acc[key := x], false, post);
      }
    }
  }

  function PairsOf(fields: map<string, Json>, keys: seq<string>): (ps: seq<Member>)
    requires forall k | k in keys :: k in fields
    ensures |ps| == |keys|
    ensures forall i | 0 <= i < |ps| :: ps[i] == (keys[i], fields[keys[i]])
  {
    seq(|keys|, i requires 0 <= i < |keys| => assert keys[i] in keys; (keys[i], fields[keys[i]]))
  }

  lemma {:induction false} MembersTextIsPairsText(v: Json, keys: seq<string>, i: nat)
    requires Exact(v) && v.Obj? && i <= |keys| && forall k | k in keys :: k in v.fields
    ensures ExactMembers(PairsOf(v.fields, keys)[i..])
    ensures CT.MembersText(v, keys, i) == PairsText(PairsOf(v.fields, keys)[i..], i == 0)
    decreases |keys| - i
  {
    hide CT.Text, CT.Quoted;
    var ps := PairsOf(v.fields, keys)[i..];
    if i < |keys| {
      MembersTextIsPairsText(v, keys, i + 1);
      assert ps[1..] == PairsOf(v.fields, keys)[i + 1..];
      assert ps == [ps[0]] + ps[1..];
    }
  }

  predicate DistinctKeys(ps: seq<Member>) {
    forall i, j | 0 <= i < j < |ps| :: ps[i].0 != ps[j].0
  }

  predicate NewKeys(acc: map<string, Json>, ps: seq<Member>) {
    forall i | 0 <= i < |ps| :: ps[i].0 !in acc
  }

  lemma TailKeys(p: Member, later: seq<Member>)
    ensures DistinctKeys([p] + later) <==> DistinctKeys(later) && forall i | 0 <= i < |later| :: later[i].0 != p.0
  {
    var ps := [p] + later;
    if DistinctKeys(ps) {
      forall i, j | 0 <= i < j < |later| ensures later[i].0 != later[j].0 {
        assert ps[i + 1] == later[i] && ps[j + 1] == later[j];
      }
      forall i | 0 <= i < |later| ensures later[i].0 != p.0 {
        assert ps[0] == p && ps[i + 1] == later[i];
      }
    }
  }

  lemma NewTail(acc: map<string, Json>, p: Member, later: seq<Member>)
    requires p.0 !in acc
    ensures NewKeys(acc, [p] + later) <==> NewKeys(acc, later)
  {
    var ps := [p] + later;
    assert forall i | 0 <= i < |later| :: ps[i + 1] == later[i];
    assert ps[0] == p;
  }

  /** Merging succeeds exactly on distinct new keys. */
  lemma {:induction false} MergeSucceeds(acc: map<string, Json>, ps: seq<Member>)
    ensures Merge(acc, ps).Some? <==> DistinctKeys(ps) && NewKeys(acc, ps)
    decreases |ps|
  {
    hide DistinctKeys;
    if ps == [] {
      NoKeys();
    } else {
      var p, later := ps[0], ps[1..];
      assert ps == [p] + later;
      if p.0 !in acc {
        MergeSucceeds(acc[p.0 := p.1], later);
        TailKeys(p, later);
        NewTail(acc, p, later);
      }
    }
  }

  lemma NoKeys()
    ensures DistinctKeys([])
  {
  }

  /** A merge holds what was there and every pair. */
  lemma {:induction false} MergeMeaning(acc: map<string, Json>, ps: seq<Member>)
    requires Merge(acc, ps).Some?
    ensures var m := Merge(acc, ps).value;
            && (forall k :: k in m <==> k in acc || exists p | p in ps :: p.0 == k)
            && (forall k | k in acc :: m[k] == acc[k])
            && (forall p | p in ps :: p.0 in m && m[p.0] == p.1)
    decreases |ps|
  {
    if ps != [] {
      var p, later := ps[0], ps[1..];
      MergeMeaning(acc[p.0 := p.1], later);
      assert forall q :: q in ps <==> q == p || q in later;
    }
  }

  /** An object text reads as the merge of its members, in whatever order they are written. */
  lemma ParseObject(ps: seq<Member>, post: string)
    requires ExactMembers(ps)
    requires forall p | p in ps :: Readable(p.1)
    ensures ParseValue("{" + PairsText(ps, true) + post) ==
            match Merge(map[], ps)
            case Some(m) => Parsed(Obj(m), post)
            case None => Failed(DuplicateKey)
  {
    hide ParseMembers, ParseItems, ParseScalar, Merge, PairsText;
    var t := "{" + PairsText(ps, true) + post;
    assert t[0] == '{' && t[1..] == PairsText(ps, true) + post;
    ParsePairs(ps, map[], true, post);
  }

  lemma OrderedDistinct(keys: seq<string>)
    requires CT.StrictlyOrdered(keys)
    ensures forall i, j | 0 <= i < j < |keys| :: keys[i] != keys[j]
  {
    forall i, j | 0 <= i < j < |keys| ensures keys[i] != keys[j] {
      Utf16.OrderTotal(keys[i], keys[j]);
    }
  }

  lemma MergeSortedKeys(fields: map<string, Json>)
    ensures Merge(map[], PairsOf(fields, CT.SortedKeys(fields.Keys))) == Some(fields)
  {
    hide Merge, CT.SortedKeys, CT.StrictlyOrdered;
    var keys := CT.SortedKeys(fields.Keys);
    CT.SortedKeysOrdered(fields.Keys);
    OrderedDistinct(keys);
    var ps := PairsOf(fields, keys);
    MergeSucceeds(map[], ps);
    MergeMeaning(map[], ps);
    var m := Merge(map[], ps).value;
    forall k ensures k in m <==> k in fields {
      if k in fields {
        assert k in keys;
        var i :| 0 <= i < |keys| && keys[i] == k;
        assert ps[i] in ps;
      }
    }
    forall k | k in m ensures m[k] == fields[k] {
      var p :| p in ps && p.0 == k;
    }
    assert m == fields;
  }

  lemma ObjectReadable(v: Json)
    requires Exact(v) && v.Obj?
    requires forall k | k in v.fields :: Readable(v.fields[k])
    ensures Readable(v)
  {
    hide Merge, ParseValue, PairsText;
    var keys := CT.SortedKeys(v.fields.Keys);
    var ps := PairsOf(v.fields, keys);
    MembersTextIsPairsText(v, keys, 0);
    assert ps[0..] == ps;
    MergeSortedKeys(v.fields);
    assert forall p | p in ps :: Readable(p.1);
    forall post | Ends(post) ensures ParseValue(CT.Text(v) + post) == Parsed(v, post) {
      ParseObject(ps, post);
      assert CT.Text(v) == "{" + PairsText(ps, true);
    }
  }

  lemma {:induction false} AllReadable(v: Json)
    requires Exact(v)
    ensures Readable(v)
    decreases v
  {
    match v
    case Arr(items) =>
      forall x | x in items ensures Readable(x) { AllReadable(x); }
      forall post | Ends(post) ensures ParseValue(CT.Text(v) + post) == Parsed(v, post) {
        ParsePrintedItems(v, 0, post);
        assert items[..0] == [];
        assert CT.Text(v) + post == "[" + (CT.ItemsText(v, 0) + post);
        assert (CT.Text(v) + post)[1..] == CT.ItemsText(v, 0) + post;
      }
    case Obj(fields) =>
      forall k | k in fields ensures Readable(fields[k]) { AllReadable(fields[k]); }
      ObjectReadable(v);
    case _ => ScalarReadable(v);
  }

  // ---- Main results ----

  /** Decoding the canonical text of a value gives the value back. */
  lemma RoundTrip(v: Json)
    requires Exact(v)
    ensures Decode(CT.Text(v)) == Ok(v)
  {
    AllReadable(v);
    assert Ends("");
    assert CT.Text(v) + "" == CT.Text(v);
  }

  /** Different values have different canonical texts. */
  lemma TextInjective(v: Json, w: Json)
    requires Exact(v) && Exact(w) && CT.Text(v) == CT.Text(w)
    ensures v == w
  {
    RoundTrip(v);
    RoundTrip(w);
  }

  /** Canonicalizing a canonical text changes nothing; equal values have equal canonical texts. */
  lemma CanonicalizeIdempotent(text: string)
    requires Canonicalize(text).Ok?
    ensures Canonicalize(Canonicalize(text).value.1) == Canonicalize(text)
  {
    RoundTrip(Decode(text).value);
  }
}
