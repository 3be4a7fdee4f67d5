/** The decoder accepts nothing but written documents: its grammar is exactly theirs. */
module CanonicalGrammar {
  import opened JsonValues
  import opened Outcomes
  import opened CanonicalJson
  import opened CanonicalRoundTrip
  import opened CanonicalStrings
  import opened CanonicalSpellings
  import CT = CanonicalText

  // ---- Lexical elements ----

  lemma {:induction false} Skipped(t: string) returns (s: Space)
    ensures t == s + SkipSpace(t)
    decreases |t|
  {
    if t != "" && IsSpace(t[0]) {
      var later := Skipped(t[1..]);
      s := [t[0]] + later;
      assert t == [t[0]] + t[1..];
    } else {
      s := "";
      assert t == "" + t;
    }
  }

  lemma {:induction false} ScannedDigits(t: string, acc: nat) returns (ds: string)
    requires acc > 0
    ensures t == ds + ScanDigits(t, acc).1 && CT.Digits(ScanDigits(t, acc).0) == CT.Digits(acc) + ds
    decreases |t|
  {
    if t != "" && CT.IsDigit(t[0]) {
      var d := DigitValue(t[0]);
      var more := ScannedDigits(t[1..], 10 * acc + d);
      ds := [t[0]] + more;
      assert CT.Digits(10 * acc + d) == CT.Digits(acc) + [CT.Digit(d)];
      assert t == [t[0]] + t[1..];
    } else {
      ds := "";
      assert t == "" + t && CT.Digits(acc) + "" == CT.Digits(acc);
    }
  }

  lemma ScannedNatural(t: string)
    requires ScanNatural(t).Parsed?
    ensures t == CT.Digits(ScanNatural(t).value) + ScanNatural(t).rest
  {
    assert t == [t[0]] + t[1..];
    if t[0] != '0' {
      var ds := ScannedDigits(t[1..], DigitValue(t[0]));
      assert CT.Digits(DigitValue(t[0])) == [t[0]];
    }
  }

  lemma ScannedNumber(t: string) returns (d: Doc)
    requires ScanNumber(t).Parsed?
    ensures Written(d) && Clean(d) && Plain(d) == Num(ScanNumber(t).value) && t == DocText(d) + ScanNumber(t).rest
  {
    hide ScanNatural;
    if t != "" && t[0] == '-' {
      ScannedNatural(t[1..]);
      var n: int := ScanNatural(t[1..]).value;
      assert t == "-" + t[1..];
      d := if n == 0 then MinusZero else Leaf(Num(0 - n));
      if n == 0 { assert CT.Digits(0) == "0"; }
    } else {
      ScannedNatural(t);
      d := Leaf(Num(ScanNatural(t).value));
    }
  }

  lemma ScannedScalar(t: string) returns (d: Doc)
    requires ParseScalar(t).Parsed?
    ensures Written(d) && Clean(d) && Plain(d) == ParseScalar(t).value && t == DocText(d) + ParseScalar(t).rest
  {
    hide ScanNumber, ScanString;
    if t != "" && t[0] == '"' {
      var sp := ScannedSpelling(t[1..], "");
      d := Literal(sp);
      assert "" + Chars(sp) == Chars(sp);
      assert t == "\"" + t[1..];
    } else if StartsWith(t, "null") {
      d := Leaf(Null);
      assert t == "null" + t[4..];
    } else if StartsWith(t, "true") {
      d := Leaf(Bool(true));
      assert t == "true" + t[4..];
    } else if StartsWith(t, "false") {
      d := Leaf(Bool(false));
      assert t == "false" + t[5..];
    } else {
      d := ScannedNumber(t);
    }
  }

  /** A part in front of a rest, with its opening character. */
  lemma Glue(open: string, tail: string, rest: string, whole: string)
    requires whole == open + tail
    ensures open + (tail + rest) == whole + rest
  {
  }

  // ---- Items and members one after the other ----

  predicate ItemsWritten(items: seq<Item>) {
    forall i | 0 <= i < |items| :: Written(items[i].doc) && Clean(items[i].doc)
  }

  function ItemsTail(items: seq<Item>, end: Space, first: bool): string
    requires ItemsWritten(items)
  {
    if items == [] then end + "]"
    else
      items[0].before + ((if first then "" else ",") + (items[0].lead + (DocText(items[0].doc) + ItemsTail(items[1..], end, false))))
  }

  lemma {:induction false} ItemsTailIs(d: Doc, i: nat)
    requires Written(d) && d.List? && ItemsWritten(d.items) && i <= |d.items|
    ensures ItemsText(d, i) == ItemsTail(d.items[i..], d.end, i == 0)
    decreases |d.items| - i
  {
    hide DocText;
    if i < |d.items| {
      ItemsTailIs(d, i + 1);
      assert d.items[i..][0] == d.items[i] && d.items[i..][1..] == d.items[i + 1..];
    }
  }

  function ItemValues(items: seq<Item>): (values: seq<Json>)
    ensures |values| == |items| && forall i | 0 <= i < |items| :: values[i] == Plain(items[i].doc)
  {
    seq(|items|, i requires 0 <= i < |items| => Plain(items[i].doc))
  }

  predicate EntriesWritten(members: seq<Entry>) {
    forall i | 0 <= i < |members| :: SpellingOk(members[i].key) && Written(members[i].doc) && Clean(members[i].doc)
  }

  function EntriesTail(members: seq<Entry>, end: Space, first: bool): string
    requires EntriesWritten(members)
  {
    if members == [] then end + "}"
    else
      var x := members[0];
      x.before + ((if first then "" else ",") + (x.lead + (Quote(x.key)
        + (x.beforeColon + (":" + (x.afterColon + (DocText(x.doc) + EntriesTail(members[1..], end, false))))))))
  }

  lemma {:induction false} EntriesTailIs(d: Doc, i: nat)
    requires Written(d) && d.Record? && EntriesWritten(d.members) && i <= |d.members|
    ensures EntriesText(d, i) == EntriesTail(d.members[i..], d.end, i == 0)
    decreases |d.members| - i
  {
    hide DocText, Quote;
    if i < |d.members| {
      EntriesTailIs(d, i + 1);
      assert d.members[i..][0] == d.members[i] && d.members[i..][1..] == d.members[i + 1..];
    }
  }

  /** The fields after adding the members to those there are. */
  function Extended(acc: map<string, Json>, members: seq<Entry>): map<string, Json>
    decreases |members|
  {
    if members == [] then acc else Extended(acc[KeyOf(members[0]) := Plain(members[0].doc)], members[1..])
  }

  lemma {:induction false} ExtendedIs(d: Doc, i: nat)
    requires d.Record? && i <= |d.members|
    ensures Extended(FieldsUpTo(d, i), d.members[i..]) == FieldsUpTo(d, |d.members|)
    decreases |d.members| - i
  {
    hide Plain, KeyOf;
    if i < |d.members| {
      assert d.members[i..][0] == d.members[i] && d.members[i..][1..] == d.members[i + 1..];
      ExtendedIs(d, i + 1);
    }
  }

  predicate NewTo(acc: map<string, Json>, members: seq<Entry>) {
    DistinctEntries(members) && forall i | 0 <= i < |members| :: KeyOf(members[i]) !in acc
  }

  // ---- Whatever is parsed was written ----

  lemma {:induction false} ParsedValue(text: string) returns (lead: Space, d: Doc)
    requires ParseValue(text).Parsed?
    ensures Written(d) && Clean(d) && Plain(d) == ParseValue(text).value
    ensures text == lead + (DocText(d) + ParseValue(text).rest)
    decreases |text|, 0
  {
    hide ParseItems, ParseMembers, ParseScalar, DocText, Plain, Clean, Written, SkipSpace, ItemsTail, EntriesTail, Extended;
    var t := SkipSpace(text);
    lead := Skipped(text);
    if t[0] == '[' {
      var items, end := ParsedItems(t[1..], [], true);
      d := List(items, end);
      ListFound(items, end);
      assert t == "[" + t[1..];
      assert [] + ItemValues(items) == ItemValues(items);
      Glue("[", ItemsTail(items, end, true), ParseValue(text).rest, DocText(d));
    } else if t[0] == '{' {
      var members, end := ParsedMembers(t[1..], map[], true);
      d := Record(members, end);
      RecordFound(members, end);
      assert t == "{" + t[1..];
      Glue("{", EntriesTail(members, end, true), ParseValue(text).rest, DocText(d));
    } else {
      d := ScannedScalar(t);
    }
  }

  lemma ListFound(items: seq<Item>, end: Space)
    requires ItemsWritten(items)
    ensures var d := List(items, end);
            Written(d) && Clean(d) && Plain(d) == Arr(ItemValues(items)) && DocText(d) == "[" + ItemsTail(items, end, true)
  {
    var d := List(items, end);
    ItemsTailIs(d, 0);
    assert items[0..] == items;
    assert Plain(d).items == ItemValues(items);
  }

  lemma RecordFound(members: seq<Entry>, end: Space)
    requires EntriesWritten(members) && DistinctEntries(members)
    ensures var d := Record(members, end);
            Written(d) && Clean(d) && Plain(d) == Obj(Extended(map[], members)) && DocText(d) == "{" + EntriesTail(members, end, true)
  {
    var d := Record(members, end);
    EntriesTailIs(d, 0);
    ExtendedIs(d, 0);
    assert members[0..] == members;
  }

  lemma {:induction false} ParsedItems(text: string, acc: seq<Json>, first: bool) returns (items: seq<Item>, end: Space)
    requires Exact(Arr(acc)) && ParseItems(text, acc, first).Parsed?
    ensures ItemsWritten(items) && text == ItemsTail(items, end, first) + ParseItems(text, acc, first).rest
    ensures ParseItems(text, acc, first).value == Arr(acc + ItemValues(items))
    decreases |text|, 1
  {
    hide ParseValue, DocText, Plain, Clean, Written, Exact, SkipSpace, ItemsTail, ItemValues;
    var t := SkipSpace(text);
    var before := Skipped(text);
    if t[0] == ']' {
      items, end := [], before;
      NoItems(acc, before, first);
      assert t == "]" + t[1..];
      Glue(before, "]", t[1..], before + "]");
    } else {
      var u := if first then t else t[1..];
      assert t == (if first then "" else ",") + u;
      var lead, d := ParsedValue(u);
      var v, rest := ParseValue(u).value, ParseValue(u).rest;
      ItemExact(acc, v);
      var later;
      later, end := ParsedItems(rest, acc + [v], false);
      items := [Item(before, lead, d)] + later;
      ItemValuesCons(Item(before, lead, d), later);
      assert acc + [v] + ItemValues(later) == acc + ([v] + ItemValues(later));
      ItemTail(before, lead, d, later, end, first, ParseItems(text, acc, first).rest);
    }
  }

  lemma NoItems(acc: seq<Json>, end: Space, first: bool)
    ensures ItemsWritten([]) && ItemsTail([], end, first) == end + "]" && acc + ItemValues([]) == acc
  {
  }

  lemma ItemValuesCons(x: Item, later: seq<Item>)
    ensures ItemValues([x] + later) == [Plain(x.doc)] + ItemValues(later)
  {
    hide Plain;
  }

  lemma ItemExact(acc: seq<Json>, v: Json)
    requires Exact(Arr(acc)) && Exact(v)
    ensures Exact(Arr(acc + [v]))
  {
  }

  lemma ItemTail(before: Space, lead: Space, d: Doc, later: seq<Item>, end: Space, first: bool, rest: string)
    requires Written(d) && Clean(d) && ItemsWritten(later)
    ensures ItemsWritten([Item(before, lead, d)] + later)
    ensures ItemsTail([Item(before, lead, d)] + later, end, first) + rest ==
            before + ((if first then "" else ",") + (lead + (DocText(d) + (ItemsTail(later, end, false) + rest))))
  {
    hide DocText, Clean, Written;
    var items := [Item(before, lead, d)] + later;
    assert items[1..] == later;
    assert forall i | 0 < i < |items| :: items[i] == later[i - 1];
  }

  lemma QuoteIs(sp: Spelling, rest: string)
    ensures "\"" + (SpelledText(sp) + ("\"" + rest)) == Quote(sp) + rest
  {
    hide SpelledText;
  }

  /** A member's key in front of the colon. */
  lemma ParsedKey(text: string) returns (lead: Space, key: Spelling)
    requires ParseKey(text).Parsed?
    ensures SpellingOk(key) && Chars(key) == ParseKey(text).value && text == lead + (Quote(key) + ParseKey(text).rest)
  {
    hide ScanString, SpellingOk, SkipSpace, SpelledText, Chars;
    var t := SkipSpace(text);
    lead := Skipped(text);
    key := ScannedSpelling(t[1..], "");
    assert "" + Chars(key) == Chars(key);
    assert t == "\"" + t[1..];
    QuoteIs(key, ParseKey(text).rest);
  }

  lemma {:induction false} ParsedMembers(text: string, acc: map<string, Json>, first: bool) returns (members: seq<Entry>, end: Space)
    requires Exact(Obj(acc)) && ParseMembers(text, acc, first).Parsed?
    ensures EntriesWritten(members) && NewTo(acc, members)
    ensures text == EntriesTail(members, end, first) + ParseMembers(text, acc, first).rest
    ensures ParseMembers(text, acc, first).value == Obj(Extended(acc, members))
    decreases |text|, 1
  {
    hide ParseValue, ParseKey, DocText, Plain, Clean, Written, SpellingOk, Exact, Quote, SkipSpace;
    var t := SkipSpace(text);
    var before := Skipped(text);
    if t[0] == '}' {
      members, end := [], before;
      assert t == "}" + t[1..] && text == (before + "}") + t[1..];
    } else {
      var u := if first then t else t[1..];
      assert t == (if first then "" else ",") + u;
      var lead, key := ParsedKey(u);
      var afterKey := ParseKey(u).rest;
      var beforeColon := Skipped(afterKey);
      var colon := SkipSpace(afterKey);
      assert colon == ":" + colon[1..];
      var afterColon, d := ParsedValue(colon[1..]);
      var v, rest := ParseValue(colon[1..]).value, ParseValue(colon[1..]).rest;
      MemberExact(acc, ParseKey(u).value, v);
      var x := Entry(before, lead, key, beforeColon, afterColon, d);
      var later;
      later, end := ParsedMembers(rest, acc[KeyOf(x) := v], false);
      members := [x] + later;
      EntryTail(x, later, acc, end, first, ParseMembers(text, acc, first).rest);
    }
  }

  lemma MemberExact(acc: map<string, Json>, key: string, v: Json)
    requires Exact(Obj(acc)) && Exact(v)
    ensures Exact(Obj(acc[key := v]))
  {
  }

  lemma EntryTail(x: Entry, later: seq<Entry>, acc: map<string, Json>, end: Space, first: bool, rest: string)
    requires SpellingOk(x.key) && Written(x.doc) && Clean(x.doc) && EntriesWritten(later)
    requires KeyOf(x) !in acc && NewTo(acc[KeyOf(x) := Plain(x.doc)], later)
    ensures EntriesWritten([x] + later) && NewTo(acc, [x] + later)
    ensures Extended(acc, [x] + later) == Extended(acc[KeyOf(x) := Plain(x.doc)], later)
    ensures EntriesTail([x] + later, end, first) + rest ==
            x.before + ((if first then "" else ",") + (x.lead + (Quote(x.key)
              + (x.beforeColon + (":" + (x.afterColon + (DocText(x.doc) + (EntriesTail(later, end, false) + rest))))))))
  {
    hide DocText, Clean, Written, Plain, SpellingOk, Quote, KeyOf;
    var members := [x] + later;
    assert members[1..] == later;
    assert forall i | 0 < i < |members| :: members[i] == later[i - 1];
  }

  /** A numeral that goes on with a fraction or an exponent is unsupported. */
  lemma FractionUnsupported(n: int, c: char, post: string)
    requires Exact(Num(n)) && (c == '.' || c == 'e' || c == 'E')
    ensures ScanNumber(CT.NumberText(n) + ([c] + post)) == Failed(UnsupportedNumber)
  {
    if n < 0 {
      assert (CT.NumberText(n) + ([c] + post))[1..] == CT.Digits(-n) + ([c] + post);
      NaturalUnsupported(-n, c, post);
    } else {
      NaturalUnsupported(n, c, post);
    }
  }

  lemma NaturalUnsupported(n: nat, c: char, post: string)
    requires c == '.' || c == 'e' || c == 'E'
    ensures ScanNatural(CT.Digits(n) + ([c] + post)) == Failed(UnsupportedNumber)
  {
    var tail := [c] + post;
    var t := CT.Digits(n) + tail;
    assert t[0] == CT.Digits(n)[0];
    if n == 0 {
      assert t[1..] == tail;
    } else {
      ScanPrintedDigits(n, tail);
      assert ScanDigits(t, 0) == ScanDigits(t[1..], DigitValue(t[0]));
      assert ScanDigits(tail, n) == (n, tail);
    }
  }

  // ---- Main results ----

  lemma {:induction false} OnlySpace(t: string) returns (s: Space)
    requires SkipSpace(t) == ""
    ensures s == t
  {
    s := Skipped(t);
    assert s + "" == s;
  }

  /** The text is a written document of this value, with no key twice, in white space. */
  ghost predicate Spells(text: string, v: Json) {
    exists lead: Space, d: Doc, trail: Space ::
      Written(d) && Clean(d) && Plain(d) == v && text == lead + (DocText(d) + trail)
  }

  /**
   * The decoder reads a value out of a text if and only if the text is a
   * written document of that value with no key twice in one object, surrounded
   * by white space: it refuses everything else.
   */
  lemma DecodeIff(text: string, v: Json)
    ensures Decode(text) == Ok(v) <==> Spells(text, v)
  {
    hide ParseValue, DocText, Written, Clean, Plain;
    if Decode(text) == Ok(v) {
      var lead, d := ParsedValue(text);
      var trail := OnlySpace(ParseValue(text).rest);
      assert text == lead + (DocText(d) + trail);
    }
    if Spells(text, v) {
      var lead: Space, d: Doc, trail: Space :|
        Written(d) && Clean(d) && Plain(d) == v && text == lead + (DocText(d) + trail);
      DecodeWritten(d, lead, trail);
    }
  }
}
