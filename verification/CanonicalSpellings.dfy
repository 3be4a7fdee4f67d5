/**
 * Documents as they are written, with white space anywhere, strings spelled in
 * any way and members in any order at every depth: what each of them decodes
 * to, and that the decoder accepts no other text.
 */
module CanonicalSpellings {
  import opened JsonValues
  import opened Outcomes
  import opened CanonicalJson
  import opened CanonicalRoundTrip
  import opened CanonicalStrings
  import opened TextRules
  import CT = CanonicalText

  // ---- Written documents ----

  type Space = s: string | forall i | 0 <= i < |s| :: IsSpace(s[i]) witness ""

  /** An item, with the space before its comma and after it. */
  datatype Item = Item(before: Space, lead: Space, doc: Doc)

  datatype Entry = Entry(before: Space, lead: Space, key: Spelling, beforeColon: Space, afterColon: Space, doc: Doc)

  /** A scalar as it is printed, a spelled text, minus zero, an array or an object. */
  datatype Doc =
    | Leaf(v: Json)
    | Literal(text: Spelling)
    | MinusZero
    | List(items: seq<Item>, end: Space)
    | Record(members: seq<Entry>, end: Space)

  /** The numbers are exact and the spellings in order. */
  predicate Written(d: Doc) {
    match d
    case Leaf(v) => v.Null? || v.Bool? || (v.Num? && -0x20_0000_0000_0000 <= v.n <= 0x20_0000_0000_0000)
    case Literal(text) => SpellingOk(text)
    case MinusZero => true
    case List(items, _) => forall i | 0 <= i < |items| :: Written(items[i].doc)
    case Record(members, _) => forall i | 0 <= i < |members| :: SpellingOk(members[i].key) && Written(members[i].doc)
  }

  /** A spelling between quotes. */
  function Quote(sp: Spelling): string {
    "\"" + (SpelledText(sp) + "\"")
  }

  function KeyOf(x: Entry): string {
    if SpellingOk(x.key) then Chars(x.key) else ""
  }

  function LeafText(v: Json): string {
    match v
    case Null => "null"
    case Bool(flag) => if flag then "true" else "false"
    case Num(n) => CT.NumberText(n)
    case _ => ""
  }

  function DocText(d: Doc): string
    requires Written(d)
    decreases d, 1, 0
  {
    match d
    case Leaf(v) => LeafText(v)
    case Literal(text) => Quote(text)
    case MinusZero => "-0"
    case List(_, _) => "[" + ItemsText(d, 0)
    case Record(_, _) => "{" + EntriesText(d, 0)
  }

  function ItemsText(d: Doc, i: nat): string
    requires Written(d) && d.List? && i <= |d.items|
    decreases d, 0, |d.items| - i
  {
    if i == |d.items| then d.end + "]"
    else
      var x := d.items[i];
      x.before + ((if i > 0 then "," else "") + (x.lead + (DocText(x.doc) + ItemsText(d, i + 1))))
  }

  function EntriesText(d: Doc, i: nat): string
    requires Written(d) && d.Record? && i <= |d.members|
    decreases d, 0, |d.members| - i
  {
    if i == |d.members| then d.end + "}"
    else
      var x := d.members[i];
      x.before + ((if i > 0 then "," else "") + (x.lead + (Quote(x.key)
        + (x.beforeColon + (":" + (x.afterColon + (DocText(x.doc) + EntriesText(d, i + 1))))))))
  }

  // ---- What a document denotes ----

  predicate DistinctEntries(members: seq<Entry>) {
    forall i, j | 0 <= i < j < |members| :: KeyOf(members[i]) != KeyOf(members[j])
  }

  /** No object at any depth repeats a key. */
  predicate Clean(d: Doc) {
    match d
    case List(items, _) => forall i | 0 <= i < |items| :: Clean(items[i].doc)
    case Record(members, _) => DistinctEntries(members) && forall i | 0 <= i < |members| :: Clean(members[i].doc)
    case _ => true
  }

  /** The value without its spelling. */
  function Plain(d: Doc): Json
    decreases d, 1, 0
  {
    match d
    case Leaf(v) => v
    case Literal(text) => Str(if SpellingOk(text) then Chars(text) else "")
    case MinusZero => Num(0)
    case List(items, _) => Arr(seq(|items|, i requires 0 <= i < |items| => Plain(items[i].doc)))
    case Record(members, _) => Obj(FieldsUpTo(d, |members|))
  }

  function FieldsUpTo(d: Doc, i: nat): map<string, Json>
    requires d.Record? && i <= |d.members|
    decreases d, 0, i
  {
    if i == 0 then map[] else FieldsUpTo(d, i - 1)[KeyOf(d.members[i - 1]) := Plain(d.members[i - 1].doc)]
  }

  lemma {:induction false} PlainExact(d: Doc)
    requires Written(d)
    ensures Exact(Plain(d))
    decreases d, 1, 0
  {
    match d
    case List(items, _) =>
      forall i | 0 <= i < |items| ensures Exact(Plain(items[i].doc)) { PlainExact(items[i].doc); }
    case Record(members, _) => FieldsExact(d, |members|);
    case _ =>
  }

  lemma {:induction false} FieldsExact(d: Doc, i: nat)
    requires Written(d) && d.Record? && i <= |d.members|
    ensures Exact(Obj(FieldsUpTo(d, i)))
    decreases d, 0, i
  {
    if i > 0 {
      FieldsExact(d, i - 1);
      PlainExact(d.members[i - 1].doc);
    }
  }

  lemma {:induction false} FieldsMeaning(d: Doc, i: nat)
    requires d.Record? && DistinctEntries(d.members) && i <= |d.members|
    ensures forall k :: k in FieldsUpTo(d, i) <==> exists j :: 0 <= j < i && KeyOf(d.members[j]) == k
    ensures forall j | 0 <= j < i :: FieldsUpTo(d, i)[KeyOf(d.members[j])] == Plain(d.members[j].doc)
    decreases i
  {
    hide KeyOf, Plain;
    if i > 0 {
      FieldsMeaning(d, i - 1);
      assert KeyOf(d.members[i - 1]) in FieldsUpTo(d, i);
    }
  }

  lemma {:induction false} FieldsKeys(d: Doc, i: nat)
    requires d.Record? && i <= |d.members|
    ensures forall k :: k in FieldsUpTo(d, i) <==> exists j :: 0 <= j < i && KeyOf(d.members[j]) == k
    decreases i
  {
    if i > 0 {
      FieldsKeys(d, i - 1);
      assert KeyOf(d.members[i - 1]) in FieldsUpTo(d, i);
    }
  }

  // ---- Space ----

  lemma {:induction false} SkipsSpace(s: Space, t: string)
    requires t != "" && !IsSpace(t[0])
    ensures SkipSpace(s + t) == t
    decreases |s|
  {
    if s == "" {
      assert s + t == t;
    } else {
      var later: Space := s[1..];
      assert (s + t)[1..] == later + t;
      SkipsSpace(later, t);
    }
  }

  lemma ParseSpaced(s: Space, t: string)
    requires t != "" && !IsSpace(t[0])
    ensures ParseValue(s + t) == ParseValue(t)
  {
    hide ParseItems, ParseMembers, ParseScalar;
    SkipsSpace(s, t);
    SkipsSpace("", t);
    assert "" + t == t;
  }

  lemma EndsSpaced(s: Space, t: string)
    requires t != "" && (t[0] == ',' || t[0] == ']' || t[0] == '}')
    ensures Ends(s + t)
  {
    if s != "" {
      assert (s + t)[0] == s[0] && IsSpace(s[0]);
    }
  }

  lemma LeafIsText(v: Json)
    requires Written(Leaf(v))
    ensures Exact(v) && LeafText(v) == CT.Text(v)
  {
  }

  lemma DocHead(d: Doc)
    requires Written(d)
    ensures var t := DocText(d); t != "" && !IsSpace(t[0]) && t[0] != ']' && t[0] != '}' && t[0] != ','
  {
    if d.Leaf? {
      LeafIsText(d.v);
      TextHead(d.v);
    }
  }

  // ---- Decoding ----

  function Answer(d: Doc, post: string): Parsed<Json> {
    if Clean(d) then Parsed(Plain(d), post) else Failed(DuplicateKey)
  }

  ghost predicate Reads(d: Doc)
    requires Written(d)
  {
    forall post | Ends(post) :: ParseValue(DocText(d) + post) == Answer(d, post)
  }

  lemma ItemsEnd(s: Space, acc: seq<Json>, first: bool, post: string)
    requires Exact(Arr(acc))
    ensures ParseItems(s + ("]" + post), acc, first) == Parsed(Arr(acc), post)
  {
    SkipsSpace(s, "]" + post);
    assert ("]" + post)[1..] == post;
  }

  lemma EntriesEnd(s: Space, acc: map<string, Json>, first: bool, post: string)
    requires Exact(Obj(acc))
    ensures ParseMembers(s + ("}" + post), acc, first) == Parsed(Obj(acc), post)
  {
    SkipsSpace(s, "}" + post);
    assert ("}" + post)[1..] == post;
  }

  /** One more item: its document is read, then the rest. */
  lemma ItemStep(before: Space, lead: Space, d: Doc, acc: seq<Json>, first: bool, later: string)
    requires Written(d) && Reads(d) && Ends(later) && Exact(Arr(acc)) && Exact(Plain(d))
    ensures ParseItems(before + ((if first then "" else ",") + (lead + (DocText(d) + later))), acc, first)
         == if Clean(d) then ParseItems(later, acc + [Plain(d)], false) else Failed(DuplicateKey)
  {
    hide DocText, Plain, Clean, Written;
    DocHead(d);
    var body := DocText(d) + later;
    assert body[0] == DocText(d)[0];
    ParseSpaced(lead, body);
    assert ParseValue(body) == Answer(d, later);
    if first {
      var pad: Space := before + lead;
      assert before + ("" + (lead + body)) == pad + body;
      SkipsSpace(pad, body);
    } else {
      var t := "," + (lead + body);
      SkipsSpace(before, t);
      assert t[1..] == lead + body;
    }
  }

  lemma ItemsHead(d: Doc, i: nat, post: string, later: string)
    requires Written(d) && d.List? && i < |d.items| && later == ItemsText(d, i + 1) + post
    ensures var x := d.items[i];
            ItemsText(d, i) + post == x.before + ((if i == 0 then "" else ",") + (x.lead + (DocText(x.doc) + later)))
  {
    hide DocText;
  }

  /** At the end of the items, all of them read, the list is what it denotes. */
  lemma AllItems(d: Doc, acc: seq<Json>, post: string)
    requires Written(d) && d.List? && |acc| == |d.items|
    requires forall k | 0 <= k < |acc| :: Clean(d.items[k].doc) && acc[k] == Plain(d.items[k].doc)
    ensures ItemsText(d, |d.items|) + post == d.end + ("]" + post)
    ensures Answer(d, post) == Parsed(Arr(acc), post)
  {
    hide DocText;
    assert acc == Plain(d).items;
  }

  lemma UncleanItem(d: Doc, i: nat)
    requires d.List? && i < |d.items| && !Clean(d.items[i].doc)
    ensures !Clean(d)
  {
  }

  lemma {:induction false} ItemsRead(d: Doc, i: nat, acc: seq<Json>, post: string)
    requires Written(d) && d.List? && i <= |d.items| && |acc| == i
    requires forall k | 0 <= k < |d.items| :: Reads(d.items[k].doc) && Exact(Plain(d.items[k].doc))
    requires forall k | 0 <= k < i :: Clean(d.items[k].doc) && acc[k] == Plain(d.items[k].doc)
    ensures ParseItems(ItemsText(d, i) + post, acc, i == 0) == Answer(d, post)
    decreases |d.items| - i
  {
    hide ParseItems, ParseValue, DocText, Reads, ItemsText, Plain, Clean;
    assert Exact(Arr(acc));
    if i == |d.items| {
      ItemsEnd(d.end, acc, i == 0, post);
      AllItems(d, acc, post);
    } else {
      var x := d.items[i];
      var later := ItemsText(d, i + 1) + post;
      ItemsTextEnds(d, i + 1, post);
      ItemStep(x.before, x.lead, x.doc, acc, i == 0, later);
      ItemsHead(d, i, post, later);
      if Clean(x.doc) {
        ItemsRead(d, i + 1, acc + [Plain(x.doc)], post);
      } else {
        UncleanItem(d, i);
      }
    }
  }

  lemma ItemsTextEnds(d: Doc, i: nat, post: string)
    requires Written(d) && d.List? && 0 < i <= |d.items|
    ensures Ends(ItemsText(d, i) + post)
  {
    if i == |d.items| {
      EndsSpaced(d.end, "]" + post);
      assert ItemsText(d, i) + post == d.end + ("]" + post);
    } else {
      var x := d.items[i];
      var t := "," + (x.lead + (DocText(x.doc) + ItemsText(d, i + 1)));
      EndsSpaced(x.before, t + post);
      assert ItemsText(d, i) + post == x.before + (t + post);
    }
  }

  /** A member whose key and value are found in their places is added, or refused as a repetition. */
  lemma EntryFound(text: string, first: bool, key: string, afterKey: string, colon: string, v: Parsed<Json>, acc: map<string, Json>)
    requires Exact(Obj(acc)) && (v.Parsed? ==> Exact(v.value)) && (v.Failed? ==> v.error == DuplicateKey)
    requires var t := SkipSpace(text);
             t != "" && t[0] != '}' && (!first ==> t[0] == ',') && ParseKey(if first then t else t[1..]) == Parsed(key, afterKey)
    requires SkipSpace(afterKey) == colon && colon != "" && colon[0] == ':' && ParseValue(colon[1..]) == v
    ensures ParseMembers(text, acc, first) ==
            if key in acc || v.Failed? then Failed(DuplicateKey) else ParseMembers(v.rest, acc[key := v.value], false)
  {
    hide ParseValue, ParseKey, SkipSpace;
  }

  /** One more member: its key must be new, its document is read, then the rest. */
  lemma EntryStep(x: Entry, acc: map<string, Json>, first: bool, later: string)
    requires SpellingOk(x.key) && Written(x.doc) && Reads(x.doc) && Ends(later) && Exact(Obj(acc)) && Exact(Plain(x.doc))
    ensures ParseMembers(x.before + ((if first then "" else ",") + (x.lead + (Quote(x.key)
                 + (x.beforeColon + (":" + (x.afterColon + (DocText(x.doc) + later))))))), acc, first)
         == if KeyOf(x) in acc || !Clean(x.doc) then Failed(DuplicateKey)
            else ParseMembers(later, acc[KeyOf(x) := Plain(x.doc)], false)
  {
    hide DocText, Plain, Clean, Written, Quote, ParseMembers, ParseValue, ParseKey, SkipSpace, Exact;
    DocHead(x.doc);
    var body := DocText(x.doc) + later;
    assert body[0] == DocText(x.doc)[0];
    ParseSpaced(x.afterColon, body);
    var colon := ":" + (x.afterColon + body);
    SkipsSpace(x.beforeColon, colon);
    assert colon[1..] == x.afterColon + body;
    var text := MemberStart(x, first, x.beforeColon + colon);
    EntryFound(text, first, KeyOf(x), x.beforeColon + colon, colon, Answer(x.doc, later), acc);
  }

  /** The text of a member up to its key, and what the parser makes of it. */
  lemma MemberStart(x: Entry, first: bool, afterKey: string) returns (text: string)
    requires SpellingOk(x.key)
    ensures text == x.before + ((if first then "" else ",") + (x.lead + (Quote(x.key) + afterKey)))
    ensures var t := SkipSpace(text);
            t != "" && t[0] != '}' && (!first ==> t[0] == ',') && ParseKey(if first then t else t[1..]) == Parsed(KeyOf(x), afterKey)
  {
    hide Quote, ParseKey, SkipSpace;
    var member := Quote(x.key) + afterKey;
    text := x.before + ((if first then "" else ",") + (x.lead + member));
    KeyRead(x.lead, x.key, afterKey);
    if first {
      var pad: Space := x.before + x.lead;
      assert text == pad + member;
      SkipsSpace(pad, member);
      KeyRead("", x.key, afterKey);
      assert "" + member == member;
    } else {
      var t := "," + (x.lead + member);
      SkipsSpace(x.before, t);
      assert t[1..] == x.lead + member;
    }
  }

  lemma QuoteRead(sp: Spelling, post: string)
    requires SpellingOk(sp)
    ensures Quote(sp) + post != "" && (Quote(sp) + post)[0] == '"'
    ensures ScanString((Quote(sp) + post)[1..], "") == Parsed(Chars(sp), post)
  {
    hide ScanString, SpelledText, SpellingOk;
    assert (Quote(sp) + post)[1..] == SpelledText(sp) + ("\"" + post);
    SpellingRead(sp, "\"" + post, "");
    assert "" + Chars(sp) == Chars(sp);
  }

  lemma KeyRead(lead: Space, key: Spelling, afterKey: string)
    requires SpellingOk(key)
    ensures var member := Quote(key) + afterKey;
            member != "" && member[0] == '"' && ParseKey(lead + member) == Parsed(Chars(key), afterKey)
  {
    hide Quote, ScanString, SpellingOk;
    QuoteRead(key, afterKey);
    var member := Quote(key) + afterKey;
    SkipsSpace(lead, member);
  }

  lemma EntriesTextEnds(d: Doc, i: nat, post: string)
    requires Written(d) && d.Record? && 0 < i <= |d.members|
    ensures Ends(EntriesText(d, i) + post)
  {
    hide DocText, Quote;
    if i == |d.members| {
      EndsSpaced(d.end, "}" + post);
      assert EntriesText(d, i) + post == d.end + ("}" + post);
    } else {
      var x := d.members[i];
      var t := "," + (x.lead + (Quote(x.key)
        + (x.beforeColon + (":" + (x.afterColon + (DocText(x.doc) + EntriesText(d, i + 1)))))));
      EndsSpaced(x.before, t + post);
      assert EntriesText(d, i) + post == x.before + (t + post);
    }
  }

  lemma {:induction false} EntriesRead(d: Doc, i: nat, post: string)
    requires Written(d) && d.Record? && i <= |d.members|
    requires forall k | 0 <= k < |d.members| :: Reads(d.members[k].doc) && Exact(Plain(d.members[k].doc))
    requires DistinctEntries(d.members[..i]) && forall k | 0 <= k < i :: Clean(d.members[k].doc)
    requires Exact(Obj(FieldsUpTo(d, i)))
    ensures ParseMembers(EntriesText(d, i) + post, FieldsUpTo(d, i), i == 0) == Answer(d, post)
    decreases |d.members| - i
  {
    hide ParseMembers, ParseValue, DocText, Quote, Reads, Plain, Clean, Exact, EntriesText, FieldsUpTo;
    var acc := FieldsUpTo(d, i);
    if i == |d.members| {
      EntriesEnd(d.end, acc, i == 0, post);
      AllEntries(d, post);
    } else {
      var x := d.members[i];
      var later := EntriesText(d, i + 1) + post;
      EntriesTextEnds(d, i + 1, post);
      EntryStep(x, acc, i == 0, later);
      EntriesHead(d, i, post, later);
      FieldsKeys(d, i);
      if KeyOf(x) in acc {
        RepeatedIsUnclean(d, i);
      } else if Clean(x.doc) {
        FieldsExact(d, i + 1);
        MoreDistinct(d, i);
        OneMoreField(d, i);
        EntriesRead(d, i + 1, post);
      } else {
        UncleanEntry(d, i);
      }
    }
  }

  lemma EntriesHead(d: Doc, i: nat, post: string, later: string)
    requires Written(d) && d.Record? && i < |d.members| && later == EntriesText(d, i + 1) + post
    ensures var x := d.members[i];
            EntriesText(d, i) + post ==
            x.before + ((if i == 0 then "" else ",") + (x.lead + (Quote(x.key)
              + (x.beforeColon + (":" + (x.afterColon + (DocText(x.doc) + later)))))))
  {
    hide DocText, Quote;
    var x, tail := d.members[i], EntriesText(d, i + 1);
    HeadRegrouped(x.before, if i == 0 then "" else ",", x.lead, Quote(x.key), x.beforeColon, x.afterColon, DocText(x.doc), tail, post);
  }

  lemma HeadRegrouped(a: string, comma: string, b: string, key: string, c: string, d: string, value: string, tail: string, post: string)
    ensures a + (comma + (b + (key + (c + (":" + (d + (value + tail))))))) + post ==
            a + (comma + (b + (key + (c + (":" + (d + (value + (tail + post))))))))
  {
    var t1 := value + tail;
    var t2 := ":" + (d + t1);
    var t3 := key + (c + t2);
    var t4 := comma + (b + t3);
    Regrouped(a, t4, post);
    Regrouped(comma, b + t3, post);
    Regrouped(b, t3, post);
    Regrouped(key, c + t2, post);
    Regrouped(c, t2, post);
    Regrouped(":", d + t1, post);
    Regrouped(d, t1, post);
    Regrouped(value, tail, post);
  }

  lemma AllEntries(d: Doc, post: string)
    requires Written(d) && d.Record? && DistinctEntries(d.members[..|d.members|])
    requires forall k | 0 <= k < |d.members| :: Clean(d.members[k].doc)
    ensures EntriesText(d, |d.members|) + post == d.end + ("}" + post)
    ensures Answer(d, post) == Parsed(Obj(FieldsUpTo(d, |d.members|)), post)
  {
    hide DocText, FieldsUpTo;
    assert d.members[..|d.members|] == d.members;
  }

  lemma OneMoreField(d: Doc, i: nat)
    requires d.Record? && i < |d.members|
    ensures FieldsUpTo(d, i + 1) == FieldsUpTo(d, i)[KeyOf(d.members[i]) := Plain(d.members[i].doc)]
  {
  }

  lemma UncleanEntry(d: Doc, i: nat)
    requires d.Record? && i < |d.members| && !Clean(d.members[i].doc)
    ensures !Clean(d)
  {
  }

  lemma RepeatedIsUnclean(d: Doc, i: nat)
    requires d.Record? && i < |d.members| && exists j :: 0 <= j < i && KeyOf(d.members[j]) == KeyOf(d.members[i])
    ensures !Clean(d)
  {
  }

  lemma MoreDistinct(d: Doc, i: nat)
    requires d.Record? && i < |d.members| && DistinctEntries(d.members[..i])
    requires forall j | 0 <= j < i :: KeyOf(d.members[j]) != KeyOf(d.members[i])
    ensures DistinctEntries(d.members[..i + 1])
  {
    var a, b := d.members[..i], d.members[..i + 1];
    forall j, k | 0 <= j < k < |b| ensures KeyOf(b[j]) != KeyOf(b[k]) {
      if k < i {
        assert a[j] == b[j] && a[k] == b[k];
      }
    }
  }

  lemma {:induction false} DocReads(d: Doc)
    requires Written(d)
    ensures Reads(d)
    decreases d
  {
    match d
    case Leaf(v) =>
      LeafIsText(v);
      ScalarReadable(v);
    case Literal(text) => LiteralReads(text);
    case MinusZero => MinusZeroReads();
    case List(items, _) =>
      forall k | 0 <= k < |items| ensures Reads(items[k].doc) && Exact(Plain(items[k].doc)) {
        DocReads(items[k].doc);
        PlainExact(items[k].doc);
      }
      ListReads(d);
    case Record(members, _) =>
      forall k | 0 <= k < |members| ensures Reads(members[k].doc) && Exact(Plain(members[k].doc)) {
        DocReads(members[k].doc);
        PlainExact(members[k].doc);
      }
      RecordReads(d);
  }

  lemma LiteralReads(text: Spelling)
    requires SpellingOk(text)
    ensures Reads(Literal(text))
  {
    hide SpellingOk, Quote;
    forall post | Ends(post) ensures ParseValue(Quote(text) + post) == Parsed(Str(Chars(text)), post) {
      QuoteRead(text, post);
    }
  }

  lemma MinusZeroReads()
    ensures Reads(MinusZero)
  {
    forall post | Ends(post) ensures ParseValue("-0" + post) == Parsed(Num(0), post) {
      var t := "-0" + post;
      assert t[0] == '-' && t[1..] == "0" + post && ("0" + post)[1..] == post;
    }
  }

  lemma ListReads(d: Doc)
    requires Written(d) && d.List? && forall k | 0 <= k < |d.items| :: Reads(d.items[k].doc) && Exact(Plain(d.items[k].doc))
    ensures Reads(d)
  {
    hide ParseValue, ParseItems, ItemsText, Answer;
    forall post | Ends(post) ensures ParseValue(DocText(d) + post) == Answer(d, post) {
      ItemsRead(d, 0, [], post);
      assert DocText(d) + post == "[" + (ItemsText(d, 0) + post);
      OpensList(ItemsText(d, 0) + post);
    }
  }

  lemma RecordReads(d: Doc)
    requires Written(d) && d.Record? && forall k | 0 <= k < |d.members| :: Reads(d.members[k].doc) && Exact(Plain(d.members[k].doc))
    ensures Reads(d)
  {
    hide ParseValue, ParseMembers, EntriesText, Answer;
    forall post | Ends(post) ensures ParseValue(DocText(d) + post) == Answer(d, post) {
      EntriesRead(d, 0, post);
      assert DocText(d) + post == "{" + (EntriesText(d, 0) + post);
      OpensRecord(EntriesText(d, 0) + post);
    }
  }

  lemma OpensList(t: string)
    ensures ParseValue("[" + t) == ParseItems(t, [], true)
  {
    assert ("[" + t)[1..] == t;
  }

  lemma OpensRecord(t: string)
    ensures ParseValue("{" + t) == ParseMembers(t, map[], true)
  {
    assert ("{" + t)[1..] == t;
  }

  // ---- Main results ----

  /**
   * A written document, with any white space around and inside, decodes to the
   * value it denotes if no object at any depth repeats a key, and is refused as
   * a duplicate otherwise.
   */
  lemma DecodeWritten(d: Doc, lead: Space, trail: Space)
    requires Written(d)
    ensures Decode(lead + (DocText(d) + trail)) == if Clean(d) then Ok(Plain(d)) else Err(DuplicateKey)
  {
    hide ParseValue, DocText;
    DocReads(d);
    DocHead(d);
    var body := DocText(d) + trail;
    assert body[0] == DocText(d)[0];
    ParseSpaced(lead, body);
    AllSpace(trail);
    assert Ends(trail) by { if trail != "" { assert IsSpace(trail[0]); } }
    assert ParseValue(body) == Answer(d, trail);
  }

  lemma {:induction false} AllSpace(s: Space)
    ensures SkipSpace(s) == ""
    decreases |s|
  {
    if s != "" {
      var later: Space := s[1..];
      AllSpace(later);
    }
  }

  /** Two spellings of one document: white space differs, and members may be in another order, at every depth. */
  predicate Same(a: Doc, b: Doc) {
    match a
    case List(_, _) =>
      b.List? && |a.items| == |b.items| && forall i | 0 <= i < |a.items| :: Same(a.items[i].doc, b.items[i].doc)
    case Record(_, _) =>
      && b.Record?
      && (forall i | 0 <= i < |a.members| :: exists j | 0 <= j < |b.members| :: SameMember(a.members[i], b.members[j]))
      && (forall j | 0 <= j < |b.members| :: exists i | 0 <= i < |a.members| :: SameMember(a.members[i], b.members[j]))
    case _ => !b.List? && !b.Record? && Plain(a) == Plain(b)
  }

  predicate SameMember(x: Entry, y: Entry) {
    KeyOf(x) == KeyOf(y) && Same(x.doc, y.doc)
  }

  /** A member of one spelling has its counterpart in the other. */
  lemma Counterpart(a: Doc, b: Doc, i: nat) returns (j: nat)
    requires Same(a, b) && a.Record? && b.Record? && i < |a.members|
    ensures j < |b.members| && KeyOf(a.members[i]) == KeyOf(b.members[j]) && Same(a.members[i].doc, b.members[j].doc)
  {
    hide SameMember;
    var x := a.members[i];
    assert exists j | 0 <= j < |b.members| :: SameMember(x, b.members[j]);
    j :| 0 <= j < |b.members| && SameMember(x, b.members[j]);
    SameMemberMeaning(x, b.members[j]);
  }

  lemma SameMemberMeaning(x: Entry, y: Entry)
    requires SameMember(x, y)
    ensures KeyOf(x) == KeyOf(y) && Same(x.doc, y.doc)
  {
  }

  lemma CounterpartBack(a: Doc, b: Doc, j: nat) returns (i: nat)
    requires Same(a, b) && a.Record? && b.Record? && j < |b.members|
    ensures i < |a.members| && KeyOf(a.members[i]) == KeyOf(b.members[j]) && Same(a.members[i].doc, b.members[j].doc)
  {
    hide SameMember;
    var y := b.members[j];
    assert exists i | 0 <= i < |a.members| :: SameMember(a.members[i], y);
    i :| 0 <= i < |a.members| && SameMember(a.members[i], y);
    SameMemberMeaning(a.members[i], y);
  }

  lemma {:induction false} SamePlain(a: Doc, b: Doc)
    requires Same(a, b) && Clean(a) && Clean(b)
    ensures Plain(a) == Plain(b)
    decreases a
  {
    hide Same, Plain, Clean, FieldsUpTo;
    match a
    case List(xs, _) =>
      SameLists(a, b);
      forall i | 0 <= i < |xs| ensures Plain(xs[i].doc) == Plain(b.items[i].doc) {
        SamePlain(xs[i].doc, b.items[i].doc);
      }
      EqualLists(a, b);
    case Record(xs, _) =>
      CleanRecords(a, b);
      forall i | 0 <= i < |a.members| ensures Holds(b, KeyOf(a.members[i]), Plain(a.members[i].doc)) {
        var j := Counterpart(a, b, i);
        SamePlain(a.members[i].doc, b.members[j].doc);
      }
      forall j | 0 <= j < |b.members| ensures Holds(a, KeyOf(b.members[j]), Plain(b.members[j].doc)) {
        var i := CounterpartBack(a, b, j);
        SamePlain(a.members[i].doc, b.members[j].doc);
      }
      FieldsWithin(a, b);
      FieldsWithin(b, a);
      SameObjects(a, b);
    case _ => SameLeaf(a, b);
  }

  lemma SameLeaf(a: Doc, b: Doc)
    requires Same(a, b) && !a.List? && !a.Record?
    ensures Plain(a) == Plain(b)
  {
  }

  lemma SameLists(a: Doc, b: Doc)
    requires Same(a, b) && Clean(a) && Clean(b) && a.List?
    ensures b.List? && |b.items| == |a.items|
    ensures forall i | 0 <= i < |a.items| ::
              Same(a.items[i].doc, b.items[i].doc) && Clean(a.items[i].doc) && Clean(b.items[i].doc)
  {
  }

  lemma EqualLists(a: Doc, b: Doc)
    requires a.List? && b.List? && |b.items| == |a.items|
    requires forall i | 0 <= i < |a.items| :: Plain(a.items[i].doc) == Plain(b.items[i].doc)
    ensures Plain(a) == Plain(b)
  {
    assert Plain(a).items == Plain(b).items;
  }

  predicate CleanMembers(d: Doc) {
    d.Record? && DistinctEntries(d.members) && forall i | 0 <= i < |d.members| :: Clean(d.members[i].doc)
  }

  lemma CleanRecords(a: Doc, b: Doc)
    requires Same(a, b) && Clean(a) && Clean(b) && a.Record?
    ensures b.Record? && CleanMembers(a) && CleanMembers(b)
  {
  }

  /** The record has a member with this key and value. */
  predicate Holds(d: Doc, key: string, v: Json)
    requires d.Record?
  {
    exists j | 0 <= j < |d.members| :: KeyOf(d.members[j]) == key && Plain(d.members[j].doc) == v
  }

  lemma FieldsWithin(a: Doc, b: Doc)
    requires a.Record? && b.Record? && DistinctEntries(a.members) && DistinctEntries(b.members)
    requires forall i | 0 <= i < |a.members| :: Holds(b, KeyOf(a.members[i]), Plain(a.members[i].doc))
    ensures var f, g := FieldsUpTo(a, |a.members|), FieldsUpTo(b, |b.members|);
            forall k | k in f :: k in g && f[k] == g[k]
  {
    hide Plain, FieldsUpTo, DistinctEntries;
    var f, g := FieldsUpTo(a, |a.members|), FieldsUpTo(b, |b.members|);
    FieldsMeaning(a, |a.members|);
    FieldsMeaning(b, |b.members|);
    forall k | k in f ensures k in g && f[k] == g[k] {
      var i :| 0 <= i < |a.members| && KeyOf(a.members[i]) == k;
      assert Holds(b, KeyOf(a.members[i]), Plain(a.members[i].doc));
      var j :| 0 <= j < |b.members| && KeyOf(b.members[j]) == k && Plain(b.members[j].doc) == Plain(a.members[i].doc);
      assert f[KeyOf(a.members[i])] == g[KeyOf(b.members[j])];
    }
  }

  lemma SameObjects(a: Doc, b: Doc)
    requires a.Record? && b.Record?
    requires var f, g := FieldsUpTo(a, |a.members|), FieldsUpTo(b, |b.members|);
             (forall k | k in f :: k in g && f[k] == g[k]) && (forall k | k in g :: k in f && g[k] == f[k])
    ensures Plain(a) == Plain(b)
  {
    hide FieldsUpTo;
    assert FieldsUpTo(a, |a.members|) == FieldsUpTo(b, |b.members|);
  }

  /** White space and the order of members, at any depth, change neither the value nor the canonical text. */
  lemma SpellingIrrelevant(a: Doc, b: Doc, lead: Space, trail: Space)
    requires Written(a) && Written(b) && Clean(a) && Clean(b) && Same(a, b)
    ensures Canonicalize(lead + (DocText(a) + trail)) == Canonicalize(DocText(b))
    ensures Exact(Plain(b)) && Canonicalize(DocText(b)) == Ok((Plain(b), CT.Text(Plain(b))))
  {
    hide Decode, DocText, Plain, Clean, Written, Same, CT.Text;
    SamePlain(a, b);
    PlainExact(b);
    DecodeWritten(a, lead, trail);
    DecodeWritten(b, "", "");
    assert "" + (DocText(b) + "") == DocText(b);
  }
}
