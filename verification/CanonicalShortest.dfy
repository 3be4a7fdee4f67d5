/** The canonical text is the shortest text of its value, with its keys in order. */
module CanonicalShortest {
  import opened JsonValues
  import opened Outcomes
  import opened CanonicalJson
  import opened CanonicalRoundTrip
  import opened CanonicalStrings
  import opened CanonicalSpellings
  import opened CanonicalGrammar
  import CT = CanonicalText
  import Utf16

  // ---- The length of members, in whatever order ----

  /** The characters of a printed member and of the comma or brace after it. */
  function Cost(fields: map<string, Json>, k: string): int
    requires k in fields && Exact(fields[k])
  {
    |CT.Quoted(k)| + 2 + |CT.Text(fields[k])|
  }

  ghost function TotalCost(fields: map<string, Json>, keys: set<string>): int
    requires keys <= fields.Keys && Exact(Obj(fields))
  {
    if keys == {} then 0
    else
      var k :| k in keys;
      Cost(fields, k) + TotalCost(fields, keys - {k})
  }

  lemma {:induction false} CostTakesAny(fields: map<string, Json>, keys: set<string>, k: string)
    requires keys <= fields.Keys && Exact(Obj(fields)) && k in keys
    ensures TotalCost(fields, keys) == Cost(fields, k) + TotalCost(fields, keys - {k})
    decreases |keys|
  {
    hide Cost;
    var first :| first in keys && TotalCost(fields, keys) == Cost(fields, first) + TotalCost(fields, keys - {first});
    if first != k {
      CostTakesAny(fields, keys - {first}, k);
      CostTakesAny(fields, keys - {k}, first);
      assert keys - {first} - {k} == keys - {k} - {first};
    }
  }

  /** The printed members from a position on cost what their keys cost, without the comma before the first. */
  lemma {:induction false} MembersCost(v: Json, keys: seq<string>, i: nat)
    requires Exact(v) && v.Obj? && i <= |keys| && (forall k | k in keys :: k in v.fields)
    requires forall j, k | 0 <= j < k < |keys| :: keys[j] != keys[k]
    ensures (set j | i <= j < |keys| :: keys[j]) <= v.fields.Keys
    ensures |CT.MembersText(v, keys, i)| + (if i == 0 && keys != [] then 1 else 0) ==
            1 + TotalCost(v.fields, set j | i <= j < |keys| :: keys[j])
    decreases |keys| - i
  {
    hide CT.Text, CT.Quoted, TotalCost, CT.MembersText;
    var later := set j | i + 1 <= j < |keys| :: keys[j];
    var now := set j | i <= j < |keys| :: keys[j];
    if i < |keys| {
      MembersCost(v, keys, i + 1);
      assert keys[i] in now && now - {keys[i]} == later;
      CostTakesAny(v.fields, now, keys[i]);
      OneMember(v, keys, i);
    } else {
      assert now == {};
      NoMembers(v, keys);
    }
  }

  lemma OneMember(v: Json, keys: seq<string>, i: nat)
    requires Exact(v) && v.Obj? && i < |keys| && (forall k | k in keys :: k in v.fields)
    ensures |CT.MembersText(v, keys, i)| + (if i == 0 then 1 else 0) == Cost(v.fields, keys[i]) + |CT.MembersText(v, keys, i + 1)|
  {
    hide CT.Text, CT.Quoted;
  }

  lemma NoMembers(v: Json, keys: seq<string>)
    requires Exact(v) && v.Obj? && (forall k | k in keys :: k in v.fields)
    ensures |CT.MembersText(v, keys, |keys|)| == 1 && TotalCost(v.fields, {}) == 0
  {
  }

  // ---- Written documents are no shorter ----

  lemma {:induction false} NoShorter(d: Doc)
    requires Written(d) && Clean(d)
    ensures Exact(Plain(d)) && |CT.Text(Plain(d))| <= |DocText(d)|
    decreases d, 1, 0
  {
    PlainExact(d);
    match d
    case Leaf(v) => LeafIsText(v);
    case Literal(text) => SpellingCost(text);
    case MinusZero =>
    case List(items, _) => ItemsNoShorter(d, 0);
    case Record(members, _) =>
      RecordText(d);
      EntriesNoShorter(d, 0);
  }

  lemma {:induction false} ItemsNoShorter(d: Doc, i: nat)
    requires Written(d) && Clean(d) && d.List? && i <= |d.items| && Exact(Plain(d))
    ensures |CT.ItemsText(Plain(d), i)| <= |ItemsText(d, i)|
    decreases d, 0, |d.items| - i
  {
    hide CT.Text, DocText;
    if i < |d.items| {
      NoShorter(d.items[i].doc);
      ItemsNoShorter(d, i + 1);
    }
  }

  function KeysFrom(d: Doc, i: nat): set<string>
    requires d.Record?
  {
    set j | i <= j < |d.members| :: KeyOf(d.members[j])
  }

  /** The printed object costs what its keys cost. */
  lemma RecordText(d: Doc)
    requires Written(d) && Clean(d) && d.Record? && Exact(Plain(d))
    ensures KeysFrom(d, 0) == Plain(d).fields.Keys
    ensures |CT.Text(Plain(d))| + (if d.members == [] then 0 else 1) == 2 + TotalCost(Plain(d).fields, KeysFrom(d, 0))
  {
    hide KeyOf, CT.SortedKeys, CT.StrictlyOrdered, CT.MembersText, Written, TotalCost;
    var v := Plain(d);
    RecordKeys(d);
    var keys := CT.SortedKeys(v.fields.Keys);
    CT.SortedKeysOrdered(v.fields.Keys);
    OrderedDistinct(keys);
    MembersCost(v, keys, 0);
    assert (set j | 0 <= j < |keys| :: keys[j]) == v.fields.Keys;
    if d.members != [] {
      assert KeyOf(d.members[0]) in KeysFrom(d, 0);
      assert keys != [];
    } else {
      assert v.fields.Keys == {};
    }
  }

  lemma RecordKeys(d: Doc)
    requires d.Record? && DistinctEntries(d.members)
    ensures Plain(d).Obj? && KeysFrom(d, 0) == Plain(d).fields.Keys
    ensures forall j | 0 <= j < |d.members| :: KeyOf(d.members[j]) in Plain(d).fields
    ensures forall j | 0 <= j < |d.members| :: Plain(d).fields[KeyOf(d.members[j])] == Plain(d.members[j].doc)
  {
    hide KeyOf;
    FieldsMeaning(d, |d.members|);
  }

  lemma {:induction false} EntriesNoShorter(d: Doc, i: nat)
    requires Written(d) && Clean(d) && d.Record? && i <= |d.members| && Exact(Plain(d))
    ensures Plain(d).Obj? && KeysFrom(d, i) <= Plain(d).fields.Keys
    ensures 1 + TotalCost(Plain(d).fields, KeysFrom(d, i)) <= |EntriesText(d, i)| + (if i == 0 && d.members != [] then 1 else 0)
    decreases d, 0, |d.members| - i
  {
    hide CT.Text, DocText, CT.Quoted, FieldsUpTo, EntriesText, Quote, Written, Clean, KeyOf, KeysFrom, TotalCost, Plain, Exact;
    MembersInOrder(d);
    RecordKeys(d);
    EntryLength(d, i);
    KeysStep(d, i);
    if i == |d.members| {
      NoCost(Plain(d).fields);
    } else {
      var x := d.members[i];
      NoShorter(x.doc);
      KeyNoShorter(x.key);
      EntriesNoShorter(d, i + 1);
      CostTakesAny(Plain(d).fields, KeysFrom(d, i), KeyOf(x));
    }
  }

  lemma KeysStep(d: Doc, i: nat)
    requires d.Record? && DistinctEntries(d.members) && i <= |d.members|
    ensures i == |d.members| ==> KeysFrom(d, i) == {}
    ensures i < |d.members| ==>
              KeyOf(d.members[i]) in KeysFrom(d, i) && KeysFrom(d, i) - {KeyOf(d.members[i])} == KeysFrom(d, i + 1)
  {
    hide KeyOf;
  }

  lemma NoCost(fields: map<string, Json>)
    requires Exact(Obj(fields))
    ensures TotalCost(fields, {}) == 0
  {
  }

  lemma MembersInOrder(d: Doc)
    requires Written(d) && Clean(d) && d.Record?
    ensures DistinctEntries(d.members)
    ensures forall i | 0 <= i < |d.members| ::
              Written(d.members[i].doc) && Clean(d.members[i].doc) && SpellingOk(d.members[i].key)
              && KeyOf(d.members[i]) == Chars(d.members[i].key)
  {
    hide SpellingOk;
  }

  lemma EntryLength(d: Doc, i: nat)
    requires Written(d) && d.Record? && i <= |d.members|
    ensures i == |d.members| ==> |EntriesText(d, i)| >= 1
    ensures i < |d.members| ==>
              var x := d.members[i];
              Written(x.doc)
              && |EntriesText(d, i)| >= (if i == 0 then 0 else 1) + |Quote(x.key)| + 1 + |DocText(x.doc)| + |EntriesText(d, i + 1)|
  {
    hide DocText, Quote, SpellingOk;
  }

  lemma KeyNoShorter(sp: Spelling)
    requires SpellingOk(sp)
    ensures |CT.Quoted(Chars(sp))| <= |Quote(sp)|
  {
    hide CT.EscapedText, SpelledText, SpellingOk;
    SpellingCost(sp);
  }

  // ---- Main results ----

  /** No text that decodes to a value is shorter than its canonical text. */
  lemma CanonicalShortest(text: string, v: Json)
    requires Decode(text) == Ok(v)
    ensures Exact(v) && |CT.Text(v)| <= |text|
  {
    hide Decode, DocText, Written, Clean, Plain, CT.Text;
    DecodeIff(text, v);
    var lead: Space, d: Doc, trail: Space :|
      Written(d) && Clean(d) && Plain(d) == v && text == lead + (DocText(d) + trail);
    NoShorter(d);
  }

  /** The canonical text of an object is its members with increasing keys, separated by commas alone. */
  lemma KeysAscend(fields: map<string, Json>) returns (keys: seq<string>)
    requires Exact(Obj(fields))
    ensures forall i, j | 0 <= i < j < |keys| :: Utf16.Order(keys[i], keys[j]) < 0
    ensures forall k :: k in keys <==> k in fields
    ensures CT.Text(Obj(fields)) == "{" + Listed(fields, keys, 0)
  {
    keys := CT.SortedKeys(fields.Keys);
    CT.SortedKeysOrdered(fields.Keys);
    ListedIs(Obj(fields), keys, 0);
  }

  /** Members in the given order. */
  function Listed(fields: map<string, Json>, keys: seq<string>, i: nat): string
    requires Exact(Obj(fields)) && i <= |keys| && forall k | k in keys :: k in fields
    decreases |keys| - i
  {
    if i == |keys| then "}"
    else (if i == 0 then "" else ",") + CT.Quoted(keys[i]) + ":" + CT.Text(fields[keys[i]]) + Listed(fields, keys, i + 1)
  }

  lemma {:induction false} ListedIs(v: Json, keys: seq<string>, i: nat)
    requires Exact(v) && v.Obj? && i <= |keys| && forall k | k in keys :: k in v.fields
    ensures CT.MembersText(v, keys, i) == Listed(v.fields, keys, i)
    decreases |keys| - i
  {
    hide CT.Text, CT.Quoted;
    if i < |keys| { ListedIs(v, keys, i + 1); }
  }
}
