/** The decoder that consumes its input and the printer that fills a buffer. */
module CanonicalCodec {
  import opened JsonValues
  import opened Outcomes
  import opened CanonicalJson
  import CT = CanonicalText
  import Utf16

  class Decoder {
    /** The input not consumed yet. */
    var rest: string

    constructor (text: string)
      ensures rest == text
    {
      rest := text;
    }

    /** Another item follows before the closing delimiter. */
    predicate More()
      reads this
    {
      rest != "" && rest[0] != ']' && rest[0] != '}'
    }

    method DecodeValue() returns (r: Result<Json, JsonError>)
      modifies this
      ensures match ParseValue(old(rest))
              case Parsed(v, after) => r == Ok(v) && rest == after
              case Failed(e) => r == Err(e)
      decreases |rest|, 0
    {
      rest := SkipSpace(rest);
      if rest == "" {
        return Err(Malformed);
      }
      if rest[0] == '{' {
        rest := rest[1..];
        r := DecodeMembers();
      } else if rest[0] == '[' {
        rest := rest[1..];
        r := DecodeItems();
      } else {
        match ParseScalar(rest) {
          case Parsed(v, after) => rest := after; r := Ok(v);
          case Failed(e) => r := Err(e);
        }
      }
    }

    method DecodeItems() returns (r: Result<Json, JsonError>)
      modifies this
      ensures match ParseItems(old(rest), [], true)
              case Parsed(v, after) => r == Ok(v) && rest == after
              case Failed(e) => r == Err(e)
      decreases |rest|, 1
    {
      hide ParseValue;
      var items: seq<Json> := [];
      var first := true;
      rest := SkipSpace(rest);
      while More()
        invariant rest == SkipSpace(rest) && |rest| <= old(|rest|)
        invariant Exact(Arr(items))
        invariant ParseItems(rest, items, first) == ParseItems(old(rest), [], true)
        decreases |rest|
      {
        if !first {
          if rest[0] != ',' {
            return Err(Malformed);
          }
          rest := rest[1..];
        }
        var value := DecodeValue();
        if value.Err? {
          return value;
        }
        items := items + [value.value];
        first := false;
        rest := SkipSpace(rest);
      }
      if rest == "" || rest[0] != ']' {
        StrayDelimiter(rest);
        return Err(Malformed);
      }
      rest := rest[1..];
      return Ok(Arr(items));
    }

    method DecodeMembers() returns (r: Result<Json, JsonError>)
      modifies this
      ensures match ParseMembers(old(rest), map[], true)
              case Parsed(v, after) => r == Ok(v) && rest == after
              case Failed(e) => r == Err(e)
      decreases |rest|, 1
    {
      hide ParseValue, ParseKey;
      var members: map<string, Json> := map[];
      var first := true;
      rest := SkipSpace(rest);
      while More()
        invariant rest == SkipSpace(rest) && |rest| <= old(|rest|)
        invariant Exact(Obj(members))
        invariant ParseMembers(rest, members, first) == ParseMembers(old(rest), map[], true)
        decreases |rest|
      {
        if !first {
          if rest[0] != ',' {
            return Err(Malformed);
          }
          rest := rest[1..];
        }
        var keyToken := ParseKey(rest);
        if keyToken.Failed? {
          return Err(keyToken.error);
        }
        var key := keyToken.value;
        if key in members {
          return Err(DuplicateKey);
        }
        rest := SkipSpace(keyToken.rest);
        if rest == "" || rest[0] != ':' {
          return Err(Malformed);
        }
        rest := rest[1..];
        var value := DecodeValue();
        if value.Err? {
          return value;
        }
        members := members[key := value.value];
        first := false;
        rest := SkipSpace(rest);
      }
      if rest == "" || rest[0] != '}' {
        StrayDelimiter(rest);
        return Err(Malformed);
      }
      rest := rest[1..];
      return Ok(Obj(members));
    }
  }

  /** Neither a value nor a key starts with a closing delimiter. */
  lemma StrayDelimiter(t: string)
    ensures t != "" && (t[0] == ']' || t[0] == '}') ==>
              ParseValue(t) == Failed(Malformed) && ParseKey(t) == Failed(Malformed)
  {
  }

  /** Decodes a whole text and rejects anything after its value. */
  method DecodeUniqueJson(text: string) returns (r: Result<Json, JsonError>)
    ensures r == Decode(text)
  {
    var decoder := new Decoder(text);
    var value := decoder.DecodeValue();
    if value.Err? {
      return value;
    }
    if SkipSpace(decoder.rest) != "" {
      return Err(TrailingData);
    }
    return value;
  }

  // ---- Printing ----

  class Buffer {
    var data: string

    constructor ()
      ensures data == ""
    {
      data := "";
    }

    method Write(s: string)
      modifies this
      ensures data == old(data) + s
    {
      data := data + s;
    }
  }

  /** Inserts a key in front of the first larger one. */
  function InsertKey(key: string, keys: seq<string>): (r: seq<string>)
    ensures forall k :: k in r <==> k == key || k in keys
  {
    if keys == [] then [key]
    else if Utf16.Order(key, keys[0]) < 0 then [key] + keys
    else [keys[0]] + InsertKey(key, keys[1..])
  }

  lemma {:induction false} InsertKeyOrdered(key: string, keys: seq<string>)
    requires CT.StrictlyOrdered(keys) && key !in keys
    ensures CT.StrictlyOrdered(InsertKey(key, keys))
    decreases |keys|
  {
    var r := InsertKey(key, keys);
    if keys == [] {
    } else if Utf16.Order(key, keys[0]) < 0 {
      forall j | 0 < j < |r| ensures Utf16.Order(key, r[j]) < 0 {
        Utf16.OrderTotal(keys[0], keys[0]);
        Utf16.OrderTransitive(key, keys[0], keys[j - 1]);
        Utf16.OrderTotal(key, keys[j - 1]);
        Utf16.OrderTotal(keys[0], key);
      }
    } else {
      InsertKeyOrdered(key, keys[1..]);
      Utf16.OrderTotal(key, keys[0]);
      forall j | 0 < j < |r| ensures Utf16.Order(r[0], r[j]) < 0 {
        assert r[j] in InsertKey(key, keys[1..]);
        if r[j] != key {
          var m :| 0 <= m < |keys[1..]| && keys[1..][m] == r[j];
          assert keys[m + 1] == r[j];
        }
      }
    }
  }

  /** Visits the keys of the map in an arbitrary order and sorts them. */
  method CollectSortedKeys(fields: map<string, Json>) returns (keys: seq<string>)
    ensures keys == CT.SortedKeys(fields.Keys)
  {
    var remaining := fields.Keys;
    keys := [];
    while remaining != {}
      invariant remaining <= fields.Keys
      invariant forall k :: k in keys <==> k in fields.Keys - remaining
      invariant CT.StrictlyOrdered(keys)
      decreases |remaining|
    {
      var key :| key in remaining;
      InsertKeyOrdered(key, keys);
      keys := InsertKey(key, keys);
      remaining := remaining - {key};
    }
    CT.SortedKeysOrdered(fields.Keys);
    CT.SortedUnique(keys, CT.SortedKeys(fields.Keys));
  }

  lemma Regroup(d: string, s: string, t: string, u: string)
    ensures d + (s + (t + u)) == d + s + t + u
  {
  }

  method AppendString(output: Buffer, value: string)
    modifies output
    ensures output.data == old(output.data) + CT.Quoted(value)
  {
    hide CT.Escaped;
    output.Write("\"");
    var index := 0;
    while index < |value|
      invariant 0 <= index <= |value|
      invariant output.data + CT.EscapedText(value[index..]) ==
                old(output.data) + "\"" + CT.EscapedText(value)
    {
      ghost var before := output.data;
      output.Write(CT.Escaped(value[index]));
      assert value[index..][1..] == value[index + 1..];
      Regroup(before, "", CT.Escaped(value[index]), CT.EscapedText(value[index + 1..]));
      index := index + 1;
    }
    assert output.data == old(output.data) + "\"" + CT.EscapedText(value);
    output.Write("\"");
    Regroup(old(output.data), "\"", CT.EscapedText(value), "\"");
    Regroup("", "\"", CT.EscapedText(value), "\"");
  }

  method AppendItems(output: Buffer, value: Json)
    requires Exact(value) && value.Arr?
    modifies output
    ensures output.data == old(output.data) + CT.ItemsText(value, 0)
    decreases value, 0
  {
    hide CT.Text;
    var index := 0;
    while index < |value.items|
      invariant 0 <= index <= |value.items|
      invariant output.data + CT.ItemsText(value, index) == old(output.data) + CT.ItemsText(value, 0)
    {
      ghost var before := output.data;
      if index > 0 {
        output.Write(",");
      }
      AppendCanonical(output, value.items[index]);
      Regroup(before, if index > 0 then "," else "", CT.Text(value.items[index]), CT.ItemsText(value, index + 1));
      index := index + 1;
    }
    output.Write("]");
  }

  method AppendMember(output: Buffer, value: Json, key: string)
    requires Exact(value) && value.Obj? && key in value.fields
    modifies output
    ensures output.data == old(output.data) + CT.Quoted(key) + (":" + CT.Text(value.fields[key]))
    decreases value, 0
  {
    hide CT.Text, CT.Quoted;
    AppendString(output, key);
    output.Write(":");
    AppendCanonical(output, value.fields[key]);
    Regroup(old(output.data) + CT.Quoted(key), "", ":", CT.Text(value.fields[key]));
  }

  lemma RegroupMember(d: string, sep: string, key: string, text: string, later: string)
    ensures d + (sep + (key + (":" + (text + later)))) == d + sep + key + (":" + text) + later
  {
    Regroup(d, sep, key, ":" + (text + later));
    Regroup(d + sep + key, ":", text, later);
    Regroup(d + sep + key, "", ":", text);
  }

  method AppendMembers(output: Buffer, value: Json)
    requires Exact(value) && value.Obj?
    modifies output
    ensures output.data == old(output.data) + CT.MembersText(value, CT.SortedKeys(value.fields.Keys), 0)
    decreases value, 1
  {
    hide CT.Text, CT.Quoted, CT.SortedKeys;
    var keys := CollectSortedKeys(value.fields);
    var index := 0;
    while index < |keys|
      invariant 0 <= index <= |keys|
      invariant output.data + CT.MembersText(value, keys, index) ==
                old(output.data) + CT.MembersText(value, keys, 0)
    {
      ghost var before := output.data;
      if index > 0 {
        output.Write(",");
      }
      AppendMember(output, value, keys[index]);
      RegroupMember(before, if index > 0 then "," else "", CT.Quoted(keys[index]),
                    CT.Text(value.fields[keys[index]]), CT.MembersText(value, keys, index + 1));
      index := index + 1;
    }
    output.Write("}");
  }

  method AppendCanonical(output: Buffer, value: Json)
    requires Exact(value)
    modifies output
    ensures output.data == old(output.data) + CT.Text(value)
    decreases value, 2
  {
    hide CT.ItemsText, CT.MembersText, CT.SortedKeys, CT.Quoted, CT.NumberText;
    match value {
      case Null => output.Write("null");
      case Bool(flag) =>
        if flag {
          output.Write("true");
        } else {
          output.Write("false");
        }
      case Num(n) => output.Write(CT.NumberText(n));
      case Str(s) => AppendString(output, s);
      case Arr(_) =>
        output.Write("[");
        AppendItems(output, value);
        Regroup(old(output.data), "", "[", CT.ItemsText(value, 0));
      case Obj(fields) =>
        output.Write("{");
        AppendMembers(output, value);
        Regroup(old(output.data), "", "{", CT.MembersText(value, CT.SortedKeys(fields.Keys), 0));
    }
  }

  /** The value of a raw text and its canonical text. */
  method CanonicalizeRawJson(raw: string) returns (r: Result<(Json, string), JsonError>)
    ensures r == Canonicalize(raw)
  {
    var value := DecodeUniqueJson(raw);
    if value.Err? {
      return Err(value.error);
    }
    var output := new Buffer();
    AppendCanonical(output, value.value);
    assert output.data == CT.Text(value.value);
    return Ok((value.value, output.data));
  }
}
