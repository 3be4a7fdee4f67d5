/** The view of a world snapshot that the session transport reads. */
module WorldState {
  import opened JsonValues
  import opened Outcomes
  import opened TextRules
  import CT = CanonicalText

  /** Response classes of the transport, by HTTP status. */
  datatype Problem = BadRequest | Forbidden | Conflict | TooLarge | Unprocessable | Internal

  type Uuid = string

  const NIL_UUID: Uuid := "00000000-0000-0000-0000-000000000000"

  datatype WorldView = WorldView(
    root: map<string, Json>,
    actors: map<string, Json>,
    pending: Json,
    revision: int,
    logicalClock: int,
    mode: string,
    worldId: string,
    processed: seq<string>)

  /** Canonical bytes exist for the values whose numbers are exact integers. */
  function CanonicalBytes(v: Json): (r: Option<string>) {
    if Exact(v) then Some(CT.Text(v)) else None
  }

  /** An absent field reads as null. */
  function Field(fields: map<string, Json>, key: string): Json {
    if key in fields then fields[key] else Null
  }

  /** Hit points, where an actor has them, are integers with a positive maximum. */
  predicate HpShapeOk(actor: Json) {
    actor.Obj? && Field(actor.fields, "runtime").Obj? && "hp" in Field(actor.fields, "runtime").fields ==>
      var hp := Field(actor.fields, "runtime").fields["hp"];
      hp.Obj? &&
      Field(hp.fields, "current").Num? &&
      Field(hp.fields, "max").Num? && Field(hp.fields, "max").n >= 1 &&
      Field(hp.fields, "temp").Num? && Field(hp.fields, "temp").n >= 0
  }

  predicate Distinct<T(==)>(items: seq<T>) {
    forall i, j | 0 <= i < j < |items| :: items[i] != items[j]
  }

  /** The texts of an array of distinct stable identifiers. */
  function ReadIds(items: seq<Json>): Option<seq<string>> {
    if forall i | 0 <= i < |items| :: items[i].Str? && StableId(items[i].text) then
      var ids := seq(|items|, i requires 0 <= i < |items| => items[i].text);
      if Distinct(ids) then Some(ids) else None
    else None
  }

  /** Reads the identifiers one by one and remembers those already seen. */
  method CollectIds(items: seq<Json>) returns (r: Option<seq<string>>)
    ensures r == ReadIds(items)
  {
    var ids: seq<string> := [];
    var seen: set<string> := {};
    var index := 0;
    while index < |items|
      invariant 0 <= index <= |items| == |ids| + (|items| - index)
      invariant forall i | 0 <= i < index :: items[i].Str? && StableId(items[i].text) && ids[i] == items[i].text
      invariant seen == set i | 0 <= i < index :: ids[i]
      invariant Distinct(ids)
    {
      if !items[index].Str? || !StableId(items[index].text) {
        return None;
      }
      var id := items[index].text;
      if id in seen {
        ghost var earlier :| 0 <= earlier < index && ids[earlier] == id;
        if forall i | 0 <= i < |items| :: items[i].Str? && StableId(items[i].text) {
          ghost var all := seq(|items|, i requires 0 <= i < |items| => items[i].text);
          assert all[earlier] == all[index];
        }
        return None;
      }
      seen := seen + {id};
      ids := ids + [id];
      index := index + 1;
    }
    assert ids == seq(|items|, i requires 0 <= i < |items| => items[i].text);
    return Some(ids);
  }

  const EXPLORATION := "exploration"
  const ENCOUNTER := "encounter"

  /** Reads a snapshot; every malformed snapshot is unprocessable. */
  function InspectWorld(v: Json): (r: Result<WorldView, Problem>)
    ensures r.Ok? ==> v.Obj? && r.value.root == v.fields && r.value.revision >= 0
                      && Field(v.fields, "revision") == Num(r.value.revision)
  {
    if !v.Obj? then Err(Unprocessable)
    else
      var root := v.fields;
      var actors := Field(root, "actors");
      var revision := Field(root, "revision");
      var clock := Field(root, "logicalClock");
      var id := Field(root, "id");
      var scene := Field(root, "scene");
      var processed := Field(root, "processedCommandIds");
      if !actors.Obj? then Err(Unprocessable)
      else if exists k | k in actors.fields :: !HpShapeOk(actors.fields[k]) then Err(Unprocessable)
      else if !revision.Num? || revision.n < 0 then Err(Unprocessable)
      else if !clock.Num? || clock.n < 0 then Err(Unprocessable)
      else if !id.Str? || Blank(id.text) then Err(Unprocessable)
      else if !scene.Obj? then Err(Unprocessable)
      else
        var mode := Field(scene.fields, "mode");
        if !mode.Str? || (mode.text != EXPLORATION && mode.text != ENCOUNTER) then Err(Unprocessable)
        else if !processed.Arr? || ReadIds(processed.items).None? then Err(Unprocessable)
        else if "pendingResolution" !in root then Err(Unprocessable)
        else
          var pending := root["pendingResolution"];
          if !pending.Null? && !pending.Obj? then Err(Unprocessable)
          else
            Ok(WorldView(root, actors.fields, pending, revision.n, clock.n, mode.text, id.text,
                         ReadIds(processed.items).value))
  }

  const READ_FIELDS := {"actors", "revision", "logicalClock", "id", "scene", "processedCommandIds", "pendingResolution"}

  predicate AgreeOn(keys: set<string>, a: map<string, Json>, b: map<string, Json>) {
    forall k | k in keys :: (k in a <==> k in b) && (k in a ==> a[k] == b[k])
  }

  /** Snapshots that agree on the fields that are read are accepted or refused alike, and seen alike. */
  lemma OtherFieldsIgnored(a: map<string, Json>, b: map<string, Json>)
    requires AgreeOn(READ_FIELDS, a, b)
    ensures InspectWorld(Obj(b)) ==
            if InspectWorld(Obj(a)).Ok? then Ok(InspectWorld(Obj(a)).value.(root := b)) else Err(Unprocessable)
  {
    hide HpShapeOk, ReadIds, Blank;
    forall k | k in READ_FIELDS ensures Field(a, k) == Field(b, k) {
    }
  }

  /** What an exact snapshot contains is exact. */
  lemma ExactParts(v: Json)
    requires Exact(v) && InspectWorld(v).Ok?
    ensures var w := InspectWorld(v).value;
            && Exact(w.pending)
            && (forall k | k in w.actors :: Exact(w.actors[k]))
            && w.revision <= MAX_EXACT_INTEGER
            && Distinct(w.processed)
  {
    var actors := v.fields["actors"];
    assert Exact(actors);
    assert Exact(v.fields["revision"]);
  }
}
