/** The shared state of an encounter, the operations on it, and their replay from the event log. */
module EncounterState {
  import opened JsonValues
  import opened Outcomes
  import opened WorldState

  type Fields = map<string, Json>

  /** A shallow merge into one combatant. */
  datatype Patch = Patch(actorId: string, values: Fields)

  datatype LogEntry = LogEntry(message: string, target: string, kind: string, payload: Option<Fields>)

  /** A replayable operation. */
  datatype Op = Op(
    patches: seq<Patch>, add: seq<Fields>, remove: seq<string>,
    round: Option<int>, activeIndex: Option<int>, notes: seq<Json>, log: seq<LogEntry>)

  /** A request: an operation and the version it was built on. */
  datatype ApplyRequest = ApplyRequest(expectedSeq: Option<int>, op: Op)

  /** How values that are not strings print. */
  type Printer = Json -> string

  function Printed(show: Printer, v: Json): string {
    if v.Str? then v.text else show(v)
  }

  function ActorText(show: Printer, c: Fields): string {
    Printed(show, Field(c, "actorId"))
  }

  // ---- Applying an operation ----

  function Objects(items: seq<Json>): (cs: seq<Fields>)
    ensures |cs| <= |items|
    ensures (forall i | 0 <= i < |items| :: items[i].Obj?) ==>
              |cs| == |items| && forall i | 0 <= i < |items| :: cs[i] == items[i].fields
  {
    if items == [] then []
    else
      assert forall i | 0 <= i < |items| - 1 :: items[1..][i] == items[i + 1];
      (if items[0].Obj? then [items[0].fields] else []) + Objects(items[1..])
  }

  /** The combatants of a state; items that are not objects are skipped. */
  function Combatants(state: Fields): seq<Fields> {
    if Field(state, "combatants").Arr? then Objects(Field(state, "combatants").items) else []
  }

  function CombatantsJson(cs: seq<Fields>): (v: Json)
    ensures v.Arr? && |v.items| == |cs| && forall i | 0 <= i < |cs| :: v.items[i] == Obj(cs[i])
  {
    Arr(seq(|cs|, i requires 0 <= i < |cs| => Obj(cs[i])))
  }

  function RemoveFirst(show: Printer, cs: seq<Fields>, id: string): seq<Fields> {
    if cs == [] then []
    else if ActorText(show, cs[0]) == id then cs[1..]
    else [cs[0]] + RemoveFirst(show, cs[1..], id)
  }

  function RemoveAll(show: Printer, cs: seq<Fields>, ids: seq<string>): seq<Fields>
    decreases |ids|
  {
    if ids == [] then cs else RemoveAll(show, RemoveFirst(show, cs, ids[0]), ids[1..])
  }

  function PatchFirst(show: Printer, cs: seq<Fields>, p: Patch): seq<Fields> {
    if cs == [] then []
    else if ActorText(show, cs[0]) == p.actorId then [cs[0] + p.values] + cs[1..]
    else [cs[0]] + PatchFirst(show, cs[1..], p)
  }

  function PatchAll(show: Printer, cs: seq<Fields>, ps: seq<Patch>): seq<Fields>
    decreases |ps|
  {
    if ps == [] then cs else PatchAll(show, PatchFirst(show, cs, ps[0]), ps[1..])
  }

  function CombatantsAfter(show: Printer, cs: seq<Fields>, op: Op): seq<Fields> {
    PatchAll(show, RemoveAll(show, cs, op.remove), op.patches) + op.add
  }

  function WithTurn(state: Fields, op: Op): Fields {
    var s := if op.round.Some? then state["round" := Num(op.round.value)] else state;
    if op.activeIndex.Some? then s["activeIndex" := Num(op.activeIndex.value)] else s
  }

  function ApplyOps(show: Printer, state: Fields, op: Op): Fields {
    WithTurn(state["combatants" := CombatantsJson(CombatantsAfter(show, Combatants(state), op))], op)
  }

  // ---- The same, step by step ----

  /** The position of the first combatant with the id, or minus one. */
  method IndexOf(show: Printer, cs: seq<Fields>, id: string) returns (k: int)
    ensures -1 <= k < |cs|
    ensures k >= 0 ==> ActorText(show, cs[k]) == id
    ensures forall i | 0 <= i < (if k < 0 then |cs| else k) :: ActorText(show, cs[i]) != id
  {
    k := 0;
    while k < |cs|
      invariant 0 <= k <= |cs|
      invariant forall i | 0 <= i < k :: ActorText(show, cs[i]) != id
    {
      if ActorText(show, cs[k]) == id {
        return;
      }
      k := k + 1;
    }
    k := -1;
  }

  lemma {:induction false} RemoveFirstAt(show: Printer, cs: seq<Fields>, id: string, k: int)
    requires -1 <= k < |cs|
    requires k >= 0 ==> ActorText(show, cs[k]) == id
    requires forall i | 0 <= i < (if k < 0 then |cs| else k) :: ActorText(show, cs[i]) != id
    ensures RemoveFirst(show, cs, id) == if k < 0 then cs else cs[..k] + cs[k + 1..]
    decreases |cs|
  {
    if cs != [] && k != 0 {
      assert ActorText(show, cs[0]) != id;
      RemoveFirstAt(show, cs[1..], id, if k < 0 then -1 else k - 1);
      assert cs == [cs[0]] + cs[1..];
    }
  }

  lemma {:induction false} PatchFirstAt(show: Printer, cs: seq<Fields>, p: Patch, k: int)
    requires -1 <= k < |cs|
    requires k >= 0 ==> ActorText(show, cs[k]) == p.actorId
    requires forall i | 0 <= i < (if k < 0 then |cs| else k) :: ActorText(show, cs[i]) != p.actorId
    ensures PatchFirst(show, cs, p) == if k < 0 then cs else cs[k := cs[k] + p.values]
    decreases |cs|
  {
    if cs != [] && k != 0 {
      assert ActorText(show, cs[0]) != p.actorId;
      PatchFirstAt(show, cs[1..], p, if k < 0 then -1 else k - 1);
      assert cs == [cs[0]] + cs[1..];
    }
  }

  /** Sets the fields of one combatant one by one, in any order. */
  method SetFields(c: Fields, values: Fields) returns (r: Fields)
    ensures r == c + values
  {
    r := c;
    var todo := values.Keys;
    while todo != {}
      invariant todo <= values.Keys
      invariant r == c + map k | k in values && k !in todo :: values[k]
      decreases |todo|
    {
      var k :| k in todo;
      r := r[k := values[k]];
      todo := todo - {k};
    }
    assert (map k | k in values && k !in todo :: values[k]) == values;
  }

  /** Applies an operation by removing, patching and appending combatants in turn. */
  method ApplyInPlace(show: Printer, state: Fields, op: Op) returns (r: Fields)
    ensures r == ApplyOps(show, state, op)
  {
    hide RemoveFirst, PatchFirst, ActorText, Combatants, CombatantsJson;
    var combatants := Combatants(state);
    var index := 0;
    assert op.remove[0..] == op.remove;
    while index < |op.remove|
      invariant 0 <= index <= |op.remove|
      invariant RemoveAll(show, combatants, op.remove[index..]) == RemoveAll(show, Combatants(state), op.remove)
    {
      var id := op.remove[index];
      assert op.remove[index..][0] == id && op.remove[index..][1..] == op.remove[index + 1..];
      var k := IndexOf(show, combatants, id);
      RemoveFirstAt(show, combatants, id, k);
      if k >= 0 {
        combatants := combatants[..k] + combatants[k + 1..];
      }
      index := index + 1;
    }
    ghost var remaining := combatants;
    assert remaining == RemoveAll(show, Combatants(state), op.remove);
    index := 0;
    assert op.patches[0..] == op.patches;
    while index < |op.patches|
      invariant 0 <= index <= |op.patches|
      invariant PatchAll(show, combatants, op.patches[index..]) == PatchAll(show, remaining, op.patches)
    {
      var p := op.patches[index];
      assert op.patches[index..][0] == p && op.patches[index..][1..] == op.patches[index + 1..];
      var k := IndexOf(show, combatants, p.actorId);
      PatchFirstAt(show, combatants, p, k);
      if k >= 0 {
        var patched := SetFields(combatants[k], p.values);
        combatants := combatants[k := patched];
      }
      index := index + 1;
    }
    ghost var patched := combatants;
    assert patched == PatchAll(show, remaining, op.patches);
    index := 0;
    while index < |op.add|
      invariant 0 <= index <= |op.add| && combatants == patched + op.add[..index]
    {
      combatants := combatants + [op.add[index]];
      index := index + 1;
    }
    assert combatants == CombatantsAfter(show, Combatants(state), op);
    r := state["combatants" := CombatantsJson(combatants)];
    if op.round.Some? {
      r := r["round" := Num(op.round.value)];
    }
    if op.activeIndex.Some? {
      r := r["activeIndex" := Num(op.activeIndex.value)];
    }
  }

  // ---- What an operation leaves ----

  lemma TurnKeepsCombatants(state: Fields, op: Op)
    ensures Field(WithTurn(state, op), "combatants") == Field(state, "combatants")
  {
  }

  lemma CombatantsBack(cs: seq<Fields>)
    ensures Objects(CombatantsJson(cs).items) == cs
  {
    var items := CombatantsJson(cs).items;
    assert forall i | 0 <= i < |items| :: items[i].Obj?;
    assert forall i | 0 <= i < |cs| :: Objects(items)[i] == cs[i];
  }

  /** The combatants of the new state are the ones computed. */
  lemma AppliedCombatants(show: Printer, state: Fields, op: Op)
    ensures Combatants(ApplyOps(show, state, op)) == CombatantsAfter(show, Combatants(state), op)
    ensures Field(ApplyOps(show, state, op), "combatants") == CombatantsJson(CombatantsAfter(show, Combatants(state), op))
  {
    hide CombatantsAfter, Objects, WithTurn, CombatantsJson;
    var cs := CombatantsAfter(show, Combatants(state), op);
    TurnKeepsCombatants(state["combatants" := CombatantsJson(cs)], op);
    CombatantsBack(cs);
  }

  // ---- Payloads ----

  function OptionalNum(n: Option<int>): Json {
    if n.Some? then Num(n.value) else Null
  }

  function PatchJson(p: Patch): Json {
    Obj(map["actor_id" := Str(p.actorId), "set" := Obj(p.values)])
  }

  function LogJson(e: LogEntry): Json {
    Obj(map["message" := Str(e.message), "targetCharacterId" := Str(e.target), "type" := Str(e.kind),
            "payload" := if e.payload.Some? then Obj(e.payload.value) else Null])
  }

  function OpFields(op: Op): Fields {
    map["patches" := Arr(seq(|op.patches|, i requires 0 <= i < |op.patches| => PatchJson(op.patches[i]))),
        "add" := CombatantsJson(op.add),
        "remove" := Arr(seq(|op.remove|, i requires 0 <= i < |op.remove| => Str(op.remove[i]))),
        "round" := OptionalNum(op.round), "active_index" := OptionalNum(op.activeIndex),
        "events" := Arr(op.notes),
        "log" := Arr(seq(|op.log|, i requires 0 <= i < |op.log| => LogJson(op.log[i])))]
  }

  /** The stored payload: the whole request as JSON without its precondition. */
  function OpPayload(r: ApplyRequest): Fields {
    OpFields(r.op)["expected_seq" := OptionalNum(r.expectedSeq)] - {"expected_seq"}
  }

  function ReadText(v: Json): string {
    if v.Str? then v.text else ""
  }

  function ReadFields(v: Json): Fields {
    if v.Obj? then v.fields else map[]
  }

  function ReadItems(v: Json): seq<Json> {
    if v.Arr? then v.items else []
  }

  function ReadNum(v: Json): Option<int> {
    if v.Num? then Some(v.n) else None
  }

  function ReadPatch(v: Json): Patch {
    Patch(ReadText(Field(ReadFields(v), "actor_id")), ReadFields(Field(ReadFields(v), "set")))
  }

  function ReadLog(v: Json): LogEntry {
    var f := ReadFields(v);
    LogEntry(ReadText(Field(f, "message")), ReadText(Field(f, "targetCharacterId")), ReadText(Field(f, "type")),
             if Field(f, "payload").Obj? then Some(Field(f, "payload").fields) else None)
  }

  /** Reads an operation back from a stored payload. */
  function ReadOp(payload: Fields): Op {
    var patches, add := ReadItems(Field(payload, "patches")), ReadItems(Field(payload, "add"));
    var remove, log := ReadItems(Field(payload, "remove")), ReadItems(Field(payload, "log"));
    Op(seq(|patches|, i requires 0 <= i < |patches| => ReadPatch(patches[i])),
       seq(|add|, i requires 0 <= i < |add| => ReadFields(add[i])),
       seq(|remove|, i requires 0 <= i < |remove| => ReadText(remove[i])),
       ReadNum(Field(payload, "round")), ReadNum(Field(payload, "active_index")),
       ReadItems(Field(payload, "events")),
       seq(|log|, i requires 0 <= i < |log| => ReadLog(log[i])))
  }

  lemma PayloadHasNoPrecondition(r: ApplyRequest)
    ensures OpPayload(r) == OpFields(r.op)
  {
    hide PatchJson, LogJson, CombatantsJson, OptionalNum;
    assert "expected_seq" !in OpFields(r.op);
  }

  lemma OpFieldsFirst(op: Op)
    ensures var f := OpFields(op);
            && Field(f, "patches") == Arr(seq(|op.patches|, i requires 0 <= i < |op.patches| => PatchJson(op.patches[i])))
            && Field(f, "add") == CombatantsJson(op.add)
            && Field(f, "remove") == Arr(seq(|op.remove|, i requires 0 <= i < |op.remove| => Str(op.remove[i])))
            && Field(f, "round") == OptionalNum(op.round)
  {
    hide PatchJson, LogJson, CombatantsJson, OptionalNum;
  }

  lemma OpFieldsRest(op: Op)
    ensures var f := OpFields(op);
            && Field(f, "active_index") == OptionalNum(op.activeIndex)
            && Field(f, "events") == Arr(op.notes)
            && Field(f, "log") == Arr(seq(|op.log|, i requires 0 <= i < |op.log| => LogJson(op.log[i])))
  {
    hide PatchJson, LogJson, CombatantsJson, OptionalNum;
  }

  lemma PatchBack(p: Patch)
    ensures ReadPatch(PatchJson(p)) == p
  {
  }

  lemma LogBack(e: LogEntry)
    ensures ReadLog(LogJson(e)) == e
  {
  }

  /** An operation survives its stored payload, which does not carry the precondition. */
  lemma PayloadRoundTrip(r: ApplyRequest)
    ensures ReadOp(OpPayload(r)) == r.op
    ensures "expected_seq" !in OpPayload(r)
  {
    hide PatchJson, LogJson, ReadPatch, ReadLog, Field, OpFields, OpPayload;
    PayloadHasNoPrecondition(r);
    OpFieldsFirst(r.op);
    OpFieldsRest(r.op);
    forall p ensures ReadPatch(PatchJson(p)) == p { PatchBack(p); }
    forall e ensures ReadLog(LogJson(e)) == e { LogBack(e); }
    var op := ReadOp(OpPayload(r));
    assert op.patches == r.op.patches;
    assert op.add == r.op.add;
    assert op.remove == r.op.remove;
    assert op.log == r.op.log;
    NoPrecondition(r.op);
  }

  lemma NoPrecondition(op: Op)
    ensures "expected_seq" !in OpFields(op)
  {
    hide PatchJson, LogJson, CombatantsJson, OptionalNum;
  }

  // ---- Replay ----

  datatype Event = Event(seqNo: int, payload: Fields)

  const EMPTY_STATE: Fields := map["combatants" := Arr([]), "round" := Num(1), "activeIndex" := Num(0)]

  /** The state that the stored events lead to from the empty encounter. */
  function Replay(show: Printer, events: seq<Event>): Fields {
    if events == [] then EMPTY_STATE
    else ApplyOps(show, Replay(show, events[..|events| - 1]), ReadOp(events[|events| - 1].payload))
  }

  /** One more event is one more operation. */
  lemma ReplayStep(show: Printer, events: seq<Event>, r: ApplyRequest, seqNo: int)
    ensures Replay(show, events + [Event(seqNo, OpPayload(r))]) == ApplyOps(show, Replay(show, events), r.op)
  {
    hide ApplyOps, ReadOp, OpPayload;
    var all := events + [Event(seqNo, OpPayload(r))];
    assert all[..|all| - 1] == events;
    PayloadRoundTrip(r);
  }
}
