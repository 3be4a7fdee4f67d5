/** Access, validation and effects of one encounter operation. */
module EncounterRules {
  import opened JsonValues
  import opened Outcomes
  import opened TextRules
  import opened WorldState
  import opened Identifiers
  import opened EncounterState
  import opened TabletopTables

  // ---- Participants ----

  predicate IsParticipant(enc: Encounter, user: Id) {
    user != NIL_ID && (user == enc.owner || exists m | m in enc.members :: ParseUuid(TrimSpace(m)) == Some(user))
  }

  // ---- References to sheets ----

  datatype Ref = Creature | Malformed | Linked(id: Id)

  /** What the `characterId` of a combatant refers to. */
  function CharacterRef(env: Env, c: Fields): Ref {
    var raw := Field(c, "characterId");
    if raw.Null? || TrimSpace(Printed(env.show, raw)) == "" then Creature
    else
      match ParseUuid(TrimSpace(Printed(env.show, raw)))
      case None => Malformed
      case Some(id) => if id == NIL_ID then Malformed else Linked(id)
  }

  function LinkedIds(env: Env, cs: seq<Fields>): (ids: set<Id>)
    ensures forall id :: id in ids <==> exists i :: 0 <= i < |cs| && CharacterRef(env, cs[i]) == Linked(id)
  {
    set i | 0 <= i < |cs| && CharacterRef(env, cs[i]).Linked? :: CharacterRef(env, cs[i]).id
  }

  predicate AnyMalformed(env: Env, cs: seq<Fields>) {
    exists i | 0 <= i < |cs| :: CharacterRef(env, cs[i]).Malformed?
  }

  /** The sheet ids that a state names as they are spelled there. */
  function StateIds(state: Fields): set<string> {
    var cs := Combatants(state);
    set i | 0 <= i < |cs| && Field(cs[i], "characterId").Str? && Field(cs[i], "characterId").text != "" ::
      Field(cs[i], "characterId").text
  }

  predicate CombatantsReadable(state: Fields) {
    var v := Field(state, "combatants");
    v.Null? || (v.Arr? && forall i | 0 <= i < |v.items| :: v.items[i].Obj?)
  }

  // ---- Actors ----

  datatype Access = Access(sheet: Option<Id>, controller: Id)

  function ActorAccess(env: Env, sheets: map<Id, Sheet>, cs: seq<Fields>, actors: map<string,
        Access>): Result<map<string, Access>, Refusal>
    decreases |cs|
  {
    if cs == [] then Ok(actors)
    else
      var raw := Field(cs[0], "actorId");
      if !raw.Str? || Blank(raw.text) || TrimSpace(raw.text) in actors then Err(Unacceptable)
      else
        match CharacterRef(env, cs[0])
        case Malformed => Err(Unacceptable)
        case Creature => ActorAccess(env, sheets, cs[1..], actors[TrimSpace(raw.text) := Access(None, NIL_ID)])
        case Linked(id) =>
          if id !in sheets then Err(Unacceptable)
          else ActorAccess(env, sheets, cs[1..], actors[TrimSpace(raw.text) := Access(Some(id), sheets[id].owner)])
  }

  // ---- Envelope ----

  const MAX_ARRAY_ITEMS := 128
  const MAX_LOG_BYTES := 4096
  const MAX_TARGET_BYTES := 64
  const MAX_ACTOR_ID_BYTES := 255

  predicate LogEntryOk(env: Env, e: LogEntry) {
    && Utf8Length(e.message) <= MAX_LOG_BYTES && Utf8Length(e.target) <= MAX_TARGET_BYTES
    && (if e.payload.None? then Blank(e.kind) && Blank(e.target)
        else !Blank(e.kind) && env.eventOk(e.kind, e.payload.value))
  }

  predicate EnvelopeOk(env: Env, op: Op) {
    && |op.patches| <= MAX_ARRAY_ITEMS && |op.add| <= MAX_ARRAY_ITEMS && |op.remove| <= MAX_ARRAY_ITEMS
    && |op.notes| <= MAX_ARRAY_ITEMS && |op.log| <= MAX_ARRAY_ITEMS
    && (forall n | n in op.notes :: n.Str? && Utf8Length(n.text) <= MAX_LOG_BYTES)
    && (forall e | e in op.log :: LogEntryOk(env, e))
  }

  // ---- Policy ----

  /** Only the interaction fields may be patched, and only with bounded values. */
  predicate PatchValueOk(env: Env, key: string, v: Json) {
    if key == "hp" || key == "temp" then BoundedInteger(v, 0, MAX_RUNTIME_VALUE)
    else if key == "activeEffects" || key == "pendingSaves" || key == "pendingAttacks" then
      v.Arr? && |v.items| <= MAX_RUNTIME_ROWS && env.rowsOk(key, v.items)
    else false
  }

  /** The master may touch anyone, a controller only the own sheet. */
  predicate MayTouch(enc: Encounter, caller: Id, a: Access) {
    caller == enc.owner || (a.sheet.Some? && a.controller == caller)
  }

  function CheckPatches(env: Env, enc: Encounter, caller: Id, actors: map<string, Access>,
        ps: seq<Patch>): Check<Refusal> {
    if ps == [] then Pass
    else if ps[0].actorId !in actors then Reject(BadInput)
    else if !MayTouch(enc, caller, actors[ps[0].actorId]) then Reject(NotAllowed)
    else if exists k | k in ps[0].values :: !PatchValueOk(env, k, ps[0].values[k]) then Reject(BadInput)
    else CheckPatches(env, enc, caller, actors, ps[1..])
  }

  function CheckRemovals(enc: Encounter, caller: Id, actors: map<string, Access>, ids: seq<string>): Check<Refusal> {
    if ids == [] then Pass
    else if ids[0] !in actors then Reject(BadInput)
    else if !MayTouch(enc, caller, actors[ids[0]]) then Reject(NotAllowed)
    else CheckRemovals(enc, caller, actors, ids[1..])
  }

  function CheckTurn(enc: Encounter, caller: Id, op: Op): Check<Refusal> {
    if (op.round.Some? || op.activeIndex.Some?) && caller != enc.owner then Reject(NotAllowed)
    else if op.round.Some? && op.round.value < 1 then Reject(BadInput)
    else if op.activeIndex.Some? && op.activeIndex.value < 0 then Reject(BadInput)
    else Pass
  }

  /** The actor and sheet identities in use, growing with each addition. */
  datatype Known = Known(actors: set<string>, sheets: set<Id>)

  function CheckAdd(env: Env, enc: Encounter, caller: Id, sheets: map<Id, Sheet>, a: Fields,
        known: Known): Result<Known, Refusal> {
    var raw := Field(a, "actorId");
    if !raw.Str? || Blank(raw.text) || Utf8Length(TrimSpace(raw.text)) > MAX_ACTOR_ID_BYTES then Err(BadInput)
    else if TrimSpace(raw.text) in known.actors then Err(Stale)
    else
      var actors := known.actors + {TrimSpace(raw.text)};
      match CharacterRef(env, a)
      case Creature => if caller != enc.owner then Err(NotAllowed) else Ok(Known(actors, known.sheets))
      case Malformed => Err(BadInput)
      case Linked(id) =>
        if id !in sheets then Err(BadInput)
        else if sheets[id].owner != caller then Err(NotAllowed)
        else if id in known.sheets then Err(Stale)
        else Ok(Known(actors, known.sheets + {id}))
  }

  function CheckAdds(env: Env, enc: Encounter, caller: Id, sheets: map<Id, Sheet>, adds: seq<Fields>,
        known: Known): Result<Known, Refusal>
    decreases |adds|
  {
    if adds == [] then Ok(known)
    else
      var next :- CheckAdd(env, enc, caller, sheets, adds[0], known);
      CheckAdds(env, enc, caller, sheets, adds[1..], next)
  }

  /** Checks the additions one by one. */
  method CheckAdditions(env: Env, enc: Encounter, caller: Id, sheets: map<Id, Sheet>, adds: seq<Fields>, start: Known)
    returns (r: Result<Known, Refusal>)
    ensures r == CheckAdds(env, enc, caller, sheets, adds, start)
  {
    hide CheckAdd;
    var known := start;
    var index := 0;
    assert adds[0..] == adds;
    while index < |adds|
      invariant 0 <= index <= |adds|
      invariant CheckAdds(env, enc, caller, sheets, adds[index..], known) == CheckAdds(env, enc, caller, sheets, adds, start)
    {
      assert adds[index..][0] == adds[index] && adds[index..][1..] == adds[index + 1..];
      var next := CheckAdd(env, enc, caller, sheets, adds[index], known);
      if next.Err? {
        return Err(next.error);
      }
      known := next.value;
      index := index + 1;
    }
    return Ok(known);
  }

  function CheckLog(entries: seq<LogEntry>, known: set<Id>): Check<Refusal> {
    if entries == [] then Pass
    else if Blank(entries[0].target) then CheckLog(entries[1..], known)
    else
      match ParseUuid(TrimSpace(entries[0].target))
      case None => Reject(BadInput)
      case Some(id) => if id in known then CheckLog(entries[1..], known) else Reject(NotAllowed)
  }

  function KnownBefore(actors: map<string, Access>): Known {
    Known(actors.Keys, set a | a in actors && actors[a].sheet.Some? :: actors[a].sheet.value)
  }

  function CheckPolicy(env: Env, enc: Encounter, caller: Id, actors: map<string, Access>, sheets: map<Id, Sheet>,
        op: Op): Check<Refusal> {
    if !IsParticipant(enc, caller) then Reject(NotAllowed)
    else if exists a | a in actors :: actors[a].sheet.Some? && !IsParticipant(enc, actors[a].controller) then Reject(Stale)
    else if CheckPatches(env, enc, caller, actors, op.patches).Reject? then CheckPatches(env, enc, caller, actors, op.patches)
    else if CheckRemovals(enc, caller, actors, op.remove).Reject? then CheckRemovals(enc, caller, actors, op.remove)
    else if CheckTurn(enc, caller, op).Reject? then CheckTurn(enc, caller, op)
    else
      match CheckAdds(env, enc, caller, sheets, op.add, KnownBefore(actors))
      case Err(e) => Reject(e)
      case Ok(known) => CheckLog(op.log, known.sheets)
  }

  // ---- Authoritative additions ----

  const CREATURE_KEYS := {"name", "hp", "maxHp", "ac", "temp", "activeEffects", "pendingSaves", "pendingAttacks", "avatarUrl", "initiative"}

  function TrimmedActorId(a: Fields): string {
    TrimSpace(if Field(a, "actorId").Str? then Field(a, "actorId").text else "")
  }

  /** A sheet joins with its stored values, whatever the caller sent. */
  function SheetCombatant(a: Fields, id: Id, sheet: Sheet): Fields {
    var c := map[
      "actorId" := Str(TrimmedActorId(a)), "name" := Str(sheet.profile.name), "isMonster" := Bool(false),
      "characterId" := Str(id), "ownerUserId" := Str(sheet.owner),
      "hp" := Num(sheet.runtime.currentHp), "maxHp" := Num(sheet.runtime.maxHp),
      "ac" := Num(sheet.profile.armorClass), "temp" := TempHp(sheet.runtime.turnState),
      "activeEffects" := if sheet.runtime.effects.Some? then Arr(sheet.runtime.effects.value) else Null,
      "avatarUrl" := Str(sheet.profile.avatarUrl)];
    if IsNumber(Field(a, "initiative")) then c["initiative" := a["initiative"]] else c
  }

  /** A creature keeps the declared fields only, never an identity of a sheet. */
  function CreatureCombatant(a: Fields): Fields {
    (map k | k in a && k in CREATURE_KEYS :: a[k])["actorId" := Str(TrimmedActorId(a))]["isMonster" := Bool(true)]
  }

  function NormalizedAdd(env: Env, sheets: map<Id, Sheet>, a: Fields): Fields {
    match CharacterRef(env, a)
    case Linked(id) => if id in sheets then SheetCombatant(a, id, sheets[id]) else CreatureCombatant(a)
    case _ => CreatureCombatant(a)
  }

  function NormalizedAdds(env: Env, sheets: map<Id, Sheet>, adds: seq<Fields>): (r: seq<Fields>)
    ensures |r| == |adds| && forall i | 0 <= i < |adds| :: r[i] == NormalizedAdd(env, sheets, adds[i])
  {
    seq(|adds|, i requires 0 <= i < |adds| => NormalizedAdd(env, sheets, adds[i]))
  }

  // ---- One encounter per sheet ----

  /** The sheet is really a combatant of another existing encounter. */
  predicate Elsewhere(s: Tabletop, text: string, here: Id) {
    match ParseUuid(text)
    case None => false
    case Some(id) =>
      && id in s.sheets && s.sheets[id].encounter.Some? && s.sheets[id].encounter.value != here
      && s.sheets[id].encounter.value in s.encounters
      && text in StateIds(s.encounters[s.sheets[id].encounter.value].state)
  }

  predicate Names(texts: set<string>, id: Id) {
    exists t | t in texts :: ParseUuid(t) == Some(id)
  }

  function LinkSheets(sheets: map<Id, Sheet>, texts: set<string>, here: Id): (r: map<Id, Sheet>)
    ensures r.Keys == sheets.Keys
  {
    map id | id in sheets :: if Names(texts, id) then sheets[id].(encounter := Some(here)) else sheets[id]
  }

  function UnlinkSheets(sheets: map<Id, Sheet>, texts: set<string>, here: Id): (r: map<Id, Sheet>)
    ensures r.Keys == sheets.Keys
  {
    map id | id in sheets ::
      if Names(texts, id) && sheets[id].encounter == Some(here) then sheets[id].(encounter := None) else sheets[id]
  }

  // ---- Writing combat state through to sheets ----

  /**
   * The fields that the operation wrote into one combatant. The hit points of
   * an added sheet are the sheet's own integers and are not written back.
   */
  function Touched(op: Op, actorId: string): set<string> {
    (set i, k | 0 <= i < |op.patches| && op.patches[i].actorId == actorId && k in op.patches[i].values :: k)
    + (set i, k | 0 <= i < |op.add| && Field(op.add[i], "actorId") == Str(actorId) && k in op.add[i] && k != "hp" :: k)
  }

  function SyncPatch(env: Env, sheet: Sheet, c: Fields, touched: set<string>): RuntimePatch {
    NO_PATCH.(
      currentHp := if "hp" in touched && IsNumber(Field(c, "hp")) then Some(Truncated(c["hp"])) else None,
      effects := if "activeEffects" in touched && Field(c, "activeEffects").Arr?
                 then Some(env.effectRows(c["activeEffects"].items)) else None,
      turnState := if "temp" in touched && IsNumber(Field(c, "temp"))
                   then Some(OrEmpty(sheet.runtime.turnState)[TEMP_KEY := Num(Truncated(c["temp"]))]) else None)
  }

  function SyncSheet(env: Env, sheet: Sheet, c: Fields, touched: set<string>): Sheet {
    var p := SyncPatch(env, sheet, c, touched);
    if p == NO_PATCH then sheet
    else sheet.(runtime := Overlay(sheet.runtime, p), revision := sheet.revision + 1)
  }

  /** The sheet behind a combatant whose fields may be written through. */
  function SyncTarget(sheets: map<Id, Sheet>, loaded: set<Id>, c: Fields): Option<Id> {
    var raw := Field(c, "characterId");
    if !raw.Str? || raw.text == "" then None
    else
      match ParseUuid(raw.text)
      case None => None
      case Some(id) => if id in loaded && id in sheets && sheets[id].owner != NIL_ID then Some(id) else None
  }

  function SyncOne(env: Env, sheets: map<Id, Sheet>, loaded: set<Id>, c: Fields, op: Op): (r: map<Id, Sheet>)
    ensures r.Keys == sheets.Keys
  {
    var target := SyncTarget(sheets, loaded, c);
    if target.None? then sheets
    else
      var touched := Touched(op, if Field(c, "actorId").Str? then c["actorId"].text else "");
      sheets[target.value := SyncSheet(env, sheets[target.value], c, touched)]
  }

  function SyncAll(env: Env, sheets: map<Id, Sheet>, loaded: set<Id>, cs: seq<Fields>, op: Op): (r: map<Id, Sheet>)
    ensures r.Keys == sheets.Keys
    decreases |cs|
  {
    if cs == [] then sheets else SyncAll(env, SyncOne(env, sheets, loaded, cs[0], op), loaded, cs[1..], op)
  }

  /** Writes the combatants through one by one. */
  method SyncCombatants(env: Env, start: map<Id, Sheet>, loaded: set<Id>, cs: seq<Fields>,
        op: Op) returns (sheets: map<Id, Sheet>)
    ensures sheets == SyncAll(env, start, loaded, cs, op)
  {
    hide SyncOne;
    sheets := start;
    var index := 0;
    assert cs[0..] == cs;
    while index < |cs|
      invariant 0 <= index <= |cs|
      invariant SyncAll(env, sheets, loaded, cs[index..], op) == SyncAll(env, start, loaded, cs, op)
    {
      assert cs[index..][0] == cs[index] && cs[index..][1..] == cs[index + 1..];
      sheets := SyncOne(env, sheets, loaded, cs[index], op);
      index := index + 1;
    }
  }

  // ---- Journals ----

  /** The journal rows of addressed entries; an entry outside the encounter is skipped. */
  function JournalRows(env: Env, entries: seq<LogEntry>, loaded: set<Id>): Result<seq<JournalRow>, Refusal> {
    if entries == [] then Ok([])
    else
      var e := entries[0];
      if e.target == "" then JournalRows(env, entries[1..], loaded)
      else if e.payload.None? || ParseUuid(e.target).None? then Err(BadInput)
      else if ParseUuid(e.target).value !in loaded then JournalRows(env, entries[1..], loaded)
      else if e.kind == "" || !env.eventOk(e.kind, e.payload.value) then Err(BadInput)
      else
        var rest :- JournalRows(env, entries[1..], loaded);
        Ok([JournalRow(ParseUuid(e.target).value, e.kind, e.payload.value)] + rest)
  }

  // ---- The operation ----

  /** What a transaction has read and decided before its first write. */
  datatype Accepted = Accepted(enc: Encounter, op: Op, state: Fields, loaded: set<Id>)

  function Accept(env: Env, s: Tabletop, caller: Id, id: Id, r: ApplyRequest): Result<Accepted, Refusal> {
    if r.expectedSeq.None? || r.expectedSeq.value < 0 || !EnvelopeOk(env, r.op) then Err(BadInput)
    else if caller == NIL_ID then Err(Unauthenticated)
    else if id !in s.encounters then Err(NotFound)
    else
      var enc := s.encounters[id];
      if !IsParticipant(enc, caller) then Err(NotAllowed)
      else if enc.seqNo != r.expectedSeq.value then Err(Stale)
      else if !CombatantsReadable(enc.state) then Err(Unacceptable)
      else
        var cs := Combatants(enc.state);
        if AnyMalformed(env, cs) then Err(Unacceptable)
        else if AnyMalformed(env, r.op.add) then Err(BadInput)
        else
          var loaded := LinkedIds(env, cs) + LinkedIds(env, r.op.add);
          if !(loaded <= s.sheets.Keys) then Err(Unacceptable)
          else
            var actors :- ActorAccess(env, s.sheets, cs, map[]);
            var policy := CheckPolicy(env, enc, caller, actors, s.sheets, r.op);
            if policy.Reject? then Err(policy.error)
            else
              var op := r.op.(add := NormalizedAdds(env, s.sheets, r.op.add));
              var state := ApplyOps(env.show, enc.state, op);
              var entering, leaving := StateIds(state) - StateIds(enc.state), StateIds(enc.state) - StateIds(state);
              if exists t | t in entering :: Elsewhere(s, t, id) then Err(Stale)
              else if exists t | t in entering + leaving :: ParseUuid(t).None? then Err(Failed)
              else if exists t | t in entering :: ParseUuid(t).value !in s.sheets then Err(Stale)
              else Ok(Accepted(enc, op, state, loaded))
  }

  function ApplyEncounter(env: Env, s: Tabletop, caller: Id, id: Id, r: ApplyRequest): Result<(Tabletop, (int,
        Fields)), Refusal> {
    var a :- Accept(env, s, caller, id, r);
    var entering, leaving := StateIds(a.state) - StateIds(a.enc.state), StateIds(a.enc.state) - StateIds(a.state);
    var linked := UnlinkSheets(LinkSheets(s.sheets, entering, id), leaving, id);
    var sheets := SyncAll(env, linked, a.loaded, Combatants(a.state), a.op);
    var rows :- JournalRows(env, r.op.log, a.loaded);
    var event := Event(a.enc.seqNo + 1, OpPayload(r.(op := a.op)));
    var enc := a.enc.(state := a.state, seqNo := a.enc.seqNo + 1, events := a.enc.events + [event]);
    Ok((s.(encounters := s.encounters[id := enc], sheets := sheets, journal := s.journal + rows), (enc.seqNo, a.state)))
  }

  // ---- Creating, joining, deleting ----

  const DEFAULT_NAME := "Бой"

  function CreateEncounter(s: Tabletop, caller: Id, id: Id, name: string): Result<(Tabletop, ()), Refusal> {
    if caller == NIL_ID then Err(Unauthenticated)
    else if id in s.issued then Err(Failed)
    else
      var enc := Encounter(if name == "" then DEFAULT_NAME else name, caller, [caller], EMPTY_STATE, 0, []);
      Ok((s.(encounters := s.encounters[id := enc], issued := s.issued + {id}), ()))
  }

  predicate ControlsSheet(actors: map<string, Access>, user: Id) {
    exists a | a in actors :: actors[a].sheet.Some? && actors[a].controller == user
  }

  /** Participants and owners of combatants need no invitation. */
  function JoinEncounter(env: Env, s: Tabletop, caller: Id, id: Id, invited: bool): Result<(Tabletop, ()), Refusal> {
    if caller == NIL_ID then Err(Unauthenticated)
    else if id !in s.encounters then Err(NotFound)
    else
      var enc := s.encounters[id];
      var cs := Combatants(enc.state);
      if !CombatantsReadable(enc.state) || AnyMalformed(env, cs) || !(LinkedIds(env, cs) <= s.sheets.Keys) then Err(Unacceptable)
      else
        var actors :- ActorAccess(env, s.sheets, cs, map[]);
        var allowed := IsParticipant(enc, caller) || ControlsSheet(actors, caller);
        if !allowed && !invited then Err(NotAllowed)
        else if IsParticipant(enc, caller) then Ok((s, ()))
        else Ok((s.(encounters := s.encounters[id := enc.(members := enc.members + [caller])]), ()))
  }

  function DeleteEncounter(s: Tabletop, caller: Id, id: Id): Result<(Tabletop, ()), Refusal> {
    if caller == NIL_ID then Err(Unauthenticated)
    else if id !in s.encounters then Err(NotFound)
    else if s.encounters[id].owner != caller then Err(NotAllowed)
    else
      var sheets := map k | k in s.sheets ::
        if s.sheets[k].encounter == Some(id) then s.sheets[k].(encounter := None) else s.sheets[k];
      Ok((s.(encounters := s.encounters - {id}, sheets := sheets), ()))
  }
}
