/** Runtime commands: several sheets advanced together, once per command id. */
module CommandRules {
  import opened JsonValues
  import opened Outcomes
  import opened TextRules
  import opened WorldState
  import opened Identifiers
  import opened EncounterState
  import opened TabletopTables
  import opened TextOrder
  import CanonicalJson
  import CT = CanonicalText

  const MAX_BODY_BYTES := 2097152
  const MAX_PARTICIPANTS := 16
  const MAX_EVENTS := 256
  const MAX_KEY_BYTES := 255
  const SYSTEM_ID := "dnd5e-2024"

  // ---- Inventory ----

  /** Rows are told apart by card and container. */
  function Identity(row: Item): (string, string) {
    (row.cardId, row.containerId)
  }

  predicate RealId(s: string) {
    IsCanonical(s) && s != NIL_ID
  }

  predicate ItemOk(row: Item) {
    && RealId(row.cardId) && 0 < row.qty <= MAX_RUNTIME_VALUE
    && (row.containerId != "" ==> RealId(row.containerId) && row.containerId != row.cardId)
  }

  /** Distinct rows of real cards whose containers are cards of the same inventory. */
  predicate InventoryOk(rows: seq<Item>) {
    && |rows| <= MAX_RUNTIME_ROWS
    && (forall i | 0 <= i < |rows| :: ItemOk(rows[i]))
    && (forall i, j | 0 <= i < j < |rows| :: Identity(rows[i]) != Identity(rows[j]))
    && (forall i | 0 <= i < |rows| && rows[i].containerId != "" ::
          exists j :: 0 <= j < |rows| && rows[j].cardId == rows[i].containerId)
  }

  /** Checks the rows in two passes, remembering identities and cards. */
  method CheckInventory(rows: seq<Item>) returns (ok: bool)
    ensures ok == InventoryOk(rows)
  {
    hide ItemOk;
    if |rows| > MAX_RUNTIME_ROWS {
      return false;
    }
    var identities: set<(string, string)> := {};
    var cards: set<string> := {};
    var index := 0;
    while index < |rows|
      invariant 0 <= index <= |rows|
      invariant forall i | 0 <= i < index :: ItemOk(rows[i])
      invariant forall i, j | 0 <= i < j < index :: Identity(rows[i]) != Identity(rows[j])
      invariant identities == set i | 0 <= i < index :: Identity(rows[i])
      invariant cards == set i | 0 <= i < index :: rows[i].cardId
    {
      var row := rows[index];
      if !ItemOk(row) {
        return false;
      }
      if Identity(row) in identities {
        ghost var earlier :| 0 <= earlier < index && Identity(rows[earlier]) == Identity(row);
        assert !InventoryOk(rows);
        return false;
      }
      identities := identities + {Identity(row)};
      cards := cards + {row.cardId};
      index := index + 1;
    }
    index := 0;
    while index < |rows|
      invariant 0 <= index <= |rows|
      invariant forall i | 0 <= i < index && rows[i].containerId != "" ::
                  exists j :: 0 <= j < |rows| && rows[j].cardId == rows[i].containerId
    {
      if rows[index].containerId != "" && rows[index].containerId !in cards {
        assert forall j | 0 <= j < |rows| :: rows[j].cardId in cards;
        return false;
      }
      index := index + 1;
    }
    return true;
  }

  /** Every row of the next inventory is there already with at least its quantity. */
  predicate OnlyConsumes(current: seq<Item>, next: seq<Item>) {
    forall row | row in next ::
      exists i :: 0 <= i < |current| && Identity(current[i]) == Identity(row) && row.qty <= current[i].qty
  }

  function Rows(inventory: Option<seq<Item>>): seq<Item> {
    if inventory.Some? then inventory.value else []
  }

  function CheckConsumption(current: Option<seq<Item>>, next: seq<Item>): Check<Refusal> {
    if !InventoryOk(Rows(current)) then Reject(Unacceptable)
    else if !OnlyConsumes(Rows(current), next) then Reject(Unacceptable)
    else Pass
  }

  /** Looks quantities up in a table of the current rows. */
  method CheckConsumptionRows(current: seq<Item>, next: seq<Item>) returns (ok: bool)
    requires InventoryOk(current)
    ensures ok == OnlyConsumes(current, next)
  {
    hide ItemOk;
    var available: map<(string, string), int> := map[];
    var index := 0;
    while index < |current|
      invariant 0 <= index <= |current|
      invariant forall k :: k in available <==> exists i :: 0 <= i < index && Identity(current[i]) == k
      invariant forall i | 0 <= i < index :: available[Identity(current[i])] == current[i].qty
    {
      available := available[Identity(current[index]) := current[index].qty];
      index := index + 1;
    }
    index := 0;
    while index < |next|
      invariant 0 <= index <= |next|
      invariant forall j | 0 <= j < index ::
                  exists i :: 0 <= i < |current| && Identity(current[i]) == Identity(next[j]) && next[j].qty <= current[i].qty
    {
      var row := next[index];
      if Identity(row) !in available || row.qty > available[Identity(row)] {
        assert row in next;
        return false;
      }
      ghost var i :| 0 <= i < |current| && Identity(current[i]) == Identity(row);
      index := index + 1;
    }
    return true;
  }

  // ---- Turn state ----

  /** A null deletes its key, any other value replaces it. */
  function MergedTurn(current: Option<Fields>, patch: Fields): Fields {
    (map k | k in OrEmpty(current) && k !in patch :: OrEmpty(current)[k])
    + (map k | k in patch && !patch[k].Null? :: patch[k])
  }

  /** Visits the patch in any order. */
  method MergeTurn(current: Option<Fields>, patch: Fields) returns (merged: Fields)
    ensures merged == MergedTurn(current, patch)
  {
    merged := OrEmpty(current);
    var todo := patch.Keys;
    ghost var base := OrEmpty(current);
    while todo != {}
      invariant todo <= patch.Keys
      invariant forall k :: k in merged <==> if k in patch && k !in todo then !patch[k].Null? else k in base
      invariant forall k | k in merged :: merged[k] == if k in patch && k !in todo then patch[k] else base[k]
      decreases |todo|
    {
      var k :| k in todo;
      if patch[k].Null? {
        merged := merged - {k};
      } else {
        merged := merged[k := patch[k]];
      }
      todo := todo - {k};
    }
    assert merged == MergedTurn(current, patch);
  }

  // ---- One participant ----

  /** A resource with a declared maximum is a bounded integer at most that maximum. */
  predicate WithinMaximum(resources: Fields, maximums: Fields, key: string)
    requires key in resources && key in maximums
  {
    && BoundedInteger(resources[key], 0, MAX_RUNTIME_VALUE) && BoundedInteger(maximums[key], 0, MAX_RUNTIME_VALUE)
    && resources[key].n <= maximums[key].n
  }

  predicate ResourcesBounded(resources: Option<Fields>, maximums: Option<Fields>) {
    resources.Some? && maximums.Some? ==>
      forall k | k in resources.value && k in maximums.value :: WithinMaximum(resources.value, maximums.value, k)
  }

  /** The runtime of a sheet after its part of a command. */
  function Advanced(r: Runtime, p: RuntimePatch): Result<Runtime, Refusal> {
    if p.currentHp.Some? && p.currentHp.value > r.maxHp then Err(Unacceptable)
    else if p.inventory.Some? && CheckConsumption(r.inventory, p.inventory.value).Reject? then Err(Unacceptable)
    else if !ResourcesBounded(if p.resources.Some? then p.resources else r.resources,
                              if p.maxResources.Some? then p.maxResources else r.maxResources) then Err(Unacceptable)
    else
      var turn := if p.turnState.Some? then Some(MergedTurn(r.turnState, p.turnState.value)) else None;
      Ok(Overlay(r, p.(turnState := turn)))
  }

  // ---- Validation ----

  predicate AmountsOk(m: Option<Fields>) {
    m.Some? ==> forall k | k in m.value ::
      !Blank(k) && Utf8Length(k) <= MAX_KEY_BYTES && BoundedInteger(m.value[k], 0, MAX_RUNTIME_VALUE)
  }

  predicate TurnOk(m: Option<Fields>) {
    m.Some? ==> forall k | k in m.value :: !Blank(k) && Utf8Length(k) <= MAX_KEY_BYTES
  }

  /** Only the command's own columns, each within bounds, and at least one of them. */
  predicate PatchOk(env: Env, p: RuntimePatch) {
    && p.maxHp.None? && p.equipment.None? && p != NO_PATCH
    && (p.currentHp.Some? ==> 0 <= p.currentHp.value <= MAX_RUNTIME_VALUE)
    && AmountsOk(p.resources) && AmountsOk(p.maxResources) && AmountsOk(p.currency) && TurnOk(p.turnState)
    && (p.effects.Some? ==> |p.effects.value| <= MAX_RUNTIME_ROWS && env.rowsOk("activeEffects", p.effects.value))
    && (p.inventory.Some? ==> InventoryOk(p.inventory.value))
  }

  predicate RulesetOk(r: Ruleset) {
    && r.systemId == SYSTEM_ID
    && !Blank(r.releaseId) && Trimmed(r.releaseId) && Utf8Length(r.releaseId) <= 255
    && IsSha256(r.contentHash)
    && !Blank(r.errataVersion) && Trimmed(r.errataVersion) && Utf8Length(r.errataVersion) <= 100
  }

  predicate CommandOk(env: Env, r: CommandRequest) {
    && RealId(r.commandId) && RulesetOk(r.ruleset)
    && 0 < |r.participants| <= MAX_PARTICIPANTS && |r.events| <= MAX_EVENTS
    && (forall i | 0 <= i < |r.participants| ::
          var p := r.participants[i];
          RealId(p.characterId) && p.expectedRevision >= 0 && PatchOk(env, p.patch))
    && (forall i | 0 < i < |r.participants| :: Precedes(r.participants[i - 1].characterId, r.participants[i].characterId))
    && (forall e | e in r.events ::
          RealId(e.characterId) && (exists p | p in r.participants :: p.characterId == e.characterId)
          && env.eventOk(e.kind, e.payload))
  }

  /** The request and the hash of its canonical text. */
  function DecodeCommand(env: Env, raw: string): (r: Result<(CommandRequest, string), Refusal>)
    ensures r.Ok? ==> CommandOk(env, r.value.0)
  {
    if raw == "" then Err(Unacceptable)
    else if Utf8Length(raw) > MAX_BODY_BYTES then Err(TooBig)
    else
      match CanonicalJson.Decode(raw)
      case Err(_) => Err(Unacceptable)
      case Ok(v) =>
        match env.commandShape(v)
        case None => Err(Unacceptable)
        case Some(request) =>
          if CommandOk(env, request) then Ok((request, env.hash(CT.Text(v)))) else Err(Unacceptable)
  }

  // ---- The transaction ----

  /** The participant may be changed by this command at the revision it expects. */
  function CheckParticipant(sheets: map<Id, Sheet>, systemId: string, p: Participant): Check<Refusal>
    requires IsCanonical(p.characterId) && p.characterId in sheets
  {
    var sheet := sheets[p.characterId];
    if sheet.metadata.systemId != systemId then Reject(Unacceptable)
    else if sheet.encounter.Some? then Reject(Stale)
    else if sheet.revision != p.expectedRevision then Reject(Stale)
    else Pass
  }

  predicate Present(sheets: map<Id, Sheet>, ps: seq<Participant>) {
    forall p | p in ps :: IsCanonical(p.characterId) && p.characterId in sheets
  }

  function CheckParticipants(sheets: map<Id, Sheet>, systemId: string, ps: seq<Participant>): Check<Refusal>
    requires Present(sheets, ps)
  {
    if ps == [] then Pass
    else if CheckParticipant(sheets, systemId, ps[0]).Reject? then CheckParticipant(sheets, systemId, ps[0])
    else CheckParticipants(sheets, systemId, ps[1..])
  }

  function AdvanceSheet(sheet: Sheet, p: RuntimePatch): Result<Sheet, Refusal> {
    var runtime :- Advanced(sheet.runtime, p);
    Ok(sheet.(runtime := runtime, revision := sheet.revision + 1))
  }

  function AdvanceAll(sheets: map<Id, Sheet>, ps: seq<Participant>, results: seq<ParticipantResult>): Result<(map<Id,
        Sheet>, seq<ParticipantResult>), Refusal>
    requires Present(sheets, ps)
    decreases |ps|
  {
    if ps == [] then Ok((sheets, results))
    else
      assert ps[0] in ps;
      var id := ps[0].characterId;
      var sheet :- AdvanceSheet(sheets[id], ps[0].patch);
      AdvanceAll(sheets[id := sheet], ps[1..], results + [ParticipantResult(id, sheet.revision, sheet)])
  }

  /** Advances the participants one by one. */
  method AdvanceParticipants(start: map<Id, Sheet>, ps: seq<Participant>)
    returns (r: Result<(map<Id, Sheet>, seq<ParticipantResult>), Refusal>)
    requires Present(start, ps)
    ensures r == AdvanceAll(start, ps, [])
  {
    hide AdvanceSheet;
    var sheets: map<Id, Sheet> := start;
    var results: seq<ParticipantResult> := [];
    var index := 0;
    assert ps[0..] == ps;
    while index < |ps|
      invariant 0 <= index <= |ps| && Present(sheets, ps[index..])
      invariant AdvanceAll(sheets, ps[index..], results) == AdvanceAll(start, ps, [])
    {
      assert ps[index..][0] == ps[index] && ps[index..][1..] == ps[index + 1..];
      var id: Id := ps[index].characterId;
      var sheet := AdvanceSheet(sheets[id], ps[index].patch);
      if sheet.Err? {
        return Err(sheet.error);
      }
      sheets := sheets[id := sheet.value];
      results := results + [ParticipantResult(id, sheet.value.revision, sheet.value)];
      index := index + 1;
    }
    return Ok((sheets, results));
  }

  function EventRows(events: seq<CommandEvent>): (rows: seq<JournalRow>)
    requires forall e | e in events :: IsCanonical(e.characterId)
    ensures |rows| == |events|
    ensures forall i | 0 <= i < |events| :: rows[i] == JournalRow(events[i].characterId, events[i].kind, events[i].payload)
  {
    seq(|events|, i requires 0 <= i < |events| => JournalRow(events[i].characterId, events[i].kind, events[i].payload))
  }

  predicate Owned(s: Tabletop, caller: Id, ps: seq<Participant>) {
    forall p | p in ps :: IsCanonical(p.characterId) && p.characterId in s.sheets && s.sheets[p.characterId].owner == caller
  }

  function Execute(env: Env, s: Tabletop, caller: Id, r: CommandRequest, requestHash: string): Result<(Tabletop,
        CommandResponse), Refusal>
    requires CommandOk(env, r)
  {
    var key: (Id, Id) := (caller, r.commandId);
    if key in s.receipts then
      if s.receipts[key].requestHash != requestHash then Err(Stale)
      else Ok((s, s.receipts[key].response.(replayed := true)))
    else if !Owned(s, caller, r.participants) then Err(NotAllowed)
    else
      var check := CheckParticipants(s.sheets, r.ruleset.systemId, r.participants);
      if check.Reject? then Err(check.error)
      else
        var advanced :- AdvanceAll(s.sheets, r.participants, []);
        var response := CommandResponse(r.commandId, false, advanced.1);
        Ok((s.(sheets := advanced.0, journal := s.journal + EventRows(r.events),
               receipts := s.receipts[key := Receipt(requestHash, response)]), response))
  }

  function PostCommand(env: Env, s: Tabletop, caller: Id, raw: string): Result<(Tabletop, CommandResponse), Refusal> {
    if caller == NIL_ID then Err(Unauthenticated)
    else
      var decoded :- DecodeCommand(env, raw);
      Execute(env, s, caller, decoded.0, decoded.1)
  }
}
