/** Runtime commands: exactly which are accepted, and what they write, column by column. */
module CommandContract {
  import opened JsonValues
  import opened Outcomes
  import opened TextRules
  import opened WorldState
  import opened Identifiers
  import opened EncounterState
  import opened TabletopTables
  import opened CommandRules
  import opened TextOrder
  import opened TabletopInvariant
  import opened TabletopRuns
  import CanonicalJson
  import CT = CanonicalText

  // ---- What is written ----

  /** The column holds the named value, or what it held. */
  predicate Column<T(==)>(named: Option<T>, before: Option<T>, after: Option<T>) {
    after == match named case Some(v) => Some(v) case None => before
  }

  /** A key of the turn state is the patch's value, gone if that is null, and as it was if it is not named. */
  predicate TurnKey(before: Option<Fields>, patch: Fields, after: Fields, k: string) {
    if k in patch then
      if patch[k] == Null then k !in after else k in after && after[k] == patch[k]
    else if before.Some? && k in before.value then k in after && after[k] == before.value[k]
    else k !in after
  }

  ghost predicate ColumnsWritten(before: Runtime, p: RuntimePatch, after: Runtime) {
    && after.currentHp == (match p.currentHp case Some(v) => v case None => before.currentHp)
    && after.maxHp == before.maxHp && after.equipment == before.equipment
    && Column(p.inventory, before.inventory, after.inventory)
    && Column(p.resources, before.resources, after.resources)
    && Column(p.maxResources, before.maxResources, after.maxResources)
    && Column(p.effects, before.effects, after.effects)
    && Column(p.currency, before.currency, after.currency)
    && match p.turnState
       case None => after.turnState == before.turnState
       case Some(patch) => after.turnState.Some? && forall k :: TurnKey(before.turnState, patch, after.turnState.value, k)
  }

  lemma AdvancedColumns(before: Runtime, p: RuntimePatch)
    requires Advanced(before, p).Ok? && p.maxHp.None? && p.equipment.None?
    ensures ColumnsWritten(before, p, Advanced(before, p).value)
  {
    hide CheckConsumption, ResourcesBounded;
  }

  // ---- What is accepted ----

  predicate Amount(v: Json) {
    v.Num? && 0 <= v.n <= 1_000_000
  }

  predicate KeyAllowed(k: string) {
    TrimSpace(k) != "" && Utf8Length(k) <= 255
  }

  predicate AmountsAllowed(m: Option<Fields>) {
    m.Some? ==> forall k | k in m.value :: KeyAllowed(k) && Amount(m.value[k])
  }

  predicate CardId(text: string) {
    IsCanonical(text) && text != NIL_ID
  }

  /** At most 128 rows of cards, no two alike, each in no container or in another card of the inventory. */
  predicate ItemsAllowed(rows: seq<Item>) {
    && |rows| <= 128
    && (forall row | row in rows :: CardId(row.cardId) && 1 <= row.qty <= 1_000_000)
    && (forall row | row in rows && row.containerId != "" ::
          CardId(row.containerId) && row.containerId != row.cardId && exists other :: other in rows && other.cardId == row.containerId)
    && forall i, j | 0 <= i < j < |rows| :: rows[i].cardId != rows[j].cardId || rows[i].containerId != rows[j].containerId
  }

  /** A patch of a command names columns of play only, at least one, each within its bounds. */
  predicate PatchAllowed(env: Env, p: RuntimePatch) {
    && p.maxHp.None? && p.equipment.None?
    && (p.currentHp.Some? || p.inventory.Some? || p.resources.Some? || p.maxResources.Some? || p.effects.Some? || p.turnState.Some?
        || p.currency.Some?)
    && (p.currentHp.Some? ==> 0 <= p.currentHp.value <= 1_000_000)
    && AmountsAllowed(p.resources) && AmountsAllowed(p.maxResources) && AmountsAllowed(p.currency)
    && (p.turnState.Some? ==> forall k | k in p.turnState.value :: KeyAllowed(k))
    && (p.effects.Some? ==> |p.effects.value| <= 128 && env.rowsOk("activeEffects", p.effects.value))
    && (p.inventory.Some? ==> ItemsAllowed(p.inventory.value))
  }

  function Effective<T>(named: Option<T>, stored: Option<T>): Option<T> {
    if named.Some? then named else stored
  }

  /** The patch stays below the maximum, only takes from the inventory, and keeps resources within theirs. */
  predicate Fits(r: Runtime, p: RuntimePatch) {
    && (p.currentHp.Some? ==> p.currentHp.value <= r.maxHp)
    && (p.inventory.Some? ==>
          var current := match r.inventory case Some(rows) => rows case None => [];
          && ItemsAllowed(current)
          && forall row | row in p.inventory.value ::
               exists held :: held in current && held.cardId == row.cardId && held.containerId == row.containerId && row.qty <= held.qty)
    && var resources, maximums := Effective(p.resources, r.resources), Effective(p.maxResources, r.maxResources);
       resources.Some? && maximums.Some? ==>
         forall k | k in resources.value && k in maximums.value ::
           Amount(resources.value[k]) && Amount(maximums.value[k]) && resources.value[k].n <= maximums.value[k].n
  }

  /** The request on its own: a command id, the ruleset, one to sixteen participants in ascending order, events of participants. */
  predicate RequestAllowed(env: Env, q: CommandRequest) {
    && CardId(q.commandId)
    && q.ruleset.systemId == "dnd5e-2024"
    && TrimSpace(q.ruleset.releaseId) == q.ruleset.releaseId != "" && Utf8Length(q.ruleset.releaseId) <= 255
    && |q.ruleset.contentHash| == 71 && q.ruleset.contentHash[..7] == "sha256:"
    && (forall i | 7 <= i < 71 :: '0' <= q.ruleset.contentHash[i] <= '9' || 'a' <= q.ruleset.contentHash[i] <= 'f')
    && TrimSpace(q.ruleset.errataVersion) == q.ruleset.errataVersion != "" && Utf8Length(q.ruleset.errataVersion) <= 100
    && 1 <= |q.participants| <= 16 && |q.events| <= 256
    && (forall p | p in q.participants :: CardId(p.characterId) && p.expectedRevision >= 0 && PatchAllowed(env, p.patch))
    && (forall i | 0 < i < |q.participants| :: Precedes(q.participants[i - 1].characterId, q.participants[i].characterId))
    && (forall e | e in q.events ::
          CardId(e.characterId) && (exists p | p in q.participants :: p.characterId == e.characterId) && env.eventOk(e.kind, e.payload))
  }

  /** The sheet is the caller's, plays the same system outside encounters, is at the expected version, and the patch fits it. */
  predicate ParticipantAllowed(s: Tabletop, caller: Id, q: CommandRequest, p: Participant) {
    && IsCanonical(p.characterId) && p.characterId in s.sheets
    && var sheet := s.sheets[p.characterId];
    && sheet.owner == caller && sheet.metadata.systemId == q.ruleset.systemId && sheet.encounter.None?
    && sheet.revision == p.expectedRevision && Fits(sheet.runtime, p.patch)
  }

  predicate CommandAllowed(env: Env, s: Tabletop, caller: Id, raw: string) {
    && caller != NIL_ID && raw != "" && Utf8Length(raw) <= 2_097_152 && CanonicalJson.Decode(raw).Ok?
    && var v := CanonicalJson.Decode(raw).value;
       var q := env.commandShape(v);
    && q.Some? && RequestAllowed(env, q.value)
    && var key: (Id, Id) := (caller, q.value.commandId);
       if key in s.receipts then s.receipts[key].requestHash == env.hash(CT.Text(v))
       else forall p | p in q.value.participants :: ParticipantAllowed(s, caller, q.value, p)
  }

  lemma AmountsIff(m: Option<Fields>)
    ensures AmountsOk(m) <==> AmountsAllowed(m)
  {
    hide TrimSpace, Utf8Length;
  }

  lemma ItemsIff(rows: seq<Item>)
    ensures InventoryOk(rows) <==> ItemsAllowed(rows)
  {
    hide IsCanonical;
    if InventoryOk(rows) {
      forall row | row in rows
        ensures CardId(row.cardId) && 1 <= row.qty <= 1_000_000
        ensures row.containerId != "" ==> CardId(row.containerId) && row.containerId != row.cardId
        ensures row.containerId != "" ==> exists other :: other in rows && other.cardId == row.containerId
      {
        var i :| 0 <= i < |rows| && rows[i] == row;
        assert ItemOk(rows[i]);
        if row.containerId != "" {
          var j :| 0 <= j < |rows| && rows[j].cardId == rows[i].containerId;
          assert rows[j] in rows;
        }
      }
      forall i, j | 0 <= i < j < |rows| ensures rows[i].cardId != rows[j].cardId || rows[i].containerId != rows[j].containerId {
        assert Identity(rows[i]) != Identity(rows[j]);
      }
    }
    if ItemsAllowed(rows) {
      forall i | 0 <= i < |rows| ensures ItemOk(rows[i]) {
        assert rows[i] in rows;
      }
      forall i | 0 <= i < |rows| && rows[i].containerId != ""
        ensures exists j :: 0 <= j < |rows| && rows[j].cardId == rows[i].containerId
      {
        assert rows[i] in rows;
        var other :| other in rows && other.cardId == rows[i].containerId;
        var j :| 0 <= j < |rows| && rows[j] == other;
      }
    }
  }

  lemma PatchIff(env: Env, p: RuntimePatch)
    ensures PatchOk(env, p) <==> PatchAllowed(env, p)
  {
    hide AmountsOk, AmountsAllowed, InventoryOk, ItemsAllowed, TrimSpace, Utf8Length;
    AmountsIff(p.resources);
    AmountsIff(p.maxResources);
    AmountsIff(p.currency);
    if p.inventory.Some? { ItemsIff(p.inventory.value); }
  }

  lemma FitsIff(r: Runtime, p: RuntimePatch)
    ensures Advanced(r, p).Ok? <==> Fits(r, p)
  {
    hide CheckConsumption, ResourcesBounded, ItemsAllowed, Overlay, MergedTurn;
    if p.inventory.Some? { ConsumptionIff(r.inventory, p.inventory.value); }
    BoundedIff(Effective(p.resources, r.resources), Effective(p.maxResources, r.maxResources));
  }

  lemma BoundedIff(resources: Option<Fields>, maximums: Option<Fields>)
    ensures ResourcesBounded(resources, maximums) <==>
            (resources.Some? && maximums.Some? ==>
               forall k | k in resources.value && k in maximums.value ::
                 Amount(resources.value[k]) && Amount(maximums.value[k]) && resources.value[k].n <= maximums.value[k].n)
  {
  }

  lemma ConsumptionIff(inventory: Option<seq<Item>>, next: seq<Item>)
    ensures var current := match inventory case Some(rows) => rows case None => [];
            CheckConsumption(inventory, next).Pass? <==>
            && ItemsAllowed(current)
            && forall row | row in next ::
                 exists held :: held in current && held.cardId == row.cardId && held.containerId == row.containerId && row.qty <= held.qty
  {
    hide InventoryOk, ItemsAllowed, OnlyConsumes;
    var current := match inventory case Some(rows) => rows case None => [];
    ItemsIff(current);
    ConsumesIff(current, next);
  }

  lemma ConsumesIff(current: seq<Item>, next: seq<Item>)
    ensures OnlyConsumes(current, next) <==>
            forall row | row in next ::
              exists held :: held in current && held.cardId == row.cardId && held.containerId == row.containerId && row.qty <= held.qty
  {
    forall row | row in next
      ensures (exists i :: 0 <= i < |current| && Identity(current[i]) == Identity(row) && row.qty <= current[i].qty) <==>
              (exists held :: held in current && held.cardId == row.cardId && held.containerId == row.containerId && row.qty <= held.qty)
    {
      if i :| 0 <= i < |current| && Identity(current[i]) == Identity(row) && row.qty <= current[i].qty {
        assert current[i] in current;
      }
      if held :| held in current && held.cardId == row.cardId && held.containerId == row.containerId && row.qty <= held.qty {
        var i :| 0 <= i < |current| && current[i] == held;
        assert Identity(current[i]) == Identity(row);
      }
    }
  }

  lemma RequestIff(env: Env, q: CommandRequest)
    ensures CommandOk(env, q) <==> RequestAllowed(env, q)
  {
    hide PatchOk, PatchAllowed, TrimSpace, Utf8Length, IsCanonical, Precedes;
    forall p | p in q.participants ensures PatchOk(env, p.patch) <==> PatchAllowed(env, p.patch) {
      PatchIff(env, p.patch);
    }
    assert forall i | 0 <= i < |q.participants| :: q.participants[i] in q.participants;
  }

  lemma {:induction false} ParticipantsIff(sheets: map<Id, Sheet>, systemId: string, ps: seq<Participant>)
    requires Present(sheets, ps)
    ensures CheckParticipants(sheets, systemId, ps).Pass? <==>
            forall p | p in ps ::
              sheets[p.characterId].metadata.systemId == systemId && sheets[p.characterId].encounter.None?
              && sheets[p.characterId].revision == p.expectedRevision
  {
    if ps != [] {
      assert ps[0] in ps;
      ParticipantsIff(sheets, systemId, ps[1..]);
      assert forall p :: p in ps <==> p == ps[0] || p in ps[1..];
    }
  }

  lemma {:induction false} AdvanceAllIff(sheets: map<Id, Sheet>, ps: seq<Participant>, results: seq<ParticipantResult>)
    requires Present(sheets, ps) && Sorted(ps)
    ensures AdvanceAll(sheets, ps, results).Ok? <==>
            forall p | p in ps :: IsCanonical(p.characterId) && p.characterId in sheets && Fits(sheets[p.characterId].runtime, p.patch)
    decreases |ps|
  {
    hide Advanced, Fits, Precedes, Present, Sorted, IsCanonical;
    if ps != [] {
      PresentTail(sheets, ps);
      SortedTail(ps);
      var id: Id := ps[0].characterId;
      FitsIff(sheets[id].runtime, ps[0].patch);
      assert forall p :: p in ps <==> p == ps[0] || p in ps[1..];
      if AdvanceSheet(sheets[id], ps[0].patch).Ok? {
        var sheet := AdvanceSheet(sheets[id], ps[0].patch).value;
        var next: map<Id, Sheet> := sheets[id := sheet];
        PresentAfter(sheets, next, ps[1..]);
        AdvanceAllIff(next, ps[1..], results + [ParticipantResult(id, sheet.revision, sheet)]);
      }
    }
  }

  lemma ExecuteIff(env: Env, s: Tabletop, caller: Id, q: CommandRequest, requestHash: string)
    requires CommandOk(env, q) && IsCanonical(q.commandId)
    ensures var key: (Id, Id) := (caller, q.commandId);
            Execute(env, s, caller, q, requestHash).Ok? <==>
            if key in s.receipts then s.receipts[key].requestHash == requestHash
            else forall p | p in q.participants :: ParticipantAllowed(s, caller, q, p)
  {
    hide CheckParticipants, AdvanceAll, Fits, PatchOk, RulesetOk, Precedes, IsCanonical;
    if Owned(s, caller, q.participants) {
      assert Present(s.sheets, q.participants) && Sorted(q.participants);
      ParticipantsIff(s.sheets, q.ruleset.systemId, q.participants);
      AdvanceAllIff(s.sheets, q.participants, []);
    }
  }

  /**
   * A command is accepted if and only if the caller is known, the body is a
   * well-formed request, and either its id was answered for the same body, or
   * every participant is the caller's, in this system, outside encounters, at
   * the expected version, and its patch fits.
   */
  lemma CommandIff(env: Env, s: Tabletop, caller: Id, raw: string)
    ensures PostCommand(env, s, caller, raw).Ok? <==> CommandAllowed(env, s, caller, raw)
  {
    hide CommandOk, RequestAllowed, Execute, ParticipantAllowed, CanonicalJson.Decode, Utf8Length, CT.Text, IsCanonical;
    if CanonicalJson.Decode(raw).Ok? && env.commandShape(CanonicalJson.Decode(raw).value).Some? {
      var q := env.commandShape(CanonicalJson.Decode(raw).value).value;
      RequestIff(env, q);
      if CommandOk(env, q) {
        CommandIdCanonical(env, q);
        ExecuteIff(env, s, caller, q, env.hash(CT.Text(CanonicalJson.Decode(raw).value)));
      }
    }
  }

  lemma CommandIdCanonical(env: Env, q: CommandRequest)
    requires CommandOk(env, q)
    ensures IsCanonical(q.commandId)
  {
    hide PatchOk, RulesetOk, IsCanonical;
  }

  // ---- Why a command is refused ----

  /** The sheet plays the system, outside encounters, at the expected version. */
  predicate Current(sheet: Sheet, systemId: string, p: Participant) {
    sheet.metadata.systemId == systemId && sheet.encounter.None? && sheet.revision == p.expectedRevision
  }

  /** The refusal is that of the first participant that is not current: another system cannot be processed, the rest is a conflict. */
  predicate FirstOutdated(sheets: map<Id, Sheet>, systemId: string, ps: seq<Participant>, error: Refusal) {
    exists i: nat | i < |ps| && IsCanonical(ps[i].characterId) && ps[i].characterId in sheets ::
      && !Current(sheets[ps[i].characterId], systemId, ps[i])
      && error == (if sheets[ps[i].characterId].metadata.systemId != systemId then Unacceptable else Stale)
      && forall j: nat | j < i && IsCanonical(ps[j].characterId) && ps[j].characterId in sheets ::
           Current(sheets[ps[j].characterId], systemId, ps[j])
  }

  lemma {:induction false} OutdatedIs(sheets: map<Id, Sheet>, systemId: string, ps: seq<Participant>)
    requires Present(sheets, ps)
    ensures var check := CheckParticipants(sheets, systemId, ps);
            if check.Reject? then FirstOutdated(sheets, systemId, ps, check.error)
            else forall p | p in ps :: Current(sheets[p.characterId], systemId, p)
  {
    hide IsCanonical;
    if ps != [] {
      assert ps[0] in ps;
      OutdatedIs(sheets, systemId, ps[1..]);
      var check := CheckParticipants(sheets, systemId, ps);
      if Current(sheets[ps[0].characterId], systemId, ps[0]) && check.Reject? {
        var i: nat :| i < |ps[1..]| && IsCanonical(ps[1..][i].characterId) && ps[1..][i].characterId in sheets
                      && !Current(sheets[ps[1..][i].characterId], systemId, ps[1..][i])
                      && check.error == (if sheets[ps[1..][i].characterId].metadata.systemId != systemId then Unacceptable else Stale)
                      && forall j: nat | j < i && IsCanonical(ps[1..][j].characterId) && ps[1..][j].characterId in sheets ::
                           Current(sheets[ps[1..][j].characterId], systemId, ps[1..][j]);
        assert ps[i + 1] == ps[1..][i];
        assert forall j | 0 < j < i + 1 :: ps[j] == ps[1..][j - 1];
      }
    }
  }

  lemma {:induction false} MisfitRefused(sheets: map<Id, Sheet>, ps: seq<Participant>, results: seq<ParticipantResult>)
    requires Present(sheets, ps)
    ensures AdvanceAll(sheets, ps, results).Err? ==> AdvanceAll(sheets, ps, results) == Err(Unacceptable)
    decreases |ps|
  {
    hide ResourcesBounded, CheckConsumption, Overlay, MergedTurn;
    if ps != [] {
      assert ps[0] in ps;
      var id: Id := ps[0].characterId;
      if AdvanceSheet(sheets[id], ps[0].patch).Ok? {
        var sheet := AdvanceSheet(sheets[id], ps[0].patch).value;
        MisfitRefused(sheets[id := sheet], ps[1..], results + [ParticipantResult(id, sheet.revision, sheet)]);
      }
    }
  }

  predicate OwnedBy(s: Tabletop, caller: Id, p: Participant) {
    IsCanonical(p.characterId) && p.characterId in s.sheets && s.sheets[p.characterId].owner == caller
  }

  /**
   * Every command is answered by the first of these that applies: an unknown
   * caller, a body over the size, a body that is no well-formed request, a used
   * id with the same or another body, a participant that is not the caller's,
   * the first participant that is not current, a patch that does not fit.
   */
  lemma CommandRefusals(env: Env, s: Tabletop, caller: Id, raw: string)
    ensures var result := PostCommand(env, s, caller, raw);
            if caller == NIL_ID then result == Err(Unauthenticated)
            else if Utf8Length(raw) > 2_097_152 then result == Err(TooBig)
            else if raw == "" || CanonicalJson.Decode(raw).Err? then result == Err(Unacceptable)
            else
              var v := CanonicalJson.Decode(raw).value;
              var q := env.commandShape(v);
              if q.None? || !RequestAllowed(env, q.value) then result == Err(Unacceptable)
              else
                Answer(env, s, caller, q.value, env.hash(CT.Text(v)), result)
  {
    hide CommandOk, RequestAllowed, Execute, CanonicalJson.Decode, Utf8Length, CT.Text, IsCanonical, Answer;
    NoBytes();
    if CanonicalJson.Decode(raw).Ok? && env.commandShape(CanonicalJson.Decode(raw).value).Some? {
      var v := CanonicalJson.Decode(raw).value;
      var q := env.commandShape(v).value;
      RequestIff(env, q);
      if CommandOk(env, q) {
        Answered(env, s, caller, q, env.hash(CT.Text(v)));
      }
    }
  }

  lemma NoBytes()
    ensures Utf8Length("") == 0
  {
  }

  /** The answer to a well-formed request. */
  ghost predicate Answer(env: Env, s: Tabletop, caller: Id, q: CommandRequest, requestHash: string,
        result: Result<(Tabletop, CommandResponse), Refusal>) {
    if IsCanonical(q.commandId) && (caller, q.commandId) in s.receipts then
      var receipt := s.receipts[(caller, q.commandId)];
      if receipt.requestHash == requestHash then result == Ok((s, receipt.response.(replayed := true))) else result == Err(Stale)
    else if exists p :: p in q.participants && !OwnedBy(s, caller, p) then result == Err(NotAllowed)
    else if exists p :: p in q.participants && !Current(s.sheets[p.characterId], q.ruleset.systemId, p) then
      result.Err? && FirstOutdated(s.sheets, q.ruleset.systemId, q.participants, result.error)
    else if exists p :: p in q.participants && !Fits(s.sheets[p.characterId].runtime, p.patch) then result == Err(Unacceptable)
    else result.Ok?
  }

  lemma Answered(env: Env, s: Tabletop, caller: Id, q: CommandRequest, requestHash: string)
    requires CommandOk(env, q)
    ensures Answer(env, s, caller, q, requestHash, Execute(env, s, caller, q, requestHash))
  {
    hide CommandOk, IsCanonical, CheckParticipants, AdvanceAll, Fits, FirstOutdated, Current;
    CommandIdCanonical(env, q);
    CommandSorted(env, q);
    if Owned(s, caller, q.participants) {
      assert Present(s.sheets, q.participants);
      OutdatedIs(s.sheets, q.ruleset.systemId, q.participants);
      OutdatedExists(s.sheets, q.ruleset.systemId, q.participants);
      AdvanceAllIff(s.sheets, q.participants, []);
      MisfitRefused(s.sheets, q.participants, []);
    }
  }

  lemma OutdatedExists(sheets: map<Id, Sheet>, systemId: string, ps: seq<Participant>)
    requires Present(sheets, ps)
    ensures forall error :: FirstOutdated(sheets, systemId, ps, error) ==>
              exists p :: p in ps && !Current(sheets[p.characterId], systemId, p)
  {
    hide IsCanonical, Current;
  }

  lemma CommandSorted(env: Env, q: CommandRequest)
    requires CommandOk(env, q)
    ensures Sorted(q.participants)
  {
    hide PatchOk, RulesetOk, IsCanonical, Precedes;
  }
}
