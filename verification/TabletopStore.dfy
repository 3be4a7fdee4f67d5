/** The shared tables as one store: a method per endpoint, each one transaction. */
module TabletopStore {
  import opened JsonValues
  import opened Outcomes
  import opened TextRules
  import opened WorldState
  import opened Identifiers
  import opened EncounterState
  import opened TabletopTables
  import opened EncounterRules
  import opened SheetRules
  import opened CommandRules
  import opened TextOrder
  import opened TabletopInvariant
  import opened TabletopRuns

  /** Checks the policy with the additions visited one by one. */
  method CheckPolicyStepwise(env: Env, enc: Encounter, caller: Id, actors: map<string, Access>, sheets: map<Id,
        Sheet>, op: Op)
    returns (r: Check<Refusal>)
    ensures r == CheckPolicy(env, enc, caller, actors, sheets, op)
  {
    hide CheckPatches, CheckRemovals, CheckTurn, CheckAdds, CheckLog, IsParticipant;
    if !IsParticipant(enc, caller) {
      return Reject(NotAllowed);
    }
    if exists a | a in actors :: actors[a].sheet.Some? && !IsParticipant(enc, actors[a].controller) {
      return Reject(Stale);
    }
    var patches := CheckPatches(env, enc, caller, actors, op.patches);
    if patches.Reject? {
      return patches;
    }
    var removals := CheckRemovals(enc, caller, actors, op.remove);
    if removals.Reject? {
      return removals;
    }
    var turn := CheckTurn(enc, caller, op);
    if turn.Reject? {
      return turn;
    }
    var known := CheckAdditions(env, enc, caller, sheets, op.add, KnownBefore(actors));
    if known.Err? {
      return Reject(known.error);
    }
    return CheckLog(op.log, known.value.sheets);
  }

  /** Builds the list of authoritative additions one by one. */
  method NormalizeAdds(env: Env, sheets: map<Id, Sheet>, adds: seq<Fields>) returns (r: seq<Fields>)
    ensures r == NormalizedAdds(env, sheets, adds)
  {
    hide NormalizedAdd;
    r := [];
    var index := 0;
    while index < |adds|
      invariant 0 <= index <= |adds| && |r| == index
      invariant forall i | 0 <= i < index :: r[i] == NormalizedAdd(env, sheets, adds[i])
    {
      r := r + [NormalizedAdd(env, sheets, adds[index])];
      index := index + 1;
    }
  }

  lemma LinkOneMore(sheets: map<Id, Sheet>, done: set<string>, t: string, here: Id)
    ensures LinkSheets(sheets, done + {t}, here) ==
            match ParseUuid(t)
            case Some(id) =>
              if id in sheets then LinkSheets(sheets, done, here)[id := sheets[id].(encounter := Some(here))] else LinkSheets(sheets, done, here)
            case None => LinkSheets(sheets, done, here)
  {
    hide ParseUuid;
    forall id ensures Names(done + {t}, id) <==> Names(done, id) || ParseUuid(t) == Some(id) {
      if ParseUuid(t) == Some(id) { assert t in done + {t}; }
    }
  }

  lemma UnlinkOneMore(sheets: map<Id, Sheet>, done: set<string>, t: string, here: Id)
    ensures UnlinkSheets(sheets, done + {t}, here) ==
            match ParseUuid(t)
            case Some(id) =>
              if id in sheets && sheets[id].encounter == Some(here)
              then UnlinkSheets(sheets, done, here)[id := sheets[id].(encounter := None)] else UnlinkSheets(sheets, done, here)
            case None => UnlinkSheets(sheets, done, here)
  {
    hide ParseUuid;
    forall id ensures Names(done + {t}, id) <==> Names(done, id) || ParseUuid(t) == Some(id) {
      if ParseUuid(t) == Some(id) { assert t in done + {t}; }
    }
  }

  class Store {
    const env: Env
    var encounters: map<Id, Encounter>
    var sheets: map<Id, Sheet>
    var journal: seq<JournalRow>
    var receipts: map<(Id, Id), Receipt>
    ghost var issued: set<Id>

    constructor (env: Env)
      ensures View() == EMPTY && this.env == env && Valid()
    {
      this.env := env;
      encounters, sheets, journal, receipts, issued := map[], map[], [], map[], {};
      new;
      EmptyHolds(env);
    }

    ghost function View(): Tabletop
      reads this
    {
      Tabletop(encounters, sheets, journal, receipts, issued)
    }

    ghost predicate Valid()
      reads this
    {
      Inv(env, View())
    }

    // ---- Encounters ----

    /** The identifier comes from the database, which never generates one twice. */
    method CreateEncounter(caller: Id, id: Id, name: string) returns (r: Result<(), Refusal>)
      requires Valid() && id !in issued
      modifies this
      ensures Valid() && View() == Step(env, old(View()), Create(caller, id, name))
      ensures r.Ok? <==> EncounterRules.CreateEncounter(old(View()), caller, id, name).Ok?
    {
      hide Inv;
      TabletopRuns.StepKeeps(env, View(), Create(caller, id, name));
      if caller == NIL_ID {
        return Err(Unauthenticated);
      }
      encounters := encounters[id := Encounter(if name == "" then DEFAULT_NAME else name, caller, [caller], EMPTY_STATE, 0, [])];
      issued := issued + {id};
      return Ok(());
    }

    method JoinEncounter(caller: Id, id: Id, invited: bool) returns (r: Result<(), Refusal>)
      requires Valid()
      modifies this`encounters
      ensures Valid() && View() == Step(env, old(View()), Join(caller, id, invited))
      ensures r == match EncounterRules.JoinEncounter(env, old(View()), caller, id, invited) case Ok(_) => Ok(()) case Err(e) => Err(e)
    {
      hide Inv, ActorAccess, AnyMalformed, LinkedIds, CombatantsReadable, Combatants, IsParticipant;
      TabletopRuns.StepKeeps(env, View(), Join(caller, id, invited));
      if caller == NIL_ID {
        return Err(Unauthenticated);
      }
      if id !in encounters {
        return Err(NotFound);
      }
      var enc := encounters[id];
      var cs := Combatants(enc.state);
      if !CombatantsReadable(enc.state) || AnyMalformed(env, cs) || !(LinkedIds(env, cs) <= sheets.Keys) {
        return Err(Unacceptable);
      }
      var actors := ActorAccess(env, sheets, cs, map[]);
      if actors.Err? {
        return Err(actors.error);
      }
      var participant := IsParticipant(enc, caller);
      var allowed := participant || ControlsSheet(actors.value, caller);
      if !allowed && !invited {
        return Err(NotAllowed);
      }
      if !participant {
        encounters := encounters[id := enc.(members := enc.members + [caller])];
      }
      return Ok(());
    }

    method DeleteEncounter(caller: Id, id: Id) returns (r: Result<(), Refusal>)
      requires Valid()
      modifies this`encounters, this`sheets
      ensures Valid() && View() == Step(env, old(View()), Delete(caller, id))
      ensures r == match EncounterRules.DeleteEncounter(old(View()), caller, id) case Ok(_) => Ok(()) case Err(e) => Err(e)
    {
      hide Inv;
      TabletopRuns.StepKeeps(env, View(), Delete(caller, id));
      if caller == NIL_ID {
        return Err(Unauthenticated);
      }
      if id !in encounters {
        return Err(NotFound);
      }
      if encounters[id].owner != caller {
        return Err(NotAllowed);
      }
      sheets := map k | k in sheets :: if sheets[k].encounter == Some(id) then sheets[k].(encounter := None) else sheets[k];
      encounters := encounters - {id};
      return Ok(());
    }

    /** Points the entering sheets here, one by one. */
    method LinkAll(texts: set<string>, here: Id)
      modifies this`sheets
      ensures sheets == LinkSheets(old(sheets), texts, here)
    {
      hide LinkSheets, ParseUuid;
      var todo := texts;
      ghost var start := sheets;
      NothingLinked(start, here);
      while todo != {}
        invariant todo <= texts
        invariant sheets == LinkSheets(start, texts - todo, here)
        decreases |todo|
      {
        var t :| t in todo;
        LinkOneMore(start, texts - todo, t, here);
        assert texts - (todo - {t}) == (texts - todo) + {t};
        var id := ParseUuid(t);
        if id.Some? && id.value in sheets {
          LinkedRow(start, texts - todo, here, id.value);
          sheets := sheets[id.value := sheets[id.value].(encounter := Some(here))];
        }
        todo := todo - {t};
      }
      assert texts - todo == texts;
    }

    /** Clears the links of the leaving sheets, one by one. */
    method UnlinkAll(texts: set<string>, here: Id)
      modifies this`sheets
      ensures sheets == UnlinkSheets(old(sheets), texts, here)
    {
      hide UnlinkSheets, ParseUuid;
      var todo := texts;
      ghost var start := sheets;
      NothingUnlinked(start, here);
      while todo != {}
        invariant todo <= texts
        invariant sheets == UnlinkSheets(start, texts - todo, here)
        decreases |todo|
      {
        var t :| t in todo;
        UnlinkOneMore(start, texts - todo, t, here);
        assert texts - (todo - {t}) == (texts - todo) + {t};
        var id := ParseUuid(t);
        if id.Some? && id.value in sheets {
          UnlinkedRow(start, texts - todo, here, id.value);
          if sheets[id.value].encounter == Some(here) {
            sheets := sheets[id.value := sheets[id.value].(encounter := None)];
          }
        }
        todo := todo - {t};
      }
      assert texts - todo == texts;
    }

    /** Everything an operation is checked for before its first write. */
    method Admit(caller: Id, id: Id, r: ApplyRequest) returns (a: Result<Accepted, Refusal>)
      ensures a == Accept(env, View(), caller, id, r)
    {
      hide ActorAccess, AnyMalformed, LinkedIds, CombatantsReadable, Combatants, IsParticipant, EnvelopeOk,
           CheckPolicy, ApplyOps,
           StateIds, Elsewhere, NormalizedAdds, ParseUuid;
      if r.expectedSeq.None? || r.expectedSeq.value < 0 || !EnvelopeOk(env, r.op) {
        return Err(BadInput);
      }
      if caller == NIL_ID {
        return Err(Unauthenticated);
      }
      if id !in encounters {
        return Err(NotFound);
      }
      var enc := encounters[id];
      if !IsParticipant(enc, caller) {
        return Err(NotAllowed);
      }
      if enc.seqNo != r.expectedSeq.value {
        return Err(Stale);
      }
      if !CombatantsReadable(enc.state) {
        return Err(Unacceptable);
      }
      var cs := Combatants(enc.state);
      if AnyMalformed(env, cs) {
        return Err(Unacceptable);
      }
      if AnyMalformed(env, r.op.add) {
        return Err(BadInput);
      }
      var loaded := LinkedIds(env, cs) + LinkedIds(env, r.op.add);
      if !(loaded <= sheets.Keys) {
        return Err(Unacceptable);
      }
      var actors := ActorAccess(env, sheets, cs, map[]);
      if actors.Err? {
        return Err(actors.error);
      }
      var policy := CheckPolicyStepwise(env, enc, caller, actors.value, sheets, r.op);
      if policy.Reject? {
        return Err(policy.error);
      }
      var adds := NormalizeAdds(env, sheets, r.op.add);
      var op := r.op.(add := adds);
      var state := ApplyInPlace(env.show, enc.state, op);
      var entering, leaving := StateIds(state) - StateIds(enc.state), StateIds(enc.state) - StateIds(state);
      var tables := Tabletop(encounters, sheets, journal, receipts, {});
      if exists t | t in entering :: Elsewhere(tables, t, id) {
        ElsewhereReads(tables, View(), id, entering);
        return Err(Stale);
      }
      ElsewhereReads(tables, View(), id, entering);
      if exists t | t in entering + leaving :: ParseUuid(t).None? {
        return Err(Failed);
      }
      if exists t | t in entering :: ParseUuid(t).value !in sheets {
        return Err(Stale);
      }
      return Ok(Accepted(enc, op, state, loaded));
    }

    /** One encounter operation: all of its writes or none. */
    method ApplyOperation(caller: Id, id: Id, r: ApplyRequest) returns (result: Result<(int, Fields), Refusal>)
      requires Valid()
      modifies this`encounters, this`sheets, this`journal
      ensures Valid() && View() == Step(env, old(View()), Apply(caller, id, r))
      ensures result == match ApplyEncounter(env, old(View()), caller, id, r) case Ok((_, answer)) => Ok(answer) case Err(e) => Err(e)
    {
      hide Inv, Accept, Combatants, StateIds, JournalRows, OpPayload;
      TabletopRuns.StepKeeps(env, View(), Apply(caller, id, r));
      var admitted := Admit(caller, id, r);
      if admitted.Err? {
        return Err(admitted.error);
      }
      var a := admitted.value;
      var e, s := encounters, sheets;
      var entering, leaving := StateIds(a.state) - StateIds(a.enc.state), StateIds(a.enc.state) - StateIds(a.state);
      var seqNo := a.enc.seqNo + 1;
      var event := Event(seqNo, OpPayload(r.(op := a.op)));
      encounters := encounters[id := a.enc.(state := a.state, seqNo := seqNo, events := a.enc.events + [event])];
      LinkAll(entering, id);
      UnlinkAll(leaving, id);
      var written := SyncCombatants(env, sheets, a.loaded, Combatants(a.state), a.op);
      sheets := written;
      var rows := JournalRows(env, r.op.log, a.loaded);
      if rows.Err? {
        encounters, sheets := e, s;
        return Err(rows.error);
      }
      journal := journal + rows.value;
      return Ok((seqNo, a.state));
    }

    // ---- Sheets ----

    /** The identifier comes from the database, which never generates one twice. */
    method CreateSheet(caller: Id, id: Id, metadata: Metadata, profile: Profile,
          runtime: Runtime) returns (r: Result<(), Refusal>)
      requires Valid() && id !in issued && id != NIL_ID
      modifies this
      ensures Valid() && View() == Step(env, old(View()), NewSheet(caller, id, metadata, profile, runtime))
      ensures r.Ok? <==> SheetRules.CreateSheet(env, old(View()), caller, id, metadata, profile, runtime).Ok?
    {
      hide Inv;
      TabletopRuns.StepKeeps(env, View(), NewSheet(caller, id, metadata, profile, runtime));
      if caller == NIL_ID {
        return Err(Unauthenticated);
      }
      if env.legacy(caller) {
        return Err(NotAllowed);
      }
      sheets := sheets[id := Sheet(caller, metadata, WithDefaults(profile), runtime, 0, None)];
      issued := issued + {id};
      return Ok(());
    }

    method UpdateSheet(caller: Id, id: Id, put: PutRequest) returns (r: Result<Sheet, Refusal>)
      requires Valid()
      modifies this`sheets
      ensures Valid() && View() == Step(env, old(View()), Put(caller, id, put))
      ensures r == match SheetRules.UpdateSheet(env, old(View()), caller, id, put) case Ok((_, sheet)) => Ok(sheet) case Err(e) => Err(e)
    {
      hide Inv;
      TabletopRuns.StepKeeps(env, View(), Put(caller, id, put));
      var access := CheckWriteRow(caller, id);
      if access.Reject? {
        return Err(access.error);
      }
      var locked := sheets[id];
      if !MetadataKept(locked.metadata, put.metadata) {
        return Err(Stale);
      }
      var name := if put.profile.name != "" then put.profile.name else locked.profile.name;
      locked := locked.(profile := put.profile.(name := name));
      locked := locked.(runtime := locked.runtime.(maxHp := put.maxHp));
      if locked.encounter.None? {
        locked := locked.(runtime := locked.runtime.(currentHp := put.currentHp));
      }
      locked := locked.(profile := WithDefaults(locked.profile));
      locked := locked.(revision := locked.revision + 1);
      sheets := sheets[id := locked];
      return Ok(locked);
    }

    method CheckWriteRow(caller: Id, id: Id) returns (r: Check<Refusal>)
      ensures r == CheckWrite(env, View(), caller, id)
    {
      if caller == NIL_ID {
        return Reject(Unauthenticated);
      }
      if id !in sheets {
        return Reject(NotFound);
      }
      if env.legacy(sheets[id].owner) || sheets[id].owner != caller {
        return Reject(NotAllowed);
      }
      return Pass;
    }

    method PatchSheetRuntime(caller: Id, id: Id, patch: PatchRequest) returns (r: Result<Sheet, Refusal>)
      requires Valid()
      modifies this`sheets
      ensures Valid() && View() == Step(env, old(View()), PatchSheet(caller, id, patch))
      ensures r == match PatchRuntime(env, old(View()), caller, id, patch) case Ok((_, sheet)) => Ok(sheet) case Err(e) => Err(e)
    {
      hide Inv, RuntimeUpdates, Overlay;
      TabletopRuns.StepKeeps(env, View(), PatchSheet(caller, id, patch));
      var access := CheckWriteRow(caller, id);
      if access.Reject? {
        return Err(access.error);
      }
      var locked := sheets[id];
      var updates := BuildRuntimeUpdates(locked, patch.patch);
      if patch.expectedRevision.Some? && locked.revision != patch.expectedRevision.value {
        return Err(Stale);
      }
      if updates != NO_PATCH {
        locked := locked.(runtime := Overlay(locked.runtime, updates), revision := locked.revision + 1);
        sheets := sheets[id := locked];
      }
      return Ok(locked);
    }

    method DeleteSheet(caller: Id, id: Id) returns (r: Result<(), Refusal>)
      requires Valid()
      modifies this`sheets
      ensures Valid() && View() == Step(env, old(View()), DropSheet(caller, id))
      ensures r == match SheetRules.DeleteSheet(env, old(View()), caller, id) case Ok(_) => Ok(()) case Err(e) => Err(e)
    {
      hide Inv;
      TabletopRuns.StepKeeps(env, View(), DropSheet(caller, id));
      var access := CheckWriteRow(caller, id);
      if access.Reject? {
        return Err(access.error);
      }
      if sheets[id].encounter.Some? {
        return Err(Stale);
      }
      sheets := sheets - {id};
      return Ok(());
    }

    // ---- Commands ----

    /** Replays a receipt, or advances all participants and writes events and receipt. */
    method PostRuntimeCommand(caller: Id, raw: string) returns (r: Result<CommandResponse, Refusal>)
      requires Valid()
      modifies this`sheets, this`journal, this`receipts
      ensures Valid() && View() == Step(env, old(View()), Command(caller, raw))
      ensures r == match PostCommand(env, old(View()), caller, raw) case Ok((_, response)) => Ok(response) case Err(e) => Err(e)
    {
      hide Inv, AdvanceAll, CheckParticipants, PatchOk, Precedes, RulesetOk, DecodeCommand;
      TabletopRuns.StepKeeps(env, View(), Command(caller, raw));
      if caller == NIL_ID {
        return Err(Unauthenticated);
      }
      var decoded := DecodeCommand(env, raw);
      if decoded.Err? {
        return Err(decoded.error);
      }
      var (request, requestHash) := decoded.value;
      var key: (Id, Id) := (caller, request.commandId);
      if key in receipts {
        if receipts[key].requestHash != requestHash {
          return Err(Stale);
        }
        return Ok(receipts[key].response.(replayed := true));
      }
      var ps := request.participants;
      if exists p | p in ps :: !(IsCanonical(p.characterId) && p.characterId in sheets && sheets[p.characterId].owner == caller) {
        assert !Owned(View(), caller, ps);
        return Err(NotAllowed);
      }
      var check := CheckParticipants(sheets, request.ruleset.systemId, ps);
      if check.Reject? {
        return Err(check.error);
      }
      var advanced := AdvanceParticipants(sheets, ps);
      if advanced.Err? {
        return Err(advanced.error);
      }
      sheets := advanced.value.0;
      journal := journal + EventRows(request.events);
      var response := CommandResponse(request.commandId, false, advanced.value.1);
      receipts := receipts[key := Receipt(requestHash, response)];
      return Ok(response);
    }
  }

  lemma NothingLinked(sheets: map<Id, Sheet>, here: Id)
    ensures forall texts: set<string> :: LinkSheets(sheets, texts - texts, here) == sheets
  {
    forall texts: set<string> ensures LinkSheets(sheets, texts - texts, here) == sheets {
      assert texts - texts == {};
    }
  }

  lemma NothingUnlinked(sheets: map<Id, Sheet>, here: Id)
    ensures forall texts: set<string> :: UnlinkSheets(sheets, texts - texts, here) == sheets
  {
    forall texts: set<string> ensures UnlinkSheets(sheets, texts - texts, here) == sheets {
      assert texts - texts == {};
    }
  }

  lemma LinkedRow(sheets: map<Id, Sheet>, done: set<string>, here: Id, id: Id)
    requires id in sheets
    ensures LinkSheets(sheets, done, here)[id].(encounter := Some(here)) == sheets[id].(encounter := Some(here))
  {
  }

  lemma UnlinkedRow(sheets: map<Id, Sheet>, done: set<string>, here: Id, id: Id)
    requires id in sheets
    ensures UnlinkSheets(sheets, done, here)[id].(encounter := None) == sheets[id].(encounter := None)
    ensures UnlinkSheets(sheets, done, here)[id].encounter == Some(here) ==> sheets[id].encounter == Some(here)
    ensures sheets[id].encounter == Some(here) && UnlinkSheets(sheets, done, here)[id].encounter != Some(here) ==>
              UnlinkSheets(sheets, done, here)[id] == sheets[id].(encounter := None)
  {
  }

  /** Whether a sheet fights elsewhere does not depend on which identifiers were issued. */
  lemma ElsewhereReads(a: Tabletop, b: Tabletop, here: Id, texts: set<string>)
    requires a.encounters == b.encounters && a.sheets == b.sheets
    ensures forall t | t in texts :: Elsewhere(a, t, here) == Elsewhere(b, t, here)
  {
  }
}
