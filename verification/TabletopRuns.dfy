/** Runs of the four endpoints over the shared tables. */
module TabletopRuns {
  import opened JsonValues
  import opened Outcomes
  import opened WorldState
  import opened Identifiers
  import opened EncounterState
  import opened TabletopTables
  import opened EncounterRules
  import opened SheetRules
  import opened CommandRules
  import opened TextOrder
  import opened CombatantLists
  import opened EncounterSteps
  import opened TabletopInvariant
  import opened EncounterKeeps

  // ---- Frames ----

  /** Link, owner and, inside an encounter, the mirrored values are as they were. */
  predicate SameCombat(a: Sheet, b: Sheet) {
    && b.owner == a.owner && b.encounter == a.encounter
    && (a.encounter.Some? ==>
          && b.runtime.currentHp == a.runtime.currentHp
          && Field(OrEmpty(b.runtime.turnState), TEMP_KEY) == Field(OrEmpty(a.runtime.turnState), TEMP_KEY))
  }

  /** An encounter whose sheets are as they were is still in order. */
  lemma EncounterFrame(env: Env, sheets: map<Id, Sheet>, after: map<Id, Sheet>, e: Id, enc: Encounter)
    requires EncounterOk(env, sheets, e, enc)
    requires forall id | id in sheets && sheets[id].encounter == Some(e) :: id in after && SameCombat(sheets[id], after[id])
    ensures EncounterOk(env, after, e, enc)
  {
    hide SheetOf, EventsOk, ListOk, Combatants;
    var cs := Combatants(enc.state);
    forall i | 0 <= i < |cs| ensures Tracked(after, e, cs[i]) {
      assert Tracked(sheets, e, cs[i]);
    }
  }

  /** Replacing sheets without touching links or mirrored values keeps the invariant. */
  lemma SheetsFrame(env: Env, s: Tabletop, after: Tabletop)
    requires Inv(env, s)
    requires after.encounters == s.encounters && after.issued == s.issued && after.sheets.Keys == s.sheets.Keys
    requires forall id | id in s.sheets :: SameCombat(s.sheets[id], after.sheets[id])
    ensures Inv(env, after)
  {
    hide EncounterOk, Fights;
    forall e | e in after.encounters ensures EncounterOk(env, after.sheets, e, after.encounters[e]) {
      EncounterFrame(env, s.sheets, after.sheets, e, s.encounters[e]);
    }
  }

  // ---- The writers, one by one ----

  lemma NewStateEvents(env: Env, a: Accepted, r: ApplyRequest)
    requires EventsOk(env, a.enc) && a.state == ApplyOps(env.show, a.enc.state, a.op)
    ensures var event := Event(a.enc.seqNo + 1, OpPayload(r.(op := a.op)));
            EventsOk(env, a.enc.(state := a.state, seqNo := a.enc.seqNo + 1, events := a.enc.events + [event]))
  {
    hide ApplyOps, OpPayload;
    ReplayStep(env.show, a.enc.events, r.(op := a.op), a.enc.seqNo + 1);
  }

  /** The tables after an accepted encounter operation. */
  lemma ApplyMeaning(env: Env, s: Tabletop, caller: Id, e: Id, r: ApplyRequest)
    requires ApplyEncounter(env, s, caller, e, r).Ok?
    ensures Accept(env, s, caller, e, r).Ok?
    ensures var a := Accept(env, s, caller, e, r).value;
            var after := ApplyEncounter(env, s, caller, e, r).value.0;
            var event := Event(a.enc.seqNo + 1, OpPayload(r.(op := a.op)));
            && AcceptedAs(env, s, caller, e, r, a)
            && after.encounters == s.encounters[e := a.enc.(state := a.state, seqNo := a.enc.seqNo + 1, events := a.enc.events + [event])]
            && after.sheets == WrittenSheets(env, s, e, a)
            && after.issued == s.issued && after.receipts == s.receipts
            && s.journal <= after.journal
  {
    hide Accept, AcceptedAs, SyncAll, UnlinkSheets, LinkSheets, StateIds, JournalRows, OpPayload, Combatants;
    AcceptMeaning(env, s, caller, e, r);
  }

  /** Links after the operation are those of the combatants. */
  lemma LinksAfter(env: Env, s: Tabletop, caller: Id, e: Id, r: ApplyRequest, a: Accepted, after: Tabletop)
    requires Inv(env, s) && AcceptedAs(env, s, caller, e, r, a)
    requires after.sheets.Keys == s.sheets.Keys && e in after.encounters && after.encounters[e].state == a.state
    requires forall x | x in s.encounters && x != e :: x in after.encounters && after.encounters[x] == s.encounters[x]
    requires forall id | id in s.sheets ::
               SheetStep(Combatants(a.enc.state), Combatants(a.state), e, id, s.sheets[id], after.sheets[id])
    ensures LinksOk(after)
  {
    hide EncounterOk, SheetOf, Combatants, CheckPolicy, ActorAccess, StateIds, Elsewhere, ApplyOps, LinkedIds,
         NormalizedAdds;
    var cs, ns := Combatants(a.enc.state), Combatants(a.state);
    forall id | id in after.sheets && after.sheets[id].encounter.Some?
      ensures after.sheets[id].encounter.value in after.encounters
      ensures Fights(after.encounters[after.sheets[id].encounter.value], id)
    {
      assert SheetStep(cs, ns, e, id, s.sheets[id], after.sheets[id]);
      if In(ns, id) {
        assert Fights(after.encounters[e], id);
      } else if !In(cs, id) {
        var x := s.sheets[id].encounter.value;
        assert Fights(s.encounters[x], id);
      }
    }
  }

  lemma ApplyKeeps(env: Env, s: Tabletop, caller: Id, e: Id, r: ApplyRequest)
    requires Inv(env, s) && ApplyEncounter(env, s, caller, e, r).Ok?
    ensures Inv(env, ApplyEncounter(env, s, caller, e, r).value.0)
  {
    hide ApplyEncounter, Accept, WrittenSheets, ListOk, Parts, ActorAccess, CheckPolicy, StateIds, Elsewhere,
         ApplyOps, Combatants,
         PatchesOk, AddsFit, Harmless, KnownBefore, Mirrored, SheetOf, OpPayload, LinkedIds, NormalizedAdds, EventsOk,
         LinksOk, Replay;
    ApplyMeaning(env, s, caller, e, r);
    var a := Accept(env, s, caller, e, r).value;
    var after := ApplyEncounter(env, s, caller, e, r).value.0;
    NewListIs(env, s, caller, e, r, a);
    SheetsStep(env, s, caller, e, r, a);
    LinksAfter(env, s, caller, e, r, a, after);
    assert EncounterOk(env, s.sheets, e, s.encounters[e]);
    NewStateEvents(env, a, r);
    forall x | x in after.encounters ensures EncounterOk(env, after.sheets, x, after.encounters[x]) {
      if x != e {
        forall id | id in s.sheets && s.sheets[id].encounter == Some(x)
          ensures id in after.sheets && SameCombat(s.sheets[id], after.sheets[id])
        {
          LinkStep(env, s, caller, e, r, a, id);
          assert SheetStep(Combatants(a.enc.state), Combatants(a.state), e, id, s.sheets[id], after.sheets[id]);
        }
        EncounterFrame(env, s.sheets, after.sheets, x, s.encounters[x]);
      }
    }
    assert RowsOk(after);
  }

  lemma DeleteLinks(s: Tabletop, caller: Id, e: Id)
    requires LinksOk(s) && DeleteEncounter(s, caller, e).Ok?
    ensures LinksOk(DeleteEncounter(s, caller, e).value.0)
  {
    hide Fights;
  }

  lemma DeleteKeeps(env: Env, s: Tabletop, caller: Id, e: Id)
    requires Inv(env, s) && DeleteEncounter(s, caller, e).Ok?
    ensures Inv(env, DeleteEncounter(s, caller, e).value.0)
  {
    hide EncounterOk, Fights, LinksOk;
    var after := DeleteEncounter(s, caller, e).value.0;
    DeleteLinks(s, caller, e);
    forall x | x in after.encounters ensures EncounterOk(env, after.sheets, x, after.encounters[x]) {
      EncounterFrame(env, s.sheets, after.sheets, x, s.encounters[x]);
    }
  }

  lemma EmptyOk(env: Env, sheets: map<Id, Sheet>, e: Id, name: string, owner: Id, members: seq<string>)
    ensures EncounterOk(env, sheets, e, Encounter(name, owner, members, EMPTY_STATE, 0, []))
  {
    assert Combatants(EMPTY_STATE) == [];
  }

  lemma CreateKeeps(env: Env, s: Tabletop, caller: Id, e: Id, name: string)
    requires Inv(env, s) && CreateEncounter(s, caller, e, name).Ok?
    ensures Inv(env, CreateEncounter(s, caller, e, name).value.0)
  {
    hide EncounterOk, Fights;
    EmptyOk(env, s.sheets, e, if name == "" then DEFAULT_NAME else name, caller, [caller]);
  }

  lemma JoinKeeps(env: Env, s: Tabletop, caller: Id, e: Id, invited: bool)
    requires Inv(env, s) && JoinEncounter(env, s, caller, e, invited).Ok?
    ensures Inv(env, JoinEncounter(env, s, caller, e, invited).value.0)
  {
    hide ListOk, Tracks, ActorAccess, AnyMalformed, LinkedIds, IsParticipant, CombatantsReadable, Combatants, Replay;
    assert EncounterOk(env, s.sheets, e, s.encounters[e]);
  }

  lemma CreateSheetKeeps(env: Env, s: Tabletop, caller: Id, id: Id, metadata: Metadata, profile: Profile,
        runtime: Runtime)
    requires Inv(env, s) && CreateSheet(env, s, caller, id, metadata, profile, runtime).Ok?
    ensures Inv(env, CreateSheet(env, s, caller, id, metadata, profile, runtime).value.0)
  {
    hide EncounterOk, Fights;
    var after := CreateSheet(env, s, caller, id, metadata, profile, runtime).value.0;
    forall x | x in after.encounters ensures EncounterOk(env, after.sheets, x, after.encounters[x]) {
      EncounterFrame(env, s.sheets, after.sheets, x, s.encounters[x]);
    }
  }

  lemma DeleteSheetKeeps(env: Env, s: Tabletop, caller: Id, id: Id)
    requires Inv(env, s) && DeleteSheet(env, s, caller, id).Ok?
    ensures Inv(env, DeleteSheet(env, s, caller, id).value.0)
  {
    hide EncounterOk, Fights;
    var after := DeleteSheet(env, s, caller, id).value.0;
    forall x | x in after.encounters ensures EncounterOk(env, after.sheets, x, after.encounters[x]) {
      EncounterFrame(env, s.sheets, after.sheets, x, s.encounters[x]);
    }
  }

  lemma UpdateKeeps(env: Env, s: Tabletop, caller: Id, id: Id, r: PutRequest)
    requires Inv(env, s) && UpdateSheet(env, s, caller, id, r).Ok?
    ensures Inv(env, UpdateSheet(env, s, caller, id, r).value.0)
  {
    hide Inv;
    SheetsFrame(env, s, UpdateSheet(env, s, caller, id, r).value.0);
  }

  /** A linked sheet of a reachable store has temporary hit points. */
  lemma LinkedHasTemp(env: Env, s: Tabletop, id: Id)
    requires Inv(env, s) && id in s.sheets && s.sheets[id].encounter.Some?
    ensures TEMP_KEY in OrEmpty(s.sheets[id].runtime.turnState)
  {
    hide EventsOk, ListOk, Combatants;
    var e := s.sheets[id].encounter.value;
    assert EncounterOk(env, s.sheets, e, s.encounters[e]);
    var cs := Combatants(s.encounters[e].state);
    var c :| c in cs && SheetOf(c) == Some(id);
    var i :| 0 <= i < |cs| && cs[i] == c;
    assert Tracked(s.sheets, e, cs[i]);
  }

  lemma PatchKeeps(env: Env, s: Tabletop, caller: Id, id: Id, r: PatchRequest)
    requires Inv(env, s) && PatchRuntime(env, s, caller, id, r).Ok?
    ensures Inv(env, PatchRuntime(env, s, caller, id, r).value.0)
  {
    hide Inv;
    if s.sheets[id].encounter.Some? {
      LinkedHasTemp(env, s, id);
    }
    SheetsFrame(env, s, PatchRuntime(env, s, caller, id, r).value.0);
  }

  // ---- Runtime commands ----

  /** What advancing one participant does to the sheet. */
  predicate AdvancedFrom(before: Sheet, p: Participant, after: Sheet) {
    AdvanceSheet(before, p.patch) == Ok(after)
  }

  predicate Sorted(ps: seq<Participant>) {
    forall i | 0 < i < |ps| :: Precedes(ps[i - 1].characterId, ps[i].characterId)
  }

  lemma {:induction false} SortedFirst(ps: seq<Participant>, j: nat)
    requires Sorted(ps) && 0 < j < |ps|
    ensures Precedes(ps[0].characterId, ps[j].characterId)
  {
    hide Precedes;
    if j > 1 {
      SortedFirst(ps, j - 1);
      PrecedesTransitive(ps[0].characterId, ps[j - 1].characterId, ps[j].characterId);
    }
  }

  lemma SortedTail(ps: seq<Participant>)
    requires Sorted(ps) && ps != []
    ensures Sorted(ps[1..])
    ensures forall p | p in ps[1..] :: p.characterId != ps[0].characterId
  {
    hide Precedes;
    forall i | 0 < i < |ps[1..]| ensures Precedes(ps[1..][i - 1].characterId, ps[1..][i].characterId) {
      assert ps[1..][i - 1] == ps[i] && ps[1..][i] == ps[i + 1];
    }
    forall p | p in ps[1..] ensures p.characterId != ps[0].characterId {
      var j :| 0 <= j < |ps[1..]| && ps[1..][j] == p;
      SortedFirst(ps, j + 1);
      PrecedesIrreflexive(p.characterId);
    }
  }

  /** Every participant advances once from its stored sheet; nobody else changes. */
  predicate AllAdvanced(sheets: map<Id, Sheet>, ps: seq<Participant>, after: map<Id, Sheet>) {
    && after.Keys == sheets.Keys
    && (forall p | p in ps :: IsCanonical(p.characterId) && p.characterId in sheets
                              && AdvancedFrom(sheets[p.characterId], p, after[p.characterId]))
    && (forall id | id in sheets && (forall p | p in ps :: p.characterId != id) :: after[id] == sheets[id])
  }

  lemma PresentTail(sheets: map<Id, Sheet>, ps: seq<Participant>)
    requires Present(sheets, ps) && ps != []
    ensures IsCanonical(ps[0].characterId) && ps[0].characterId in sheets && Present(sheets, ps[1..])
  {
    assert ps[0] in ps;
  }

  /** Advancing the first participant and then all later ones advances all. */
  lemma AdvancedFirst(sheets: map<Id, Sheet>, ps: seq<Participant>, id: Id, sheet: Sheet, after: map<Id, Sheet>)
    requires Present(sheets, ps) && ps != [] && ps[0].characterId == id && id in sheets && AdvancedFrom(sheets[id], ps[0], sheet)
    requires forall p | p in ps[1..] :: p.characterId != id
    requires AllAdvanced(sheets[id := sheet], ps[1..], after)
    ensures AllAdvanced(sheets, ps, after)
  {
    hide AdvancedFrom, IsCanonical;
    assert forall p | p in ps :: p == ps[0] || p in ps[1..];
    assert after[id] == sheet;
    forall k | k in sheets && (forall p | p in ps :: p.characterId != k) ensures after[k] == sheets[k] {
      assert forall p | p in ps[1..] :: p in ps;
      assert ps[0] in ps;
    }
  }

  lemma {:induction false} AdvanceAllMeaning(sheets: map<Id, Sheet>, ps: seq<Participant>,
        results: seq<ParticipantResult>)
    requires Present(sheets, ps) && Sorted(ps) && AdvanceAll(sheets, ps, results).Ok?
    ensures AllAdvanced(sheets, ps, AdvanceAll(sheets, ps, results).value.0)
    decreases |ps|
  {
    hide AdvanceSheet, Precedes, Present, Sorted, IsCanonical;
    if ps != [] {
      PresentTail(sheets, ps);
      var id: Id := ps[0].characterId;
      var sheet := AdvanceSheet(sheets[id], ps[0].patch).value;
      var next: map<Id, Sheet> := sheets[id := sheet];
      SortedTail(ps);
      PresentAfter(sheets, next, ps[1..]);
      AdvanceAllMeaning(next, ps[1..], results + [ParticipantResult(id, sheet.revision, sheet)]);
      AdvancedFirst(sheets, ps, id, sheet, AdvanceAll(sheets, ps, results).value.0);
    }
  }

  lemma PresentAfter(sheets: map<Id, Sheet>, next: map<Id, Sheet>, ps: seq<Participant>)
    requires Present(sheets, ps) && next.Keys == sheets.Keys
    ensures Present(next, ps)
  {
  }

  /** The results list the participants in order with their new sheets. */
  lemma {:induction false} AdvanceResults(sheets: map<Id, Sheet>, ps: seq<Participant>, results: seq<ParticipantResult>)
    requires Present(sheets, ps) && Sorted(ps) && AdvanceAll(sheets, ps, results).Ok?
    ensures var (after, all) := AdvanceAll(sheets, ps, results).value;
            && |all| == |results| + |ps| && results <= all
            && forall i | 0 <= i < |ps| ::
                 ps[i].characterId in after
                 && all[|results| + i] == ParticipantResult(ps[i].characterId, after[ps[i].characterId].revision, after[ps[i].characterId])
    decreases |ps|
  {
    hide AdvanceSheet, Precedes, Present, Sorted, IsCanonical, AdvancedFrom;
    if ps != [] {
      PresentTail(sheets, ps);
      var id: Id := ps[0].characterId;
      var sheet := AdvanceSheet(sheets[id], ps[0].patch).value;
      var next: map<Id, Sheet> := sheets[id := sheet];
      var more := results + [ParticipantResult(id, sheet.revision, sheet)];
      SortedTail(ps);
      PresentAfter(sheets, next, ps[1..]);
      AdvanceAllMeaning(next, ps[1..], more);
      AdvanceResults(next, ps[1..], more);
      var (after, all) := AdvanceAll(next, ps[1..], more).value;
      assert after[id] == sheet;
      forall i | 0 <= i < |ps|
        ensures ps[i].characterId in after
        ensures all[|results| + i] == ParticipantResult(ps[i].characterId, after[ps[i].characterId].revision, after[ps[i].characterId])
      {
        if i > 0 {
          assert ps[1..][i - 1] == ps[i];
          assert all[|more| + (i - 1)] == all[|results| + i];
        }
      }
    }
  }

  lemma {:induction false} ParticipantsMeaning(sheets: map<Id, Sheet>, systemId: string, ps: seq<Participant>)
    requires Present(sheets, ps) && CheckParticipants(sheets, systemId, ps).Pass?
    ensures forall p | p in ps :: sheets[p.characterId].encounter.None? && sheets[p.characterId].revision == p.expectedRevision
                                  && sheets[p.characterId].metadata.systemId == systemId
  {
    if ps != [] {
      assert ps[0] in ps;
      ParticipantsMeaning(sheets, systemId, ps[1..]);
      assert forall p | p in ps :: p == ps[0] || p in ps[1..];
    }
  }

  /** What a committed command did to the tables. */
  predicate Committed(env: Env, s: Tabletop, caller: Id, r: CommandRequest, requestHash: string, after: Tabletop,
        response: CommandResponse)
    requires CommandOk(env, r)
  {
    && var key: (Id, Id) := (caller, r.commandId);
    && key !in s.receipts && Owned(s, caller, r.participants)
    && (forall p | p in r.participants ::
          s.sheets[p.characterId].encounter.None? && s.sheets[p.characterId].revision == p.expectedRevision)
    && AllAdvanced(s.sheets, r.participants, after.sheets)
    && after.encounters == s.encounters && after.issued == s.issued
    && after.journal == s.journal + EventRows(r.events)
    && after.receipts == s.receipts[key := Receipt(requestHash, response)]
    && response.commandId == r.commandId && !response.replayed && |response.participants| == |r.participants|
    && forall i | 0 <= i < |r.participants| ::
         r.participants[i].characterId in after.sheets
         && response.participants[i] == ParticipantResult(r.participants[i].characterId,
              after.sheets[r.participants[i].characterId].revision, after.sheets[r.participants[i].characterId])
  }

  /** A command is a replay that changes nothing, or commits for all its participants. */
  lemma ExecuteMeaning(env: Env, s: Tabletop, caller: Id, r: CommandRequest, requestHash: string)
    requires CommandOk(env, r) && Execute(env, s, caller, r, requestHash).Ok?
    ensures var (after, response) := Execute(env, s, caller, r, requestHash).value;
            var key: (Id, Id) := (caller, r.commandId);
            if key in s.receipts then
              after == s && s.receipts[key].requestHash == requestHash && response == s.receipts[key].response.(replayed := true)
            else Committed(env, s, caller, r, requestHash, after, response)
  {
    hide AdvanceAll, CheckParticipants, PatchOk, Precedes, AllAdvanced, RulesetOk;
    var key: (Id, Id) := (caller, r.commandId);
    if key !in s.receipts {
      ParticipantsMeaning(s.sheets, r.ruleset.systemId, r.participants);
      AdvanceAllMeaning(s.sheets, r.participants, []);
      AdvanceResults(s.sheets, r.participants, []);
    }
  }

  lemma AdvanceSheetMeaning(before: Sheet, p: Participant, after: Sheet)
    requires AdvancedFrom(before, p, after)
    ensures after.revision == before.revision + 1 && after.owner == before.owner && after.encounter == before.encounter
    ensures after.metadata == before.metadata && after.profile == before.profile
    ensures Advanced(before.runtime, p.patch) == Ok(after.runtime)
  {
    hide Advanced;
  }

  lemma CommandKeeps(env: Env, s: Tabletop, caller: Id, r: CommandRequest, requestHash: string)
    requires Inv(env, s) && CommandOk(env, r) && Execute(env, s, caller, r, requestHash).Ok?
    ensures Inv(env, Execute(env, s, caller, r, requestHash).value.0)
  {
    hide Inv, Execute, AdvancedFrom, CommandOk;
    ExecuteMeaning(env, s, caller, r, requestHash);
    var after := Execute(env, s, caller, r, requestHash).value.0;
    if after != s {
      forall id | id in s.sheets ensures SameCombat(s.sheets[id], after.sheets[id]) {
        if p :| p in r.participants && p.characterId == id {
          AdvanceSheetMeaning(s.sheets[id], p, after.sheets[id]);
        }
      }
      SheetsFrame(env, s, after);
    }
  }

  // ---- Runs ----

  datatype Action =
    | Create(caller: Id, id: Id, name: string)
    | Join(caller: Id, id: Id, invited: bool)
    | Apply(caller: Id, id: Id, request: ApplyRequest)
    | Delete(caller: Id, id: Id)
    | NewSheet(caller: Id, id: Id, metadata: Metadata, profile: Profile, runtime: Runtime)
    | Put(caller: Id, id: Id, put: PutRequest)
    | PatchSheet(caller: Id, id: Id, patch: PatchRequest)
    | DropSheet(caller: Id, id: Id)
    | Command(caller: Id, raw: string)

  /** The tables after an action; a refused action changes nothing. */
  function Step(env: Env, s: Tabletop, a: Action): Tabletop {
    match a
    case Create(caller, id, name) => (match CreateEncounter(s, caller, id, name) case Ok(r) => r.0 case Err(_) => s)
    case Join(caller, id, invited) => (match JoinEncounter(env, s, caller, id, invited) case Ok(r) => r.0 case Err(_) => s)
    case Apply(caller, id, request) => (match ApplyEncounter(env, s, caller, id, request) case Ok(r) => r.0 case Err(_) => s)
    case Delete(caller, id) => (match DeleteEncounter(s, caller, id) case Ok(r) => r.0 case Err(_) => s)
    case NewSheet(caller, id, metadata, profile, runtime) =>
      (match CreateSheet(env, s, caller, id, metadata, profile, runtime) case Ok(r) => r.0 case Err(_) => s)
    case Put(caller, id, put) => (match UpdateSheet(env, s, caller, id, put) case Ok(r) => r.0 case Err(_) => s)
    case PatchSheet(caller, id, patch) => (match PatchRuntime(env, s, caller, id, patch) case Ok(r) => r.0 case Err(_) => s)
    case DropSheet(caller, id) => (match DeleteSheet(env, s, caller, id) case Ok(r) => r.0 case Err(_) => s)
    case Command(caller, raw) => (match PostCommand(env, s, caller, raw) case Ok(r) => r.0 case Err(_) => s)
  }

  function Run(env: Env, s: Tabletop, actions: seq<Action>): Tabletop
    decreases |actions|
  {
    if actions == [] then s else Run(env, Step(env, s, actions[0]), actions[1..])
  }

  const EMPTY := Tabletop(map[], map[], [], map[], {})

  lemma EmptyHolds(env: Env)
    ensures Inv(env, EMPTY)
  {
  }

  lemma PostKeeps(env: Env, s: Tabletop, caller: Id, raw: string)
    requires Inv(env, s) && PostCommand(env, s, caller, raw).Ok?
    ensures Inv(env, PostCommand(env, s, caller, raw).value.0)
  {
    hide Inv, Execute, DecodeCommand;
    var decoded := DecodeCommand(env, raw).value;
    CommandKeeps(env, s, caller, decoded.0, decoded.1);
  }

  lemma StepKeeps(env: Env, s: Tabletop, a: Action)
    requires Inv(env, s)
    ensures Inv(env, Step(env, s, a))
  {
    hide Inv, CreateEncounter, JoinEncounter, ApplyEncounter, DeleteEncounter, CreateSheet, UpdateSheet, PatchRuntime,
         DeleteSheet, PostCommand;
    if Step(env, s, a) != s {
      match a
      case Create(caller, id, name) => CreateKeeps(env, s, caller, id, name);
      case Join(caller, id, invited) => JoinKeeps(env, s, caller, id, invited);
      case Apply(caller, id, request) => ApplyKeeps(env, s, caller, id, request);
      case Delete(caller, id) => DeleteKeeps(env, s, caller, id);
      case NewSheet(caller, id, metadata, profile, runtime) => CreateSheetKeeps(env, s, caller, id, metadata, profile, runtime);
      case Put(caller, id, put) => UpdateKeeps(env, s, caller, id, put);
      case PatchSheet(caller, id, patch) => PatchKeeps(env, s, caller, id, patch);
      case DropSheet(caller, id) => DeleteSheetKeeps(env, s, caller, id);
      case Command(caller, raw) => PostKeeps(env, s, caller, raw);
    }
  }

  /** The invariant holds after every run of every endpoint. */
  lemma {:induction false} RunKeeps(env: Env, s: Tabletop, actions: seq<Action>)
    requires Inv(env, s)
    ensures Inv(env, Run(env, s, actions))
    decreases |actions|
  {
    hide Inv, Step;
    if actions != [] {
      StepKeeps(env, s, actions[0]);
      RunKeeps(env, Step(env, s, actions[0]), actions[1..]);
    }
  }
}
