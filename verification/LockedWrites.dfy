/** The endpoints change no row that the lock program of their job does not name. */
module LockedWrites {
  import opened JsonValues
  import opened Outcomes
  import opened WorldState
  import opened Identifiers
  import opened EncounterState
  import opened TabletopTables
  import opened EncounterRules
  import opened SheetRules
  import opened CommandRules
  import opened CombatantLists
  import opened EncounterSteps
  import opened TabletopInvariant
  import opened EncounterKeeps
  import opened TabletopRuns
  import opened TabletopTheorems
  import opened TextOrder
  import opened LockOrder
  import LJ = LockJobs

  /** The sheets that an operation links or adds, read when the encounter is locked. */
  function SheetsRead(env: Env, s: Tabletop, e: Id, r: ApplyRequest): set<Id>
    requires e in s.encounters
  {
    LinkedIds(env, Combatants(s.encounters[e].state)) + LinkedIds(env, r.op.add)
  }

  /** The job of an endpoint; creating a row locks none. */
  function JobOf(env: Env, s: Tabletop, lockHash: int, a: Action): Option<LJ.Job> {
    match a
    case Create(_, _, _) => None
    case NewSheet(_, _, _, _, _) => None
    case Join(_, e, _) => Some(LJ.Join(e))
    case Apply(_, e, r) => Some(LJ.Apply(e, if e in s.encounters then SheetsRead(env, s, e, r) else {}))
    case Delete(_, e) => Some(LJ.Delete(e, set id | id in s.sheets && s.sheets[id].encounter == Some(e)))
    case Put(_, id, _) => Some(LJ.SheetWrite(id))
    case PatchSheet(_, id, _) => Some(LJ.SheetWrite(id))
    case DropSheet(_, id) => Some(LJ.SheetWrite(id))
    case Command(_, raw) => if DecodeCommand(env, raw).Ok? then Some(LJ.Command(lockHash, DecodeCommand(env, raw).value.0)) else None
  }

  predicate SheetKept(s: Tabletop, after: Tabletop, id: Id)
    requires id in s.sheets
  {
    id in after.sheets && after.sheets[id] == s.sheets[id]
  }

  predicate EncounterKept(s: Tabletop, after: Tabletop, e: Id)
    requires e in s.encounters
  {
    e in after.encounters && after.encounters[e] == s.encounters[e]
  }

  predicate LocksRow(job: Option<LJ.Job>, k: Key) {
    job.Some? && k in LJ.Program(job.value)
  }

  /** Every row that the action changed or dropped is locked by its job. */
  predicate Covered(s: Tabletop, after: Tabletop, job: Option<LJ.Job>) {
    && (forall e | e in s.encounters :: EncounterKept(s, after, e) || LocksRow(job, EncounterRow(e)))
    && (forall id | id in s.sheets :: SheetKept(s, after, id) || LocksRow(job, SheetRow(id)))
  }

  /** Every job of an endpoint is one that the lock protocol admits. */
  lemma JobsWellFormed(env: Env, s: Tabletop, lockHash: int, a: Action)
    ensures JobOf(env, s, lockHash, a).Some? ==> LJ.WellFormed(env, JobOf(env, s, lockHash, a).value)
  {
    hide CommandOk, DecodeCommand, LinkedIds, Combatants;
  }

  /** The rows in an encounter's or a command's program. */
  lemma HeadedRows(head: Key, ids: seq<string>)
    ensures head in [head] + LJ.SheetRows(ids)
    ensures forall id | id in ids :: SheetRow(id) in [head] + LJ.SheetRows(ids)
  {
    assert ([head] + LJ.SheetRows(ids))[0] == head;
    forall id | id in ids ensures SheetRow(id) in [head] + LJ.SheetRows(ids) {
      var i :| 0 <= i < |ids| && ids[i] == id;
      assert ([head] + LJ.SheetRows(ids))[i + 1] == SheetRow(id);
    }
  }

  lemma ApplyLocks(e: Id, sheets: set<Id>)
    ensures EncounterRow(e) in LJ.Program(LJ.Apply(e, sheets))
    ensures forall id | id in sheets :: SheetRow(id) in LJ.Program(LJ.Apply(e, sheets))
  {
    HeadedRows(EncounterRow(e), SortedTexts(sheets));
  }

  lemma DeleteLocks(e: Id, sheets: set<Id>)
    ensures EncounterRow(e) in LJ.Program(LJ.Delete(e, sheets))
    ensures forall id | id in sheets :: SheetRow(id) in LJ.Program(LJ.Delete(e, sheets))
  {
    HeadedRows(EncounterRow(e), SortedTexts(sheets));
  }

  lemma CommandLocks(lockHash: int, r: CommandRequest)
    ensures forall p | p in r.participants :: SheetRow(p.characterId) in LJ.Program(LJ.Command(lockHash, r))
  {
    hide LJ.SheetRows;
    HeadedRows(Advisory(lockHash), LJ.ParticipantIds(r));
    forall p | p in r.participants ensures p.characterId in LJ.ParticipantIds(r) {
      var i :| 0 <= i < |r.participants| && r.participants[i] == p;
      assert LJ.ParticipantIds(r)[i] == p.characterId;
    }
  }

  lemma ApplyCovered(env: Env, s: Tabletop, caller: Id, e: Id, r: ApplyRequest)
    requires Inv(env, s) && ApplyEncounter(env, s, caller, e, r).Ok? && e in s.encounters
    ensures Covered(s, ApplyEncounter(env, s, caller, e, r).value.0, Some(LJ.Apply(e, SheetsRead(env, s, e, r))))
  {
    hide ApplyEncounter, Accept, ListOk, ActorAccess, CheckPolicy, StateIds, Elsewhere, ApplyOps, Combatants, Inv, SheetOf, Actor,
         NormalizedAdds, OpPayload, LinkedIds, LinkedSheets, SyncSheet, Touched, SyncAll, NewList, Tracks, WrittenSheets, IsParticipant,
         In, LJ.Program;
    ApplyMeaning(env, s, caller, e, r);
    var a := Accept(env, s, caller, e, r).value;
    NewListIs(env, s, caller, e, r, a);
    SheetsStep(env, s, caller, e, r, a);
    ApplyLocks(e, a.loaded);
    var cs, ns := Combatants(a.enc.state), Combatants(a.state);
    var after := ApplyEncounter(env, s, caller, e, r).value.0;
    forall id | id in s.sheets && after.sheets[id] != s.sheets[id] ensures id in a.loaded {
      assert SheetStep(cs, ns, e, id, s.sheets[id], after.sheets[id]);
      InLoaded(env, s, caller, e, r, a, id);
    }
  }

  /** The combatants before and after an operation were all read and locked. */
  lemma InLoaded(env: Env, s: Tabletop, caller: Id, e: Id, r: ApplyRequest, a: Accepted, id: Id)
    requires Inv(env, s) && AcceptedAs(env, s, caller, e, r, a) && NewList(env, s, caller, e, r, a)
    requires In(Combatants(a.enc.state), id) || In(Combatants(a.state), id)
    ensures id in a.loaded
  {
    hide ListOk, SheetOf, Actor, ActorAccess, CheckPolicy, ApplyOps, Combatants, Parts, PatchesOk, AddsFit, Inv, CharacterRef,
         Elsewhere, StateIds, IsParticipant, KnownBefore, Harmless, LinkedSheets;
    AllWritable(env, s, caller, e, r, a);
    var cs := Combatants(a.enc.state);
    if In(cs, id) {
      var c :| c in cs && SheetOf(c) == Some(id);
      var k :| 0 <= k < |cs| && cs[k] == c;
      ListLink(env, cs, k);
    }
  }

  lemma CommandChanges(env: Env, s: Tabletop, caller: Id, r: CommandRequest, requestHash: string, id: Id)
    requires CommandOk(env, r) && Execute(env, s, caller, r, requestHash).Ok? && id in s.sheets
    requires forall p | p in r.participants :: p.characterId != id
    ensures var after := Execute(env, s, caller, r, requestHash).value.0;
            id in after.sheets && after.sheets[id] == s.sheets[id]
  {
    hide Execute, AdvancedFrom, CommandOk;
    ExecuteMeaning(env, s, caller, r, requestHash);
  }

  lemma CommandCovered(env: Env, s: Tabletop, lockHash: int, caller: Id, raw: string)
    requires PostCommand(env, s, caller, raw).Ok?
    ensures DecodeCommand(env, raw).Ok?
    ensures Covered(s, PostCommand(env, s, caller, raw).value.0, Some(LJ.Command(lockHash, DecodeCommand(env, raw).value.0)))
  {
    hide Execute, CommandOk, DecodeCommand, LJ.Program;
    var (r, requestHash) := DecodeCommand(env, raw).value;
    CommandLocks(lockHash, r);
    CommandFrame(env, s, caller, raw);
    var after := Execute(env, s, caller, r, requestHash).value.0;
    forall id | id in s.sheets
      ensures (id in after.sheets && after.sheets[id] == s.sheets[id]) || exists p :: p in r.participants && p.characterId == id
    {
      if forall p | p in r.participants :: p.characterId != id {
        CommandChanges(env, s, caller, r, requestHash, id);
      }
    }
  }

  lemma DeleteCovered(env: Env, s: Tabletop, caller: Id, e: Id)
    requires DeleteEncounter(s, caller, e).Ok?
    ensures var linked := set id | id in s.sheets && s.sheets[id].encounter == Some(e);
            Covered(s, DeleteEncounter(s, caller, e).value.0, Some(LJ.Delete(e, linked)))
  {
    hide LJ.Program;
    DeleteLocks(e, set id | id in s.sheets && s.sheets[id].encounter == Some(e));
  }

  lemma JoinCovered(env: Env, s: Tabletop, caller: Id, e: Id, invited: bool)
    ensures JoinEncounter(env, s, caller, e, invited).Ok? ==>
              Covered(s, JoinEncounter(env, s, caller, e, invited).value.0, Some(LJ.Join(e)))
  {
    hide ActorAccess, AnyMalformed, LinkedIds, IsParticipant, CombatantsReadable, Combatants;
  }

  lemma CreateCovered(s: Tabletop, caller: Id, e: Id, name: string)
    requires CreateEncounter(s, caller, e, name).Ok? && s.encounters.Keys <= s.issued
    ensures Covered(s, CreateEncounter(s, caller, e, name).value.0, None)
  {
  }

  lemma NewSheetCovered(env: Env, s: Tabletop, caller: Id, id: Id, metadata: Metadata, profile: Profile, runtime: Runtime)
    requires CreateSheet(env, s, caller, id, metadata, profile, runtime).Ok? && s.sheets.Keys <= s.issued
    ensures Covered(s, CreateSheet(env, s, caller, id, metadata, profile, runtime).value.0, None)
  {
  }

  lemma PutCovered(env: Env, s: Tabletop, caller: Id, id: Id, r: PutRequest)
    requires UpdateSheet(env, s, caller, id, r).Ok?
    ensures Covered(s, UpdateSheet(env, s, caller, id, r).value.0, Some(LJ.SheetWrite(id)))
  {
  }

  lemma PatchCovered(env: Env, s: Tabletop, caller: Id, id: Id, r: PatchRequest)
    requires PatchRuntime(env, s, caller, id, r).Ok?
    ensures Covered(s, PatchRuntime(env, s, caller, id, r).value.0, Some(LJ.SheetWrite(id)))
  {
    hide RuntimeUpdates, Overlay;
  }

  lemma DropCovered(env: Env, s: Tabletop, caller: Id, id: Id)
    requires DeleteSheet(env, s, caller, id).Ok?
    ensures Covered(s, DeleteSheet(env, s, caller, id).value.0, Some(LJ.SheetWrite(id)))
  {
  }

  lemma IssuedRows(env: Env, s: Tabletop)
    requires Inv(env, s)
    ensures s.encounters.Keys <= s.issued && s.sheets.Keys <= s.issued
  {
    hide LinksOk, EncounterOk;
  }

  /**
   * Every encounter and sheet row that any endpoint changes or removes, in any
   * store in order, is named by the lock program of its job, and the job is one
   * that the lock protocol admits: nothing is written without its lock.
   */
  lemma WritesAreLocked(env: Env, s: Tabletop, lockHash: int, a: Action)
    requires Inv(env, s)
    ensures Covered(s, Step(env, s, a), JobOf(env, s, lockHash, a))
    ensures JobOf(env, s, lockHash, a).Some? ==> LJ.WellFormed(env, JobOf(env, s, lockHash, a).value)
  {
    hide Inv, LJ.WellFormed, ApplyEncounter, PostCommand, DeleteEncounter, DecodeCommand, LinkedIds, Combatants, SortedTexts, LJ.SheetRows,
         LJ.ParticipantIds, JoinEncounter, CreateEncounter, CreateSheet, UpdateSheet, PatchRuntime, DeleteSheet;
    IssuedRows(env, s);
    JobsWellFormed(env, s, lockHash, a);
    match a
    case Apply(caller, e, r) =>
      if ApplyEncounter(env, s, caller, e, r).Ok? {
        AppliedExists(env, s, caller, e, r);
        ApplyCovered(env, s, caller, e, r);
      }
    case Delete(caller, e) =>
      if DeleteEncounter(s, caller, e).Ok? { DeleteCovered(env, s, caller, e); }
    case Command(caller, raw) =>
      if PostCommand(env, s, caller, raw).Ok? { CommandCovered(env, s, lockHash, caller, raw); }
    case Join(caller, e, invited) =>
      JoinCovered(env, s, caller, e, invited);
    case Create(caller, e, name) =>
      if CreateEncounter(s, caller, e, name).Ok? { CreateCovered(s, caller, e, name); }
    case NewSheet(caller, id, metadata, profile, runtime) =>
      if CreateSheet(env, s, caller, id, metadata, profile, runtime).Ok? {
        NewSheetCovered(env, s, caller, id, metadata, profile, runtime);
      }
    case Put(caller, id, put) =>
      if UpdateSheet(env, s, caller, id, put).Ok? { PutCovered(env, s, caller, id, put); }
    case PatchSheet(caller, id, patch) =>
      if PatchRuntime(env, s, caller, id, patch).Ok? { PatchCovered(env, s, caller, id, patch); }
    case DropSheet(caller, id) =>
      if DeleteSheet(env, s, caller, id).Ok? { DropCovered(env, s, caller, id); }
  }

  /** The transaction runs the action's job and has all its locks. */
  predicate ReadyFor(env: Env, s: Tabletop, locks: LJ.Locks, tx: int, lockHash: int, a: Action) {
    tx in locks && !LJ.Wants(locks, tx) && JobOf(env, s, lockHash, a) == Some(locks[tx].job)
  }

  /** In every reachable lock state, two transactions that are ready to write write no row in common. */
  lemma ConcurrentWritesDisjoint(env: Env, s: Tabletop, moves: seq<LJ.Move>, t: int, u: int, x: int, a: Action, y: int, b: Action)
    requires Inv(env, s) && LJ.IsRun(env, map[], moves) && t != u
    requires var locks := LJ.After(env, map[], moves); ReadyFor(env, s, locks, t, x, a) && ReadyFor(env, s, locks, u, y, b)
    ensures forall id | id in s.sheets :: SheetKept(s, Step(env, s, a), id) || SheetKept(s, Step(env, s, b), id)
    ensures forall e | e in s.encounters :: EncounterKept(s, Step(env, s, a), e) || EncounterKept(s, Step(env, s, b), e)
  {
    hide Inv, Step, LJ.IsRun, LJ.After, LJ.Program, JobOf, LJ.Wants;
    WritesAreLocked(env, s, x, a);
    WritesAreLocked(env, s, y, b);
    forall k ensures !(LocksRow(JobOf(env, s, x, a), k) && LocksRow(JobOf(env, s, y, b), k)) {
      LJ.ProgramsDisjoint(env, moves, t, u, k);
    }
  }
}
