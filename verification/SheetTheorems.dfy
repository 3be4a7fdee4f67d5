/** Who may change which column of a sheet, across all endpoints, and what can be undone. */
module SheetTheorems {
  import opened JsonValues
  import opened Outcomes
  import opened TextRules
  import opened WorldState
  import opened Identifiers
  import opened EncounterState
  import opened TabletopTables
  import opened EncounterRules
  import opened SheetRules
  import opened CommandRules
  import opened CombatantLists
  import opened EncounterSteps
  import opened TabletopInvariant
  import opened EncounterKeeps
  import opened TabletopRuns
  import opened TabletopTheorems

  // ---- The columns that an encounter owns ----

  /** Hit points, effects and temporary hit points. */
  predicate SameCombatColumns(a: Runtime, b: Runtime) {
    && b.currentHp == a.currentHp && b.effects == a.effects
    && Field(OrEmpty(b.turnState), TEMP_KEY) == Field(OrEmpty(a.turnState), TEMP_KEY)
  }

  /** The columns of play that no encounter touches. */
  ghost predicate SameStock(a: Runtime, b: Runtime) {
    && b.inventory == a.inventory && b.resources == a.resources && b.maxResources == a.maxResources && b.currency == a.currency
    && forall k | k != TEMP_KEY :: Field(OrEmpty(b.turnState), k) == Field(OrEmpty(a.turnState), k)
  }

  lemma LinkedPatch(sheet: Sheet, p: RuntimePatch)
    requires sheet.encounter.Some?
    ensures SameCombatColumns(sheet.runtime, Overlay(sheet.runtime, RuntimeUpdates(sheet, p)))
  {
  }

  lemma SyncKeepsStock(env: Env, sheet: Sheet, c: Fields, touched: set<string>)
    ensures var after := SyncSheet(env, sheet, c, touched).runtime;
            && SameStock(sheet.runtime, after)
            && after.maxHp == sheet.runtime.maxHp && after.equipment == sheet.runtime.equipment
  {
  }

  // ---- Writers ----

  /** The owner's own full update of the sheet. */
  predicate OwnPut(s: Tabletop, a: Action, id: Id)
    requires id in s.sheets
  {
    a.Put? && a.id == id && a.caller == s.sheets[id].owner
  }

  predicate OwnPatch(s: Tabletop, a: Action, id: Id)
    requires id in s.sheets
  {
    a.PatchSheet? && a.id == id && a.caller == s.sheets[id].owner
  }

  predicate OwnCommand(s: Tabletop, a: Action, id: Id)
    requires id in s.sheets
  {
    a.Command? && a.caller == s.sheets[id].owner
  }

  /** An operation on the encounter the sheet is in, or joins, by the sheet's owner or the encounter's master. */
  predicate EncounterWrite(s: Tabletop, a: Action, id: Id)
    requires id in s.sheets
  {
    a.Apply? && a.id in s.encounters
    && (a.caller == s.sheets[id].owner || a.caller == s.encounters[a.id].owner)
    && (s.sheets[id].encounter == Some(a.id) || s.sheets[id].encounter.None?)
  }

  /** For each group of columns, the only actions that may have changed it. */
  ghost predicate WrittenByRight(s: Tabletop, a: Action, id: Id, before: Sheet, after: Sheet)
    requires id in s.sheets
  {
    && after.owner == before.owner && after.metadata == before.metadata
    && (after.profile != before.profile ==> OwnPut(s, a, id))
    && (after.runtime.maxHp != before.runtime.maxHp ==> OwnPut(s, a, id) || OwnPatch(s, a, id))
    && (after.runtime.equipment != before.runtime.equipment ==> OwnPatch(s, a, id))
    && (!SameStock(before.runtime, after.runtime) ==>
          OwnPatch(s, a, id) || (OwnCommand(s, a, id) && before.encounter.None?))
    && (!SameCombatColumns(before.runtime, after.runtime) ==>
          || EncounterWrite(s, a, id)
          || (before.encounter.None? && (OwnPut(s, a, id) || OwnPatch(s, a, id) || OwnCommand(s, a, id))))
  }

  lemma ApplyWrites(env: Env, s: Tabletop, caller: Id, e: Id, r: ApplyRequest, id: Id)
    requires Inv(env, s) && ApplyEncounter(env, s, caller, e, r).Ok? && id in s.sheets
    ensures id in ApplyEncounter(env, s, caller, e, r).value.0.sheets
    ensures WrittenByRight(s, Apply(caller, e, r), id, s.sheets[id], ApplyEncounter(env, s, caller, e, r).value.0.sheets[id])
  {
    hide ApplyEncounter, Accept, ListOk, ActorAccess, CheckPolicy, StateIds, Elsewhere, ApplyOps, Combatants, Inv, SheetOf, Actor,
         NormalizedAdds, OpPayload, LinkedIds, LinkedSheets, SyncSheet, Touched, SyncAll, NewList, Tracks, WrittenSheets,
         SameStock, SameCombatColumns, IsParticipant;
    ApplyMeaning(env, s, caller, e, r);
    ChangedByOwner(env, s, caller, e, r, id);
    var a := Accept(env, s, caller, e, r).value;
    NewListIs(env, s, caller, e, r, a);
    SheetsStep(env, s, caller, e, r, a);
    var cs, ns := Combatants(a.enc.state), Combatants(a.state);
    var after := ApplyEncounter(env, s, caller, e, r).value.0.sheets[id];
    assert SheetStep(cs, ns, e, id, s.sheets[id], after);
    LinkStep(env, s, caller, e, r, a, id);
    SameRuntimeSame(s.sheets[id].runtime);
    if In(ns, id) {
      var c :| c in ns && SheetOf(c) == Some(id);
      var i :| 0 <= i < |ns| && ns[i] == c;
      WrittenFor(env, s, caller, e, r, a, i);
      SyncKeepsStock(env, LinkedSheets(s, e, a)[id], ns[i], Touched(a.op, Actor(ns[i])));
    }
  }

  lemma SameRuntimeSame(r: Runtime)
    ensures SameStock(r, r) && SameCombatColumns(r, r)
  {
  }

  lemma CommandWrites(env: Env, s: Tabletop, caller: Id, raw: string, id: Id)
    requires PostCommand(env, s, caller, raw).Ok? && id in s.sheets
    ensures var after := PostCommand(env, s, caller, raw).value.0;
            id in after.sheets && WrittenByRight(s, Command(caller, raw), id, s.sheets[id], after.sheets[id])
  {
    hide Execute, AdvancedFrom, CommandOk, DecodeCommand, SameStock, SameCombatColumns, PatchOk, Advanced;
    var (r, requestHash) := DecodeCommand(env, raw).value;
    ExecuteMeaning(env, s, caller, r, requestHash);
    SameRuntimeSame(s.sheets[id].runtime);
    var after := Execute(env, s, caller, r, requestHash).value.0;
    if after != s {
      if p :| p in r.participants && p.characterId == id {
        AdvanceSheetMeaning(s.sheets[id], p, after.sheets[id]);
        CommandPatchOk(env, r, p);
        AdvancedKeepsBody(env, s.sheets[id].runtime, p.patch, after.sheets[id].runtime);
      }
    }
  }

  lemma CommandPatchOk(env: Env, r: CommandRequest, p: Participant)
    requires CommandOk(env, r) && p in r.participants
    ensures PatchOk(env, p.patch)
  {
    var i :| 0 <= i < |r.participants| && r.participants[i] == p;
  }

  lemma AdvancedKeepsBody(env: Env, r: Runtime, p: RuntimePatch, after: Runtime)
    requires Advanced(r, p) == Ok(after) && PatchOk(env, p)
    ensures after.maxHp == r.maxHp && after.equipment == r.equipment
  {
    hide InventoryOk, OnlyConsumes, ResourcesBounded, MergedTurn, AmountsOk, TurnOk;
  }

  lemma PutWrites(env: Env, s: Tabletop, caller: Id, k: Id, r: PutRequest, id: Id)
    requires UpdateSheet(env, s, caller, k, r).Ok? && id in s.sheets
    ensures var after := UpdateSheet(env, s, caller, k, r).value.0;
            id in after.sheets && WrittenByRight(s, Put(caller, k, r), id, s.sheets[id], after.sheets[id])
  {
    hide SameStock, SameCombatColumns;
    var before, after := s.sheets[id].runtime, UpdateSheet(env, s, caller, k, r).value.0.sheets[id].runtime;
    SameRuntimeSame(before);
    PutKeepsStock(before, after.maxHp, after.currentHp);
    if k == id {
      assert after == before.(maxHp := after.maxHp, currentHp := after.currentHp);
    }
  }

  lemma PatchWrites(env: Env, s: Tabletop, caller: Id, k: Id, r: PatchRequest, id: Id)
    requires PatchRuntime(env, s, caller, k, r).Ok? && id in s.sheets
    ensures var after := PatchRuntime(env, s, caller, k, r).value.0;
            id in after.sheets && WrittenByRight(s, PatchSheet(caller, k, r), id, s.sheets[id], after.sheets[id])
  {
    hide SameStock, SameCombatColumns, RuntimeUpdates, Overlay;
    SameRuntimeSame(s.sheets[id].runtime);
    if s.sheets[id].encounter.Some? {
      LinkedPatch(s.sheets[id], r.patch);
    }
  }

  lemma PutKeepsStock(r: Runtime, maxHp: int, hp: int)
    ensures SameStock(r, r.(maxHp := maxHp, currentHp := hp)) && SameCombatColumns(r, r.(maxHp := maxHp, currentHp := r.currentHp))
  {
  }

  lemma OtherWrites(env: Env, s: Tabletop, a: Action, id: Id)
    requires (a.Create? || a.Join? || a.Delete? || a.NewSheet? || a.DropSheet?) && id in s.sheets && id in s.issued
    requires id in Step(env, s, a).sheets
    ensures WrittenByRight(s, a, id, s.sheets[id], Step(env, s, a).sheets[id])
  {
    hide SameStock, SameCombatColumns, ActorAccess, AnyMalformed, LinkedIds, IsParticipant, CombatantsReadable, Combatants;
    SameRuntimeSame(s.sheets[id].runtime);
  }

  /**
   * Across all endpoints: a draft changes only by its owner's full update,
   * equipment only by the owner's patch, stock only by the owner's patch or, outside
   * an encounter, the owner's command; the combat columns of a sheet in an
   * encounter only by an operation on that encounter by owner or master. Owner
   * and metadata never change.
   */
  lemma WritersOfColumns(env: Env, s: Tabletop, a: Action, id: Id)
    requires Inv(env, s) && id in s.sheets && id in Step(env, s, a).sheets
    ensures WrittenByRight(s, a, id, s.sheets[id], Step(env, s, a).sheets[id])
  {
    hide Inv, ApplyEncounter, PostCommand, PatchRuntime, UpdateSheet, JoinEncounter, CreateEncounter, DeleteEncounter,
         CreateSheet, DeleteSheet, SameStock, SameCombatColumns;
    SameRuntimeSame(s.sheets[id].runtime);
    IssuedIds(env, s, id);
    match a
    case Apply(caller, e, r) =>
      if ApplyEncounter(env, s, caller, e, r).Ok? { ApplyWrites(env, s, caller, e, r, id); }
    case Command(caller, raw) =>
      if PostCommand(env, s, caller, raw).Ok? { CommandWrites(env, s, caller, raw, id); }
    case Put(caller, k, r) =>
      if UpdateSheet(env, s, caller, k, r).Ok? { PutWrites(env, s, caller, k, r, id); }
    case PatchSheet(caller, k, r) =>
      if PatchRuntime(env, s, caller, k, r).Ok? { PatchWrites(env, s, caller, k, r, id); }
    case _ => OtherWrites(env, s, a, id);
  }

  lemma IssuedIds(env: Env, s: Tabletop, id: Id)
    requires Inv(env, s) && id in s.sheets
    ensures id in s.issued
  {
    hide LinksOk, EncounterOk;
  }

  // ---- The encounter owns its combat columns over runs ----

  /** No operation on the encounter, and it is not deleted. */
  predicate Untouched(actions: seq<Action>, e: Id) {
    forall a | a in actions :: !((a.Apply? || a.Delete?) && a.id == e)
  }

  /** A linked sheet stays linked and in place unless its encounter is operated on or deleted. */
  lemma LinkedStays(env: Env, s: Tabletop, a: Action, e: Id, id: Id)
    requires Inv(env, s) && id in s.sheets && s.sheets[id].encounter == Some(e)
    requires !((a.Apply? || a.Delete?) && a.id == e)
    ensures var after := Step(env, s, a);
            id in after.sheets && after.sheets[id].encounter == Some(e)
  {
    hide Inv, ApplyEncounter, PostCommand, RuntimeUpdates, Overlay, ActorAccess, AnyMalformed, LinkedIds, IsParticipant,
         CombatantsReadable, Combatants;
    IssuedIds(env, s, id);
    match a
    case Apply(caller, f, r) =>
      if ApplyEncounter(env, s, caller, f, r).Ok? { OtherEncounterStays(env, s, caller, f, r, e, id); }
    case Command(caller, raw) =>
      if PostCommand(env, s, caller, raw).Ok? { CommandKeepsLinks(env, s, caller, raw, id); }
    case _ =>
  }

  lemma OtherEncounterStays(env: Env, s: Tabletop, caller: Id, f: Id, r: ApplyRequest, e: Id, id: Id)
    requires Inv(env, s) && ApplyEncounter(env, s, caller, f, r).Ok? && f != e
    requires id in s.sheets && s.sheets[id].encounter == Some(e)
    ensures var after := ApplyEncounter(env, s, caller, f, r).value.0;
            id in after.sheets && after.sheets[id] == s.sheets[id]
  {
    hide ApplyEncounter, Accept, ListOk, ActorAccess, CheckPolicy, StateIds, Elsewhere, ApplyOps, Combatants, Inv, SheetOf, Actor,
         NormalizedAdds, OpPayload, LinkedIds, LinkedSheets, SyncSheet, Touched, SyncAll, NewList, Tracks, WrittenSheets,
         In, IsParticipant;
    ApplyMeaning(env, s, caller, f, r);
    var a := Accept(env, s, caller, f, r).value;
    NewListIs(env, s, caller, f, r, a);
    SheetsStep(env, s, caller, f, r, a);
    LinkStep(env, s, caller, f, r, a, id);
    assert SheetStep(Combatants(a.enc.state), Combatants(a.state), f, id, s.sheets[id],
                     ApplyEncounter(env, s, caller, f, r).value.0.sheets[id]);
  }

  lemma CommandKeepsLinks(env: Env, s: Tabletop, caller: Id, raw: string, id: Id)
    requires PostCommand(env, s, caller, raw).Ok? && id in s.sheets && s.sheets[id].encounter.Some?
    ensures var after := PostCommand(env, s, caller, raw).value.0;
            id in after.sheets && after.sheets[id] == s.sheets[id]
  {
    hide Execute, AdvancedFrom, CommandOk, DecodeCommand;
    var (r, requestHash) := DecodeCommand(env, raw).value;
    ExecuteMeaning(env, s, caller, r, requestHash);
  }

  /**
   * Whatever else happens, as long as nobody operates on or deletes the
   * encounter, a sheet in it stays in it with the same hit points, effects and
   * temporary hit points.
   */
  lemma {:induction false} EncounterOwnsCombat(env: Env, s: Tabletop, actions: seq<Action>, e: Id, id: Id)
    requires Inv(env, s) && id in s.sheets && s.sheets[id].encounter == Some(e) && Untouched(actions, e)
    ensures var after := Run(env, s, actions);
            && id in after.sheets && after.sheets[id].encounter == Some(e)
            && SameCombatColumns(s.sheets[id].runtime, after.sheets[id].runtime)
    decreases |actions|
  {
    hide Inv, Step;
    if actions != [] {
      var a := actions[0];
      assert a in actions;
      LinkedStays(env, s, a, e, id);
      WritersOfColumns(env, s, a, id);
      StepKeeps(env, s, a);
      assert forall x | x in actions[1..] :: x in actions;
      EncounterOwnsCombat(env, Step(env, s, a), actions[1..], e, id);
    }
  }

  // ---- Undoing a patch ----

  /** The patch that puts back the columns that another patch names. */
  function Undo(r: Runtime, p: RuntimePatch): RuntimePatch {
    RuntimePatch(
      if p.currentHp.Some? then Some(r.currentHp) else None,
      if p.maxHp.Some? then Some(r.maxHp) else None,
      if p.equipment.Some? then r.equipment else None,
      if p.inventory.Some? then r.inventory else None,
      if p.resources.Some? then r.resources else None,
      if p.maxResources.Some? then r.maxResources else None,
      if p.effects.Some? then r.effects else None,
      if p.turnState.Some? then r.turnState else None,
      if p.currency.Some? then r.currency else None)
  }

  /** Every column that the patch names was written before. */
  predicate Restorable(r: Runtime, p: RuntimePatch) {
    && (p.equipment.Some? ==> r.equipment.Some?) && (p.inventory.Some? ==> r.inventory.Some?)
    && (p.resources.Some? ==> r.resources.Some?) && (p.maxResources.Some? ==> r.maxResources.Some?)
    && (p.effects.Some? ==> r.effects.Some?) && (p.turnState.Some? ==> r.turnState.Some?)
    && (p.currency.Some? ==> r.currency.Some?)
  }

  /** Some patch restores the runtime exactly if the first one wrote no column for the first time. */
  lemma UndoIff(r: Runtime, p: RuntimePatch)
    ensures Restorable(r, p) <==> exists q :: Overlay(Overlay(r, p), q) == r
  {
    if Restorable(r, p) {
      assert Overlay(Overlay(r, p), Undo(r, p)) == r;
    }
  }

  /**
   * Two patches of a sheet outside encounters, the second undoing the first,
   * leave its runtime as it was and its version two higher; no column can be
   * confused with another.
   */
  lemma PatchUndone(env: Env, s: Tabletop, caller: Id, id: Id, p: RuntimePatch)
    requires CheckWrite(env, s, caller, id).Pass? && s.sheets[id].encounter.None?
    requires p != NO_PATCH && Restorable(s.sheets[id].runtime, p)
    ensures var sheet := s.sheets[id];
            var first := PatchRuntime(env, s, caller, id, PatchRequest(Some(sheet.revision), p));
            first.Ok? &&
            var second := PatchRuntime(env, first.value.0, caller, id, PatchRequest(Some(sheet.revision + 1), Undo(sheet.runtime, p)));
            && second.Ok? && second.value.1 == sheet.(revision := sheet.revision + 2)
            && second.value.0 == s.(sheets := s.sheets[id := second.value.1])
  {
    hide Overlay, Undo, PatchRuntime, Restorable;
    var sheet := s.sheets[id];
    var back := Undo(sheet.runtime, p);
    UndoWorks(sheet.runtime, p);
    PatchedOnce(env, s, caller, id, p);
    var once := PatchRuntime(env, s, caller, id, PatchRequest(Some(sheet.revision), p)).value.0;
    PatchedOnce(env, once, caller, id, back);
  }

  lemma UndoWorks(r: Runtime, p: RuntimePatch)
    requires Restorable(r, p) && p != NO_PATCH
    ensures Overlay(Overlay(r, p), Undo(r, p)) == r && Undo(r, p) != NO_PATCH
  {
  }

  lemma PatchedOnce(env: Env, s: Tabletop, caller: Id, id: Id, p: RuntimePatch)
    requires CheckWrite(env, s, caller, id).Pass? && s.sheets[id].encounter.None? && p != NO_PATCH
    ensures var sheet := s.sheets[id];
            var next := sheet.(runtime := Overlay(sheet.runtime, p), revision := sheet.revision + 1);
            PatchRuntime(env, s, caller, id, PatchRequest(Some(sheet.revision), p)) == Ok((s.(sheets := s.sheets[id := next]), next))
  {
    hide Overlay;
  }

  // ---- Journals ----

  /** Every journal row comes from an addressed entry of the operation, and addresses a sheet of the encounter. */
  lemma {:induction false} JournalMeaning(env: Env, entries: seq<LogEntry>, loaded: set<Id>)
    requires JournalRows(env, entries, loaded).Ok?
    ensures forall row | row in JournalRows(env, entries, loaded).value ::
              row.sheetId in loaded && env.eventOk(row.kind, row.payload)
              && exists e :: e in entries && e.payload == Some(row.payload) && e.kind == row.kind
                             && ParseUuid(e.target) == Some(row.sheetId)
    ensures forall e | e in entries && e.target != "" && ParseUuid(e.target).Some? && ParseUuid(e.target).value in loaded ::
              e.payload.Some?
              && JournalRow(ParseUuid(e.target).value, e.kind, e.payload.value) in JournalRows(env, entries, loaded).value
  {
    hide ParseUuid;
    if entries != [] {
      JournalMeaning(env, entries[1..], loaded);
      assert forall e :: e in entries <==> e == entries[0] || e in entries[1..];
    }
  }
}
