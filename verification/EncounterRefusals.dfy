/** Why an encounter operation is refused: the first fault in the order of the checks decides the response class. */
module EncounterRefusals {
  import opened JsonValues
  import opened Outcomes
  import opened TextRules
  import opened WorldState
  import opened Identifiers
  import opened EncounterState
  import opened TabletopTables
  import opened EncounterRules
  import opened CombatantLists
  import opened EncounterSteps
  import opened TabletopInvariant
  import opened EncounterKeeps
  import opened TabletopRuns
  import opened TabletopTheorems
  import opened EncounterPermission

  // ---- Faults ----

  predicate There(enc: Encounter, actorId: string) {
    exists c | c in Combatants(enc.state) :: Actor(c) == actorId
  }

  /** Only a participant's lack of rights over an existing actor is forbidden; everything else in a patch is bad input. */
  function PatchFault(s: Tabletop, enc: Encounter, caller: Id, p: Patch): Refusal {
    if There(enc, p.actorId) && !ActorAllowed(s, enc, caller, p.actorId) then NotAllowed else BadInput
  }

  function RemovalFault(enc: Encounter, id: string): Refusal {
    if There(enc, id) then NotAllowed else BadInput
  }

  function TurnFault(enc: Encounter, caller: Id): Refusal {
    if caller == enc.owner then BadInput else NotAllowed
  }

  /** A used actor or sheet is a conflict; a stranger's sheet and a creature of anybody but the master are forbidden. */
  function AddFault(env: Env, sheets: map<Id, Sheet>, caller: Id, a: Fields, names: set<string>): Refusal {
    if NewName(a) == "" || Utf8Length(NewName(a)) > 255 then BadInput
    else if NewName(a) in names then Stale
    else if RefText(env, a) == "" then NotAllowed
    else
      var id := ParseUuid(RefText(env, a));
      if id.None? || id.value == NIL_ID || id.value !in sheets then BadInput
      else if sheets[id.value].owner != caller then NotAllowed
      else Stale
  }

  function EntryFault(x: LogEntry): Refusal {
    if ParseUuid(TrimSpace(x.target)).None? then BadInput else NotAllowed
  }

  predicate Addressee(x: LogEntry, known: set<Id>) {
    TrimSpace(x.target) != "" ==> ParseUuid(TrimSpace(x.target)).Some? && ParseUuid(TrimSpace(x.target)).value in known
  }

  // ---- The first of each list ----

  /** The refusal is the fault of the first patch that is not allowed. */
  predicate FirstPatch(env: Env, s: Tabletop, enc: Encounter, caller: Id, ps: seq<Patch>, error: Refusal) {
    exists i: nat | i < |ps| ::
      && !PatchAllowed(env, s, enc, caller, ps[i]) && error == PatchFault(s, enc, caller, ps[i])
      && forall j | 0 <= j < i :: PatchAllowed(env, s, enc, caller, ps[j])
  }

  predicate FirstRemoval(s: Tabletop, enc: Encounter, caller: Id, ids: seq<string>, error: Refusal) {
    exists i: nat | i < |ids| ::
      && !ActorAllowed(s, enc, caller, ids[i]) && error == RemovalFault(enc, ids[i])
      && forall j | 0 <= j < i :: ActorAllowed(s, enc, caller, ids[j])
  }

  predicate AddAllowedAt(env: Env, sheets: map<Id, Sheet>, enc: Encounter, caller: Id, adds: seq<Fields>, names: set<string>,
        taken: set<Id>, i: nat)
    requires i < |adds|
  {
    AddAllowed(env, sheets, enc, caller, adds[i], names + NewNames(adds[..i]), taken + NewSheets(env, adds[..i]))
  }

  predicate FirstAdd(env: Env, sheets: map<Id, Sheet>, enc: Encounter, caller: Id, adds: seq<Fields>, names: set<string>, taken: set<Id>,
        error: Refusal) {
    exists i: nat | i < |adds| ::
      && !AddAllowedAt(env, sheets, enc, caller, adds, names, taken, i)
      && error == AddFault(env, sheets, caller, adds[i], names + NewNames(adds[..i]))
      && forall j: nat | j < i :: AddAllowedAt(env, sheets, enc, caller, adds, names, taken, j)
  }

  predicate FirstEntry(entries: seq<LogEntry>, known: set<Id>, error: Refusal) {
    exists i: nat | i < |entries| ::
      && !Addressee(entries[i], known) && error == EntryFault(entries[i])
      && forall j | 0 <= j < i :: Addressee(entries[j], known)
  }

  /** The actor table says who is there and whom the caller may touch. */
  ghost predicate TableOf(s: Tabletop, enc: Encounter, caller: Id, actors: map<string, Access>) {
    forall id ::
      && (id in actors <==> There(enc, id))
      && (id in actors && MayTouch(enc, caller, actors[id]) <==> ActorAllowed(s, enc, caller, id))
  }

  lemma {:induction false} PatchFaults(env: Env, s: Tabletop, enc: Encounter, caller: Id, actors: map<string, Access>, ps: seq<Patch>)
    requires TableOf(s, enc, caller, actors)
    ensures var check := CheckPatches(env, enc, caller, actors, ps);
            if check.Reject? then FirstPatch(env, s, enc, caller, ps, check.error)
            else forall p | p in ps :: PatchAllowed(env, s, enc, caller, p)
  {
    hide MayTouch, PatchValueOk, ValueAllowed, ActorAllowed, There;
    if ps != [] {
      forall k, v ensures PatchValueOk(env, k, v) <==> ValueAllowed(env, k, v) { ValueIff(env, k, v); }
      if PatchAllowed(env, s, enc, caller, ps[0]) {
        PatchFaults(env, s, enc, caller, actors, ps[1..]);
        var check := CheckPatches(env, enc, caller, actors, ps);
        if check.Reject? {
          var i: nat :| i < |ps[1..]| && !PatchAllowed(env, s, enc, caller, ps[1..][i]) && check.error == PatchFault(s, enc, caller, ps[1..][i])
                        && forall j | 0 <= j < i :: PatchAllowed(env, s, enc, caller, ps[1..][j]);
          assert ps[i + 1] == ps[1..][i];
          assert forall j | 0 < j < i + 1 :: ps[j] == ps[1..][j - 1];
        }
      }
    }
  }

  lemma {:induction false} RemovalFaults(s: Tabletop, enc: Encounter, caller: Id, actors: map<string, Access>, ids: seq<string>)
    requires TableOf(s, enc, caller, actors)
    ensures var check := CheckRemovals(enc, caller, actors, ids);
            if check.Reject? then FirstRemoval(s, enc, caller, ids, check.error)
            else forall id | id in ids :: ActorAllowed(s, enc, caller, id)
  {
    hide MayTouch, ActorAllowed, There;
    if ids != [] && ActorAllowed(s, enc, caller, ids[0]) {
      RemovalFaults(s, enc, caller, actors, ids[1..]);
      var check := CheckRemovals(enc, caller, actors, ids);
      if check.Reject? {
        var i: nat :| i < |ids[1..]| && !ActorAllowed(s, enc, caller, ids[1..][i]) && check.error == RemovalFault(enc, ids[1..][i])
                      && forall j | 0 <= j < i :: ActorAllowed(s, enc, caller, ids[1..][j]);
        assert ids[i + 1] == ids[1..][i];
        assert forall j | 0 < j < i + 1 :: ids[j] == ids[1..][j - 1];
      }
    }
  }

  lemma TurnFaults(enc: Encounter, caller: Id, op: Op)
    ensures CheckTurn(enc, caller, op) == if TurnAllowed(enc, caller, op) then Pass else Reject(TurnFault(enc, caller))
  {
  }

  lemma AddFaultIs(env: Env, enc: Encounter, caller: Id, sheets: map<Id, Sheet>, a: Fields, known: Known)
    ensures CheckAdd(env, enc, caller, sheets, a, known).Err? ==>
              CheckAdd(env, enc, caller, sheets, a, known) == Err(AddFault(env, sheets, caller, a, known.actors))
  {
    hide ParseUuid, TrimSpace, Utf8Length, CharacterRef;
    RefIs(env, a);
  }

  lemma {:induction false} AddFaults(env: Env, enc: Encounter, caller: Id, sheets: map<Id, Sheet>, adds: seq<Fields>, known: Known)
    ensures var check := CheckAdds(env, enc, caller, sheets, adds, known);
            check.Err? ==> FirstAdd(env, sheets, enc, caller, adds, known.actors, known.sheets, check.error)
    decreases |adds|
  {
    hide CheckAdd, AddAllowed, NewNames, NewSheets, AddFault;
    if adds != [] {
      var a := adds[0];
      AddIff(env, enc, caller, sheets, a, known);
      AddFaultIs(env, enc, caller, sheets, a, known);
      NoneNew(env);
      assert known.actors + {} == known.actors && known.sheets + {} == known.sheets;
      assert AddAllowedAt(env, sheets, enc, caller, adds, known.actors, known.sheets, 0) <==>
             AddAllowed(env, sheets, enc, caller, a, known.actors, known.sheets);
      var first := CheckAdd(env, enc, caller, sheets, a, known);
      var check := CheckAdds(env, enc, caller, sheets, adds, known);
      if first.Ok? && check.Err? {
        var next := first.value;
        AddFaults(env, enc, caller, sheets, adds[1..], next);
        FirstAddLater(env, enc, caller, sheets, adds, known, next, check.error);
      }
    }
  }

  lemma AtLater(env: Env, enc: Encounter, caller: Id, sheets: map<Id, Sheet>, adds: seq<Fields>, known: Known, next: Known, i: nat)
    requires i + 1 < |adds| && next == Known(known.actors + NewNames([adds[0]]), known.sheets + NewSheets(env, [adds[0]]))
    ensures adds[1..][i] == adds[i + 1]
    ensures next.actors + NewNames(adds[1..][..i]) == known.actors + NewNames(adds[..i + 1])
    ensures AddAllowedAt(env, sheets, enc, caller, adds[1..], next.actors, next.sheets, i) <==>
            AddAllowedAt(env, sheets, enc, caller, adds, known.actors, known.sheets, i + 1)
  {
    hide AddAllowed, NewNames, NewSheets;
    assert adds[..i + 1] == [adds[0]] + adds[1..][..i];
    NewNamesCons(adds[0], adds[1..][..i]);
    NewSheetsCons(env, adds[0], adds[1..][..i]);
    assert known.sheets + NewSheets(env, adds[..i + 1]) == next.sheets + NewSheets(env, adds[1..][..i]);
    assert next.actors + NewNames(adds[1..][..i]) == known.actors + NewNames(adds[..i + 1]);
  }

  lemma FirstAddLater(env: Env, enc: Encounter, caller: Id, sheets: map<Id, Sheet>, adds: seq<Fields>, known: Known, next: Known,
        error: Refusal)
    requires adds != [] && next == Known(known.actors + NewNames([adds[0]]), known.sheets + NewSheets(env, [adds[0]]))
    requires FirstAdd(env, sheets, enc, caller, adds[1..], next.actors, next.sheets, error)
    requires AddAllowedAt(env, sheets, enc, caller, adds, known.actors, known.sheets, 0)
    ensures FirstAdd(env, sheets, enc, caller, adds, known.actors, known.sheets, error)
  {
    hide AddAllowedAt, NewNames, NewSheets, AddFault;
    var i: nat :| i < |adds[1..]| && !AddAllowedAt(env, sheets, enc, caller, adds[1..], next.actors, next.sheets, i)
                  && error == AddFault(env, sheets, caller, adds[1..][i], next.actors + NewNames(adds[1..][..i]))
                  && forall j: nat | j < i :: AddAllowedAt(env, sheets, enc, caller, adds[1..], next.actors, next.sheets, j);
    AtLater(env, enc, caller, sheets, adds, known, next, i);
    forall j: nat | j < i + 1 ensures AddAllowedAt(env, sheets, enc, caller, adds, known.actors, known.sheets, j) {
      if j > 0 {
        AtLater(env, enc, caller, sheets, adds, known, next, j - 1);
      }
    }
    assert !AddAllowedAt(env, sheets, enc, caller, adds, known.actors, known.sheets, i + 1);
  }

  lemma {:induction false} EntryFaults(entries: seq<LogEntry>, known: set<Id>)
    ensures var check := CheckLog(entries, known);
            if check.Reject? then FirstEntry(entries, known, check.error) else forall x | x in entries :: Addressee(x, known)
  {
    hide ParseUuid, TrimSpace;
    if entries != [] && Addressee(entries[0], known) {
      EntryFaults(entries[1..], known);
      var check := CheckLog(entries, known);
      if check.Reject? {
        var i: nat :| i < |entries[1..]| && !Addressee(entries[1..][i], known) && check.error == EntryFault(entries[1..][i])
                      && forall j | 0 <= j < i :: Addressee(entries[1..][j], known);
        assert entries[i + 1] == entries[1..][i];
        assert forall j | 0 < j < i + 1 :: entries[j] == entries[1..][j - 1];
      }
    }
  }

  // ---- All checks together ----

  lemma TableIs(env: Env, s: Tabletop, enc: Encounter, caller: Id)
    requires ListOk(Combatants(enc.state)) && SheetsKnown(s.sheets, Combatants(enc.state))
    ensures ActorAccess(env, s.sheets, Combatants(enc.state), map[]).Ok?
    ensures TableOf(s, enc, caller, ActorAccess(env, s.sheets, Combatants(enc.state), map[]).value)
  {
    hide ListOk, ActorAccess, SheetOf, Actor, Combatants, MayTouch, ActorAllowed;
    ActorsAre(env, s, Combatants(enc.state));
    forall id {
      TouchIff(env, s, enc, caller, id);
    }
  }

  /** The refusal by the policy, on a store in order. */
  ghost predicate PolicyRefusal(env: Env, s: Tabletop, enc: Encounter, caller: Id, op: Op, error: Refusal) {
    var cs := Combatants(enc.state);
    if exists id | id in SheetsOf(cs) :: id in s.sheets && !TakesPart(enc, s.sheets[id].owner) then error == Stale
    else if exists p | p in op.patches :: !PatchAllowed(env, s, enc, caller, p) then FirstPatch(env, s, enc, caller, op.patches, error)
    else if exists id | id in op.remove :: !ActorAllowed(s, enc, caller, id) then FirstRemoval(s, enc, caller, op.remove, error)
    else if !TurnAllowed(enc, caller, op) then error == TurnFault(enc, caller)
    else if !AddsAllowed(env, s.sheets, enc, caller, op.add, NamesOf(cs), SheetsOf(cs)) then
      FirstAdd(env, s.sheets, enc, caller, op.add, NamesOf(cs), SheetsOf(cs), error)
    else FirstEntry(op.log, SheetsOf(cs) + NewSheets(env, op.add), error)
  }

  lemma PolicyFaults(env: Env, s: Tabletop, enc: Encounter, caller: Id, op: Op)
    requires ListOk(Combatants(enc.state)) && SheetsKnown(s.sheets, Combatants(enc.state)) && TakesPart(enc, caller)
    ensures ActorAccess(env, s.sheets, Combatants(enc.state), map[]).Ok?
    ensures var check := CheckPolicy(env, enc, caller, ActorAccess(env, s.sheets, Combatants(enc.state), map[]).value, s.sheets, op);
            check.Reject? ==> PolicyRefusal(env, s, enc, caller, op, check.error)
  {
    hide ListOk, ActorAccess, Combatants, CheckPatches, CheckRemovals, CheckTurn, CheckAdds, CheckLog, IsParticipant, TakesPart, MayTouch,
         PatchAllowed, ActorAllowed, TurnAllowed, AddsAllowed, NamesOf, SheetsOf, NewSheets, KnownBefore, SheetsKnown, FirstPatch, FirstRemoval,
         FirstAdd, FirstEntry, TableOf, Addressee;
    var cs := Combatants(enc.state);
    ActorsAre(env, s, cs);
    var actors := ActorAccess(env, s.sheets, cs, map[]).value;
    TakesPartIff(enc, caller);
    KnownSheets(s, cs);
    ControllersIff(env, s, enc, cs);
    TableIs(env, s, enc, caller);
    PatchFaults(env, s, enc, caller, actors, op.patches);
    RemovalFaults(s, enc, caller, actors, op.remove);
    TurnFaults(enc, caller, op);
    AddsIff(env, enc, caller, s.sheets, op.add, KnownBefore(actors));
    AddFaults(env, enc, caller, s.sheets, op.add, KnownBefore(actors));
    EntryFaults(op.log, SheetsOf(cs) + NewSheets(env, op.add));
    FirstExist(env, s, enc, caller, op);
  }

  lemma FirstExist(env: Env, s: Tabletop, enc: Encounter, caller: Id, op: Op)
    ensures forall error :: FirstPatch(env, s, enc, caller, op.patches, error) ==>
              exists p | p in op.patches :: !PatchAllowed(env, s, enc, caller, p)
    ensures forall error :: FirstRemoval(s, enc, caller, op.remove, error) ==>
              exists id | id in op.remove :: !ActorAllowed(s, enc, caller, id)
  {
    hide PatchAllowed, ActorAllowed, PatchFault, RemovalFault;
  }

  /** The reference of the addition, if any, is an identifier. */
  predicate Readable(env: Env, a: Fields) {
    RefText(env, a) != "" ==> ParseUuid(RefText(env, a)).Some? && ParseUuid(RefText(env, a)).value != NIL_ID
  }

  /**
   * On a store in order, once shape, caller, encounter and version are right,
   * the first of these decides: an unreadable reference of an addition is bad
   * input, one to no sheet unacceptable; a stored sheet of somebody who takes no
   * part is a conflict; then the first patch, the first removal, the turn, the
   * first addition and the first entry that is not allowed; then a sheet that
   * is in an encounter, a conflict; then an address that is no identifier.
   */
  lemma ApplyFaults(env: Env, s: Tabletop, caller: Id, e: Id, r: ApplyRequest)
    requires Inv(env, s) && e in s.encounters && r.expectedSeq == Some(s.encounters[e].seqNo)
    requires ShapeAllowed(env, r.op) && TakesPart(s.encounters[e], caller)
    ensures var result := ApplyEncounter(env, s, caller, e, r);
            var enc := s.encounters[e];
            if !(forall a | a in r.op.add :: Readable(env, a)) then result == Err(BadInput)
            else if !(NewSheets(env, r.op.add) <= s.sheets.Keys) then result == Err(Unacceptable)
            else if !PolicyAllowed(env, s, enc, caller, r.op) then result.Err? && PolicyRefusal(env, s, enc, caller, r.op, result.error)
            else if exists id | id in NewSheets(env, r.op.add) :: s.sheets[id].encounter.Some? then result == Err(Stale)
            else if exists x | x in r.op.log :: x.target != "" && (x.payload.None? || ParseUuid(x.target).None?) then result == Err(BadInput)
            else result.Ok?
  {
    hide Inv, EnvelopeOk, ShapeAllowed, IsParticipant, CombatantsReadable, AnyMalformed, LinkedIds, ActorAccess, CheckPolicy, ApplyOps,
         StateIds, Elsewhere, Combatants, NormalizedAdds, NewSheets, SheetsKnown, ListOk, TakesPart, ParseUuid, PolicyAllowed, PolicyRefusal,
         Readable, SyncAll, LinkSheets, UnlinkSheets, JournalRows, OpPayload, Tracks;
    var enc := s.encounters[e];
    ShapeIff(env, r.op);
    ShapedEvents(env, r.op);
    VersionNatural(env, s, e);
    TakesPartIff(enc, caller);
    PolicyTakesPartReal(enc, caller);
    StoredStateAccepted(env, s, e);
    SheetsOfEncounter(env, s, e);
    ReadableIff(env, r.op.add);
    PolicyIff(env, s, enc, caller, r.op);
    PolicyFaults(env, s, enc, caller, r.op);
    if PolicyAllowed(env, s, enc, caller, r.op) {
      ConflictIff(env, s, e, caller, r.op);
    }
    if Accept(env, s, caller, e, r).Ok? {
      JournalIff(env, r.op.log, Accept(env, s, caller, e, r).value.loaded);
      JournalFault(env, r.op.log, Accept(env, s, caller, e, r).value.loaded);
    }
  }

  lemma ReadableIff(env: Env, adds: seq<Fields>)
    ensures AnyMalformed(env, adds) <==> !forall a | a in adds :: Readable(env, a)
    ensures !AnyMalformed(env, adds) ==> LinkedIds(env, adds) == NewSheets(env, adds)
  {
    hide ParseUuid, RefText, CharacterRef;
    MalformedIff(env, map[], adds);
    forall a ensures CharacterRef(env, a) ==
                     if RefText(env, a) == "" then Creature
                     else match ParseUuid(RefText(env, a)) case None => Malformed
                                                           case Some(id) => if id == NIL_ID then Malformed else Linked(id)
    {
      RefIs(env, a);
    }
    if !AnyMalformed(env, adds) {
      forall a | a in adds ensures exists i :: 0 <= i < |adds| && adds[i] == a {}
      assert forall i | 0 <= i < |adds| :: adds[i] in adds;
      assert LinkedIds(env, adds) == NewSheets(env, adds);
    }
  }

  lemma {:induction false} JournalFault(env: Env, entries: seq<LogEntry>, loaded: set<Id>)
    ensures JournalRows(env, entries, loaded).Err? ==> JournalRows(env, entries, loaded) == Err(BadInput)
  {
    hide ParseUuid;
    if entries != [] {
      JournalFault(env, entries[1..], loaded);
    }
  }
}
