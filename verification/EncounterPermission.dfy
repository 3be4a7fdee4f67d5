/** Exactly which encounter operations are accepted, said of the request and the stored rows alone. */
module EncounterPermission {
  import opened JsonValues
  import opened Outcomes
  import opened TextRules
  import opened WorldState
  import opened Identifiers
  import opened EncounterState
  import opened TabletopTables
  import opened EncounterRules
  import opened CombatantLists
  import opened EncounterSteps
  import opened TabletopInvariant
  import opened EncounterKeeps
  import opened TabletopRuns
  import opened TabletopTheorems

  // ---- What a permitted operation looks like ----

  /** At most 128 of everything, texts within 4096 bytes, and an event type with a payload or neither. */
  predicate ShapeAllowed(env: Env, op: Op) {
    && |op.patches| <= 128 && |op.add| <= 128 && |op.remove| <= 128 && |op.notes| <= 128 && |op.log| <= 128
    && (forall n | n in op.notes :: n.Str? && Utf8Length(n.text) <= 4096)
    && (forall x | x in op.log ::
          && Utf8Length(x.message) <= 4096 && Utf8Length(x.target) <= 64
          && (x.payload.None? ==> TrimSpace(x.kind) == "" && TrimSpace(x.target) == "")
          && (x.payload.Some? ==> TrimSpace(x.kind) != "" && env.eventOk(x.kind, x.payload.value)))
  }

  /** The master, or somebody whose id is among the members up to spelling. */
  predicate TakesPart(enc: Encounter, user: Id) {
    user != NIL_ID && (user == enc.owner || exists m | m in enc.members :: ParseUuid(TrimSpace(m)) == Some(user))
  }

  predicate OwnsSheet(s: Tabletop, c: Fields, user: Id) {
    SheetOf(c).Some? && SheetOf(c).value in s.sheets && s.sheets[SheetOf(c).value].owner == user
  }

  /** The actor is there, and the caller is the master or owns its sheet. */
  predicate ActorAllowed(s: Tabletop, enc: Encounter, caller: Id, actorId: string) {
    exists c | c in Combatants(enc.state) :: Actor(c) == actorId && (caller == enc.owner || OwnsSheet(s, c, caller))
  }

  predicate ValueAllowed(env: Env, k: string, v: Json) {
    || ((k == "hp" || k == "temp") && v.Num? && 0 <= v.n <= 1_000_000)
    || ((k == "activeEffects" || k == "pendingSaves" || k == "pendingAttacks") && v.Arr? && |v.items| <= 128 && env.rowsOk(k, v.items))
  }

  predicate PatchAllowed(env: Env, s: Tabletop, enc: Encounter, caller: Id, p: Patch) {
    ActorAllowed(s, enc, caller, p.actorId) && forall k | k in p.values :: ValueAllowed(env, k, p.values[k])
  }

  predicate TurnAllowed(enc: Encounter, caller: Id, op: Op) {
    && (op.round.Some? ==> caller == enc.owner && op.round.value >= 1)
    && (op.activeIndex.Some? ==> caller == enc.owner && op.activeIndex.value >= 0)
  }

  function NewName(a: Fields): string {
    if Field(a, "actorId").Str? then TrimSpace(Field(a, "actorId").text) else ""
  }

  function RefText(env: Env, a: Fields): string {
    var raw := Field(a, "characterId");
    if raw.Null? then "" else TrimSpace(if raw.Str? then raw.text else env.show(raw))
  }

  /** The actor is new, and it is a creature brought by the master or a sheet brought by its owner. */
  predicate AddAllowed(env: Env, sheets: map<Id, Sheet>, enc: Encounter, caller: Id, a: Fields, names: set<string>, taken: set<Id>) {
    && NewName(a) != "" && Utf8Length(NewName(a)) <= 255 && NewName(a) !in names
    && if RefText(env, a) == "" then caller == enc.owner
       else
         var id := ParseUuid(RefText(env, a));
         id.Some? && id.value != NIL_ID && id.value in sheets && sheets[id.value].owner == caller && id.value !in taken
  }

  function NamesOf(cs: seq<Fields>): set<string> {
    set c | c in cs :: Actor(c)
  }

  function SheetsOf(cs: seq<Fields>): set<Id> {
    set c | c in cs && SheetOf(c).Some? :: SheetOf(c).value
  }

  function NewNames(adds: seq<Fields>): set<string> {
    set a | a in adds :: NewName(a)
  }

  function NewSheets(env: Env, adds: seq<Fields>): set<Id> {
    set a | a in adds && RefText(env, a) != "" && ParseUuid(RefText(env, a)).Some? :: ParseUuid(RefText(env, a)).value
  }

  /** Each addition is allowed beside the combatants there are and the additions before it. */
  predicate AddsAllowed(env: Env, sheets: map<Id, Sheet>, enc: Encounter, caller: Id, adds: seq<Fields>, names: set<string>,
        taken: set<Id>) {
    forall i | 0 <= i < |adds| ::
      AddAllowed(env, sheets, enc, caller, adds[i], names + NewNames(adds[..i]), taken + NewSheets(env, adds[..i]))
  }

  /** The entry addresses nobody, or a sheet of the encounter or of an addition, by its exact spelling. */
  predicate EntryAllowed(x: LogEntry, known: set<Id>) {
    && (TrimSpace(x.target) != "" ==> ParseUuid(TrimSpace(x.target)).Some? && ParseUuid(TrimSpace(x.target)).value in known)
    && (x.target != "" ==> x.payload.Some? && ParseUuid(x.target).Some?)
  }

  predicate Permitted(env: Env, s: Tabletop, caller: Id, e: Id, r: ApplyRequest) {
    && e in s.encounters && r.expectedSeq == Some(s.encounters[e].seqNo) && ShapeAllowed(env, r.op)
    && var enc := s.encounters[e];
       var cs := Combatants(enc.state);
    && TakesPart(enc, caller)
    && (forall id | id in SheetsOf(cs) :: id in s.sheets && TakesPart(enc, s.sheets[id].owner))
    && (forall p | p in r.op.patches :: PatchAllowed(env, s, enc, caller, p))
    && (forall id | id in r.op.remove :: ActorAllowed(s, enc, caller, id))
    && TurnAllowed(enc, caller, r.op)
    && AddsAllowed(env, s.sheets, enc, caller, r.op.add, NamesOf(cs), SheetsOf(cs))
    && (forall x | x in r.op.log :: EntryAllowed(x, SheetsOf(cs) + NewSheets(env, r.op.add)))
    && (forall id | id in NewSheets(env, r.op.add) :: id in s.sheets && s.sheets[id].encounter.None?)
  }

  // ---- The checks, one by one ----

  lemma ShapeIff(env: Env, op: Op)
    ensures EnvelopeOk(env, op) <==> ShapeAllowed(env, op)
  {
    hide TrimSpace, Utf8Length;
  }

  lemma TakesPartIff(enc: Encounter, user: Id)
    ensures IsParticipant(enc, user) <==> TakesPart(enc, user)
  {
    hide ParseUuid, TrimSpace;
  }

  lemma ValueIff(env: Env, k: string, v: Json)
    ensures PatchValueOk(env, k, v) <==> ValueAllowed(env, k, v)
  {
  }

  lemma {:induction false} PatchesIff(env: Env, enc: Encounter, caller: Id, actors: map<string, Access>, ps: seq<Patch>)
    ensures CheckPatches(env, enc, caller, actors, ps).Pass? <==>
            forall p | p in ps :: p.actorId in actors && MayTouch(enc, caller, actors[p.actorId])
                                  && forall k | k in p.values :: ValueAllowed(env, k, p.values[k])
  {
    hide MayTouch, PatchValueOk, ValueAllowed;
    if ps != [] {
      forall k, v ensures PatchValueOk(env, k, v) <==> ValueAllowed(env, k, v) { ValueIff(env, k, v); }
      PatchesIff(env, enc, caller, actors, ps[1..]);
      assert forall p :: p in ps <==> p == ps[0] || p in ps[1..];
    }
  }

  lemma {:induction false} RemovalsIff(enc: Encounter, caller: Id, actors: map<string, Access>, ids: seq<string>)
    ensures CheckRemovals(enc, caller, actors, ids).Pass? <==>
            forall id | id in ids :: id in actors && MayTouch(enc, caller, actors[id])
  {
    hide MayTouch;
    if ids != [] {
      RemovalsIff(enc, caller, actors, ids[1..]);
      assert forall id :: id in ids <==> id == ids[0] || id in ids[1..];
    }
  }

  lemma TurnIff(enc: Encounter, caller: Id, op: Op)
    ensures CheckTurn(enc, caller, op).Pass? <==> TurnAllowed(enc, caller, op)
  {
  }

  lemma RefIs(env: Env, a: Fields)
    ensures CharacterRef(env, a) ==
            if RefText(env, a) == "" then Creature
            else match ParseUuid(RefText(env, a)) case None => Malformed case Some(id) => if id == NIL_ID then Malformed else Linked(id)
  {
    hide ParseUuid, TrimSpace;
  }

  lemma AddIff(env: Env, enc: Encounter, caller: Id, sheets: map<Id, Sheet>, a: Fields, known: Known)
    ensures CheckAdd(env, enc, caller, sheets, a, known).Ok? <==> AddAllowed(env, sheets, enc, caller, a, known.actors, known.sheets)
    ensures CheckAdd(env, enc, caller, sheets, a, known).Ok? ==>
              CheckAdd(env, enc, caller, sheets, a, known).value ==
              Known(known.actors + NewNames([a]), known.sheets + NewSheets(env, [a]))
  {
    hide ParseUuid, TrimSpace, Utf8Length, CharacterRef;
    RefIs(env, a);
    assert NewNames([a]) == {NewName(a)};
    if RefText(env, a) == "" || ParseUuid(RefText(env, a)).None? {
      assert NewSheets(env, [a]) == {};
    } else {
      assert a in [a];
      assert NewSheets(env, [a]) == {ParseUuid(RefText(env, a)).value};
    }
  }

  lemma NewNamesCons(a: Fields, rest: seq<Fields>)
    ensures NewNames([a] + rest) == NewNames([a]) + NewNames(rest)
  {
    hide NewName;
    assert forall x :: x in [a] + rest <==> x in [a] || x in rest;
  }

  lemma NewSheetsCons(env: Env, a: Fields, rest: seq<Fields>)
    ensures NewSheets(env, [a] + rest) == NewSheets(env, [a]) + NewSheets(env, rest)
  {
    hide RefText, ParseUuid;
    assert forall x :: x in [a] + rest <==> x in [a] || x in rest;
  }

  lemma AddsAllowedCons(env: Env, sheets: map<Id, Sheet>, enc: Encounter, caller: Id, adds: seq<Fields>, names: set<string>, taken: set<Id>)
    requires adds != []
    ensures AddsAllowed(env, sheets, enc, caller, adds, names, taken) <==>
            AddAllowed(env, sheets, enc, caller, adds[0], names, taken)
            && AddsAllowed(env, sheets, enc, caller, adds[1..], names + NewNames([adds[0]]), taken + NewSheets(env, [adds[0]]))
  {
    hide AddAllowed, NewNames, NewSheets;
    NoneNew(env);
    assert names + {} == names && taken + {} == taken;
    forall i | 0 < i < |adds|
      ensures adds[1..][i - 1] == adds[i]
      ensures names + NewNames(adds[..i]) == names + NewNames([adds[0]]) + NewNames(adds[1..][..i - 1])
      ensures taken + NewSheets(env, adds[..i]) == taken + NewSheets(env, [adds[0]]) + NewSheets(env, adds[1..][..i - 1])
    {
      assert adds[..i] == [adds[0]] + adds[1..][..i - 1];
      NewNamesCons(adds[0], adds[1..][..i - 1]);
      NewSheetsCons(env, adds[0], adds[1..][..i - 1]);
    }
  }

  lemma NoneNew(env: Env)
    ensures NewNames([]) == {} && NewSheets(env, []) == {}
  {
  }

  lemma {:induction false} AddsIff(env: Env, enc: Encounter, caller: Id, sheets: map<Id, Sheet>, adds: seq<Fields>, known: Known)
    ensures CheckAdds(env, enc, caller, sheets, adds, known).Ok? <==>
            AddsAllowed(env, sheets, enc, caller, adds, known.actors, known.sheets)
    ensures CheckAdds(env, enc, caller, sheets, adds, known).Ok? ==>
              CheckAdds(env, enc, caller, sheets, adds, known).value.sheets == known.sheets + NewSheets(env, adds)
    decreases |adds|
  {
    hide CheckAdd, AddAllowed, AddsAllowed, NewNames, NewSheets;
    if adds == [] {
      NoneNew(env);
      NothingAllowed(env, sheets, enc, caller, known.actors, known.sheets);
      assert known.sheets + {} == known.sheets;
    } else {
      var a := adds[0];
      AddIff(env, enc, caller, sheets, a, known);
      AddsAllowedCons(env, sheets, enc, caller, adds, known.actors, known.sheets);
      if CheckAdd(env, enc, caller, sheets, a, known).Ok? {
        AddsIff(env, enc, caller, sheets, adds[1..], CheckAdd(env, enc, caller, sheets, a, known).value);
        assert adds == [a] + adds[1..];
        NewSheetsCons(env, a, adds[1..]);
      }
    }
  }

  lemma NothingAllowed(env: Env, sheets: map<Id, Sheet>, enc: Encounter, caller: Id, names: set<string>, taken: set<Id>)
    ensures AddsAllowed(env, sheets, enc, caller, [], names, taken)
  {
  }

  lemma {:induction false} LogIff(entries: seq<LogEntry>, known: set<Id>)
    ensures CheckLog(entries, known).Pass? <==>
            forall x | x in entries && TrimSpace(x.target) != "" ::
              ParseUuid(TrimSpace(x.target)).Some? && ParseUuid(TrimSpace(x.target)).value in known
  {
    hide ParseUuid, TrimSpace;
    if entries != [] {
      LogIff(entries[1..], known);
      assert forall x :: x in entries <==> x == entries[0] || x in entries[1..];
    }
  }

  lemma {:induction false} JournalIff(env: Env, entries: seq<LogEntry>, loaded: set<Id>)
    requires forall x | x in entries && x.payload.Some? :: x.kind != "" && env.eventOk(x.kind, x.payload.value)
    ensures JournalRows(env, entries, loaded).Ok? <==>
            forall x | x in entries && x.target != "" :: x.payload.Some? && ParseUuid(x.target).Some?
  {
    hide ParseUuid;
    if entries != [] {
      JournalIff(env, entries[1..], loaded);
      assert forall x :: x in entries <==> x == entries[0] || x in entries[1..];
    }
  }

  // ---- The policy on a store in order ----

  /** The actor table of a well-formed list, said of the list. */
  lemma ActorsAre(env: Env, s: Tabletop, cs: seq<Fields>)
    requires ListOk(cs) && SheetsKnown(s.sheets, cs)
    ensures ActorAccess(env, s.sheets, cs, map[]).Ok?
    ensures var actors := ActorAccess(env, s.sheets, cs, map[]).value;
            && (forall id :: id in actors <==> exists c :: c in cs && Actor(c) == id)
            && (forall c | c in cs :: actors[Actor(c)].sheet == SheetOf(c))
            && (forall c | c in cs && SheetOf(c).Some? :: actors[Actor(c)].controller == s.sheets[SheetOf(c).value].owner)
            && KnownBefore(actors) == Known(NamesOf(cs), SheetsOf(cs))
  {
    hide ListOk, ActorAccess, SheetOf, Actor;
    AccessMeaning(env, s.sheets, cs, map[]);
    var actors := ActorAccess(env, s.sheets, cs, map[]).value;
    assert actors.Keys == NamesOf(cs);
    var known := KnownBefore(actors).sheets;
    forall id ensures id in known <==> id in SheetsOf(cs) {
      if id in known {
        var a :| a in actors && actors[a].sheet.Some? && actors[a].sheet.value == id;
        var c :| c in cs && Actor(c) == a;
      }
      if id in SheetsOf(cs) {
        var c :| c in cs && SheetOf(c) == Some(id);
        assert Actor(c) in actors;
      }
    }
    assert known == SheetsOf(cs);
  }

  lemma TouchIff(env: Env, s: Tabletop, enc: Encounter, caller: Id, id: string)
    requires ListOk(Combatants(enc.state)) && SheetsKnown(s.sheets, Combatants(enc.state))
    ensures ActorAccess(env, s.sheets, Combatants(enc.state), map[]).Ok?
    ensures var actors := ActorAccess(env, s.sheets, Combatants(enc.state), map[]).value;
            (id in actors && MayTouch(enc, caller, actors[id])) <==> ActorAllowed(s, enc, caller, id)
  {
    hide ListOk, ActorAccess, SheetOf, Actor, Combatants;
    var cs := Combatants(enc.state);
    ActorsAre(env, s, cs);
    var actors := ActorAccess(env, s.sheets, cs, map[]).value;
    if id in actors && MayTouch(enc, caller, actors[id]) {
      var c :| c in cs && Actor(c) == id;
      assert caller == enc.owner || OwnsSheet(s, c, caller);
    }
  }

  lemma ControllersIff(env: Env, s: Tabletop, enc: Encounter, cs: seq<Fields>)
    requires ListOk(cs) && SheetsKnown(s.sheets, cs)
    ensures ActorAccess(env, s.sheets, cs, map[]).Ok?
    ensures var actors := ActorAccess(env, s.sheets, cs, map[]).value;
            (exists a | a in actors :: actors[a].sheet.Some? && !IsParticipant(enc, actors[a].controller)) <==>
            !(forall id | id in SheetsOf(cs) :: id in s.sheets && TakesPart(enc, s.sheets[id].owner))
  {
    hide ListOk, ActorAccess, SheetOf, Actor, IsParticipant, TakesPart;
    ActorsAre(env, s, cs);
    var actors := ActorAccess(env, s.sheets, cs, map[]).value;
    forall user ensures IsParticipant(enc, user) <==> TakesPart(enc, user) { TakesPartIff(enc, user); }
    if a :| a in actors && actors[a].sheet.Some? && !IsParticipant(enc, actors[a].controller) {
      var c :| c in cs && Actor(c) == a;
      assert SheetOf(c).value in SheetsOf(cs);
    }
    if id :| id in SheetsOf(cs) && !TakesPart(enc, s.sheets[id].owner) {
      var c :| c in cs && SheetOf(c) == Some(id);
      assert Actor(c) in actors;
    }
  }

  predicate PolicyAllowed(env: Env, s: Tabletop, enc: Encounter, caller: Id, op: Op) {
    var cs := Combatants(enc.state);
    && TakesPart(enc, caller)
    && (forall id | id in SheetsOf(cs) :: id in s.sheets && TakesPart(enc, s.sheets[id].owner))
    && (forall p | p in op.patches :: PatchAllowed(env, s, enc, caller, p))
    && (forall id | id in op.remove :: ActorAllowed(s, enc, caller, id))
    && TurnAllowed(enc, caller, op)
    && AddsAllowed(env, s.sheets, enc, caller, op.add, NamesOf(cs), SheetsOf(cs))
    && (forall x | x in op.log && TrimSpace(x.target) != "" ::
          ParseUuid(TrimSpace(x.target)).Some? && ParseUuid(TrimSpace(x.target)).value in SheetsOf(cs) + NewSheets(env, op.add))
  }

  lemma PolicyIff(env: Env, s: Tabletop, enc: Encounter, caller: Id, op: Op)
    requires ListOk(Combatants(enc.state)) && SheetsKnown(s.sheets, Combatants(enc.state))
    ensures ActorAccess(env, s.sheets, Combatants(enc.state), map[]).Ok?
    ensures var actors := ActorAccess(env, s.sheets, Combatants(enc.state), map[]).value;
            CheckPolicy(env, enc, caller, actors, s.sheets, op).Pass? <==> PolicyAllowed(env, s, enc, caller, op)
  {
    hide ListOk, ActorAccess, Combatants, CheckPatches, CheckRemovals, CheckTurn, CheckAdds, CheckLog, IsParticipant, TakesPart, MayTouch,
         ActorAllowed, TurnAllowed, AddsAllowed, NamesOf, SheetsOf, NewSheets, KnownBefore, SheetsKnown, ValueAllowed, ParseUuid, TrimSpace,
         SheetOf, Actor;
    var cs := Combatants(enc.state);
    ActorsAre(env, s, cs);
    var actors := ActorAccess(env, s.sheets, cs, map[]).value;
    TakesPartIff(enc, caller);
    ControllersIff(env, s, enc, cs);
    forall id ensures (id in actors && MayTouch(enc, caller, actors[id])) <==> ActorAllowed(s, enc, caller, id) {
      TouchIff(env, s, enc, caller, id);
    }
    PatchesIff(env, enc, caller, actors, op.patches);
    RemovalsIff(enc, caller, actors, op.remove);
    TurnIff(enc, caller, op);
    AddsIff(env, enc, caller, s.sheets, op.add, KnownBefore(actors));
    LogIff(op.log, SheetsOf(cs) + NewSheets(env, op.add));
  }

  // ---- Sheets that enter ----

  lemma NewSheetsAre(env: Env, s: Tabletop, enc: Encounter, caller: Id, adds: seq<Fields>, names: set<string>, taken: set<Id>)
    requires AddsAllowed(env, s.sheets, enc, caller, adds, names, taken)
    ensures forall id :: id in NewSheets(env, adds) <==> exists i :: 0 <= i < |adds| && AddRef(env, adds[i]) == Some(id)
    ensures !AnyMalformed(env, adds) && LinkedIds(env, adds) == NewSheets(env, adds) && NewSheets(env, adds) <= s.sheets.Keys
    ensures NewSheets(env, adds) !! taken
  {
    hide ParseUuid, RefText, CharacterRef;
    forall i | 0 <= i < |adds|
      ensures RefText(env, adds[i]) != "" ==>
                var id := ParseUuid(RefText(env, adds[i]));
                id.Some? && id.value != NIL_ID && id.value in s.sheets && id.value !in taken
      ensures CharacterRef(env, adds[i]) ==
              if RefText(env, adds[i]) == "" then Creature else Linked(ParseUuid(RefText(env, adds[i])).value)
    {
      assert AddAllowed(env, s.sheets, enc, caller, adds[i], names + NewNames(adds[..i]), taken + NewSheets(env, adds[..i]));
      RefIs(env, adds[i]);
    }
    forall id ensures id in NewSheets(env, adds) <==> exists i :: 0 <= i < |adds| && AddRef(env, adds[i]) == Some(id) {
      if id in NewSheets(env, adds) {
        var a :| a in adds && RefText(env, a) != "" && ParseUuid(RefText(env, a)) == Some(id);
        var i :| 0 <= i < |adds| && adds[i] == a;
        assert AddRef(env, adds[i]) == Some(id);
      }
      if i :| 0 <= i < |adds| && AddRef(env, adds[i]) == Some(id) {
        assert adds[i] in adds;
      }
    }
  }

  /** The sheets in the new list that were not in the old one are those of the additions. */
  lemma EnteringAre(env: Env, s: Tabletop, enc: Encounter, caller: Id, op: Op, id: Id)
    requires ListOk(Combatants(enc.state)) && SheetsKnown(s.sheets, Combatants(enc.state)) && PolicyAllowed(env, s, enc, caller, op)
    ensures var done := op.(add := NormalizedAdds(env, s.sheets, op.add));
            var state := ApplyOps(env.show, enc.state, done);
            && ListOk(Combatants(state))
            && (In(Combatants(state), id) && !In(Combatants(enc.state), id) <==> id in NewSheets(env, op.add))
  {
    hide ListOk, ActorAccess, Combatants, CheckPolicy, PolicyAllowed, NewSheets, SheetsKnown, SheetOf, Actor, ApplyOps, CombatantsAfter,
         PatchesOk, AddsFit, KnownBefore, NormalizedAdd, Kept, Merged, AddRef, Parts, In;
    var cs := Combatants(enc.state);
    PolicyIff(env, s, enc, caller, op);
    var actors := ActorAccess(env, s.sheets, cs, map[]).value;
    PolicyMeaning(env, enc, caller, actors, s.sheets, op);
    ListAfter(env, s.sheets, caller, cs, op);
    var done := op.(add := NormalizedAdds(env, s.sheets, op.add));
    AppliedCombatants(env.show, enc.state, done);
    var ns := CombatantsAfter(env.show, cs, done);
    AllowedSheets(env, s, enc, caller, op);
    PatchesHarmless(env, op.patches);
    AddsOk(env, s.sheets, caller, op.add, KnownBefore(actors));
    NewInParts(env, s.sheets, cs, done, op.add, ns, id);
    OldSheets(cs, id);
    assert forall i | 0 <= i < |op.add| :: SheetOf(NormalizedAdds(env, s.sheets, op.add)[i]) == AddRef(env, op.add[i]);
  }

  lemma OldSheets(cs: seq<Fields>, id: Id)
    ensures In(cs, id) <==> id in SheetsOf(cs)
  {
    hide SheetOf;
  }

  lemma AllowedSheets(env: Env, s: Tabletop, enc: Encounter, caller: Id, op: Op)
    requires PolicyAllowed(env, s, enc, caller, op)
    ensures forall id :: id in NewSheets(env, op.add) <==> exists i :: 0 <= i < |op.add| && AddRef(env, op.add[i]) == Some(id)
    ensures !AnyMalformed(env, op.add) && LinkedIds(env, op.add) == NewSheets(env, op.add) && NewSheets(env, op.add) <= s.sheets.Keys
    ensures NewSheets(env, op.add) !! SheetsOf(Combatants(enc.state))
  {
    hide AddsAllowed, NewSheets, LinkedIds, AnyMalformed, AddRef, Combatants, SheetsOf, TakesPart, PatchAllowed, ActorAllowed, TurnAllowed;
    var cs := Combatants(enc.state);
    NewSheetsAre(env, s, enc, caller, op.add, NamesOf(cs), SheetsOf(cs));
  }

  lemma NewInParts(env: Env, sheets: map<Id, Sheet>, cs: seq<Fields>, done: Op, adds: seq<Fields>, ns: seq<Fields>, id: Id)
    requires Parts(env, sheets, cs, done, adds, ns) && Harmless(done.patches)
    ensures In(ns, id) ==> In(cs, id) || exists i :: 0 <= i < |adds| && SheetOf(NormalizedAdd(env, sheets, adds[i])) == Some(id)
    ensures (exists i :: 0 <= i < |adds| && SheetOf(NormalizedAdd(env, sheets, adds[i])) == Some(id)) ==> In(ns, id)
  {
    hide NormalizedAdd, Kept, Merged, SheetOf, Actor, Harmless;
    var kept := Kept(cs, done.remove);
    if In(ns, id) {
      var c :| c in ns && SheetOf(c) == Some(id);
      var i :| 0 <= i < |ns| && ns[i] == c;
      if i < |kept| {
        MergedHarmless(done.patches, kept[i]);
        SameNames(c, kept[i]);
        KeptMember(cs, done.remove, i);
      } else {
        assert ns[|kept| + (i - |kept|)] == NormalizedAdd(env, sheets, adds[i - |kept|]);
      }
    }
    if i :| 0 <= i < |adds| && SheetOf(NormalizedAdd(env, sheets, adds[i])) == Some(id) {
      assert ns[|kept| + i] in ns;
    }
  }

  /** A sheet that is not in this encounter is elsewhere exactly if it is in some encounter. */
  lemma ElsewhereIff(env: Env, s: Tabletop, e: Id, id: Id)
    requires Inv(env, s) && e in s.encounters && id in s.sheets && !In(Combatants(s.encounters[e].state), id)
    ensures Elsewhere(s, id, e) <==> s.sheets[id].encounter.Some?
  {
    hide SheetOf, Combatants, StateIds, ListOk, EventsOk, Tracks;
    assert ParseUuid(id) == Some(id);
    if s.sheets[id].encounter.Some? {
      var x := s.sheets[id].encounter.value;
      assert Fights(s.encounters[x], id);
      assert EncounterOk(env, s.sheets, x, s.encounters[x]);
      StateIdsMeaning(s.encounters[x].state);
    }
  }

  lemma CanonicalIds(state: Fields)
    requires ListOk(Combatants(state))
    ensures forall t :: t in StateIds(state) <==> IsCanonical(t) && In(Combatants(state), t)
  {
    hide Combatants, SheetOf, StateIds, ListOk;
    StateIdsMeaning(state);
  }

  /** What the conflict checks find. */
  lemma ConflictIff(env: Env, s: Tabletop, e: Id, caller: Id, op: Op)
    requires Inv(env, s) && e in s.encounters && PolicyAllowed(env, s, s.encounters[e], caller, op)
    ensures var enc := s.encounters[e];
            var state := ApplyOps(env.show, enc.state, op.(add := NormalizedAdds(env, s.sheets, op.add)));
            var entering, leaving := StateIds(state) - StateIds(enc.state), StateIds(enc.state) - StateIds(state);
            && ((exists t | t in entering :: Elsewhere(s, t, e)) <==>
                  !(forall id | id in NewSheets(env, op.add) :: id in s.sheets && s.sheets[id].encounter.None?))
            && (forall t | t in entering + leaving :: ParseUuid(t).Some?)
            && (forall t | t in entering :: ParseUuid(t).value in s.sheets)
  {
    hide Inv, Combatants, StateIds, ListOk, PolicyAllowed, NewSheets, Elsewhere, ApplyOps, In, SheetsKnown, NormalizedAdds;
    var enc := s.encounters[e];
    var state := ApplyOps(env.show, enc.state, op.(add := NormalizedAdds(env, s.sheets, op.add)));
    SheetsOfEncounter(env, s, e);
    AllowedSheets(env, s, enc, caller, op);
    EnteringAre(env, s, enc, caller, op, NIL_ID);
    CanonicalIds(enc.state);
    CanonicalIds(state);
    var entering, leaving := StateIds(state) - StateIds(enc.state), StateIds(enc.state) - StateIds(state);
    forall t | IsCanonical(t)
      ensures ParseUuid(t) == Some(t) && (t in entering <==> t in NewSheets(env, op.add))
      ensures t in entering ==> t in s.sheets && (Elsewhere(s, t, e) <==> s.sheets[t].encounter.Some?)
    {
      EnteringAre(env, s, enc, caller, op, t);
      if t in entering { ElsewhereIff(env, s, e, t); }
    }
  }

  predicate AcceptAllowed(env: Env, s: Tabletop, caller: Id, e: Id, r: ApplyRequest) {
    && e in s.encounters && r.expectedSeq == Some(s.encounters[e].seqNo) && ShapeAllowed(env, r.op)
    && PolicyAllowed(env, s, s.encounters[e], caller, r.op)
    && (forall id | id in NewSheets(env, r.op.add) :: id in s.sheets && s.sheets[id].encounter.None?)
  }

  lemma VersionNatural(env: Env, s: Tabletop, e: Id)
    requires Inv(env, s) && e in s.encounters
    ensures s.encounters[e].seqNo >= 0
  {
    hide Tracks, ListOk, Combatants, Replay;
    assert EncounterOk(env, s.sheets, e, s.encounters[e]);
  }

  lemma AcceptIff(env: Env, s: Tabletop, caller: Id, e: Id, r: ApplyRequest)
    requires Inv(env, s)
    ensures Accept(env, s, caller, e, r).Ok? <==> AcceptAllowed(env, s, caller, e, r)
  {
    hide Inv, EnvelopeOk, ShapeAllowed, IsParticipant, CombatantsReadable, AnyMalformed, LinkedIds, ActorAccess, CheckPolicy, ApplyOps,
         StateIds, Elsewhere, Combatants, NormalizedAdds, NewSheets, SheetsKnown, ListOk, TakesPart, ParseUuid, Tracks;
    ShapeIff(env, r.op);
    if e in s.encounters {
      var enc := s.encounters[e];
      VersionNatural(env, s, e);
      TakesPartIff(enc, caller);
      StoredStateAccepted(env, s, e);
      SheetsOfEncounter(env, s, e);
      PolicyIff(env, s, enc, caller, r.op);
      PolicyTakesPart(env, s, enc, caller, r.op);
      if PolicyAllowed(env, s, enc, caller, r.op) {
        hide PolicyAllowed;
        AllowedSheets(env, s, enc, caller, r.op);
        ConflictIff(env, s, e, caller, r.op);
      }
    }
  }

  lemma PolicyTakesPart(env: Env, s: Tabletop, enc: Encounter, caller: Id, op: Op)
    ensures PolicyAllowed(env, s, enc, caller, op) ==> TakesPart(enc, caller) && caller != NIL_ID
  {
    hide AddsAllowed, NewSheets, Combatants, SheetsOf, PatchAllowed, ActorAllowed, TurnAllowed, ParseUuid, TrimSpace;
  }

  lemma AppliedIff(env: Env, s: Tabletop, caller: Id, e: Id, r: ApplyRequest)
    ensures ApplyEncounter(env, s, caller, e, r).Ok? <==>
            Accept(env, s, caller, e, r).Ok? && JournalRows(env, r.op.log, Accept(env, s, caller, e, r).value.loaded).Ok?
  {
    hide Accept, SyncAll, LinkSheets, UnlinkSheets, JournalRows, OpPayload, StateIds, Combatants;
  }

  lemma ShapedEvents(env: Env, op: Op)
    requires ShapeAllowed(env, op)
    ensures forall x | x in op.log && x.payload.Some? :: x.kind != "" && env.eventOk(x.kind, x.payload.value)
  {
    hide Utf8Length;
    assert TrimSpace("") == "";
  }

  lemma PermittedIs(env: Env, s: Tabletop, caller: Id, e: Id, r: ApplyRequest)
    ensures Permitted(env, s, caller, e, r) <==>
            AcceptAllowed(env, s, caller, e, r) && forall x | x in r.op.log && x.target != "" :: x.payload.Some? && ParseUuid(x.target).Some?
  {
    hide AddsAllowed, NewSheets, Combatants, SheetsOf, NamesOf, PatchAllowed, ActorAllowed, TurnAllowed, ParseUuid, TrimSpace, ShapeAllowed,
         TakesPart;
  }

  /**
   * On every store in order, an operation is accepted if and only if it is
   * permitted: it builds on the current version, keeps to the sizes, comes from
   * a participant, patches and removes only actors that the caller may touch,
   * moves the turn only as master, brings creatures only as master and sheets
   * only as their owner, each new and in no encounter, and addresses journal
   * entries only to sheets of the encounter.
   */
  lemma ApplyIff(env: Env, s: Tabletop, caller: Id, e: Id, r: ApplyRequest)
    requires Inv(env, s)
    ensures ApplyEncounter(env, s, caller, e, r).Ok? <==> Permitted(env, s, caller, e, r)
  {
    hide Inv, ApplyEncounter, Accept, JournalRows, ShapeAllowed, PolicyAllowed, NewSheets, Permitted, ParseUuid;
    AppliedIff(env, s, caller, e, r);
    AcceptIff(env, s, caller, e, r);
    PermittedIs(env, s, caller, e, r);
    if Accept(env, s, caller, e, r).Ok? {
      ShapedEvents(env, r.op);
      JournalIff(env, r.op.log, Accept(env, s, caller, e, r).value.loaded);
    }
  }

  // ---- Why an operation is refused ----

  /** The first checks in their order: shape, identity, existence, participation, version. */
  lemma ApplyRefusals(env: Env, s: Tabletop, caller: Id, e: Id, r: ApplyRequest)
    ensures var result := ApplyEncounter(env, s, caller, e, r);
            if r.expectedSeq.None? || r.expectedSeq.value < 0 || !ShapeAllowed(env, r.op) then result == Err(BadInput)
            else if caller == NIL_ID then result == Err(Unauthenticated)
            else if e !in s.encounters then result == Err(NotFound)
            else if !TakesPart(s.encounters[e], caller) then result == Err(NotAllowed)
            else s.encounters[e].seqNo != r.expectedSeq.value ==> result == Err(Stale)
  {
    hide ShapeAllowed, EnvelopeOk, IsParticipant, TakesPart, CombatantsReadable, AnyMalformed, LinkedIds, ActorAccess, CheckPolicy, ApplyOps,
         StateIds, Elsewhere, Combatants, NormalizedAdds, SyncAll, LinkSheets, UnlinkSheets, JournalRows, OpPayload;
    ShapeIff(env, r.op);
    if e in s.encounters { TakesPartIff(s.encounters[e], caller); }
  }

  lemma {:induction false} UntouchableIs(env: Env, enc: Encounter, caller: Id, actors: map<string, Access>, ps: seq<Patch>)
    requires forall p | p in ps :: p.actorId in actors && forall k | k in p.values :: ValueAllowed(env, k, p.values[k])
    ensures CheckPatches(env, enc, caller, actors, ps).Reject? ==> CheckPatches(env, enc, caller, actors, ps) == Reject(NotAllowed)
  {
    hide MayTouch, PatchValueOk, ValueAllowed;
    if ps != [] {
      forall k, v ensures PatchValueOk(env, k, v) <==> ValueAllowed(env, k, v) { ValueIff(env, k, v); }
      assert ps[0] in ps;
      UntouchableIs(env, enc, caller, actors, ps[1..]);
    }
  }

  /** A well-formed patch of an existing actor by a participant who may not touch it is forbidden. */
  lemma ForeignPatchForbidden(env: Env, s: Tabletop, caller: Id, e: Id, r: ApplyRequest, p: Patch)
    requires Inv(env, s) && e in s.encounters && r.expectedSeq == Some(s.encounters[e].seqNo) && ShapeAllowed(env, r.op)
    requires TakesPart(s.encounters[e], caller) && !AnyMalformed(env, r.op.add) && LinkedIds(env, r.op.add) <= s.sheets.Keys
    requires forall id | id in SheetsOf(Combatants(s.encounters[e].state)) && id in s.sheets :: TakesPart(s.encounters[e], s.sheets[id].owner)
    requires forall q | q in r.op.patches ::
               (exists c | c in Combatants(s.encounters[e].state) :: Actor(c) == q.actorId)
               && forall k | k in q.values :: ValueAllowed(env, k, q.values[k])
    requires p in r.op.patches && !ActorAllowed(s, s.encounters[e], caller, p.actorId)
    ensures ApplyEncounter(env, s, caller, e, r) == Err(NotAllowed)
  {
    hide Inv, EnvelopeOk, ShapeAllowed, IsParticipant, CombatantsReadable, AnyMalformed, LinkedIds, ActorAccess, CheckPatches, CheckRemovals,
         CheckTurn, CheckAdds, CheckLog, ApplyOps, StateIds, Elsewhere, Combatants, NormalizedAdds, SheetsKnown, ListOk, TakesPart, ParseUuid,
         SyncAll, LinkSheets, UnlinkSheets, JournalRows, OpPayload, ActorAllowed, MayTouch, ValueAllowed, SheetsOf, KnownBefore, SheetOf,
         Actor;
    var enc := s.encounters[e];
    var cs := Combatants(enc.state);
    ShapeIff(env, r.op);
    VersionNatural(env, s, e);
    TakesPartIff(enc, caller);
    PolicyTakesPartReal(enc, caller);
    StoredStateAccepted(env, s, e);
    SheetsOfEncounter(env, s, e);
    ActorsAre(env, s, cs);
    var actors := ActorAccess(env, s.sheets, cs, map[]).value;
    KnownSheets(s, cs);
    ControllersIff(env, s, enc, cs);
    PatchesIff(env, enc, caller, actors, r.op.patches);
    TouchIff(env, s, enc, caller, p.actorId);
    UntouchableIs(env, enc, caller, actors, r.op.patches);
  }

  lemma KnownSheets(s: Tabletop, cs: seq<Fields>)
    requires SheetsKnown(s.sheets, cs)
    ensures forall id | id in SheetsOf(cs) :: id in s.sheets
  {
    hide SheetOf;
  }

  lemma PolicyTakesPartReal(enc: Encounter, caller: Id)
    requires TakesPart(enc, caller)
    ensures caller != NIL_ID
  {
  }

  // ---- The journal ----

  predicate Addressed(x: LogEntry, sheets: set<Id>) {
    x.target != "" && ParseUuid(x.target).Some? && ParseUuid(x.target).value in sheets
  }

  /** The row of one entry, if it addresses one of the sheets. */
  function RowsOf(x: LogEntry, sheets: set<Id>): seq<JournalRow> {
    if Addressed(x, sheets) && x.payload.Some? then [JournalRow(ParseUuid(x.target).value, x.kind, x.payload.value)] else []
  }

  /** The entries' rows one after the other. */
  function Joined(parts: seq<seq<JournalRow>>): seq<JournalRow> {
    if parts == [] then [] else Joined(parts[..|parts| - 1]) + parts[|parts| - 1]
  }

  lemma {:induction false} JoinedFirst(first: seq<JournalRow>, parts: seq<seq<JournalRow>>)
    ensures Joined([first] + parts) == first + Joined(parts)
  {
    if parts == [] {
      assert [first] + parts == [first] && Joined([first][..0]) == [];
    } else {
      var init := parts[..|parts| - 1];
      assert ([first] + parts)[..|parts|] == [first] + init;
      JoinedFirst(first, init);
    }
  }

  function AllRows(entries: seq<LogEntry>, sheets: set<Id>): (parts: seq<seq<JournalRow>>)
    ensures |parts| == |entries| && forall i | 0 <= i < |entries| :: parts[i] == RowsOf(entries[i], sheets)
  {
    seq(|entries|, i requires 0 <= i < |entries| => RowsOf(entries[i], sheets))
  }

  lemma {:induction false} JournalIsRows(env: Env, entries: seq<LogEntry>, sheets: set<Id>)
    requires JournalRows(env, entries, sheets).Ok?
    ensures JournalRows(env, entries, sheets).value == Joined(AllRows(entries, sheets))
  {
    hide ParseUuid, Joined;
    if entries == [] {
      assert Joined(AllRows([], sheets)) == [] by { NothingJoined(); }
    } else {
      JournalIsRows(env, entries[1..], sheets);
      JoinedFirst(RowsOf(entries[0], sheets), AllRows(entries[1..], sheets));
      assert AllRows(entries, sheets) == [RowsOf(entries[0], sheets)] + AllRows(entries[1..], sheets);
    }
  }

  lemma NothingJoined()
    ensures Joined([]) == []
  {
  }

  lemma LinkedAre(env: Env, cs: seq<Fields>)
    requires ListOk(cs)
    ensures LinkedIds(env, cs) == SheetsOf(cs)
  {
    hide CharacterRef, SheetOf, Named;
    forall i | 0 <= i < |cs| ensures CharacterRef(env, cs[i]) == if SheetOf(cs[i]).Some? then Linked(SheetOf(cs[i]).value) else Creature {
      LinkMeaning(env, cs[i]);
    }
    forall id | id in SheetsOf(cs) ensures id in LinkedIds(env, cs) {
      var c :| c in cs && SheetOf(c) == Some(id);
      var i :| 0 <= i < |cs| && cs[i] == c;
    }
  }

  lemma AppliedJournal(env: Env, s: Tabletop, caller: Id, e: Id, r: ApplyRequest)
    requires ApplyEncounter(env, s, caller, e, r).Ok?
    ensures Accept(env, s, caller, e, r).Ok?
    ensures var rows := JournalRows(env, r.op.log, Accept(env, s, caller, e, r).value.loaded);
            rows.Ok? && ApplyEncounter(env, s, caller, e, r).value.0.journal == s.journal + rows.value
  {
    hide Accept, SyncAll, LinkSheets, UnlinkSheets, JournalRows, OpPayload, StateIds, Combatants;
  }

  /**
   * An accepted operation appends one journal row for each of its entries that
   * addresses a sheet of the encounter or of an addition, in the order of the
   * entries, and no other.
   */
  lemma ApplyJournal(env: Env, s: Tabletop, caller: Id, e: Id, r: ApplyRequest)
    requires Inv(env, s) && ApplyEncounter(env, s, caller, e, r).Ok?
    ensures e in s.encounters
    ensures var sheets := SheetsOf(Combatants(s.encounters[e].state)) + NewSheets(env, r.op.add);
            ApplyEncounter(env, s, caller, e, r).value.0.journal == s.journal + Joined(AllRows(r.op.log, sheets))
  {
    hide Inv, ApplyEncounter, Accept, JournalRows, AllRows, Joined, Combatants, SheetsOf, NewSheets, LinkedIds, PolicyAllowed, ShapeAllowed, ListOk,
         ActorAccess, CheckPolicy, ApplyOps, StateIds, Elsewhere, NormalizedAdds, IsParticipant, WrittenSheets, OpPayload, SheetsKnown, Tracks;
    ApplyMeaning(env, s, caller, e, r);
    AcceptIff(env, s, caller, e, r);
    SheetsOfEncounter(env, s, e);
    AllowedSheets(env, s, s.encounters[e], caller, r.op);
    LinkedAre(env, Combatants(s.encounters[e].state));
    AppliedJournal(env, s, caller, e, r);
    JournalIsRows(env, r.op.log, Accept(env, s, caller, e, r).value.loaded);
  }

  // ---- Creating, joining, deleting ----

  /** An encounter is created for a known caller under a new identifier: empty, first round, its creator its master and only member. */
  lemma CreateContract(s: Tabletop, caller: Id, id: Id, name: string)
    ensures var result := CreateEncounter(s, caller, id, name);
            if caller == NIL_ID then result == Err(Unauthenticated)
            else if id in s.issued then result == Err(Failed)
            else
              && result.Ok? && id in result.value.0.encounters
              && result.value.0 == s.(encounters := result.value.0.encounters, issued := s.issued + {id})
              && result.value.0.encounters.Keys == s.encounters.Keys + {id}
              && (forall x | x in s.encounters && x != id :: result.value.0.encounters[x] == s.encounters[x])
              && var enc := result.value.0.encounters[id];
              && enc.name == (if name == "" then "Бой" else name) && enc.owner == caller && enc.members == [caller]
              && enc.seqNo == 0 && enc.events == []
              && enc.state == map["combatants" := Arr([]), "round" := Num(1), "activeIndex" := Num(0)]
  {
  }

  /**
   * On a store in order, joining is open to participants, to owners of a
   * combatant's sheet, and to the invited; it makes the caller a member unless
   * it takes part already, and changes nothing else.
   */
  lemma JoinContract(env: Env, s: Tabletop, caller: Id, e: Id, invited: bool)
    requires Inv(env, s)
    ensures var result := JoinEncounter(env, s, caller, e, invited);
            if caller == NIL_ID then result == Err(Unauthenticated)
            else if e !in s.encounters then result == Err(NotFound)
            else
              var enc := s.encounters[e];
              if TakesPart(enc, caller) then result == Ok((s, ()))
              else if invited || exists c :: c in Combatants(enc.state) && OwnsSheet(s, c, caller) then
                result == Ok((s.(encounters := s.encounters[e := enc.(members := enc.members + [caller])]), ()))
              else result == Err(NotAllowed)
  {
    hide Inv, IsParticipant, TakesPart, CombatantsReadable, AnyMalformed, LinkedIds, ActorAccess, Combatants, ListOk, SheetOf, Actor,
         SheetsKnown;
    if e in s.encounters {
      var enc := s.encounters[e];
      TakesPartIff(enc, caller);
      StoredStateAccepted(env, s, e);
      SheetsOfEncounter(env, s, e);
      ControlsIff(env, s, Combatants(enc.state), caller);
    }
  }

  lemma ControlsIff(env: Env, s: Tabletop, cs: seq<Fields>, user: Id)
    requires ListOk(cs) && SheetsKnown(s.sheets, cs)
    ensures ActorAccess(env, s.sheets, cs, map[]).Ok?
    ensures ControlsSheet(ActorAccess(env, s.sheets, cs, map[]).value, user) <==> exists c :: c in cs && OwnsSheet(s, c, user)
  {
    hide ListOk, ActorAccess, SheetOf, Actor;
    ActorsAre(env, s, cs);
    var actors := ActorAccess(env, s.sheets, cs, map[]).value;
    if a :| a in actors && actors[a].sheet.Some? && actors[a].controller == user {
      var c :| c in cs && Actor(c) == a;
      assert OwnsSheet(s, c, user);
    }
    if c :| c in cs && OwnsSheet(s, c, user) {
      assert Actor(c) in actors;
    }
  }

  /** An encounter is deleted exactly by its master; its sheets are in none afterwards and nothing else changes. */
  lemma DeleteContract(s: Tabletop, caller: Id, e: Id)
    ensures var result := DeleteEncounter(s, caller, e);
            if caller == NIL_ID then result == Err(Unauthenticated)
            else if e !in s.encounters then result == Err(NotFound)
            else if s.encounters[e].owner != caller then result == Err(NotAllowed)
            else
              && result.Ok?
              && var after := result.value.0;
              && after == s.(encounters := after.encounters, sheets := after.sheets)
              && after.encounters.Keys == s.encounters.Keys - {e}
              && (forall x | x in after.encounters :: after.encounters[x] == s.encounters[x])
              && after.sheets.Keys == s.sheets.Keys
              && forall id | id in s.sheets ::
                   after.sheets[id] == if s.sheets[id].encounter == Some(e) then s.sheets[id].(encounter := None) else s.sheets[id]
  {
  }

  // ---- Stores that are not in order ----

  /** A stored combatant has a name, and refers to no sheet or to one that exists. */
  predicate StoredCombatant(env: Env, sheets: map<Id, Sheet>, c: Fields) {
    && NewName(c) != ""
    && (RefText(env, c) != "" ==>
          var id := ParseUuid(RefText(env, c)); id.Some? && id.value != NIL_ID && id.value in sheets)
  }

  /** The stored combatants are objects with distinct names that refer to existing sheets, if there are any. */
  predicate StoredAllowed(env: Env, s: Tabletop, enc: Encounter) {
    && ("combatants" in enc.state && enc.state["combatants"] != Null ==>
          enc.state["combatants"].Arr? && forall v | v in enc.state["combatants"].items :: v.Obj?)
    && var cs := Combatants(enc.state);
    && (forall c | c in cs :: StoredCombatant(env, s.sheets, c))
    && forall i, j | 0 <= i < j < |cs| :: NewName(cs[i]) != NewName(cs[j])
  }

  lemma {:induction false} StoredActors(env: Env, sheets: map<Id, Sheet>, cs: seq<Fields>, start: map<string, Access>)
    ensures ActorAccess(env, sheets, cs, start).Ok? <==>
            && (forall c | c in cs :: StoredCombatant(env, sheets, c) && NewName(c) !in start)
            && forall i, j | 0 <= i < j < |cs| :: NewName(cs[i]) != NewName(cs[j])
    ensures ActorAccess(env, sheets, cs, start).Err? ==> ActorAccess(env, sheets, cs, start) == Err(Unacceptable)
    ensures ActorAccess(env, sheets, cs, start).Ok? ==>
              forall user ::
                ControlsSheet(ActorAccess(env, sheets, cs, start).value, user) <==>
                ControlsSheet(start, user) || exists c :: c in cs && Controls(env, sheets, c, user)
    decreases |cs|
  {
    hide ActorAccess, StoredCombatant, NewName, AccessOf, Controls, ControlsSheet;
    FirstActor(env, sheets, cs, start);
    if cs != [] {
      var c := cs[0];
      assert forall x :: x in cs <==> x == c || x in cs[1..];
      if StoredCombatant(env, sheets, c) && NewName(c) !in start {
        StoredActors(env, sheets, cs[1..], start[NewName(c) := AccessOf(env, sheets, c)]);
        StartControls(start, NewName(c), AccessOf(env, sheets, c));
        var result := ActorAccess(env, sheets, cs, start);
        if result.Ok? {
          forall user
            ensures ControlsSheet(result.value, user) <==> ControlsSheet(start, user) || exists x :: x in cs && Controls(env, sheets, x, user)
          {
            AccessControls(env, sheets, c, user);
            assert (exists x :: x in cs && Controls(env, sheets, x, user)) <==>
                   Controls(env, sheets, c, user) || exists x :: x in cs[1..] && Controls(env, sheets, x, user);
          }
        }
      }
      OneMoreName(cs, start);
    }
  }

  /** What the actor table holds of a stored combatant. */
  function AccessOf(env: Env, sheets: map<Id, Sheet>, c: Fields): Access
    requires StoredCombatant(env, sheets, c)
  {
    if RefText(env, c) == "" then Access(None, NIL_ID)
    else Access(ParseUuid(RefText(env, c)), sheets[ParseUuid(RefText(env, c)).value].owner)
  }

  lemma FirstActor(env: Env, sheets: map<Id, Sheet>, cs: seq<Fields>, start: map<string, Access>)
    ensures ActorAccess(env, sheets, cs, start) ==
            if cs == [] then Ok(start)
            else if StoredCombatant(env, sheets, cs[0]) && NewName(cs[0]) !in start then
              ActorAccess(env, sheets, cs[1..], start[NewName(cs[0]) := AccessOf(env, sheets, cs[0])])
            else Err(Unacceptable)
  {
    hide ParseUuid, TrimSpace, CharacterRef;
    if cs != [] { RefIs(env, cs[0]); }
  }

  lemma AccessControls(env: Env, sheets: map<Id, Sheet>, c: Fields, user: Id)
    requires StoredCombatant(env, sheets, c)
    ensures AccessOf(env, sheets, c).sheet.Some? && AccessOf(env, sheets, c).controller == user <==> Controls(env, sheets, c, user)
  {
    hide ParseUuid, TrimSpace;
  }

  /** The combatant's sheet belongs to the user. */
  predicate Controls(env: Env, sheets: map<Id, Sheet>, c: Fields, user: Id) {
    && RefText(env, c) != "" && ParseUuid(RefText(env, c)).Some? && ParseUuid(RefText(env, c)).value in sheets
    && sheets[ParseUuid(RefText(env, c)).value].owner == user
  }

  lemma StartControls(start: map<string, Access>, name: string, access: Access)
    requires name !in start
    ensures forall user ::
              ControlsSheet(start[name := access], user) <==>
              ControlsSheet(start, user) || (access.sheet.Some? && access.controller == user)
  {
    var more := start[name := access];
    forall user
      ensures ControlsSheet(more, user) <==> ControlsSheet(start, user) || (access.sheet.Some? && access.controller == user)
    {
      if a :| a in start && start[a].sheet.Some? && start[a].controller == user {
        assert a in more && more[a] == start[a];
      }
      if access.sheet.Some? && access.controller == user {
        assert name in more;
      }
    }
  }

  lemma OneMoreName(cs: seq<Fields>, start: map<string, Access>)
    requires cs != []
    ensures ((forall i, j | 0 <= i < j < |cs| :: NewName(cs[i]) != NewName(cs[j])) <==>
             (forall c | c in cs[1..] :: NewName(c) != NewName(cs[0]))
             && (forall i, j | 0 <= i < j < |cs[1..]| :: NewName(cs[1..][i]) != NewName(cs[1..][j])))
  {
    hide NewName;
    assert forall i | 0 < i < |cs| :: cs[1..][i - 1] == cs[i] && cs[i] in cs[1..];
    forall i | 0 <= i < |cs[1..]| ensures cs[1..][i] == cs[i + 1] {}
  }

  lemma MalformedIff(env: Env, sheets: map<Id, Sheet>, cs: seq<Fields>)
    ensures (!AnyMalformed(env, cs) && LinkedIds(env, cs) <= sheets.Keys) <==>
            forall c | c in cs :: RefText(env, c) != "" ==>
              var id := ParseUuid(RefText(env, c)); id.Some? && id.value != NIL_ID && id.value in sheets
    ensures !AnyMalformed(env, cs) <==>
            forall c | c in cs :: RefText(env, c) != "" ==> ParseUuid(RefText(env, c)).Some? && ParseUuid(RefText(env, c)).value != NIL_ID
  {
    hide ParseUuid, RefText, CharacterRef;
    forall c ensures CharacterRef(env, c) ==
                     if RefText(env, c) == "" then Creature
                     else match ParseUuid(RefText(env, c)) case None => Malformed
                                                           case Some(id) => if id == NIL_ID then Malformed else Linked(id)
    {
      RefIs(env, c);
    }
    forall c | c in cs ensures exists i :: 0 <= i < |cs| && cs[i] == c {}
    assert forall i | 0 <= i < |cs| :: cs[i] in cs;
  }

  /** What the checks on stored combatants, whatever wrote them, accept. */
  lemma StoredIff(env: Env, s: Tabletop, enc: Encounter)
    ensures var cs := Combatants(enc.state);
            (CombatantsReadable(enc.state) && !AnyMalformed(env, cs) && LinkedIds(env, cs) <= s.sheets.Keys
             && ActorAccess(env, s.sheets, cs, map[]).Ok?) <==> StoredAllowed(env, s, enc)
    ensures ActorAccess(env, s.sheets, Combatants(enc.state), map[]).Err? ==>
              ActorAccess(env, s.sheets, Combatants(enc.state), map[]) == Err(Unacceptable)
  {
    hide ActorAccess, AnyMalformed, LinkedIds, Combatants, NewName, RefText, ParseUuid;
    var cs := Combatants(enc.state);
    MalformedIff(env, s.sheets, cs);
    StoredActors(env, s.sheets, cs, map[]);
    assert CombatantsReadable(enc.state) <==>
           ("combatants" in enc.state && enc.state["combatants"] != Null ==>
              enc.state["combatants"].Arr? && forall v | v in enc.state["combatants"].items :: v.Obj?);
  }

  /** Joining on any store at all: unreadable combatants make it unacceptable, otherwise it is as on a store in order. */
  lemma JoinAnyStore(env: Env, s: Tabletop, caller: Id, e: Id, invited: bool)
    ensures var result := JoinEncounter(env, s, caller, e, invited);
            if caller == NIL_ID then result == Err(Unauthenticated)
            else if e !in s.encounters then result == Err(NotFound)
            else
              var enc := s.encounters[e];
              if !StoredAllowed(env, s, enc) then result == Err(Unacceptable)
              else if TakesPart(enc, caller) then result == Ok((s, ()))
              else if invited || exists c :: c in Combatants(enc.state) && Controls(env, s.sheets, c, caller) then
                result == Ok((s.(encounters := s.encounters[e := enc.(members := enc.members + [caller])]), ()))
              else result == Err(NotAllowed)
  {
    hide IsParticipant, TakesPart, CombatantsReadable, AnyMalformed, LinkedIds, ActorAccess, Combatants, StoredAllowed, ControlsSheet, Controls;
    if e in s.encounters {
      var enc := s.encounters[e];
      TakesPartIff(enc, caller);
      StoredIff(env, s, enc);
      StoredActors(env, s.sheets, Combatants(enc.state), map[]);
      NoControls(caller);
    }
  }

  lemma NoControls(user: Id)
    ensures !ControlsSheet(map[], user)
  {
  }

  /** An operation on unreadable combatants is unacceptable, whoever wrote them, and nothing is written. */
  lemma UnreadableRefused(env: Env, s: Tabletop, caller: Id, e: Id, r: ApplyRequest)
    requires e in s.encounters && TakesPart(s.encounters[e], caller) && ShapeAllowed(env, r.op)
    requires r.expectedSeq == Some(s.encounters[e].seqNo) && s.encounters[e].seqNo >= 0
    requires forall a | a in r.op.add :: RefText(env, a) != "" ==> ParseUuid(RefText(env, a)).Some? && ParseUuid(RefText(env, a)).value != NIL_ID
    ensures !StoredAllowed(env, s, s.encounters[e]) ==> ApplyEncounter(env, s, caller, e, r) == Err(Unacceptable)
  {
    hide ShapeAllowed, EnvelopeOk, IsParticipant, CombatantsReadable, AnyMalformed, LinkedIds, ActorAccess, CheckPolicy, ApplyOps, TakesPart,
         StateIds, Elsewhere, Combatants, NormalizedAdds, SyncAll, LinkSheets, UnlinkSheets, JournalRows, OpPayload, StoredAllowed, RefText,
         ParseUuid;
    ShapeIff(env, r.op);
    TakesPartIff(s.encounters[e], caller);
    PolicyTakesPartReal(s.encounters[e], caller);
    StoredIff(env, s, s.encounters[e]);
    MalformedIff(env, s.sheets, r.op.add);
  }

  /** A malformed reference in an addition is bad input. */
  lemma MalformedAddition(env: Env, s: Tabletop, caller: Id, e: Id, r: ApplyRequest, a: Fields)
    requires e in s.encounters && TakesPart(s.encounters[e], caller) && ShapeAllowed(env, r.op) && StoredAllowed(env, s, s.encounters[e])
    requires r.expectedSeq == Some(s.encounters[e].seqNo) && s.encounters[e].seqNo >= 0
    requires a in r.op.add && RefText(env, a) != ""
    requires ParseUuid(RefText(env, a)).None? || ParseUuid(RefText(env, a)).value == NIL_ID
    ensures ApplyEncounter(env, s, caller, e, r) == Err(BadInput)
  {
    hide ShapeAllowed, EnvelopeOk, IsParticipant, CombatantsReadable, AnyMalformed, LinkedIds, ActorAccess, CheckPolicy, ApplyOps, TakesPart,
         StateIds, Elsewhere, Combatants, NormalizedAdds, SyncAll, LinkSheets, UnlinkSheets, JournalRows, OpPayload, StoredAllowed, RefText,
         ParseUuid;
    ShapeIff(env, r.op);
    TakesPartIff(s.encounters[e], caller);
    PolicyTakesPartReal(s.encounters[e], caller);
    StoredIff(env, s, s.encounters[e]);
    MalformedIff(env, s.sheets, r.op.add);
  }

  /**
   * A sheet counts as being elsewhere only if it points to another encounter
   * that exists and really names it: a stale link does not keep it out.
   */
  lemma ElsewhereIs(s: Tabletop, text: string, here: Id)
    ensures Elsewhere(s, text, here) <==>
            exists id, x: Id ::
              && ParseUuid(text) == Some(id) && id in s.sheets && s.sheets[id].encounter == Some(x) && x != here && x in s.encounters
              && text != "" && exists c :: c in Combatants(s.encounters[x].state) && Field(c, "characterId") == Str(text)
  {
    hide ParseUuid, Combatants;
    if id, x: Id :| ParseUuid(text) == Some(id) && id in s.sheets && s.sheets[id].encounter == Some(x) && x != here && x in s.encounters
                    && text != "" && exists c :: c in Combatants(s.encounters[x].state) && Field(c, "characterId") == Str(text) {
      var cs := Combatants(s.encounters[x].state);
      var c :| c in cs && Field(c, "characterId") == Str(text);
      var i :| 0 <= i < |cs| && cs[i] == c;
      assert Field(cs[i], "characterId").text == text;
      assert text in StateIds(s.encounters[x].state);
    }
    if Elsewhere(s, text, here) {
      var id := ParseUuid(text).value;
      var x := s.sheets[id].encounter.value;
      var cs := Combatants(s.encounters[x].state);
      var i :| 0 <= i < |cs| && Field(cs[i], "characterId").Str? && Field(cs[i], "characterId").text == text;
      assert cs[i] in cs && Field(cs[i], "characterId") == Str(text);
    }
  }
}
