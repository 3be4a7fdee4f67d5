/** What an accepted encounter operation does, field by field. */
module EncounterContract {
  import opened JsonValues
  import opened Outcomes
  import opened TextRules
  import opened WorldState
  import opened Identifiers
  import opened EncounterState
  import opened TabletopTables
  import opened EncounterRules
  import opened CombatantLists
  import opened EncounterSteps
  import opened TabletopInvariant
  import opened EncounterKeeps
  import opened TabletopRuns
  import opened TabletopTheorems

  // ---- The encounter ----

  lemma TurnFields(show: Printer, state: Fields, op: Op)
    ensures var after := ApplyOps(show, state, op);
            && Field(after, "round") == (if op.round.Some? then Num(op.round.value) else Field(state, "round"))
            && Field(after, "activeIndex") == (if op.activeIndex.Some? then Num(op.activeIndex.value) else Field(state, "activeIndex"))
            && forall k | k !in {"combatants", "round", "activeIndex"} :: (k in after <==> k in state) && (k in state ==> after[k] == state[k])
  {
    hide CombatantsAfter, Combatants;
  }

  /**
   * An accepted operation sets round and turn to what was asked for, or leaves
   * them, touches no other field of the state but the combatants, advances the
   * sequence by one, stores one event, and answers with the new sequence and
   * state; name, master and members stay.
   */
  lemma ApplyState(env: Env, s: Tabletop, caller: Id, e: Id, r: ApplyRequest)
    requires ApplyEncounter(env, s, caller, e, r).Ok?
    ensures e in s.encounters && e in ApplyEncounter(env, s, caller, e, r).value.0.encounters
    ensures var (tables, answer) := ApplyEncounter(env, s, caller, e, r).value;
            var before, after := s.encounters[e], tables.encounters[e];
            && Field(after.state, "round") == (if r.op.round.Some? then Num(r.op.round.value) else Field(before.state, "round"))
            && Field(after.state, "activeIndex") ==
               (if r.op.activeIndex.Some? then Num(r.op.activeIndex.value) else Field(before.state, "activeIndex"))
            && (forall k | k !in {"combatants", "round", "activeIndex"} ::
                  (k in after.state <==> k in before.state) && (k in before.state ==> after.state[k] == before.state[k]))
            && after.name == before.name && after.owner == before.owner && after.members == before.members
            && after.seqNo == before.seqNo + 1 && answer == (after.seqNo, after.state)
            && |after.events| == |before.events| + 1 && before.events <= after.events
            && after.events[|before.events|].seqNo == after.seqNo
            && (ReadOp(after.events[|before.events|].payload)).(add := r.op.add) == r.op
            && (forall x | x in s.encounters && x != e :: x in tables.encounters && tables.encounters[x] == s.encounters[x])
            && tables.receipts == s.receipts
  {
    hide ApplyEncounter, Accept, WrittenSheets, ActorAccess, CheckPolicy, StateIds, Elsewhere, ApplyOps, Combatants, OpPayload,
         LinkedIds, NormalizedAdds, IsParticipant;
    ApplyMeaning(env, s, caller, e, r);
    ApplyAnswer(env, s, caller, e, r);
    var a := Accept(env, s, caller, e, r).value;
    TurnFields(env.show, a.enc.state, a.op);
    PayloadRoundTrip(r.(op := a.op));
  }

  lemma ApplyAnswer(env: Env, s: Tabletop, caller: Id, e: Id, r: ApplyRequest)
    requires ApplyEncounter(env, s, caller, e, r).Ok?
    ensures var (tables, answer) := ApplyEncounter(env, s, caller, e, r).value;
            e in tables.encounters && answer == (tables.encounters[e].seqNo, tables.encounters[e].state)
  {
    hide Accept, SyncAll, UnlinkSheets, LinkSheets, StateIds, JournalRows, OpPayload, Combatants;
  }

  // ---- Over runs: the turn counters are the last ones named ----

  /** The last number stored under the key, or the initial one. */
  function LastNamed(events: seq<Event>, key: string, first: int): Json {
    if events == [] then Num(first)
    else
      var last := Field(events[|events| - 1].payload, key);
      if last.Num? then last else LastNamed(events[..|events| - 1], key, first)
  }

  lemma {:induction false} ReplayTurn(show: Printer, events: seq<Event>)
    ensures Field(Replay(show, events), "round") == LastNamed(events, "round", 1)
    ensures Field(Replay(show, events), "activeIndex") == LastNamed(events, "active_index", 0)
  {
    hide ApplyOps, ReadPatch, ReadLog, ReadItems, ReadFields, ReadText;
    if events != [] {
      var init, op := events[..|events| - 1], ReadOp(events[|events| - 1].payload);
      ReplayTurn(show, init);
      TurnFields(show, Replay(show, init), op);
    }
  }

  /** In every reachable store the round and the turn are those of the last event that named one, initially 1 and 0. */
  lemma TurnIsLastNamed(env: Env, actions: seq<Action>, e: Id)
    requires e in Run(env, EMPTY, actions).encounters
    ensures var enc := Run(env, EMPTY, actions).encounters[e];
            && Field(enc.state, "round") == LastNamed(enc.events, "round", 1)
            && Field(enc.state, "activeIndex") == LastNamed(enc.events, "active_index", 0)
  {
    hide Run, Replay, LastNamed;
    StateIsReplay(env, actions, e);
    ReplayTurn(env.show, Run(env, EMPTY, actions).encounters[e].events);
  }

  // ---- The combatants ----

  /** What the last patch that writes this field of this actor writes. */
  function LastPatch(ps: seq<Patch>, actorId: string, k: string): Option<Json> {
    if ps == [] then None
    else
      var p := ps[|ps| - 1];
      if p.actorId == actorId && k in p.values then Some(p.values[k]) else LastPatch(ps[..|ps| - 1], actorId, k)
  }

  lemma {:induction false} MergedSplit(ps: seq<Patch>, p: Patch, actorId: string)
    ensures Merged(ps + [p], actorId) == Merged(ps, actorId) + (if p.actorId == actorId then p.values else map[])
    decreases |ps|
  {
    var own := if p.actorId == actorId then p.values else map[];
    if ps == [] {
      assert ([] + [p])[1..] == [] && ([] + [p])[0] == p;
      NothingMergedYet(actorId);
      assert own + map[] == own && map[] + own == own;
    } else {
      assert (ps + [p])[1..] == ps[1..] + [p];
      MergedSplit(ps[1..], p, actorId);
      Regroup(if ps[0].actorId == actorId then ps[0].values else map[], Merged(ps[1..], actorId), own);
    }
  }

  lemma Regroup(a: Fields, b: Fields, c: Fields)
    ensures a + (b + c) == (a + b) + c
  {
  }

  lemma {:induction false} MergedIsLast(ps: seq<Patch>, actorId: string, k: string)
    ensures k in Merged(ps, actorId) <==> LastPatch(ps, actorId, k).Some?
    ensures k in Merged(ps, actorId) ==> LastPatch(ps, actorId, k) == Some(Merged(ps, actorId)[k])
    decreases |ps|
  {
    hide Merged;
    if ps == [] {
      NothingMergedYet(actorId);
    } else {
      var init, p := ps[..|ps| - 1], ps[|ps| - 1];
      assert ps == init + [p];
      MergedSplit(init, p, actorId);
      MergedIsLast(init, actorId, k);
    }
  }

  lemma NothingMergedYet(actorId: string)
    ensures Merged([], actorId) == map[]
  {
  }

  /** The combatant after the operation: as it was, with the last value patched into each field. */
  predicate PatchedFrom(c: Fields, ps: seq<Patch>, n: Fields, k: string) {
    Field(n, k) == match LastPatch(ps, Actor(c), k) case Some(v) => v case None => Field(c, k)
  }

  /** A joining sheet's combatant: the stored values, and the caller's initiative if it is a number. */
  predicate ShowsSheet(n: Fields, a: Fields, id: Id, sheet: Sheet) {
    && n.Keys == {"actorId", "name", "isMonster", "characterId", "ownerUserId", "hp", "maxHp", "ac", "temp", "activeEffects", "avatarUrl"}
                 + (if "initiative" in a && (a["initiative"].Num? || a["initiative"].Frac?) then {"initiative"} else {})
    && Field(n, "name") == Str(sheet.profile.name) && Field(n, "avatarUrl") == Str(sheet.profile.avatarUrl)
    && Field(n, "ac") == Num(sheet.profile.armorClass)
    && Field(n, "hp") == Num(sheet.runtime.currentHp) && Field(n, "maxHp") == Num(sheet.runtime.maxHp)
    && Field(n, "characterId") == Str(id) && Field(n, "ownerUserId") == Str(sheet.owner) && Field(n, "isMonster") == Bool(false)
    && ("initiative" in n ==> Field(n, "initiative") == Field(a, "initiative"))
    && Field(n, "activeEffects") == (match sheet.runtime.effects case Some(rows) => Arr(rows) case None => Null)
    && var turn := match sheet.runtime.turnState case Some(fields) => fields case None => map[];
       Field(n, "temp") == (if "temp_hp" in turn && (turn["temp_hp"].Num? || turn["temp_hp"].Frac?) then turn["temp_hp"] else Num(0))
  }

  /** A creature's combatant: the ten fields a caller may give it, and nothing of a sheet. */
  predicate ShowsCreature(n: Fields, a: Fields) {
    && n.Keys == {"actorId", "isMonster"}
                 + (set k | k in a && (k == "name" || k == "hp" || k == "maxHp" || k == "ac" || k == "temp" || k == "activeEffects"
                                       || k == "pendingSaves" || k == "pendingAttacks" || k == "avatarUrl" || k == "initiative"))
    && Field(n, "isMonster") == Bool(true)
    && forall k | k in n && k != "actorId" && k != "isMonster" :: n[k] == Field(a, k)
  }

  lemma SheetShown(a: Fields, id: Id, sheet: Sheet)
    ensures ShowsSheet(SheetCombatant(a, id, sheet), a, id, sheet)
  {
    hide TempHp, TrimmedActorId, IsCanonical;
    SheetShownKeys(a, id, sheet);
    SheetShownValues(a, id, sheet);
    SheetShownState(a, id, sheet);
  }

  lemma SheetShownKeys(a: Fields, id: Id, sheet: Sheet)
    ensures SheetCombatant(a, id, sheet).Keys ==
            {"actorId", "name", "isMonster", "characterId", "ownerUserId", "hp", "maxHp", "ac", "temp", "activeEffects", "avatarUrl"}
            + (if "initiative" in a && (a["initiative"].Num? || a["initiative"].Frac?) then {"initiative"} else {})
  {
    hide TempHp, TrimmedActorId, IsCanonical;
  }

  lemma SheetShownValues(a: Fields, id: Id, sheet: Sheet)
    ensures var n := SheetCombatant(a, id, sheet);
            && Field(n, "name") == Str(sheet.profile.name) && Field(n, "avatarUrl") == Str(sheet.profile.avatarUrl)
            && Field(n, "ac") == Num(sheet.profile.armorClass)
            && Field(n, "hp") == Num(sheet.runtime.currentHp) && Field(n, "maxHp") == Num(sheet.runtime.maxHp)
            && Field(n, "characterId") == Str(id) && Field(n, "ownerUserId") == Str(sheet.owner) && Field(n, "isMonster") == Bool(false)
            && ("initiative" in n ==> Field(n, "initiative") == Field(a, "initiative"))
  {
    hide TempHp, TrimmedActorId, IsCanonical;
  }

  lemma SheetShownState(a: Fields, id: Id, sheet: Sheet)
    ensures var n := SheetCombatant(a, id, sheet);
            && Field(n, "activeEffects") == (match sheet.runtime.effects case Some(rows) => Arr(rows) case None => Null)
            && var turn := match sheet.runtime.turnState case Some(fields) => fields case None => map[];
               Field(n, "temp") == (if "temp_hp" in turn && (turn["temp_hp"].Num? || turn["temp_hp"].Frac?) then turn["temp_hp"] else Num(0))
  {
    hide TrimmedActorId, IsCanonical;
  }

  lemma CreatureShown(a: Fields)
    ensures ShowsCreature(CreatureCombatant(a), a)
  {
    hide TrimmedActorId;
  }

  /**
   * After an accepted operation the list is the old one without the removed
   * actors, in order, each field holding the last value patched into it, and
   * then one combatant for each addition, in order.
   */
  lemma ApplyCombatants(env: Env, s: Tabletop, caller: Id, e: Id, r: ApplyRequest)
    requires Inv(env, s) && ApplyEncounter(env, s, caller, e, r).Ok?
    ensures e in s.encounters && e in ApplyEncounter(env, s, caller, e, r).value.0.encounters
    ensures var cs := Combatants(s.encounters[e].state);
            var ns := Combatants(ApplyEncounter(env, s, caller, e, r).value.0.encounters[e].state);
            var kept := Kept(cs, r.op.remove);
            && |ns| == |kept| + |r.op.add|
            && (forall i | 0 <= i < |kept| :: Actor(ns[i]) == Actor(kept[i]) && SheetOf(ns[i]) == SheetOf(kept[i]))
            && (forall i, k | 0 <= i < |kept| :: PatchedFrom(kept[i], r.op.patches, ns[i], k))
            && forall i | 0 <= i < |r.op.add| ::
                 Added(env, s, r.op.add[i], ns[|kept| + i])
  {
    hide ApplyEncounter, Accept, WrittenSheets, ListOk, ActorAccess, CheckPolicy, StateIds, Elsewhere, ApplyOps, Combatants, Inv,
         PatchesOk, Harmless, KnownBefore, OpPayload, LinkedIds, AddFits, NormalizedAdd, Merged, Kept, Actor, SheetOf, PatchedFrom, Added,
         IsParticipant;
    ApplyMeaning(env, s, caller, e, r);
    var a := Accept(env, s, caller, e, r).value;
    NewListIs(env, s, caller, e, r, a);
    var cs, ns := Combatants(a.enc.state), Combatants(a.state);
    var kept := Kept(cs, r.op.remove);
    var known := KnownBefore(ActorAccess(env, s.sheets, cs, map[]).value);
    forall i | 0 <= i < |kept|
      ensures Actor(ns[i]) == Actor(kept[i]) && SheetOf(ns[i]) == SheetOf(kept[i])
      ensures forall k :: PatchedFrom(kept[i], r.op.patches, ns[i], k)
    {
      MergedHarmless(r.op.patches, kept[i]);
      SameNames(ns[i], kept[i]);
      forall k ensures PatchedFrom(kept[i], r.op.patches, ns[i], k) {
        PatchedField(kept[i], r.op.patches, k);
      }
    }
    forall i | 0 <= i < |r.op.add| ensures Added(env, s, r.op.add[i], ns[|kept| + i]) {
      AddedShown(env, s, caller, r.op.add[i], known);
    }
  }

  lemma PatchedField(c: Fields, ps: seq<Patch>, k: string)
    ensures PatchedFrom(c, ps, c + Merged(ps, Actor(c)), k)
  {
    hide Merged, LastPatch, Actor;
    MergedIsLast(ps, Actor(c), k);
  }

  /** What an addition becomes: the sheet it refers to, or a creature, under its trimmed name. */
  predicate Added(env: Env, s: Tabletop, a: Fields, n: Fields) {
    && Field(a, "actorId").Str? && Field(n, "actorId") == Str(TrimSpace(Field(a, "actorId").text))
    && var raw := Field(a, "characterId");
       var text := TrimSpace(if raw.Str? then raw.text else env.show(raw));
       if raw.Null? || text == "" then ShowsCreature(n, a)
       else
         && ParseUuid(text).Some? && ParseUuid(text).value in s.sheets
         && ShowsSheet(n, a, ParseUuid(text).value, s.sheets[ParseUuid(text).value])
  }

  lemma AddedShown(env: Env, s: Tabletop, caller: Id, a: Fields, known: Known)
    requires AddFits(env, s.sheets, caller, a, known)
    ensures Added(env, s, a, NormalizedAdd(env, s.sheets, a))
  {
    hide ShowsSheet, ShowsCreature, SheetCombatant, CreatureCombatant, ParseUuid, TrimSpace, IsCanonical;
    FitsSheet(env, s.sheets, caller, a, known);
    CreatureNames(a);
    CreatureShown(a);
    if AddRef(env, a).Some? {
      var id := AddRef(env, a).value;
      SheetCombatantNames(a, id, s.sheets[id]);
      SheetShown(a, id, s.sheets[id]);
    }
    BlankName(env, s.sheets, caller, a, known);
  }

  lemma BlankName(env: Env, sheets: map<Id, Sheet>, caller: Id, a: Fields, known: Known)
    requires AddFits(env, sheets, caller, a, known)
    ensures Field(a, "actorId").Str?
  {
    hide CharacterRef;
  }

  // ---- Versions of the sheets ----

  /** The operation names this actor in an addition or in a patch of a mirrored field. */
  predicate WritesCombat(op: Op, actorId: string) {
    || (exists a | a in op.add :: Field(a, "actorId").Str? && TrimSpace(Field(a, "actorId").text) == actorId)
    || exists p | p in op.patches :: p.actorId == actorId && ("hp" in p.values || "temp" in p.values || "activeEffects" in p.values)
  }

  lemma SyncVersion(env: Env, sheet: Sheet, c: Fields, touched: set<string>)
    requires "hp" in touched ==> Field(c, "hp").Num?
    requires "temp" in touched ==> IsNumber(Field(c, "temp"))
    requires "activeEffects" in touched ==> Field(c, "activeEffects").Arr? || "temp" in touched
    ensures var after := SyncSheet(env, sheet, c, touched);
            if "hp" in touched || "temp" in touched || "activeEffects" in touched then after.revision == sheet.revision + 1
            else after == sheet
  {
  }

  lemma SurvivorTouched(env: Env, op: Op, adds: seq<Fields>, n: Fields, actorId: string)
    requires PatchesOk(env, op.patches) && |adds| == |op.add|
    requires forall j | 0 <= j < |op.add| :: Actor(op.add[j]) != actorId
    requires forall j | 0 <= j < |adds| :: TrimmedActorId(adds[j]) != actorId
    requires forall k | k in Merged(op.patches, actorId) :: Field(n, k) == Merged(op.patches, actorId)[k]
    ensures var touched := Touched(op, actorId);
            && ("hp" in touched ==> Field(n, "hp").Num?) && ("temp" in touched ==> IsNumber(Field(n, "temp")))
            && ("activeEffects" in touched ==> Field(n, "activeEffects").Arr?)
            && ("hp" in touched || "temp" in touched || "activeEffects" in touched <==> WritesCombat(op.(add := adds), actorId))
  {
    hide Merged, Touched, PatchesOk, TrimSpace;
    TouchedSurvivor(op, actorId, "hp");
    TouchedSurvivor(op, actorId, "temp");
    TouchedSurvivor(op, actorId, "activeEffects");
    MergedNumbers(env, op.patches, actorId, "hp");
    MergedNumbers(env, op.patches, actorId, "temp");
    MergedEffects(env, op.patches, actorId);
    MergedKeys(op.patches, actorId, "hp");
    MergedKeys(op.patches, actorId, "temp");
    MergedKeys(op.patches, actorId, "activeEffects");
    assert forall a | a in adds && Field(a, "actorId").Str? :: TrimSpace(Field(a, "actorId").text) == TrimmedActorId(a);
    if WritesCombat(op.(add := adds), actorId) {
      var p :| p in op.patches && p.actorId == actorId && ("hp" in p.values || "temp" in p.values || "activeEffects" in p.values);
      var i :| 0 <= i < |op.patches| && op.patches[i] == p;
    }
  }

  lemma MergedEffects(env: Env, ps: seq<Patch>, actorId: string)
    requires PatchesOk(env, ps)
    ensures "activeEffects" in Merged(ps, actorId) ==> Merged(ps, actorId)["activeEffects"].Arr?
  {
    MergedKeys(ps, actorId, "activeEffects");
    if "activeEffects" in Merged(ps, actorId) {
      var i :| 0 <= i < |ps| && ps[i].actorId == actorId && "activeEffects" in ps[i].values
               && Merged(ps, actorId)["activeEffects"] == ps[i].values["activeEffects"];
      assert PatchValueOk(env, "activeEffects", ps[i].values["activeEffects"]);
    }
  }

  lemma SurvivorVersion(env: Env, s: Tabletop, caller: Id, e: Id, r: ApplyRequest, a: Accepted, i: nat)
    requires Inv(env, s) && AcceptedAs(env, s, caller, e, r, a) && NewList(env, s, caller, e, r, a)
    requires var ns := Combatants(a.state);
             i < |Kept(Combatants(a.enc.state), a.op.remove)| && i < |ns| && SheetOf(ns[i]).Some? && SheetOf(ns[i]).value in s.sheets
    ensures var n := Combatants(a.state)[i];
            var before, after := s.sheets[SheetOf(n).value], WrittenSheets(env, s, e, a)[SheetOf(n).value];
            if WritesCombat(r.op, Actor(n)) then after.revision == before.revision + 1 else after == before
  {
    hide ListOk, ActorAccess, CheckPolicy, ApplyOps, Combatants, Inv, PatchesOk, Harmless, KnownBefore, LinkedIds, AddFits,
         NormalizedAdd, Merged, Kept, Actor, SheetOf, IsParticipant, LinkedSheets, WrittenSheets, SyncSheet, Touched, Mirrored,
         WritesCombat, TrimmedActorId, AddRef, StateIds, Elsewhere;
    var cs, ns := Combatants(a.enc.state), Combatants(a.state);
    var n, id := ns[i], SheetOf(ns[i]).value;
    WrittenFor(env, s, caller, e, r, a, i);
    LinkStep(env, s, caller, e, r, a, id);
    var kept := Kept(cs, a.op.remove);
    AddsOk(env, s.sheets, caller, r.op.add, KnownBefore(ActorAccess(env, s.sheets, cs, map[]).value));
    MergedHarmless(a.op.patches, kept[i]);
    SameNames(n, kept[i]);
    KeptMember(cs, a.op.remove, i);
    SurvivorTouched(env, a.op, r.op.add, n, Actor(n));
    SyncVersion(env, LinkedSheets(s, e, a)[id], n, Touched(a.op, Actor(n)));
    SurvivorLinked(env, s, e, kept[i], id);
    assert a.op.(add := r.op.add) == r.op;
    assert In(ns, id) && LinkedSheets(s, e, a)[id] == s.sheets[id];
  }

  lemma NewcomerRow(env: Env, sheets: map<Id, Sheet>, caller: Id, asked: Op, op: Op, j: nat, known: Known, linked: Sheet)
    requires j < |asked.add| && j < |op.add| && AddFits(env, sheets, caller, asked.add[j], known)
    requires AddRef(env, asked.add[j]).Some? && op.add[j] == NormalizedAdd(env, sheets, asked.add[j])
    requires TrimmedActorId(asked.add[j]) == Actor(op.add[j])
    requires forall i | 0 <= i < |op.patches| :: op.patches[i].actorId != Actor(op.add[j])
    ensures WritesCombat(asked, Actor(op.add[j]))
    ensures SyncSheet(env, linked, op.add[j], Touched(op, Actor(op.add[j]))).revision == linked.revision + 1
  {
    hide AddFits, NormalizedAdd, Actor, SyncSheet, Touched, WritesCombat, TrimmedActorId, AddRef;
    NewcomerTouched(env, sheets, caller, op, j, asked.add[j], known);
    SyncVersion(env, linked, op.add[j], Touched(op, Actor(op.add[j])));
    NewcomerWrites(env, sheets, caller, asked, j, known, Actor(op.add[j]));
  }

  /** What is known of a combatant behind the survivors. */
  lemma NewcomerAt(env: Env, s: Tabletop, caller: Id, e: Id, r: ApplyRequest, a: Accepted, i: nat, known: Known)
    requires NewList(env, s, caller, e, r, a) && a.op == r.op.(add := NormalizedAdds(env, s.sheets, r.op.add))
    requires known == KnownBefore(ActorAccess(env, s.sheets, Combatants(a.enc.state), map[]).value)
    requires var ns := Combatants(a.state);
             |Kept(Combatants(a.enc.state), a.op.remove)| <= i < |ns| && SheetOf(ns[i]).Some?
    ensures var n, j := Combatants(a.state)[i], i - |Kept(Combatants(a.enc.state), a.op.remove)|;
            && j < |r.op.add| && j < |a.op.add| && a.op.add[j] == n && n == NormalizedAdd(env, s.sheets, r.op.add[j])
            && AddFits(env, s.sheets, caller, r.op.add[j], known) && AddRef(env, r.op.add[j]).Some?
            && TrimmedActorId(r.op.add[j]) == Actor(n)
            && forall k | 0 <= k < |a.op.patches| :: a.op.patches[k].actorId != Actor(n)
  {
    hide ListOk, ActorAccess, Combatants, PatchesOk, Harmless, KnownBefore, AddFits, NormalizedAdd, Merged, Kept, Actor, SheetOf,
         TrimmedActorId, AddRef;
    AddsOk(env, s.sheets, caller, r.op.add, known);
    var kept := |Kept(Combatants(a.enc.state), a.op.remove)|;
    var j := i - kept;
    assert Combatants(a.state)[kept + j] == NormalizedAdd(env, s.sheets, r.op.add[j]) && a.op.add[j] == Combatants(a.state)[i];
    assert forall k | 0 <= k < |a.op.patches| :: a.op.patches[k] in a.op.patches;
  }

  lemma NewcomerVersion(env: Env, s: Tabletop, caller: Id, e: Id, r: ApplyRequest, a: Accepted, i: nat)
    requires Inv(env, s) && AcceptedAs(env, s, caller, e, r, a) && NewList(env, s, caller, e, r, a)
    requires var ns := Combatants(a.state);
             |Kept(Combatants(a.enc.state), a.op.remove)| <= i < |ns| && SheetOf(ns[i]).Some? && SheetOf(ns[i]).value in s.sheets
    ensures var n := Combatants(a.state)[i];
            WritesCombat(r.op, Actor(n))
            && WrittenSheets(env, s, e, a)[SheetOf(n).value].revision == s.sheets[SheetOf(n).value].revision + 1
  {
    hide NewList, ActorAccess, Combatants, Inv, KnownBefore, AddFits, NormalizedAdd, Kept, Actor, SheetOf, LinkedSheets, WrittenSheets,
         SyncSheet, Touched, WritesCombat, TrimmedActorId, AddRef, In, CheckPolicy, ApplyOps, LinkedIds, StateIds, Elsewhere, IsParticipant;
    var cs, ns := Combatants(a.enc.state), Combatants(a.state);
    var n, id := ns[i], SheetOf(ns[i]).value;
    WrittenFor(env, s, caller, e, r, a, i);
    LinkStep(env, s, caller, e, r, a, id);
    var known := KnownBefore(ActorAccess(env, s.sheets, cs, map[]).value);
    NewcomerAt(env, s, caller, e, r, a, i, known);
    NewcomerRow(env, s.sheets, caller, r.op, a.op, i - |Kept(cs, a.op.remove)|, known, LinkedSheets(s, e, a)[id]);
  }

  /**
   * The sheet of a combatant advances by exactly one version if the operation
   * adds it or patches hit points, temporary hit points or effects of its
   * actor; otherwise the sheet is not touched.
   */
  lemma ApplyVersions(env: Env, s: Tabletop, caller: Id, e: Id, r: ApplyRequest, n: Fields)
    requires Inv(env, s) && ApplyEncounter(env, s, caller, e, r).Ok? && e in s.encounters
    requires var after := ApplyEncounter(env, s, caller, e, r).value.0;
             e in after.encounters && n in Combatants(after.encounters[e].state) && SheetOf(n).Some?
    ensures var after, id := ApplyEncounter(env, s, caller, e, r).value.0, SheetOf(n).value;
            && id in s.sheets && id in after.sheets
            && if WritesCombat(r.op, Actor(n)) then after.sheets[id].revision == s.sheets[id].revision + 1
               else after.sheets[id] == s.sheets[id]
  {
    hide ApplyEncounter, Accept, WrittenSheets, ListOk, ActorAccess, CheckPolicy, StateIds, Elsewhere, ApplyOps, Combatants, Inv,
         OpPayload, LinkedIds, Kept, Actor, SheetOf, IsParticipant, Mirrored, WritesCombat, NewList, NormalizedAdds;
    ApplyMeaning(env, s, caller, e, r);
    var a := Accept(env, s, caller, e, r).value;
    NewListIs(env, s, caller, e, r, a);
    SheetsStep(env, s, caller, e, r, a);
    var ns := Combatants(a.state);
    var i :| 0 <= i < |ns| && ns[i] == n;
    assert Tracked(WrittenSheets(env, s, e, a), e, ns[i]);
    if i < |Kept(Combatants(a.enc.state), a.op.remove)| {
      SurvivorVersion(env, s, caller, e, r, a, i);
    } else {
      NewcomerVersion(env, s, caller, e, r, a, i);
    }
  }

  lemma SurvivorLinked(env: Env, s: Tabletop, e: Id, c: Fields, id: Id)
    requires Inv(env, s) && e in s.encounters && c in Combatants(s.encounters[e].state) && SheetOf(c) == Some(id)
    ensures id in s.sheets && s.sheets[id].encounter == Some(e)
  {
    hide Inv, SheetOf, Combatants, ListOk;
    SheetsOfEncounter(env, s, e);
    var cs := Combatants(s.encounters[e].state);
    var i :| 0 <= i < |cs| && cs[i] == c;
    assert Tracked(s.sheets, e, cs[i]);
  }

  lemma NewcomerTouched(env: Env, sheets: map<Id, Sheet>, caller: Id, op: Op, j: nat, a: Fields, known: Known)
    requires j < |op.add| && AddFits(env, sheets, caller, a, known) && AddRef(env, a).Some?
    requires op.add[j] == NormalizedAdd(env, sheets, a)
    requires forall i | 0 <= i < |op.patches| :: op.patches[i].actorId != Actor(op.add[j])
    ensures var touched := Touched(op, Actor(op.add[j]));
            "hp" !in touched && "temp" in touched && IsNumber(Field(op.add[j], "temp"))
  {
    hide AddFits, Touched, CharacterRef, SheetCombatant, TempHp;
    FitsSheet(env, sheets, caller, a, known);
    AddRefMeaning(env, a);
    var id := AddRef(env, a).value;
    SheetCombatantNames(a, id, sheets[id]);
    SheetCombatantValues(a, id, sheets[id]);
    TouchedNewcomer(op, j, Actor(op.add[j]));
  }

  lemma NewcomerWrites(env: Env, sheets: map<Id, Sheet>, caller: Id, op: Op, j: nat, known: Known, actorId: string)
    requires j < |op.add| && AddFits(env, sheets, caller, op.add[j], known) && TrimmedActorId(op.add[j]) == actorId
    ensures WritesCombat(op, actorId)
  {
    hide TrimSpace;
    BlankName(env, sheets, caller, op.add[j], known);
    assert op.add[j] in op.add;
  }
}
