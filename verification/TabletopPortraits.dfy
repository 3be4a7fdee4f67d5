/**
 * What a combatant shows of a sheet, over every run: its effects, its owner
 * and its kind. This is a second invariant, on top of `TabletopInvariant.Inv`.
 */
module TabletopPortraits {
  import opened JsonValues
  import opened Outcomes
  import opened TextRules
  import opened WorldState
  import opened Identifiers
  import opened EncounterState
  import opened TabletopTables
  import opened EncounterRules
  import opened SheetRules
  import opened CommandRules
  import opened CombatantLists
  import opened EncounterSteps
  import opened TabletopInvariant
  import opened EncounterKeeps
  import opened TabletopRuns
  import opened TabletopTheorems
  import opened SheetTheorems

  // ---- The invariant ----

  /** The effects of the sheet are those of the combatant, re-encoded as rows. */
  predicate EffectsAgree(env: Env, c: Fields, r: Runtime) {
    match Field(c, "activeEffects")
    case Arr(items) => r.effects == Some(env.effectRows(items))
    case Null => r.effects.None?
    case _ => false
  }

  /** The combatant of a sheet says whose it is; a creature claims no sheet and no owner. */
  predicate Portrait(env: Env, sheets: map<Id, Sheet>, c: Fields) {
    if SheetOf(c).Some? then
      && SheetOf(c).value in sheets
      && var sheet := sheets[SheetOf(c).value];
      EffectsAgree(env, c, sheet.runtime) && Field(c, "isMonster") == Bool(false) && Field(c, "ownerUserId") == Str(sheet.owner)
    else
      Field(c, "isMonster") == Bool(true) && "ownerUserId" !in c && "characterId" !in c
  }

  predicate AllPortraits(env: Env, sheets: map<Id, Sheet>, cs: seq<Fields>) {
    forall i | 0 <= i < |cs| :: Portrait(env, sheets, cs[i])
  }

  /** The state has its three fields and nothing else, and the turn counters are in range. */
  predicate TurnInRange(state: Fields) {
    && state.Keys == {"combatants", "round", "activeIndex"}
    && state["round"].Num? && state["round"].n >= 1
    && state["activeIndex"].Num? && state["activeIndex"].n >= 0
  }

  predicate Portraits(env: Env, s: Tabletop) {
    forall e | e in s.encounters ::
      TurnInRange(s.encounters[e].state) && AllPortraits(env, s.sheets, Combatants(s.encounters[e].state))
  }

  // ---- Survivors ----

  predicate Patchable(k: string) {
    k in {"hp", "temp", "activeEffects", "pendingSaves", "pendingAttacks"}
  }

  lemma MergedPatchable(env: Env, ps: seq<Patch>, actorId: string, k: string)
    requires PatchesOk(env, ps) && k in Merged(ps, actorId)
    ensures Patchable(k) && (k == "activeEffects" ==> Merged(ps, actorId)[k].Arr?)
  {
    MergedKeys(ps, actorId, k);
    var i :| 0 <= i < |ps| && ps[i].actorId == actorId && k in ps[i].values && Merged(ps, actorId)[k] == ps[i].values[k];
    assert PatchValueOk(env, k, ps[i].values[k]);
  }

  /** Patched effects written through agree again. */
  lemma PatchEffects(env: Env, sheet: Sheet, c: Fields, m: Fields, touched: set<string>)
    requires EffectsAgree(env, c, sheet.runtime)
    requires "activeEffects" in touched <==> "activeEffects" in m
    requires "activeEffects" in m ==> m["activeEffects"].Arr?
    ensures EffectsAgree(env, c + m, SyncSheet(env, sheet, c + m, touched).runtime)
  {
  }

  lemma SurvivorPortrait(env: Env, sheets: map<Id, Sheet>, op: Op, c: Fields, written: map<Id, Sheet>, linked: map<Id, Sheet>)
    requires PatchesOk(env, op.patches) && Harmless(op.patches) && Portrait(env, sheets, c)
    requires forall i | 0 <= i < |op.add| :: Actor(op.add[i]) != Actor(c)
    requires var after := c + Merged(op.patches, Actor(c));
             SheetOf(c).Some? ==>
               && SheetOf(c).value in written && SheetOf(c).value in linked
               && linked[SheetOf(c).value].runtime == sheets[SheetOf(c).value].runtime
               && written[SheetOf(c).value] == SyncSheet(env, linked[SheetOf(c).value], after, Touched(op, Actor(c)))
               && written[SheetOf(c).value].owner == sheets[SheetOf(c).value].owner
    ensures Portrait(env, written, c + Merged(op.patches, Actor(c)))
  {
    hide Actor, Touched, Merged, SyncSheet, PatchesOk, EffectsAgree, Harmless, SheetOf;
    var m := Merged(op.patches, Actor(c));
    MergedHarmless(op.patches, c);
    SameNames(c + m, c);
    forall k | k in m ensures Patchable(k) && (k == "activeEffects" ==> m[k].Arr?) {
      MergedPatchable(env, op.patches, Actor(c), k);
    }
    assert "isMonster" !in m && "ownerUserId" !in m && "characterId" !in m;
    if SheetOf(c).Some? {
      TouchedSurvivor(op, Actor(c), "activeEffects");
      PatchEffects(env, linked[SheetOf(c).value], c, m, Touched(op, Actor(c)));
    }
  }

  // ---- Newcomers ----

  lemma SheetCombatantShows(a: Fields, id: Id, sheet: Sheet)
    ensures var c := SheetCombatant(a, id, sheet);
            && Field(c, "isMonster") == Bool(false) && Field(c, "ownerUserId") == Str(sheet.owner) && "activeEffects" in c
            && c["activeEffects"] == if sheet.runtime.effects.Some? then Arr(sheet.runtime.effects.value) else Null
  {
    hide TempHp, TrimmedActorId, IsCanonical;
  }

  lemma CreatureShows(a: Fields)
    ensures var c := CreatureCombatant(a);
            Field(c, "isMonster") == Bool(true) && "ownerUserId" !in c && "characterId" !in c
  {
    hide TrimmedActorId;
  }

  lemma JoinEffects(env: Env, sheet: Sheet, c: Fields, touched: set<string>)
    requires Field(c, "activeEffects") == if sheet.runtime.effects.Some? then Arr(sheet.runtime.effects.value) else Null
    requires "activeEffects" in touched && "activeEffects" in c
    ensures EffectsAgree(env, c, SyncSheet(env, sheet, c, touched).runtime)
  {
  }

  lemma AddedKeyTouched(op: Op, j: nat, actorId: string)
    requires j < |op.add| && Field(op.add[j], "actorId") == Str(actorId) && "activeEffects" in op.add[j]
    ensures "activeEffects" in Touched(op, actorId)
  {
    assert op.add[j] == op.add[j];
  }

  lemma NewcomerPortrait(env: Env, sheets: map<Id, Sheet>, caller: Id, op: Op, j: nat, a: Fields, known: Known,
        written: map<Id, Sheet>, linked: map<Id, Sheet>)
    requires AddFits(env, sheets, caller, a, known) && j < |op.add| && op.add[j] == NormalizedAdd(env, sheets, a)
    requires var c := op.add[j];
             SheetOf(c).Some? ==>
               && SheetOf(c).value in written && SheetOf(c).value in linked && SheetOf(c).value in sheets
               && linked[SheetOf(c).value].runtime == sheets[SheetOf(c).value].runtime
               && written[SheetOf(c).value] == SyncSheet(env, linked[SheetOf(c).value], c, Touched(op, Actor(c)))
               && written[SheetOf(c).value].owner == sheets[SheetOf(c).value].owner
    ensures Portrait(env, written, op.add[j])
  {
    hide CharacterRef, Touched, SyncSheet, EffectsAgree, SheetCombatant, CreatureCombatant, Blank, Trimmed, SheetOf, AddFits;
    var c := op.add[j];
    AddedIs(env, sheets, caller, a, known);
    FitsSheet(env, sheets, caller, a, known);
    AddRefMeaning(env, a);
    CreatureShows(a);
    if AddRef(env, a).Some? {
      var id := AddRef(env, a).value;
      SheetCombatantNames(a, id, sheets[id]);
      SheetCombatantShows(a, id, sheets[id]);
      AddedKeyTouched(op, j, Actor(c));
      JoinEffects(env, linked[id], c, Touched(op, Actor(c)));
    }
  }

  // ---- One operation ----

  lemma NewPortrait(env: Env, s: Tabletop, caller: Id, e: Id, r: ApplyRequest, a: Accepted, i: nat)
    requires Inv(env, s) && AcceptedAs(env, s, caller, e, r, a) && NewList(env, s, caller, e, r, a)
    requires AllPortraits(env, s.sheets, Combatants(a.enc.state)) && i < |Combatants(a.state)|
    ensures Portrait(env, WrittenSheets(env, s, e, a), Combatants(a.state)[i])
  {
    hide ListOk, SheetOf, Actor, ActorAccess, CheckPolicy, ApplyOps, Combatants, PatchesOk, Inv, AddFits, EncounterOk,
         Elsewhere, StateIds, LinkedIds, IsParticipant, KnownBefore, Harmless, LinkedSheets, WrittenSheets, SyncSheet, Touched,
         Kept, Merged, NormalizedAdd, Portrait, In;
    var cs, ns := Combatants(a.enc.state), Combatants(a.state);
    var kept := Kept(cs, a.op.remove);
    var known := KnownBefore(ActorAccess(env, s.sheets, cs, map[]).value);
    var linked, written := LinkedSheets(s, e, a), WrittenSheets(env, s, e, a);
    AddsOk(env, s.sheets, caller, r.op.add, known);
    SheetsStep(env, s, caller, e, r, a);
    SheetsOfEncounter(env, s, e);
    if i < |kept| {
      var c := kept[i];
      MergedHarmless(a.op.patches, c);
      SameNames(ns[i], c);
      KeptMember(cs, a.op.remove, i);
      var k :| 0 <= k < |cs| && cs[k] == c;
      if SheetOf(c).Some? {
        WrittenFor(env, s, caller, e, r, a, i);
        var id := SheetOf(c).value;
        assert SheetStep(cs, ns, e, id, s.sheets[id], written[id]);
      }
      SurvivorPortrait(env, s.sheets, a.op, c, written, linked);
    } else {
      var j := i - |kept|;
      assert ns[|kept| + j] == NormalizedAdd(env, s.sheets, r.op.add[j]) && a.op.add[j] == ns[i];
      assert AddFits(env, s.sheets, caller, r.op.add[j], known);
      if SheetOf(ns[i]).Some? {
        WrittenFor(env, s, caller, e, r, a, i);
        var id := SheetOf(ns[i]).value;
        assert SheetStep(cs, ns, e, id, s.sheets[id], written[id]);
      }
      NewcomerPortrait(env, s.sheets, caller, a.op, j, r.op.add[j], known, written, linked);
    }
  }

  lemma TurnAfter(env: Env, enc: Encounter, caller: Id, actors: map<string, Access>, sheets: map<Id, Sheet>, op: Op, add: seq<Fields>)
    requires CheckPolicy(env, enc, caller, actors, sheets, op).Pass? && TurnInRange(enc.state)
    ensures TurnInRange(ApplyOps(env.show, enc.state, op.(add := add)))
  {
    hide CheckPatches, CheckRemovals, CheckAdds, CheckLog, IsParticipant, KnownBefore, CombatantsAfter, Combatants;
  }

  lemma ApplyPortraits(env: Env, s: Tabletop, caller: Id, e: Id, r: ApplyRequest)
    requires Inv(env, s) && ApplyEncounter(env, s, caller, e, r).Ok? && e in s.encounters
    requires TurnInRange(s.encounters[e].state) && AllPortraits(env, s.sheets, Combatants(s.encounters[e].state))
    ensures var after := ApplyEncounter(env, s, caller, e, r).value.0;
            && e in after.encounters
            && TurnInRange(after.encounters[e].state) && AllPortraits(env, after.sheets, Combatants(after.encounters[e].state))
  {
    hide ApplyEncounter, Accept, WrittenSheets, ListOk, ActorAccess, CheckPolicy, StateIds, Elsewhere, ApplyOps, NewList,
         Combatants, Inv, KnownBefore, OpPayload, LinkedIds, Portrait, TurnInRange, NormalizedAdds, IsParticipant;
    ApplyMeaning(env, s, caller, e, r);
    var a := Accept(env, s, caller, e, r).value;
    NewListIs(env, s, caller, e, r, a);
    forall i | 0 <= i < |Combatants(a.state)| ensures Portrait(env, WrittenSheets(env, s, e, a), Combatants(a.state)[i]) {
      NewPortrait(env, s, caller, e, r, a, i);
    }
    var actors := ActorAccess(env, s.sheets, Combatants(a.enc.state), map[]).value;
    TurnAfter(env, a.enc, caller, actors, s.sheets, r.op, a.op.add);
  }

  // ---- All endpoints ----

  /** Sheets linked here keep what the portraits show through every other action. */
  lemma OthersKeep(env: Env, s: Tabletop, a: Action, e: Id)
    requires Inv(env, s) && e in s.encounters && AllPortraits(env, s.sheets, Combatants(s.encounters[e].state))
    requires !((a.Apply? || a.Delete?) && a.id == e)
    ensures AllPortraits(env, Step(env, s, a).sheets, Combatants(s.encounters[e].state))
  {
    hide Inv, Step, SheetOf, Combatants, Mirrored, ListOk;
    var cs := Combatants(s.encounters[e].state);
    SheetsOfEncounter(env, s, e);
    forall i | 0 <= i < |cs| ensures Portrait(env, Step(env, s, a).sheets, cs[i]) {
      assert Portrait(env, s.sheets, cs[i]) && Tracked(s.sheets, e, cs[i]);
      if SheetOf(cs[i]).Some? {
        LinkedStays(env, s, a, e, SheetOf(cs[i]).value);
        WritersOfColumns(env, s, a, SheetOf(cs[i]).value);
      }
    }
  }

  lemma StepPortraits(env: Env, s: Tabletop, a: Action)
    requires Inv(env, s) && Portraits(env, s)
    ensures Portraits(env, Step(env, s, a))
  {
    hide Inv, Step, AllPortraits, TurnInRange, Combatants;
    var after := Step(env, s, a);
    IssuedEncounters(env, s);
    forall e | e in after.encounters
      ensures TurnInRange(after.encounters[e].state) && AllPortraits(env, after.sheets, Combatants(after.encounters[e].state))
    {
      if (a.Apply? || a.Delete?) && a.id == e {
        OwnStep(env, s, a);
      } else {
        StateFrame(env, s, a, e);
        if e in s.encounters {
          OthersKeep(env, s, a, e);
        } else {
          EmptyPortraits(env, after.sheets);
        }
      }
    }
  }

  lemma EmptyPortraits(env: Env, sheets: map<Id, Sheet>)
    ensures TurnInRange(EMPTY_STATE) && AllPortraits(env, sheets, Combatants(EMPTY_STATE))
  {
  }

  lemma OwnStep(env: Env, s: Tabletop, a: Action)
    requires Inv(env, s) && Portraits(env, s) && (a.Apply? || a.Delete?)
    ensures var after := Step(env, s, a);
            a.id in after.encounters ==>
              && TurnInRange(after.encounters[a.id].state)
              && AllPortraits(env, after.sheets, Combatants(after.encounters[a.id].state))
  {
    hide Inv, ApplyEncounter, AllPortraits, TurnInRange, Combatants;
    if a.Apply? && ApplyEncounter(env, s, a.caller, a.id, a.request).Ok? {
      AppliedExists(env, s, a.caller, a.id, a.request);
      ApplyPortraits(env, s, a.caller, a.id, a.request);
    }
  }

  lemma {:induction false} RunPortraits(env: Env, s: Tabletop, actions: seq<Action>)
    requires Inv(env, s) && Portraits(env, s)
    ensures Portraits(env, Run(env, s, actions))
    decreases |actions|
  {
    hide Inv, Step, Portraits;
    if actions != [] {
      StepKeeps(env, s, actions[0]);
      StepPortraits(env, s, actions[0]);
      RunPortraits(env, Step(env, s, actions[0]), actions[1..]);
    }
  }

  /**
   * In every reachable store the combatant of a sheet carries the sheet's owner
   * and its effects agree with the sheet's through the one re-encoding; every
   * other combatant is a creature that claims no sheet and no owner; the turn
   * counters are in range.
   */
  lemma PortraitsHold(env: Env, actions: seq<Action>, e: Id, c: Fields)
    requires var s := Run(env, EMPTY, actions); e in s.encounters && c in Combatants(s.encounters[e].state)
    ensures var s := Run(env, EMPTY, actions);
            && TurnInRange(s.encounters[e].state)
            && (Field(c, "isMonster") == Bool(SheetOf(c).None?))
            && (SheetOf(c).None? ==> "ownerUserId" !in c && "characterId" !in c)
            && (SheetOf(c).Some? ==>
                  && SheetOf(c).value in s.sheets
                  && Field(c, "ownerUserId") == Str(s.sheets[SheetOf(c).value].owner)
                  && EffectsAgree(env, c, s.sheets[SheetOf(c).value].runtime))
  {
    hide Run, Combatants, SheetOf, TurnInRange, EffectsAgree;
    EmptyHolds(env);
    RunPortraits(env, EMPTY, actions);
    var cs := Combatants(Run(env, EMPTY, actions).encounters[e].state);
    var i :| 0 <= i < |cs| && cs[i] == c;
    assert Portrait(env, Run(env, EMPTY, actions).sheets, cs[i]);
  }

  // ---- Forged fields ----

  /** Two requested additions that claim the same: for a sheet, its actor, its reference and its initiative. */
  predicate SameClaim(env: Env, a: Fields, b: Fields) {
    && CharacterRef(env, a) == CharacterRef(env, b) && Field(a, "actorId") == Field(b, "actorId")
    && if CharacterRef(env, a).Linked? then Field(a, "initiative") == Field(b, "initiative")
       else forall k | k in CREATURE_KEYS :: (k in a <==> k in b) && (k in a ==> a[k] == b[k])
  }

  predicate SameClaims(env: Env, r: ApplyRequest, q: ApplyRequest) {
    && q == r.(op := r.op.(add := q.op.add)) && |q.op.add| == |r.op.add|
    && forall i | 0 <= i < |r.op.add| :: SameClaim(env, r.op.add[i], q.op.add[i])
  }

  lemma SameAddition(env: Env, sheets: map<Id, Sheet>, a: Fields, b: Fields)
    requires SameClaim(env, a, b) && (CharacterRef(env, a).Linked? ==> CharacterRef(env, a).id in sheets)
    ensures NormalizedAdd(env, sheets, a) == NormalizedAdd(env, sheets, b)
  {
    hide CharacterRef, SheetCombatant, CreatureCombatant;
    if CharacterRef(env, a).Linked? {
      SameSheetCombatant(a, b, CharacterRef(env, a).id, sheets[CharacterRef(env, a).id]);
    } else {
      SameCreature(a, b);
    }
  }

  lemma SameSheetCombatant(a: Fields, b: Fields, id: Id, sheet: Sheet)
    requires Field(a, "actorId") == Field(b, "actorId") && Field(a, "initiative") == Field(b, "initiative")
    ensures SheetCombatant(a, id, sheet) == SheetCombatant(b, id, sheet)
  {
    hide TempHp, TrimSpace, IsCanonical;
  }

  lemma SameCreature(a: Fields, b: Fields)
    requires Field(a, "actorId") == Field(b, "actorId")
    requires forall k | k in CREATURE_KEYS :: (k in a <==> k in b) && (k in a ==> a[k] == b[k])
    ensures CreatureCombatant(a) == CreatureCombatant(b)
  {
    hide TrimSpace;
    assert (map k | k in a && k in CREATURE_KEYS :: a[k]) == (map k | k in b && k in CREATURE_KEYS :: b[k]);
  }

  lemma {:induction false} SameChecks(env: Env, enc: Encounter, caller: Id, sheets: map<Id, Sheet>, xs: seq<Fields>, ys: seq<Fields>,
        known: Known)
    requires |xs| == |ys| && forall i | 0 <= i < |xs| :: SameClaim(env, xs[i], ys[i])
    ensures CheckAdds(env, enc, caller, sheets, xs, known) == CheckAdds(env, enc, caller, sheets, ys, known)
    decreases |xs|
  {
    hide CharacterRef, Blank, TrimSpace, Utf8Length;
    if xs != [] {
      assert SameClaim(env, xs[0], ys[0]);
      var next := CheckAdd(env, enc, caller, sheets, xs[0], known);
      if next.Ok? {
        assert forall i | 0 <= i < |xs[1..]| :: xs[1..][i] == xs[i + 1] && ys[1..][i] == ys[i + 1];
        SameChecks(env, enc, caller, sheets, xs[1..], ys[1..], next.value);
      }
    }
  }

  lemma SameReferences(env: Env, xs: seq<Fields>, ys: seq<Fields>)
    requires |xs| == |ys| && forall i | 0 <= i < |xs| :: SameClaim(env, xs[i], ys[i])
    ensures LinkedIds(env, xs) == LinkedIds(env, ys) && AnyMalformed(env, xs) == AnyMalformed(env, ys)
  {
    hide CharacterRef;
    forall id ensures id in LinkedIds(env, xs) <==> id in LinkedIds(env, ys) {
      assert forall i | 0 <= i < |xs| :: SameClaim(env, xs[i], ys[i]);
    }
    assert forall i | 0 <= i < |xs| :: SameClaim(env, xs[i], ys[i]);
  }

  lemma SameAdditions(env: Env, sheets: map<Id, Sheet>, xs: seq<Fields>, ys: seq<Fields>)
    requires |xs| == |ys| && (forall i | 0 <= i < |xs| :: SameClaim(env, xs[i], ys[i])) && LinkedIds(env, xs) <= sheets.Keys
    ensures NormalizedAdds(env, sheets, xs) == NormalizedAdds(env, sheets, ys)
  {
    hide CharacterRef, SameClaim, NormalizedAdd;
    forall i | 0 <= i < |xs| ensures NormalizedAdd(env, sheets, xs[i]) == NormalizedAdd(env, sheets, ys[i]) {
      if CharacterRef(env, xs[i]).Linked? { assert CharacterRef(env, xs[i]).id in LinkedIds(env, xs); }
      SameAddition(env, sheets, xs[i], ys[i]);
    }
  }

  lemma SamePolicy(env: Env, enc: Encounter, caller: Id, actors: map<string, Access>, sheets: map<Id, Sheet>, r: ApplyRequest,
        q: ApplyRequest)
    requires SameClaims(env, r, q)
    ensures CheckPolicy(env, enc, caller, actors, sheets, r.op) == CheckPolicy(env, enc, caller, actors, sheets, q.op)
  {
    hide CheckAdds, CheckPatches, CheckRemovals, CheckTurn, CheckLog, IsParticipant, KnownBefore, SameClaim;
    assert q.op.patches == r.op.patches && q.op.remove == r.op.remove && q.op.log == r.op.log;
    assert CheckTurn(enc, caller, q.op) == CheckTurn(enc, caller, r.op) by { TurnFrame(enc, caller, r.op, q.op.add); }
    SameChecks(env, enc, caller, sheets, r.op.add, q.op.add, KnownBefore(actors));
  }

  lemma TurnFrame(enc: Encounter, caller: Id, op: Op, add: seq<Fields>)
    ensures CheckTurn(enc, caller, op.(add := add)) == CheckTurn(enc, caller, op)
  {
  }

  lemma SameAccepted(env: Env, s: Tabletop, caller: Id, e: Id, r: ApplyRequest, q: ApplyRequest)
    requires SameClaims(env, r, q)
    ensures Accept(env, s, caller, e, r) == Accept(env, s, caller, e, q)
  {
    hide EnvelopeOk, IsParticipant, CombatantsReadable, AnyMalformed, LinkedIds, ActorAccess, CheckPolicy, ApplyOps, StateIds,
         Elsewhere, Combatants, NormalizedAdds, SameClaim;
    SameReferences(env, r.op.add, q.op.add);
    assert EnvelopeOk(env, r.op) == EnvelopeOk(env, q.op) by { EnvelopeFrame(env, r.op, q.op.add); }
    if e in s.encounters {
      var enc := s.encounters[e];
      var actors := ActorAccess(env, s.sheets, Combatants(enc.state), map[]);
      if actors.Ok? { SamePolicy(env, enc, caller, actors.value, s.sheets, r, q); }
      if LinkedIds(env, r.op.add) <= s.sheets.Keys {
        SameAdditions(env, s.sheets, r.op.add, q.op.add);
        assert q.op.(add := NormalizedAdds(env, s.sheets, q.op.add)) == r.op.(add := NormalizedAdds(env, s.sheets, r.op.add));
      }
    }
  }

  lemma EnvelopeFrame(env: Env, op: Op, add: seq<Fields>)
    requires |add| == |op.add|
    ensures EnvelopeOk(env, op) == EnvelopeOk(env, op.(add := add))
  {
    hide LogEntryOk;
  }

  /**
   * Whatever a caller writes into the other fields of a joining sheet (hit
   * points, armour, owner, effects, another spelling of its reference), the
   * answer, the tables and the stored event are the same.
   */
  lemma ForgedFieldsIgnored(env: Env, s: Tabletop, caller: Id, e: Id, r: ApplyRequest, q: ApplyRequest)
    requires SameClaims(env, r, q)
    ensures ApplyEncounter(env, s, caller, e, r) == ApplyEncounter(env, s, caller, e, q)
  {
    hide Accept, SyncAll, LinkSheets, UnlinkSheets, JournalRows, OpPayload, StateIds, Combatants, SameClaim;
    SameAccepted(env, s, caller, e, r, q);
    var a := Accept(env, s, caller, e, r);
    if a.Ok? {
      assert r.(op := a.value.op) == q.(op := a.value.op);
    }
  }
}
