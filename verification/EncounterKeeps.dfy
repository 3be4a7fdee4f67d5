/** An encounter operation keeps the invariant of the shared tables. */
module EncounterKeeps {
  import opened JsonValues
  import opened Outcomes
  import opened TextRules
  import opened WorldState
  import opened Identifiers
  import opened EncounterState
  import opened TabletopTables
  import opened EncounterRules
  import opened CombatantLists
  import opened EncounterSteps
  import opened TabletopInvariant

  // ---- What an accepted operation has passed ----

  predicate AcceptedAs(env: Env, s: Tabletop, caller: Id, e: Id, r: ApplyRequest, a: Accepted) {
    && e in s.encounters && a.enc == s.encounters[e]
    && r.expectedSeq == Some(a.enc.seqNo) && IsParticipant(a.enc, caller)
    && var cs := Combatants(a.enc.state);
    && a.op == r.op.(add := NormalizedAdds(env, s.sheets, r.op.add))
    && a.state == ApplyOps(env.show, a.enc.state, a.op)
    && a.loaded == LinkedIds(env, cs) + LinkedIds(env, r.op.add)
    && a.loaded <= s.sheets.Keys
    && ActorAccess(env, s.sheets, cs, map[]).Ok?
    && CheckPolicy(env, a.enc, caller, ActorAccess(env, s.sheets, cs, map[]).value, s.sheets, r.op).Pass?
    && (forall t | t in StateIds(a.state) - StateIds(a.enc.state) :: !Elsewhere(s, t, e))
  }

  lemma AcceptMeaning(env: Env, s: Tabletop, caller: Id, e: Id, r: ApplyRequest)
    requires Accept(env, s, caller, e, r).Ok?
    ensures AcceptedAs(env, s, caller, e, r, Accept(env, s, caller, e, r).value)
  {
    hide EnvelopeOk, IsParticipant, CombatantsReadable, AnyMalformed, LinkedIds, ActorAccess, CheckPolicy, ApplyOps,
         StateIds, Elsewhere, Combatants, NormalizedAdds;
  }

  lemma PolicyMeaning(env: Env, enc: Encounter, caller: Id, actors: map<string, Access>, sheets: map<Id, Sheet>, op: Op)
    requires CheckPolicy(env, enc, caller, actors, sheets, op).Pass?
    ensures PatchesOk(env, op.patches)
    ensures AddsFit(env, sheets, caller, op.add, KnownBefore(actors))
    ensures forall p | p in op.patches :: p.actorId in actors && MayTouch(enc, caller, actors[p.actorId])
  {
    hide CheckPatches, CheckRemovals, CheckTurn, CheckAdds, CheckLog, IsParticipant, PatchesOk, AddsFit, KnownBefore;
    PatchesMeaning(env, enc, caller, actors, op.patches);
    AddsMeaning(env, enc, caller, sheets, op.add, KnownBefore(actors));
  }

  predicate In(cs: seq<Fields>, id: Id) {
    exists c | c in cs :: SheetOf(c) == Some(id)
  }

  // ---- Which fields are written through ----

  /** For a combatant that stays, the written fields are exactly the merged patches. */
  lemma TouchedSurvivor(op: Op, actorId: string, k: string)
    requires forall i | 0 <= i < |op.add| :: Actor(op.add[i]) != actorId
    ensures k in Touched(op, actorId) <==> k in Merged(op.patches, actorId)
  {
    MergedKeys(op.patches, actorId, k);
    forall i | 0 <= i < |op.add| ensures Field(op.add[i], "actorId") != Str(actorId) {
      assert Actor(op.add[i]) != actorId;
    }
  }

  /** A newcomer's temporary hit points are written through, its hit points are not. */
  lemma TouchedNewcomer(op: Op, j: nat, actorId: string)
    requires j < |op.add| && Field(op.add[j], "actorId") == Str(actorId) && "temp" in op.add[j]
    requires forall i | 0 <= i < |op.patches| :: op.patches[i].actorId != actorId
    ensures "hp" !in Touched(op, actorId) && "temp" in Touched(op, actorId)
  {
    assert op.add[j] == op.add[j];
  }

  // ---- The sheets after an operation ----

  /** What the operation may do to one sheet. */
  predicate SheetStep(cs: seq<Fields>, ns: seq<Fields>, e: Id, id: Id, before: Sheet, after: Sheet) {
    && after.owner == before.owner
    && (if In(ns, id) then after.encounter == Some(e) && (In(cs, id) || before.encounter.None?)
        else if In(cs, id) then after == before.(encounter := None)
        else after == before)
    && (after.revision == before.revision ==> after.runtime == before.runtime)
    && before.revision <= after.revision
    && after.metadata == before.metadata && after.profile == before.profile
  }

  lemma SyncIsStep(env: Env, sheet: Sheet, c: Fields, touched: set<string>)
    ensures var after := SyncSheet(env, sheet, c, touched);
            && after.owner == sheet.owner && after.encounter == sheet.encounter
            && (after.revision == sheet.revision ==> after.runtime == sheet.runtime)
            && sheet.revision <= after.revision <= sheet.revision + 1
            && after.metadata == sheet.metadata && after.profile == sheet.profile
  {
    hide SyncPatch, Overlay;
  }

  /** Links before write-through: entering sheets point here, leaving ones nowhere. */
  lemma LinkedMeaning(s: Tabletop, e: Id, before: Fields, after: Fields, id: Id)
    requires ListOk(Combatants(before)) && ListOk(Combatants(after)) && id in s.sheets
    ensures var entering, leaving := StateIds(after) - StateIds(before), StateIds(before) - StateIds(after);
            var linked := UnlinkSheets(LinkSheets(s.sheets, entering, e), leaving, e);
            var cs, ns := Combatants(before), Combatants(after);
            linked[id] ==
              if In(ns, id) && !In(cs, id) then s.sheets[id].(encounter := Some(e))
              else if In(cs, id) && !In(ns, id) && s.sheets[id].encounter == Some(e) then s.sheets[id].(encounter := None)
              else s.sheets[id]
  {
    hide ListOk, Combatants, SheetOf, Names, StateIds;
    StateIdsMeaning(before);
    StateIdsMeaning(after);
    var entering, leaving := StateIds(after) - StateIds(before), StateIds(before) - StateIds(after);
    NamesCanonical(entering, id);
    NamesCanonical(leaving, id);
  }

  /** A sheet that enters was in no encounter. */
  lemma EnteringIsFree(s: Tabletop, e: Id, before: Fields, after: Fields, id: Id)
    requires LinksOk(s) && id in s.sheets && e in s.encounters && s.encounters[e].state == before
    requires ListOk(Combatants(before)) && ListOk(Combatants(after))
    requires forall x | x in s.encounters :: ListOk(Combatants(s.encounters[x].state))
    requires In(Combatants(after), id) && !In(Combatants(before), id)
    requires forall t | t in StateIds(after) - StateIds(before) :: !Elsewhere(s, t, e)
    ensures s.sheets[id].encounter.None?
  {
    hide ListOk, Combatants, SheetOf, StateIds;
    StateIdsMeaning(before);
    StateIdsMeaning(after);
    if s.sheets[id].encounter.Some? {
      var x := s.sheets[id].encounter.value;
      StateIdsMeaning(s.encounters[x].state);
      assert ParseUuid(id) == Some(id);
      assert Fights(s.encounters[x], id);
      assert id in StateIds(after) - StateIds(before);
    }
  }

  /** Every linked combatant of the new list may be written through. */
  lemma NewListWritable(env: Env, sheets: map<Id, Sheet>, cs: seq<Fields>, op: Op, adds: seq<Fields>, ns: seq<Fields>,
        caller: Id, known: Known)
    requires ListOk(cs) && Harmless(op.patches) && Parts(env, sheets, cs, op, adds, ns)
    requires AddsFit(env, sheets, caller, adds, known)
    ensures forall c | c in ns && SheetOf(c).Some? :: SheetOf(c).value in LinkedIds(env, cs) + LinkedIds(env, adds)
  {
    hide ListOk, SheetOf, Actor, NormalizedAdd, Merged, Kept, AddFits, CharacterRef, Harmless;
    var kept := Kept(cs, op.remove);
    forall c | c in ns && SheetOf(c).Some? ensures SheetOf(c).value in LinkedIds(env, cs) + LinkedIds(env, adds) {
      var i :| 0 <= i < |ns| && ns[i] == c;
      if i < |kept| {
        MergedHarmless(op.patches, kept[i]);
        SameNames(c, kept[i]);
        KeptMember(cs, op.remove, i);
        var k :| 0 <= k < |cs| && cs[k] == kept[i];
        ListLink(env, cs, k);
      } else {
        var j := i - |kept|;
        assert ns[|kept| + j] == NormalizedAdd(env, sheets, adds[j]);
        AddedIs(env, sheets, caller, adds[j], known);
        AddRefMeaning(env, adds[j]);
      }
    }
  }

  lemma ListLink(env: Env, cs: seq<Fields>, k: nat)
    requires ListOk(cs) && k < |cs|
    ensures SheetOf(cs[k]).Some? ==> CharacterRef(env, cs[k]) == Linked(SheetOf(cs[k]).value)
  {
    hide CharacterRef;
    LinkMeaning(env, cs[k]);
  }

  lemma AddRefMeaning(env: Env, a: Fields)
    ensures AddRef(env, a).Some? ==> CharacterRef(env, a) == Linked(AddRef(env, a).value)
  {
  }

  // ---- Mirrors ----

  /** A combatant that stays is mirrored by its written sheet. */
  lemma SurvivorMirrored(env: Env, sheets: map<Id, Sheet>, e: Id, op: Op, c: Fields)
    requires PatchesOk(env, op.patches) && Tracked(sheets, e, c) && SheetOf(c).Some?
    requires forall i | 0 <= i < |op.add| :: Actor(op.add[i]) != Actor(c)
    ensures var sheet := sheets[SheetOf(c).value];
            var after := c + Merged(op.patches, Actor(c));
            Mirrored(after, SyncSheet(env, sheet, after, Touched(op, Actor(c))).runtime)
  {
    hide SheetOf, Actor, Touched, Merged, SyncSheet, PatchesOk, Mirrored;
    TouchedSurvivor(op, Actor(c), "hp");
    TouchedSurvivor(op, Actor(c), "temp");
    MergedNumbers(env, op.patches, Actor(c), "hp");
    MergedNumbers(env, op.patches, Actor(c), "temp");
    PatchMirrors(env, sheets[SheetOf(c).value], c, Merged(op.patches, Actor(c)), Touched(op, Actor(c)));
  }

  /** A newcomer is mirrored by its written sheet. */
  lemma NewcomerMirrored(env: Env, sheets: map<Id, Sheet>, linked: Sheet, op: Op, j: nat, a: Fields, id: Id)
    requires j < |op.add| && AddRef(env, a) == Some(id) && id in sheets && op.add[j] == NormalizedAdd(env, sheets, a)
    requires linked.runtime == sheets[id].runtime
    requires forall i | 0 <= i < |op.patches| :: op.patches[i].actorId != Actor(op.add[j])
    ensures Mirrored(op.add[j], SyncSheet(env, linked, op.add[j], Touched(op, Actor(op.add[j]))).runtime)
  {
    hide CharacterRef, Touched, SyncSheet, Mirrored, SheetCombatant, TempHp;
    AddRefMeaning(env, a);
    SheetCombatantNames(a, id, sheets[id]);
    SheetCombatantValues(a, id, sheets[id]);
    TouchedNewcomer(op, j, Actor(op.add[j]));
    JoinMirrors(env, linked, op.add[j], Touched(op, Actor(op.add[j])));
  }

  // ---- The new list ----

  lemma SheetsOfEncounter(env: Env, s: Tabletop, e: Id)
    requires Inv(env, s) && e in s.encounters
    ensures ListOk(Combatants(s.encounters[e].state)) && Tracks(s.sheets, e, Combatants(s.encounters[e].state))
    ensures SheetsKnown(s.sheets, Combatants(s.encounters[e].state))
  {
    hide ListOk, SheetOf, Mirrored, EventsOk, LinksOk, RowsOk, Combatants;
    assert EncounterOk(env, s.sheets, e, s.encounters[e]);
    var cs := Combatants(s.encounters[e].state);
    forall c | c in cs && SheetOf(c).Some? ensures SheetOf(c).value in s.sheets {
      var i :| 0 <= i < |cs| && cs[i] == c;
      assert Tracked(s.sheets, e, cs[i]);
    }
  }

  /** What the rest of the proof uses about the new list. */
  predicate NewList(env: Env, s: Tabletop, caller: Id, e: Id, r: ApplyRequest, a: Accepted) {
    && var cs, ns := Combatants(a.enc.state), Combatants(a.state);
    && ListOk(cs) && ListOk(ns) && Parts(env, s.sheets, cs, a.op, r.op.add, ns)
    && ArrayOfObjects(Field(a.state, "combatants"))
    && PatchesOk(env, a.op.patches) && Harmless(a.op.patches)
    && ActorAccess(env, s.sheets, cs, map[]).Ok?
    && var known := KnownBefore(ActorAccess(env, s.sheets, cs, map[]).value);
    && AddsFit(env, s.sheets, caller, r.op.add, known)
    && (forall p | p in a.op.patches :: p.actorId in known.actors)
    && (forall c | c in cs :: Actor(c) in known.actors)
    && (forall c | c in cs && SheetOf(c).Some? :: SheetOf(c).value in known.sheets)
  }

  lemma NewListIs(env: Env, s: Tabletop, caller: Id, e: Id, r: ApplyRequest, a: Accepted)
    requires Inv(env, s) && AcceptedAs(env, s, caller, e, r, a)
    ensures NewList(env, s, caller, e, r, a)
  {
    hide Inv, ListOk, Tracks, SheetOf, Actor, ActorAccess, CheckPolicy, ApplyOps, CombatantsAfter, Combatants, Parts,
         PatchesOk, AddsFit,
         Elsewhere, StateIds, LinkedIds, IsParticipant, KnownBefore, MayTouch, SheetsKnown, Harmless;
    var cs := Combatants(a.enc.state);
    SheetsOfEncounter(env, s, e);
    var actors := ActorAccess(env, s.sheets, cs, map[]).value;
    PolicyMeaning(env, a.enc, caller, actors, s.sheets, r.op);
    ListAfter(env, s.sheets, caller, cs, r.op);
    AppliedCombatants(env.show, a.enc.state, a.op);
    PatchesHarmless(env, r.op.patches);
    KnownOfList(env, s.sheets, cs);
    KnownActors(actors);
  }

  lemma KnownActors(actors: map<string, Access>)
    ensures KnownBefore(actors).actors == actors.Keys
  {
  }

  // ---- The new sheets ----

  /** The sheets with their links updated. */
  function LinkedSheets(s: Tabletop, e: Id, a: Accepted): (r: map<Id, Sheet>)
    ensures r.Keys == s.sheets.Keys
  {
    var entering, leaving := StateIds(a.state) - StateIds(a.enc.state), StateIds(a.enc.state) - StateIds(a.state);
    UnlinkSheets(LinkSheets(s.sheets, entering, e), leaving, e)
  }

  /** The sheets with their links updated and combat values written through. */
  function WrittenSheets(env: Env, s: Tabletop, e: Id, a: Accepted): (r: map<Id, Sheet>)
    ensures r.Keys == s.sheets.Keys
  {
    SyncAll(env, LinkedSheets(s, e, a), a.loaded, Combatants(a.state), a.op)
  }

  /** The link of every sheet before values are written through. */
  lemma LinkStep(env: Env, s: Tabletop, caller: Id, e: Id, r: ApplyRequest, a: Accepted, id: Id)
    requires Inv(env, s) && AcceptedAs(env, s, caller, e, r, a) && NewList(env, s, caller, e, r, a) && id in s.sheets
    ensures var cs, ns := Combatants(a.enc.state), Combatants(a.state);
            var before, after := s.sheets[id], LinkedSheets(s, e, a)[id];
            && after == before.(encounter := after.encounter)
            && (if In(ns, id) then after.encounter == Some(e) && (In(cs, id) || before.encounter.None?)
                else if In(cs, id) then after.encounter == None
                else after == before)
            && (In(cs, id) ==> before.encounter == Some(e))
  {
    hide ListOk, SheetOf, Actor, ActorAccess, CheckPolicy, ApplyOps, Combatants, Parts, PatchesOk, AddsFit, Mirrored,
         EventsOk,
         Elsewhere, StateIds, LinkedIds, IsParticipant, KnownBefore, Harmless, UnlinkSheets, LinkSheets;
    var cs, ns := Combatants(a.enc.state), Combatants(a.state);
    LinkedMeaning(s, e, a.enc.state, a.state, id);
    SheetsOfEncounter(env, s, e);
    if In(cs, id) {
      var c :| c in cs && SheetOf(c) == Some(id);
      var i :| 0 <= i < |cs| && cs[i] == c;
      assert Tracked(s.sheets, e, cs[i]);
    } else if In(ns, id) {
      forall x | x in s.encounters ensures ListOk(Combatants(s.encounters[x].state)) {
        SheetsOfEncounter(env, s, x);
      }
      EnteringIsFree(s, e, a.enc.state, a.state, id);
    }
  }

  /** All combatants of the new list may be written through to their sheets. */
  lemma AllWritable(env: Env, s: Tabletop, caller: Id, e: Id, r: ApplyRequest, a: Accepted)
    requires Inv(env, s) && AcceptedAs(env, s, caller, e, r, a) && NewList(env, s, caller, e, r, a)
    ensures Writable(LinkedSheets(s, e, a), a.loaded, Combatants(a.state))
  {
    hide ListOk, SheetOf, Actor, ActorAccess, CheckPolicy, ApplyOps, Combatants, Parts, PatchesOk, AddsFit,
         EncounterOk, LinksOk,
         Elsewhere, StateIds, LinkedIds, IsParticipant, KnownBefore, Harmless, LinkedSheets, In;
    var cs, ns := Combatants(a.enc.state), Combatants(a.state);
    NewListWritable(env, s.sheets, cs, a.op, r.op.add, ns, caller, KnownBefore(ActorAccess(env, s.sheets, cs, map[]).value));
    forall c | c in ns && SheetOf(c).Some?
      ensures SheetOf(c).value in a.loaded && SheetOf(c).value in LinkedSheets(s, e, a)
              && LinkedSheets(s, e, a)[SheetOf(c).value].owner != NIL_ID
    {
      LinkStep(env, s, caller, e, r, a, SheetOf(c).value);
    }
  }

  /** One combatant of the new list is mirrored by its written sheet. */
  lemma NewCombatantMirrored(env: Env, s: Tabletop, caller: Id, e: Id, r: ApplyRequest, a: Accepted, i: nat)
    requires Inv(env, s) && AcceptedAs(env, s, caller, e, r, a) && NewList(env, s, caller, e, r, a)
    requires i < |Combatants(a.state)| && SheetOf(Combatants(a.state)[i]).Some?
    requires SheetOf(Combatants(a.state)[i]).value in s.sheets
    ensures var c := Combatants(a.state)[i];
            Mirrored(c, SyncSheet(env, LinkedSheets(s, e, a)[SheetOf(c).value], c, Touched(a.op, Actor(c))).runtime)
  {
    hide ListOk, SheetOf, Actor, ActorAccess, CheckPolicy, ApplyOps, Combatants, PatchesOk, AddsFit, EncounterOk,
         LinksOk, Inv,
         Elsewhere, StateIds, LinkedIds, IsParticipant, KnownBefore, Harmless, LinkedSheets, In, SyncSheet, Touched, Mirrored,
         Kept, Merged, NormalizedAdd;
    var cs, ns := Combatants(a.enc.state), Combatants(a.state);
    var kept := Kept(cs, a.op.remove);
    var known := KnownBefore(ActorAccess(env, s.sheets, cs, map[]).value);
    var id := SheetOf(ns[i]).value;
    LinkStep(env, s, caller, e, r, a, id);
    AddsOk(env, s.sheets, caller, r.op.add, known);
    if i < |kept| {
      var c := kept[i];
      MergedHarmless(a.op.patches, c);
      SameNames(ns[i], c);
      KeptMember(cs, a.op.remove, i);
      SheetsOfEncounter(env, s, e);
      var k :| 0 <= k < |cs| && cs[k] == c;
      assert Tracked(s.sheets, e, cs[k]);
      SurvivorMirrored(env, s.sheets, e, a.op, c);
      SyncRuntime(env, s.sheets[id], LinkedSheets(s, e, a)[id], ns[i], Touched(a.op, Actor(c)));
    } else {
      var j := i - |kept|;
      assert ns[|kept| + j] == NormalizedAdd(env, s.sheets, r.op.add[j]);
      assert a.op.add[j] == ns[i];
      assert forall k | 0 <= k < |a.op.patches| :: a.op.patches[k] in a.op.patches;
      NewcomerMirrored(env, s.sheets, LinkedSheets(s, e, a)[id], a.op, j, r.op.add[j], id);
    }
  }

  /** The written runtime does not depend on the link. */
  lemma SyncRuntime(env: Env, a: Sheet, b: Sheet, c: Fields, touched: set<string>)
    requires a.runtime == b.runtime
    ensures SyncSheet(env, a, c, touched).runtime == SyncSheet(env, b, c, touched).runtime
  {
    hide Overlay;
  }

  /** All sheets after the operation: the new list is tracked, everything else is as it was. */
  lemma SheetsStep(env: Env, s: Tabletop, caller: Id, e: Id, r: ApplyRequest, a: Accepted)
    requires Inv(env, s) && AcceptedAs(env, s, caller, e, r, a) && NewList(env, s, caller, e, r, a)
    ensures Tracks(WrittenSheets(env, s, e, a), e, Combatants(a.state))
    ensures forall id | id in s.sheets ::
              SheetStep(Combatants(a.enc.state), Combatants(a.state), e, id, s.sheets[id], WrittenSheets(env, s, e, a)[id])
  {
    hide ListOk, SheetOf, Actor, ActorAccess, CheckPolicy, ApplyOps, Combatants, PatchesOk, AddsFit, EncounterOk,
         LinksOk, Inv, Parts,
         Elsewhere, StateIds, LinkedIds, IsParticipant, KnownBefore, Harmless, LinkedSheets, SyncSheet, Touched,
         Mirrored, SyncAll;
    var cs, ns := Combatants(a.enc.state), Combatants(a.state);
    var linked, sheets := LinkedSheets(s, e, a), WrittenSheets(env, s, e, a);
    AllWritable(env, s, caller, e, r, a);
    SyncAllMeaning(env, linked, a.loaded, ns, a.op);
    forall i | 0 <= i < |ns| ensures Tracked(sheets, e, ns[i]) {
      if SheetOf(ns[i]).Some? {
        var id := SheetOf(ns[i]).value;
        assert ns[i] in ns && In(ns, id);
        LinkStep(env, s, caller, e, r, a, id);
        SyncIsStep(env, linked[id], ns[i], Touched(a.op, Actor(ns[i])));
        NewCombatantMirrored(env, s, caller, e, r, a, i);
      }
    }
    forall id | id in s.sheets ensures SheetStep(cs, ns, e, id, s.sheets[id], sheets[id]) {
      LinkStep(env, s, caller, e, r, a, id);
      if In(ns, id) {
        var c :| c in ns && SheetOf(c) == Some(id);
        var i :| 0 <= i < |ns| && ns[i] == c;
        SyncIsStep(env, linked[id], ns[i], Touched(a.op, Actor(ns[i])));
      }
    }
  }
}
