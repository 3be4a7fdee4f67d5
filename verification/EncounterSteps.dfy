/** What an accepted encounter operation does to the list of combatants. */
module EncounterSteps {
  import opened JsonValues
  import opened Outcomes
  import opened TextRules
  import opened WorldState
  import opened Identifiers
  import opened EncounterState
  import opened TabletopTables
  import opened EncounterRules
  import opened CombatantLists

  // ---- What the policy guarantees ----

  predicate PatchesOk(env: Env, ps: seq<Patch>) {
    forall i | 0 <= i < |ps| :: forall k | k in ps[i].values :: PatchValueOk(env, k, ps[i].values[k])
  }

  lemma {:induction false} PatchesMeaning(env: Env, enc: Encounter, caller: Id, actors: map<string, Access>,
        ps: seq<Patch>)
    requires CheckPatches(env, enc, caller, actors, ps).Pass?
    ensures PatchesOk(env, ps)
    ensures forall p | p in ps :: p.actorId in actors && MayTouch(enc, caller, actors[p.actorId])
  {
    hide PatchValueOk, MayTouch;
    if ps != [] {
      PatchesMeaning(env, enc, caller, actors, ps[1..]);
      assert forall i | 0 < i < |ps| :: ps[i] == ps[1..][i - 1];
    }
  }

  lemma PatchesHarmless(env: Env, ps: seq<Patch>)
    requires PatchesOk(env, ps)
    ensures Harmless(ps)
  {
    forall i | 0 <= i < |ps| ensures "actorId" !in ps[i].values && "characterId" !in ps[i].values {
      NotPatchable(env, ps[i].values);
    }
  }

  lemma NotPatchable(env: Env, values: Fields)
    requires forall k | k in values :: PatchValueOk(env, k, values[k])
    ensures "actorId" !in values && "characterId" !in values
  {
  }

  /** Whatever is written into hit points is a bounded integer. */
  lemma MergedNumbers(env: Env, ps: seq<Patch>, actorId: string, k: string)
    requires PatchesOk(env, ps) && (k == "hp" || k == "temp")
    ensures k in Merged(ps, actorId) ==> Merged(ps, actorId)[k].Num?
  {
    MergedKeys(ps, actorId, k);
    if k in Merged(ps, actorId) {
      var i :| 0 <= i < |ps| && ps[i].actorId == actorId && k in ps[i].values && Merged(ps, actorId)[k] == ps[i].values[k];
      assert PatchValueOk(env, k, ps[i].values[k]);
    }
  }

  function AddRef(env: Env, a: Fields): Option<Id> {
    match CharacterRef(env, a) case Linked(id) => Some(id) case _ => None
  }

  predicate AddFits(env: Env, sheets: map<Id, Sheet>, caller: Id, a: Fields, known: Known) {
    && !Blank(TrimmedActorId(a)) && Trimmed(TrimmedActorId(a)) && TrimmedActorId(a) !in known.actors
    && !CharacterRef(env, a).Malformed?
    && (AddRef(env, a).Some? ==>
          AddRef(env, a).value in sheets && sheets[AddRef(env, a).value].owner == caller && AddRef(env, a).value !in known.sheets
          && AddRef(env, a).value != NIL_ID)
  }

  /** The additions bring new actors and new sheets only, each once. */
  predicate AddsFit(env: Env, sheets: map<Id, Sheet>, caller: Id, adds: seq<Fields>, known: Known) {
    && (forall i | 0 <= i < |adds| :: AddFits(env, sheets, caller, adds[i], known))
    && (forall i, j | 0 <= i < j < |adds| ::
          && TrimmedActorId(adds[i]) != TrimmedActorId(adds[j])
          && (AddRef(env, adds[i]).Some? ==> AddRef(env, adds[i]) != AddRef(env, adds[j])))
  }

  lemma CheckAddMeaning(env: Env, enc: Encounter, caller: Id, sheets: map<Id, Sheet>, a: Fields, known: Known)
    requires CheckAdd(env, enc, caller, sheets, a, known).Ok?
    ensures AddFits(env, sheets, caller, a, known)
    ensures CheckAdd(env, enc, caller, sheets, a, known).value ==
            Known(known.actors + {TrimmedActorId(a)},
                  if AddRef(env, a).Some? then known.sheets + {AddRef(env, a).value} else known.sheets)
  {
    hide ParseUuid;
    TrimSpaceIdempotent(Field(a, "actorId").text);
  }

  lemma FitsSmaller(env: Env, sheets: map<Id, Sheet>, caller: Id, a: Fields, known: Known, more: Known)
    requires AddFits(env, sheets, caller, a, more) && known.actors <= more.actors && known.sheets <= more.sheets
    ensures AddFits(env, sheets, caller, a, known)
  {
    hide CharacterRef, Blank, Trimmed, TrimmedActorId;
  }

  lemma FitsNew(env: Env, sheets: map<Id, Sheet>, caller: Id, a: Fields, more: Known)
    requires AddFits(env, sheets, caller, a, more)
    ensures TrimmedActorId(a) !in more.actors
    ensures AddRef(env, a).Some? ==> AddRef(env, a).value !in more.sheets
  {
    hide CharacterRef, Blank, Trimmed, TrimmedActorId;
  }

  lemma {:induction false} AddsMeaning(env: Env, enc: Encounter, caller: Id, sheets: map<Id, Sheet>,
        adds: seq<Fields>, known: Known)
    requires CheckAdds(env, enc, caller, sheets, adds, known).Ok?
    ensures AddsFit(env, sheets, caller, adds, known)
    decreases |adds|
  {
    hide CheckAdd, AddFits, CharacterRef, AddRef, TrimmedActorId;
    if adds != [] {
      CheckAddMeaning(env, enc, caller, sheets, adds[0], known);
      var more := CheckAdd(env, enc, caller, sheets, adds[0], known).value;
      AddsMeaning(env, enc, caller, sheets, adds[1..], more);
      forall i | 0 <= i < |adds| ensures AddFits(env, sheets, caller, adds[i], known) {
        if i > 0 {
          assert adds[i] == adds[1..][i - 1];
          FitsSmaller(env, sheets, caller, adds[i], known, more);
        }
      }
      forall i, j | 0 <= i < j < |adds|
        ensures TrimmedActorId(adds[i]) != TrimmedActorId(adds[j])
        ensures AddRef(env, adds[i]).Some? ==> AddRef(env, adds[i]) != AddRef(env, adds[j])
      {
        assert adds[j] == adds[1..][j - 1];
        if i > 0 {
          assert adds[i] == adds[1..][i - 1];
        } else {
          FitsNew(env, sheets, caller, adds[j], more);
        }
      }
    }
  }

  // ---- Access to a well-formed list ----

  predicate SheetsKnown(sheets: map<Id, Sheet>, cs: seq<Fields>) {
    forall c | c in cs && SheetOf(c).Some? :: SheetOf(c).value in sheets
  }

  /** The table holds what it started with and each combatant with its sheet and the sheet's owner. */
  ghost predicate Listed(sheets: map<Id, Sheet>, cs: seq<Fields>, start: map<string, Access>, actors: map<string, Access>)
    requires SheetsKnown(sheets, cs)
  {
    && (forall a :: a in actors <==> a in start || exists c :: c in cs && Actor(c) == a)
    && (forall a | a in start :: actors[a] == start[a])
    && (forall c | c in cs :: actors[Actor(c)].sheet == SheetOf(c))
    && (forall c | c in cs && SheetOf(c).Some? :: actors[Actor(c)].controller == sheets[SheetOf(c).value].owner)
  }

  /** Reading the actors of a well-formed list succeeds and lists exactly them. */
  lemma {:induction false} AccessMeaning(env: Env, sheets: map<Id, Sheet>, cs: seq<Fields>, start: map<string, Access>)
    requires ListOk(cs) && SheetsKnown(sheets, cs)
    requires forall c | c in cs :: Actor(c) !in start
    ensures ActorAccess(env, sheets, cs, start).Ok?
    ensures Listed(sheets, cs, start, ActorAccess(env, sheets, cs, start).value)
    decreases |cs|
  {
    hide ActorAccess, Actor, SheetOf, ListOk, SheetsKnown, Listed;
    FirstAccess(env, sheets, cs, start);
    if cs != [] {
      var c := cs[0];
      TailOk(cs);
      TailKnown(sheets, cs);
      var access := Access(SheetOf(c), if SheetOf(c).Some? then sheets[SheetOf(c).value].owner else NIL_ID);
      var more := start[Actor(c) := access];
      forall d | d in cs[1..] ensures Actor(d) !in more {
        HeadDiffers(cs, d);
      }
      AccessMeaning(env, sheets, cs[1..], more);
      ListedMore(sheets, cs, start, access, ActorAccess(env, sheets, cs, start).value);
    } else {
      NoneListed(sheets, start);
    }
  }

  lemma NoneListed(sheets: map<Id, Sheet>, start: map<string, Access>)
    ensures SheetsKnown(sheets, []) && Listed(sheets, [], start, start)
  {
  }

  lemma ListedMore(sheets: map<Id, Sheet>, cs: seq<Fields>, start: map<string, Access>, access: Access, actors: map<string, Access>)
    requires cs != [] && SheetsKnown(sheets, cs) && Actor(cs[0]) !in start && access.sheet == SheetOf(cs[0])
    requires SheetOf(cs[0]).Some? && SheetOf(cs[0]).value in sheets ==> access.controller == sheets[SheetOf(cs[0]).value].owner
    requires SheetsKnown(sheets, cs[1..]) && Listed(sheets, cs[1..], start[Actor(cs[0]) := access], actors)
    ensures Listed(sheets, cs, start, actors)
  {
    hide SheetOf, Actor;
    var c, more := cs[0], start[Actor(cs[0]) := access];
    assert forall d :: d in cs <==> d == c || d in cs[1..];
    assert forall a | a in start :: a in more && more[a] == start[a];
    assert Actor(c) in more && actors[Actor(c)] == access;
  }

  lemma TailKnown(sheets: map<Id, Sheet>, cs: seq<Fields>)
    requires cs != [] && SheetsKnown(sheets, cs)
    ensures SheetsKnown(sheets, cs[1..])
    ensures SheetOf(cs[0]).Some? ==> SheetOf(cs[0]).value in sheets
  {
    hide SheetOf;
    assert cs[0] in cs;
  }

  lemma FirstAccess(env: Env, sheets: map<Id, Sheet>, cs: seq<Fields>, start: map<string, Access>)
    requires ListOk(cs) && SheetsKnown(sheets, cs) && forall c | c in cs :: Actor(c) !in start
    ensures cs == [] ==> ActorAccess(env, sheets, cs, start) == Ok(start)
    ensures cs != [] ==>
              var c := cs[0];
              && (SheetOf(c).Some? ==> SheetOf(c).value in sheets)
              && var access := Access(SheetOf(c), if SheetOf(c).Some? then sheets[SheetOf(c).value].owner else NIL_ID);
                 ActorAccess(env, sheets, cs, start) == ActorAccess(env, sheets, cs[1..], start[Actor(c) := access])
  {
    hide CharacterRef, SheetOf, LinkReadable;
    if cs != [] {
      var c := cs[0];
      assert Named(c) && LinkReadable(c) && c in cs;
      LinkMeaning(env, c);
    }
  }

  // ---- Additions ----

  lemma SheetCombatantNames(a: Fields, id: Id, sheet: Sheet)
    ensures var c := SheetCombatant(a, id, sheet);
            Field(c, "actorId") == Str(TrimmedActorId(a)) && Field(c, "characterId") == Str(id)
  {
    hide TempHp, TrimmedActorId, IsCanonical;
  }

  lemma SheetCombatantValues(a: Fields, id: Id, sheet: Sheet)
    ensures var c := SheetCombatant(a, id, sheet);
            && Field(c, "hp") == Num(sheet.runtime.currentHp)
            && "temp" in c && c["temp"] == TempHp(sheet.runtime.turnState)
  {
    hide TempHp, TrimmedActorId, IsCanonical;
  }

  lemma CreatureNames(a: Fields)
    ensures var c := CreatureCombatant(a);
            Field(c, "actorId") == Str(TrimmedActorId(a)) && Field(c, "characterId") == Null
  {
    hide TrimmedActorId;
    assert "characterId" !in CREATURE_KEYS;
  }

  /** An added combatant has the requested name and, if it is a sheet, its authoritative reference. */
  lemma AddedIs(env: Env, sheets: map<Id, Sheet>, caller: Id, a: Fields, known: Known)
    requires AddFits(env, sheets, caller, a, known)
    ensures var c := NormalizedAdd(env, sheets, a);
            && Named(c) && LinkReadable(c) && Actor(c) == TrimmedActorId(a) && SheetOf(c) == AddRef(env, a)
  {
    hide CharacterRef, TrimmedActorId, Blank, Trimmed, SheetCombatant, CreatureCombatant, IsCanonical;
    CreatureNames(a);
    if AddRef(env, a).Some? {
      var id := AddRef(env, a).value;
      SheetCombatantNames(a, id, sheets[id]);
    }
  }

  /** The additions form a well-formed list of their own. */
  lemma AddsOk(env: Env, sheets: map<Id, Sheet>, caller: Id, adds: seq<Fields>, known: Known)
    requires AddsFit(env, sheets, caller, adds, known)
    ensures ListOk(NormalizedAdds(env, sheets, adds))
    ensures forall i | 0 <= i < |adds| ::
              var c := NormalizedAdds(env, sheets, adds)[i];
              && Actor(c) == TrimmedActorId(adds[i]) && Actor(c) !in known.actors
              && SheetOf(c) == AddRef(env, adds[i])
              && (SheetOf(c).Some? ==> SheetOf(c).value in sheets && SheetOf(c).value !in known.sheets)
  {
    hide AddFits, Named, LinkReadable, Actor, SheetOf, AddRef, TrimmedActorId, NormalizedAdd;
    forall i | 0 <= i < |adds|
      ensures var c := NormalizedAdds(env, sheets, adds)[i];
              && Named(c) && LinkReadable(c)
              && Actor(c) == TrimmedActorId(adds[i]) && Actor(c) !in known.actors
              && SheetOf(c) == AddRef(env, adds[i])
              && (SheetOf(c).Some? ==> SheetOf(c).value in sheets && SheetOf(c).value !in known.sheets)
    {
      AddedIs(env, sheets, caller, adds[i], known);
      FitsNew(env, sheets, caller, adds[i], known);
      FitsSheet(env, sheets, caller, adds[i], known);
    }
  }

  lemma FitsSheet(env: Env, sheets: map<Id, Sheet>, caller: Id, a: Fields, known: Known)
    requires AddFits(env, sheets, caller, a, known)
    ensures AddRef(env, a).Some? ==> AddRef(env, a).value in sheets
  {
    hide CharacterRef, Blank, Trimmed, TrimmedActorId;
  }

  lemma AppendOk(a: seq<Fields>, b: seq<Fields>)
    requires ListOk(a) && ListOk(b)
    requires forall i, j | 0 <= i < |a| && 0 <= j < |b| ::
               Actor(a[i]) != Actor(b[j]) && (SheetOf(a[i]).Some? ==> SheetOf(a[i]) != SheetOf(b[j]))
    ensures ListOk(a + b)
  {
    hide Named, LinkReadable, SheetOf, Actor;
    var all := a + b;
    forall i | 0 <= i < |all| ensures all[i] == if i < |a| then a[i] else b[i - |a|] {
    }
  }

  // ---- The list after the operation ----

  /** The parts of the new list: patched survivors, then additions. */
  predicate Parts(env: Env, sheets: map<Id, Sheet>, cs: seq<Fields>, op: Op, adds: seq<Fields>, after: seq<Fields>) {
    var kept := Kept(cs, op.remove);
    && |after| == |kept| + |adds|
    && (forall i | 0 <= i < |kept| :: after[i] == kept[i] + Merged(op.patches, Actor(kept[i])))
    && (forall i | 0 <= i < |adds| :: after[|kept| + i] == NormalizedAdd(env, sheets, adds[i]))
  }

  lemma KnownOfList(env: Env, sheets: map<Id, Sheet>, cs: seq<Fields>)
    requires ListOk(cs) && SheetsKnown(sheets, cs)
    ensures ActorAccess(env, sheets, cs, map[]).Ok?
    ensures var known := KnownBefore(ActorAccess(env, sheets, cs, map[]).value);
            && (forall c | c in cs :: Actor(c) in known.actors)
            && (forall c | c in cs && SheetOf(c).Some? :: SheetOf(c).value in known.sheets)
            && (forall a | a in known.actors :: exists c :: c in cs && Actor(c) == a)
  {
    hide ListOk, ActorAccess, SheetOf, Actor;
    AccessMeaning(env, sheets, cs, map[]);
  }

  /** An accepted operation leaves a well-formed list, made of the expected parts. */
  lemma ListAfter(env: Env, sheets: map<Id, Sheet>, caller: Id, cs: seq<Fields>, r: Op)
    requires ListOk(cs) && SheetsKnown(sheets, cs) && PatchesOk(env, r.patches)
    requires ActorAccess(env, sheets, cs, map[]).Ok?
    requires AddsFit(env, sheets, caller, r.add, KnownBefore(ActorAccess(env, sheets, cs, map[]).value))
    ensures var op := r.(add := NormalizedAdds(env, sheets, r.add));
            var after := CombatantsAfter(env.show, cs, op);
            && ListOk(after) && Parts(env, sheets, cs, op, r.add, after)
  {
    hide ListOk, ActorAccess, SheetOf, Actor, Kept, Merged, CombatantsAfter, AddsFit, NormalizedAdd, PatchesOk,
         SheetsKnown, KnownBefore;
    var op := r.(add := NormalizedAdds(env, sheets, r.add));
    var known := KnownBefore(ActorAccess(env, sheets, cs, map[]).value);
    PatchesHarmless(env, r.patches);
    AfterMeaning(env.show, cs, op);
    KnownOfList(env, sheets, cs);
    AddsOk(env, sheets, caller, r.add, known);
    var kept := Kept(cs, op.remove);
    var after := CombatantsAfter(env.show, cs, op);
    var front := after[..|kept|];
    forall i | 0 <= i < |kept|
      ensures Field(front[i], "actorId") == Field(kept[i], "actorId")
      ensures Field(front[i], "characterId") == Field(kept[i], "characterId")
    {
      MergedHarmless(r.patches, kept[i]);
    }
    PatchedOk(kept, front);
    forall i, j | 0 <= i < |front| && 0 <= j < |op.add|
      ensures Actor(front[i]) != Actor(op.add[j]) && (SheetOf(front[i]).Some? ==> SheetOf(front[i]) != SheetOf(op.add[j]))
    {
      SameNames(front[i], kept[i]);
      KeptMember(cs, op.remove, i);
    }
    AppendOk(front, op.add);
    assert after == front + op.add;
  }

  lemma SameNames(a: Fields, b: Fields)
    requires Field(a, "actorId") == Field(b, "actorId") && Field(a, "characterId") == Field(b, "characterId")
    ensures Actor(a) == Actor(b) && SheetOf(a) == SheetOf(b)
  {
  }

  lemma KeptMember(cs: seq<Fields>, ids: seq<string>, i: nat)
    requires i < |Kept(cs, ids)|
    ensures Kept(cs, ids)[i] in cs
  {
    assert Kept(cs, ids)[i] in Kept(cs, ids);
  }
}
