/** A smallest table: an encounter and a sheet, and the sheet joins the encounter. */
module TabletopExample {
  import opened JsonValues
  import opened Outcomes
  import opened TextRules
  import opened WorldState
  import opened Identifiers
  import opened EncounterState
  import opened TabletopTables
  import opened EncounterRules
  import opened SheetRules
  import opened CombatantLists
  import opened EncounterSteps
  import opened TabletopInvariant
  import opened EncounterKeeps
  import opened TabletopRuns
  import opened TabletopTheorems

  const NO_PROFILE := Profile("hero", "", 12, Null)
  const NO_METADATA := Metadata("dnd5e-2024", "2024", "free", 1)

  function JoinFields(id: Id): Fields {
    map["actorId" := Str("a"), "characterId" := Str(id)]
  }

  function JoinRequest(id: Id): ApplyRequest {
    ApplyRequest(Some(0), Op([], [JoinFields(id)], [], None, None, [], []))
  }

  function OneEncounter(owner: Id): Encounter {
    Encounter("e", owner, [owner], EMPTY_STATE, 0, [])
  }

  /** One encounter and one sheet of the same owner. */
  function SmallTable(owner: Id, e: Id, id: Id, runtime: Runtime): Tabletop {
    Tabletop(map[e := OneEncounter(owner)], map[id := Sheet(owner, NO_METADATA, NO_PROFILE, runtime, 0, None)], [], map[], {e, id})
  }

  lemma SmallTableReached(env: Env, owner: Id, e: Id, id: Id, runtime: Runtime)
    requires owner != NIL_ID && id != NIL_ID && e != id && !env.legacy(owner)
    ensures Run(env, EMPTY, [Create(owner, e, "e"), NewSheet(owner, id, NO_METADATA, NO_PROFILE, runtime)])
         == SmallTable(owner, e, id, runtime)
  {
    hide IsCanonical;
    var create, sheet := Create(owner, e, "e"), NewSheet(owner, id, NO_METADATA, NO_PROFILE, runtime);
    var s := Step(env, EMPTY, create);
    assert [create, sheet][1..] == [sheet] && [sheet][1..] == [];
    assert s == Tabletop(map[e := OneEncounter(owner)], map[], [], map[], {e});
    assert Step(env, s, sheet) == SmallTable(owner, e, id, runtime);
    assert Run(env, Step(env, s, sheet), []) == Step(env, s, sheet);
    assert Run(env, s, [sheet]) == Run(env, Step(env, s, sheet), []);
  }

  lemma JoinRef(env: Env, id: Id)
    requires id != NIL_ID
    ensures CharacterRef(env, JoinFields(id)) == Linked(id)
    ensures Field(JoinFields(id), "actorId") == Str("a") && TrimSpace("a") == "a" && !Blank("a") && Utf8Length("a") == 1
  {
    hide IsCanonical, ParseUuid;
    CanonicalIsTrimmed(id);
    assert "a"[1..] == "";
    assert Utf8Length("a") == 1 + Utf8Length("");
  }

  lemma OwnerParticipates(owner: Id)
    requires owner != NIL_ID
    ensures IsParticipant(OneEncounter(owner), owner)
  {
    hide ParseUuid;
  }

  lemma JoinPolicy(env: Env, owner: Id, e: Id, id: Id, runtime: Runtime)
    requires owner != NIL_ID && id != NIL_ID
    ensures CheckPolicy(env, OneEncounter(owner), owner, map[], SmallTable(owner, e, id, runtime).sheets, JoinRequest(id).op).Pass?
  {
    hide CharacterRef, IsParticipant, IsCanonical, JoinFields, TrimSpace, Blank, Utf8Length;
    OwnerParticipates(owner);
    JoinRef(env, id);
    var s := SmallTable(owner, e, id, runtime);
    var known := KnownBefore(map[]);
    assert known.actors == {} && known.sheets == {};
    var next := CheckAdd(env, OneEncounter(owner), owner, s.sheets, JoinFields(id), known);
    assert next.Ok?;
    var adds := JoinRequest(id).op.add;
    assert adds[0] == JoinFields(id) && adds[1..] == [];
    assert CheckAdds(env, OneEncounter(owner), owner, s.sheets, [], next.value) == Ok(next.value);
    assert CheckAdds(env, OneEncounter(owner), owner, s.sheets, adds, known) == next;
  }

  lemma EmptyCombatants()
    ensures Combatants(EMPTY_STATE) == [] && CombatantsReadable(EMPTY_STATE) && StateIds(EMPTY_STATE) == {}
  {
  }

  /** The state after the join names the sheet and nobody else. */
  lemma JoinedState(env: Env, owner: Id, e: Id, id: Id, runtime: Runtime)
    requires owner != NIL_ID && id != NIL_ID
    ensures var s := SmallTable(owner, e, id, runtime);
            var op := JoinRequest(id).op.(add := NormalizedAdds(env, s.sheets, JoinRequest(id).op.add));
            var state := ApplyOps(env.show, EMPTY_STATE, op);
            && Combatants(state) == [NormalizedAdd(env, s.sheets, JoinFields(id))]
            && SheetOf(Combatants(state)[0]) == Some(id)
            && StateIds(state) == {id}
  {
    hide CharacterRef, IsCanonical, JoinFields, NormalizedAdd, ApplyOps, Combatants, SheetCombatant, ParseUuid;
    var s := SmallTable(owner, e, id, runtime);
    var op := JoinRequest(id).op.(add := NormalizedAdds(env, s.sheets, JoinRequest(id).op.add));
    EmptyCombatants();
    AppliedCombatants(env.show, EMPTY_STATE, op);
    assert CombatantsAfter(env.show, [], op) == op.add;
    JoinedNames(env, s, id);
    CanonicalIsTrimmed(id);
  }

  lemma JoinedNames(env: Env, s: Tabletop, id: Id)
    requires id in s.sheets && id != NIL_ID
    ensures Field(NormalizedAdd(env, s.sheets, JoinFields(id)), "characterId") == Str(id)
  {
    hide IsCanonical, CharacterRef, JoinFields, SheetCombatant;
    JoinRef(env, id);
    SheetCombatantNames(JoinFields(id), id, s.sheets[id]);
  }

  lemma JoinAccepted(env: Env, owner: Id, e: Id, id: Id, runtime: Runtime)
    requires owner != NIL_ID && id != NIL_ID
    ensures ApplyEncounter(env, SmallTable(owner, e, id, runtime), owner, e, JoinRequest(id)).Ok?
  {
    hide CheckPolicy, CharacterRef, IsParticipant, IsCanonical, ApplyOps, Combatants, CombatantsReadable, StateIds,
         JoinFields, NormalizedAdds,
         SyncAll, LinkSheets, UnlinkSheets, OpPayload, ParseUuid;
    EmptyCombatants();
    OwnerParticipates(owner);
    JoinRef(env, id);
    JoinPolicy(env, owner, e, id, runtime);
    JoinedState(env, owner, e, id, runtime);
    ParsesItself(id);
    LinkedOne(env, id);
    assert JournalRows(env, [], LinkedIds(env, []) + LinkedIds(env, [JoinFields(id)])) == Ok([]);
  }

  lemma LinkedOne(env: Env, id: Id)
    requires id != NIL_ID
    ensures LinkedIds(env, []) + LinkedIds(env, [JoinFields(id)]) == {id}
  {
    hide CharacterRef, IsCanonical, JoinFields;
    JoinRef(env, id);
    var adds := [JoinFields(id)];
    assert CharacterRef(env, adds[0]) == Linked(id);
    assert id in LinkedIds(env, adds);
  }

  lemma ParsesItself(id: Id)
    ensures ParseUuid(id) == Some(id)
  {
    hide IsCanonical;
  }

  /** A sheet can join an encounter, whatever its runtime, and then each points to the other. */
  lemma SheetJoins(env: Env, owner: Id, e: Id, id: Id, runtime: Runtime)
    requires owner != NIL_ID && id != NIL_ID && e != id && !env.legacy(owner)
    ensures var actions := [Create(owner, e, "e"), NewSheet(owner, id, NO_METADATA, NO_PROFILE, runtime)];
            var s := Run(env, EMPTY, actions);
            var applied := ApplyEncounter(env, s, owner, e, JoinRequest(id));
            && applied.Ok? && id in applied.value.0.sheets && applied.value.0.sheets[id].encounter == Some(e)
            && e in applied.value.0.encounters && applied.value.0.encounters[e].seqNo == 1
            && Fights(applied.value.0.encounters[e], id)
  {
    hide Run, ApplyEncounter, Accept, IsCanonical, Combatants, ApplyOps, NormalizedAdds, NormalizedAdd, StateIds,
         JoinFields, SheetOf, ListOk,
         EventsOk, CheckPolicy, ActorAccess, LinkedIds, Elsewhere, WrittenSheets, OpPayload, IsParticipant, RowsOk,
         LinksOk, Mirrored;
    var actions := [Create(owner, e, "e"), NewSheet(owner, id, NO_METADATA, NO_PROFILE, runtime)];
    var s := Run(env, EMPTY, actions);
    SmallTableReached(env, owner, e, id, runtime);
    EmptyHolds(env);
    RunKeeps(env, EMPTY, actions);
    JoinAccepted(env, owner, e, id, runtime);
    ApplyMeaning(env, s, owner, e, JoinRequest(id));
    ApplyKeeps(env, s, owner, e, JoinRequest(id));
    var after := ApplyEncounter(env, s, owner, e, JoinRequest(id)).value.0;
    JoinedState(env, owner, e, id, runtime);
    assert EncounterOk(env, after.sheets, e, after.encounters[e]);
    var cs := Combatants(after.encounters[e].state);
    assert Tracked(after.sheets, e, cs[0]) && cs[0] in cs;
  }

  // ---- A fraction is lost ----

  const HALF_RUNTIME := Runtime(7, 9, None, None, None, None, None, Some(map[TEMP_KEY := Frac(2.5)]), None)

  function HalfRun(owner: Id, e: Id, id: Id): seq<Action> {
    [Create(owner, e, "e"), NewSheet(owner, id, NO_METADATA, NO_PROFILE, HALF_RUNTIME), Apply(owner, e, JoinRequest(id))]
  }

  lemma RunThree(env: Env, s: Tabletop, a: Action, b: Action, c: Action)
    ensures Run(env, s, [a, b, c]) == Step(env, Run(env, s, [a, b]), c)
  {
    hide Step, Run;
    assert [a, b, c][..3] == [a, b, c] && [a, b, c][..2] == [a, b];
    RunNext(env, s, [a, b, c], 2);
  }

  /** The joined combatant has the temporary hit points of the stored sheet, fraction and all. */
  lemma JoinedTemp(env: Env, owner: Id, e: Id, id: Id)
    requires owner != NIL_ID && id != NIL_ID
    ensures Field(NormalizedAdd(env, SmallTable(owner, e, id, HALF_RUNTIME).sheets, JoinFields(id)), "temp") == Frac(2.5)
  {
    hide CharacterRef, IsCanonical, JoinFields, SheetCombatant;
    JoinRef(env, id);
    var sheets := SmallTable(owner, e, id, HALF_RUNTIME).sheets;
    SheetCombatantValues(JoinFields(id), id, sheets[id]);
  }

  /**
   * Three accepted requests, a new encounter, a new sheet with two and a half
   * temporary hit points and its join, end with the half on the combatant and
   * lost on the sheet.
   */
  lemma FractionIsLost(env: Env, owner: Id, e: Id, id: Id)
    requires owner != NIL_ID && id != NIL_ID && e != id && !env.legacy(owner)
    ensures var s := Run(env, EMPTY, HalfRun(owner, e, id));
            && e in s.encounters && id in s.sheets && |Combatants(s.encounters[e].state)| == 1
            && var c := Combatants(s.encounters[e].state)[0];
            && SheetOf(c) == Some(id) && Field(c, "temp") == Frac(2.5)
            && Field(OrEmpty(s.sheets[id].runtime.turnState), TEMP_KEY) == Num(2)
            && !ExactStore(s)
  {
    hide Run, ApplyEncounter, Accept, IsCanonical, Combatants, ApplyOps, NormalizedAdds, NormalizedAdd, StateIds, JoinFields, SheetOf,
         OpPayload, WrittenSheets, IsParticipant, CheckPolicy, ActorAccess, LinkedIds, Elsewhere, ExactlyMirrored;
    var runtime := HALF_RUNTIME;
    var actions := [Create(owner, e, "e"), NewSheet(owner, id, NO_METADATA, NO_PROFILE, runtime)];
    var join := Apply(owner, e, JoinRequest(id));
    RunThree(env, EMPTY, actions[0], actions[1], join);
    var s := Run(env, EMPTY, actions);
    SmallTableReached(env, owner, e, id, runtime);
    SheetJoins(env, owner, e, id, runtime);
    ApplyMeaning(env, s, owner, e, JoinRequest(id));
    JoinedState(env, owner, e, id, runtime);
    JoinedTemp(env, owner, e, id);
    var after := Run(env, EMPTY, HalfRun(owner, e, id));
    assert after == ApplyEncounter(env, s, owner, e, JoinRequest(id)).value.0;
    var c := Combatants(after.encounters[e].state)[0];
    assert c in Combatants(after.encounters[e].state);
    MirrorHolds(env, HalfRun(owner, e, id), e, c);
    assert (2.5).Floor == 2;
  }
}
