/** What runs of the endpoints guarantee about sheets and encounters. */
module TabletopTheorems {
  import opened JsonValues
  import opened Outcomes
  import opened TextRules
  import opened WorldState
  import opened Identifiers
  import opened EncounterState
  import opened TabletopTables
  import opened EncounterRules
  import opened SheetRules
  import opened CommandRules
  import opened CombatantLists
  import opened EncounterSteps
  import opened TabletopInvariant
  import opened EncounterKeeps
  import opened TabletopRuns
  import CanonicalJson

  // ---- Links ----

  /** A sheet points to an encounter exactly when it is one of its combatants. */
  lemma LinkIff(env: Env, actions: seq<Action>, id: Id, e: Id)
    ensures var s := Run(env, EMPTY, actions);
            id in s.sheets && s.sheets[id].encounter == Some(e) <==> e in s.encounters && Fights(s.encounters[e], id)
  {
    hide Run, EventsOk, ListOk, Combatants, SheetOf, Mirrored;
    EmptyHolds(env);
    RunKeeps(env, EMPTY, actions);
    var s := Run(env, EMPTY, actions);
    if e in s.encounters && Fights(s.encounters[e], id) {
      assert EncounterOk(env, s.sheets, e, s.encounters[e]);
      var cs := Combatants(s.encounters[e].state);
      var c :| c in cs && SheetOf(c) == Some(id);
      var i :| 0 <= i < |cs| && cs[i] == c;
      assert Tracked(s.sheets, e, cs[i]);
    }
  }

  /** No sheet fights in two encounters, and no combatant refers to a deleted sheet. */
  lemma OneEncounterEach(env: Env, actions: seq<Action>, id: Id, e: Id, f: Id)
    requires var s := Run(env, EMPTY, actions);
             e in s.encounters && f in s.encounters && Fights(s.encounters[e], id) && Fights(s.encounters[f], id)
    ensures e == f && id in Run(env, EMPTY, actions).sheets
  {
    hide Run, Fights;
    LinkIff(env, actions, id, e);
    LinkIff(env, actions, id, f);
  }

  /** Within one encounter no actor and no sheet appears twice. */
  lemma CombatantsUnique(env: Env, actions: seq<Action>, e: Id, i: nat, j: nat)
    requires var s := Run(env, EMPTY, actions);
             e in s.encounters && i < j < |Combatants(s.encounters[e].state)|
    ensures var cs := Combatants(Run(env, EMPTY, actions).encounters[e].state);
            Actor(cs[i]) != Actor(cs[j]) && (SheetOf(cs[i]).Some? ==> SheetOf(cs[i]) != SheetOf(cs[j]))
  {
    hide Run, Combatants, SheetOf, EventsOk, Tracks;
    EmptyHolds(env);
    RunKeeps(env, EMPTY, actions);
    var s := Run(env, EMPTY, actions);
    assert EncounterOk(env, s.sheets, e, s.encounters[e]);
  }

  /** The checks on stored combatants never refuse a state that the store wrote itself. */
  lemma StoredStateAccepted(env: Env, s: Tabletop, e: Id)
    requires Inv(env, s) && e in s.encounters
    ensures var state := s.encounters[e].state;
            && CombatantsReadable(state) && !AnyMalformed(env, Combatants(state))
            && LinkedIds(env, Combatants(state)) <= s.sheets.Keys
            && ActorAccess(env, s.sheets, Combatants(state), map[]).Ok?
  {
    hide EventsOk, Combatants, SheetOf, ActorAccess, CharacterRef, Mirrored;
    assert EncounterOk(env, s.sheets, e, s.encounters[e]);
    var cs := Combatants(s.encounters[e].state);
    SheetsOfEncounter(env, s, e);
    KnownOfList(env, s.sheets, cs);
    forall i | 0 <= i < |cs| ensures CharacterRef(env, cs[i]) == if SheetOf(cs[i]).Some? then Linked(SheetOf(cs[i]).value) else Creature {
      LinkMeaning(env, cs[i]);
    }
    forall id | id in LinkedIds(env, cs) ensures id in s.sheets {
      var i :| 0 <= i < |cs| && CharacterRef(env, cs[i]) == Linked(id);
      assert cs[i] in cs;
    }
  }

  // ---- Event sourcing ----

  /** Every reachable state is the replay of its events, numbered one to `seqNo`. */
  lemma StateIsReplay(env: Env, actions: seq<Action>, e: Id)
    requires e in Run(env, EMPTY, actions).encounters
    ensures var enc := Run(env, EMPTY, actions).encounters[e];
            && Replay(env.show, enc.events) == enc.state
            && enc.seqNo == |enc.events| && forall k | 0 <= k < |enc.events| :: enc.events[k].seqNo == k + 1
  {
    hide Run, ListOk, Tracks, Replay;
    EmptyHolds(env);
    RunKeeps(env, EMPTY, actions);
    var s := Run(env, EMPTY, actions);
    assert EncounterOk(env, s.sheets, e, s.encounters[e]);
  }

  // ---- Hit points ----

  /** The combatant of a sheet holds the very values of the sheet. */
  predicate ExactlyMirrored(c: Fields, sheet: Sheet) {
    Field(c, "hp") == Num(sheet.runtime.currentHp)
    && Field(c, "temp") == Field(OrEmpty(sheet.runtime.turnState), TEMP_KEY)
  }

  /**
   * In every reachable store a combatant has its sheet's hit points, and its
   * temporary hit points up to their fraction; they are equal if and only if
   * the combatant's are integral.
   */
  lemma MirrorHolds(env: Env, actions: seq<Action>, e: Id, c: Fields)
    requires var s := Run(env, EMPTY, actions); e in s.encounters && c in Combatants(s.encounters[e].state)
    requires SheetOf(c).Some?
    ensures var s := Run(env, EMPTY, actions);
            var id := SheetOf(c).value;
            && id in s.sheets && s.sheets[id].encounter == Some(e)
            && Mirrored(c, s.sheets[id].runtime)
            && (ExactlyMirrored(c, s.sheets[id]) <==> Field(c, "temp").Num?)
  {
    hide Run, ListOk, Combatants, SheetOf, EventsOk;
    EmptyHolds(env);
    RunKeeps(env, EMPTY, actions);
    var s := Run(env, EMPTY, actions);
    assert EncounterOk(env, s.sheets, e, s.encounters[e]);
    var cs := Combatants(s.encounters[e].state);
    var i :| 0 <= i < |cs| && cs[i] == c;
    assert Tracked(s.sheets, e, cs[i]);
  }

  predicate AllIntegral(cs: seq<Fields>) {
    forall i | 0 <= i < |cs| && SheetOf(cs[i]).Some? :: Field(cs[i], "temp").Num?
  }

  /** The sheets that this operation adds have integral temporary hit points. */
  predicate AddsIntegral(env: Env, s: Tabletop, adds: seq<Fields>) {
    forall i | 0 <= i < |adds| && AddRef(env, adds[i]).Some? && AddRef(env, adds[i]).value in s.sheets ::
      TempHp(s.sheets[AddRef(env, adds[i]).value].runtime.turnState).Num?
  }

  lemma NewcomerTemp(env: Env, sheets: map<Id, Sheet>, caller: Id, a: Fields, known: Known)
    requires AddFits(env, sheets, caller, a, known) && AddRef(env, a).Some?
    ensures Field(NormalizedAdd(env, sheets, a), "temp") == TempHp(sheets[AddRef(env, a).value].runtime.turnState)
  {
    hide CharacterRef, TrimmedActorId, Blank, Trimmed, SheetCombatant, TempHp;
    AddRefMeaning(env, a);
    SheetCombatantValues(a, AddRef(env, a).value, sheets[AddRef(env, a).value]);
  }

  lemma SurvivorTemp(env: Env, ps: seq<Patch>, c: Fields)
    requires PatchesOk(env, ps) && Field(c, "temp").Num?
    ensures Field(c + Merged(ps, Actor(c)), "temp").Num?
  {
    hide PatchesOk;
    MergedNumbers(env, ps, Actor(c), "temp");
  }

  lemma SurvivorsIntegral(env: Env, cs: seq<Fields>, op: Op, ns: seq<Fields>, i: nat)
    requires PatchesOk(env, op.patches) && Harmless(op.patches) && AllIntegral(cs)
    requires i < |Kept(cs, op.remove)| && i < |ns| && ns[i] == Kept(cs, op.remove)[i] + Merged(op.patches, Actor(Kept(cs, op.remove)[i]))
    ensures SheetOf(ns[i]).Some? ==> Field(ns[i], "temp").Num?
  {
    hide PatchesOk, Harmless, SheetOf, Actor, Merged, Kept;
    var c := Kept(cs, op.remove)[i];
    MergedHarmless(op.patches, c);
    SameNames(ns[i], c);
    KeptMember(cs, op.remove, i);
    var k :| 0 <= k < |cs| && cs[k] == c;
    if SheetOf(ns[i]).Some? {
      SurvivorTemp(env, op.patches, c);
    }
  }

  lemma NewcomerIntegral(env: Env, sheets: map<Id, Sheet>, caller: Id, a: Fields, known: Known)
    requires AddFits(env, sheets, caller, a, known)
    ensures SheetOf(NormalizedAdd(env, sheets, a)) == AddRef(env, a)
    ensures AddRef(env, a).Some? ==>
              && AddRef(env, a).value in sheets
              && Field(NormalizedAdd(env, sheets, a), "temp") == TempHp(sheets[AddRef(env, a).value].runtime.turnState)
  {
    hide AddFits, NormalizedAdd, AddRef, SheetOf, TempHp;
    AddedIs(env, sheets, caller, a, known);
    FitsSheet(env, sheets, caller, a, known);
    if AddRef(env, a).Some? {
      NewcomerTemp(env, sheets, caller, a, known);
    }
  }

  lemma PartsIntegral(env: Env, s: Tabletop, caller: Id, cs: seq<Fields>, op: Op, adds: seq<Fields>, ns: seq<Fields>,
        known: Known)
    requires Parts(env, s.sheets, cs, op, adds, ns) && PatchesOk(env, op.patches) && Harmless(op.patches)
    requires AddsFit(env, s.sheets, caller, adds, known) && AllIntegral(cs)
    ensures AllIntegral(ns) <==> AddsIntegral(env, s, adds)
  {
    hide PatchesOk, Harmless, SheetOf, Actor, Merged, Kept, AddFits, AddRef, NormalizedAdd, TempHp;
    var kept := Kept(cs, op.remove);
    forall j | 0 <= j < |adds|
      ensures SheetOf(ns[|kept| + j]) == AddRef(env, adds[j])
      ensures AddRef(env, adds[j]).Some? ==>
                && AddRef(env, adds[j]).value in s.sheets
                && Field(ns[|kept| + j], "temp") == TempHp(s.sheets[AddRef(env, adds[j]).value].runtime.turnState)
    {
      NewcomerIntegral(env, s.sheets, caller, adds[j], known);
    }
    if AddsIntegral(env, s, adds) {
      forall i | 0 <= i < |ns| && SheetOf(ns[i]).Some? ensures Field(ns[i], "temp").Num? {
        if i < |kept| {
          SurvivorsIntegral(env, cs, op, ns, i);
        } else {
          var j := i - |kept|;
          assert SheetOf(ns[|kept| + j]) == AddRef(env, adds[j]);
        }
      }
    }
  }

  /**
   * The mirror of an encounter becomes inexact exactly through a joining sheet:
   * if all its combatants were integral, they stay so if and only if every
   * sheet that joins has integral temporary hit points.
   */
  lemma ExactIff(env: Env, s: Tabletop, caller: Id, e: Id, r: ApplyRequest)
    requires Inv(env, s) && ApplyEncounter(env, s, caller, e, r).Ok? && e in s.encounters
    requires AllIntegral(Combatants(s.encounters[e].state))
    ensures var after := ApplyEncounter(env, s, caller, e, r).value.0;
            e in after.encounters &&
            (AllIntegral(Combatants(after.encounters[e].state)) <==> AddsIntegral(env, s, r.op.add))
  {
    hide ApplyEncounter, Accept, WrittenSheets, ListOk, ActorAccess, CheckPolicy, StateIds, Elsewhere, ApplyOps,
         Combatants, Inv, Parts,
         PatchesOk, Harmless, KnownBefore, OpPayload, LinkedIds, AddsFit, AllIntegral, AddsIntegral;
    ApplyMeaning(env, s, caller, e, r);
    var a := Accept(env, s, caller, e, r).value;
    NewListIs(env, s, caller, e, r, a);
    var cs, ns := Combatants(a.enc.state), Combatants(a.state);
    PartsIntegral(env, s, caller, cs, a.op, r.op.add, ns, KnownBefore(ActorAccess(env, s.sheets, cs, map[]).value));
  }

  // ---- Exactness over runs ----

  /** An action touches the state of no encounter but its own. */
  lemma StateFrame(env: Env, s: Tabletop, a: Action, e: Id)
    requires e in Step(env, s, a).encounters && !((a.Apply? || a.Delete?) && a.id == e)
    requires s.encounters.Keys <= s.issued
    ensures if e in s.encounters then Step(env, s, a).encounters[e].state == s.encounters[e].state
            else Step(env, s, a).encounters[e].state == EMPTY_STATE
  {
    hide Accept, SyncAll, JournalRows, OpPayload, StateIds, Combatants, CombatantsReadable, AnyMalformed, LinkedIds, ActorAccess,
         IsParticipant, ControlsSheet, RuntimeUpdates, Overlay, DecodeCommand, Execute, LinkSheets, UnlinkSheets;
    if a.Command? && PostCommand(env, s, a.caller, a.raw).Ok? {
      CommandFrame(env, s, a.caller, a.raw);
    }
  }

  lemma CommandFrame(env: Env, s: Tabletop, caller: Id, raw: string)
    requires PostCommand(env, s, caller, raw).Ok?
    ensures PostCommand(env, s, caller, raw).value.0.encounters == s.encounters
  {
    hide Execute, CommandOk, DecodeCommand, AllAdvanced;
    var (r, requestHash) := DecodeCommand(env, raw).value;
    ExecuteMeaning(env, s, caller, r, requestHash);
  }

  /** Every combatant of a sheet holds the very values of the sheet. */
  predicate ExactStore(s: Tabletop) {
    forall e | e in s.encounters ::
      forall c | c in Combatants(s.encounters[e].state) && SheetOf(c).Some? ::
        SheetOf(c).value in s.sheets && ExactlyMirrored(c, s.sheets[SheetOf(c).value])
  }

  /** Every sheet that joins by this action has integral temporary hit points. */
  predicate JoinsIntegral(env: Env, s: Tabletop, a: Action) {
    a.Apply? && ApplyEncounter(env, s, a.caller, a.id, a.request).Ok? ==> AddsIntegral(env, s, a.request.op.add)
  }

  /** In a store in order, exactness is integrality of the combatants. */
  lemma ExactIsIntegral(env: Env, s: Tabletop)
    requires Inv(env, s)
    ensures ExactStore(s) <==> forall e | e in s.encounters :: AllIntegral(Combatants(s.encounters[e].state))
  {
    hide Combatants, SheetOf, ListOk, Inv;
    forall e | e in s.encounters
      ensures AllIntegral(Combatants(s.encounters[e].state)) <==>
              forall c | c in Combatants(s.encounters[e].state) && SheetOf(c).Some? ::
                SheetOf(c).value in s.sheets && ExactlyMirrored(c, s.sheets[SheetOf(c).value])
    {
      SheetsOfEncounter(env, s, e);
      var cs := Combatants(s.encounters[e].state);
      forall i | 0 <= i < |cs| && SheetOf(cs[i]).Some?
        ensures SheetOf(cs[i]).value in s.sheets
        ensures ExactlyMirrored(cs[i], s.sheets[SheetOf(cs[i]).value]) <==> Field(cs[i], "temp").Num?
      {
        assert Tracked(s.sheets, e, cs[i]);
      }
    }
  }

  lemma StepExact(env: Env, s: Tabletop, a: Action)
    requires Inv(env, s) && ExactStore(s)
    ensures ExactStore(Step(env, s, a)) <==> JoinsIntegral(env, s, a)
  {
    hide Inv, Step, Combatants, AllIntegral, AddsIntegral, ApplyEncounter, ExactStore;
    var after := Step(env, s, a);
    StepKeeps(env, s, a);
    ExactIsIntegral(env, s);
    ExactIsIntegral(env, after);
    IssuedEncounters(env, s);
    forall e | e in after.encounters && !((a.Apply? || a.Delete?) && a.id == e)
      ensures AllIntegral(Combatants(after.encounters[e].state))
    {
      StateFrame(env, s, a, e);
      EmptyIntegral();
    }
    if a.Apply? || a.Delete? {
      OwnExact(env, s, a);
    }
  }

  lemma IssuedEncounters(env: Env, s: Tabletop)
    requires Inv(env, s)
    ensures s.encounters.Keys <= s.issued
  {
  }

  lemma EmptyIntegral()
    ensures AllIntegral(Combatants(EMPTY_STATE))
  {
  }

  lemma OwnExact(env: Env, s: Tabletop, a: Action)
    requires Inv(env, s) && (a.Apply? || a.Delete?)
    requires forall e | e in s.encounters :: AllIntegral(Combatants(s.encounters[e].state))
    ensures var after := Step(env, s, a);
            JoinsIntegral(env, s, a) <==> (a.id in after.encounters ==> AllIntegral(Combatants(after.encounters[a.id].state)))
  {
    hide Inv, Combatants, AllIntegral, AddsIntegral, ApplyEncounter;
    if a.Apply? && ApplyEncounter(env, s, a.caller, a.id, a.request).Ok? {
      AppliedExists(env, s, a.caller, a.id, a.request);
      ExactIff(env, s, a.caller, a.id, a.request);
    }
  }

  lemma AppliedExists(env: Env, s: Tabletop, caller: Id, e: Id, r: ApplyRequest)
    requires ApplyEncounter(env, s, caller, e, r).Ok?
    ensures e in s.encounters
  {
    hide ApplyEncounter, Accept, WrittenSheets, OpPayload;
    ApplyMeaning(env, s, caller, e, r);
  }

  /** A run up to the next action is the run so far and one step. */
  lemma {:induction false} RunNext(env: Env, s: Tabletop, actions: seq<Action>, k: nat)
    requires k < |actions|
    ensures Run(env, s, actions[..k + 1]) == Step(env, Run(env, s, actions[..k]), actions[k])
    decreases k
  {
    hide Step;
    if k == 0 {
      assert actions[..1][1..] == [];
    } else {
      assert actions[..k + 1][1..] == actions[1..][..k] && actions[..k][1..] == actions[1..][..k - 1];
      RunNext(env, Step(env, s, actions[0]), actions[1..], k - 1);
    }
  }

  /**
   * Along every run from the empty store: the mirror is exact at every moment
   * if and only if every sheet that ever joins has integral temporary hit
   * points when it does.
   */
  lemma {:induction false} MirrorExactIff(env: Env, actions: seq<Action>)
    ensures (forall k | 0 <= k <= |actions| :: ExactStore(Run(env, EMPTY, actions[..k]))) <==>
            (forall k | 0 <= k < |actions| :: JoinsIntegral(env, Run(env, EMPTY, actions[..k]), actions[k]))
  {
    hide Run, Step, ExactStore, JoinsIntegral, Inv;
    forall k | 0 <= k <= |actions| ensures Inv(env, Run(env, EMPTY, actions[..k])) {
      EmptyHolds(env);
      RunKeeps(env, EMPTY, actions[..k]);
    }
    forall k | 0 <= k < |actions| ensures Run(env, EMPTY, actions[..k + 1]) == Step(env, Run(env, EMPTY, actions[..k]), actions[k]) {
      RunNext(env, EMPTY, actions, k);
    }
    if forall k | 0 <= k <= |actions| :: ExactStore(Run(env, EMPTY, actions[..k])) {
      forall k | 0 <= k < |actions| ensures JoinsIntegral(env, Run(env, EMPTY, actions[..k]), actions[k]) {
        StepExact(env, Run(env, EMPTY, actions[..k]), actions[k]);
        assert ExactStore(Run(env, EMPTY, actions[..k + 1]));
      }
    }
    if forall k | 0 <= k < |actions| :: JoinsIntegral(env, Run(env, EMPTY, actions[..k]), actions[k]) {
      var n := 0;
      assert Run(env, EMPTY, actions[..0]) == EMPTY by { RunNothing(env, EMPTY); assert actions[..0] == []; }
      assert ExactStore(EMPTY) by { EmptyExact(); }
      while n < |actions|
        invariant 0 <= n <= |actions|
        invariant forall k | 0 <= k <= n :: ExactStore(Run(env, EMPTY, actions[..k]))
      {
        StepExact(env, Run(env, EMPTY, actions[..n]), actions[n]);
        n := n + 1;
      }
    }
  }

  lemma RunNothing(env: Env, s: Tabletop)
    ensures Run(env, s, []) == s
  {
  }

  lemma EmptyExact()
    ensures ExactStore(EMPTY)
  {
  }

  // ---- Who may change a sheet through an encounter ----

  lemma UntouchedSheet(env: Env, sheet: Sheet, c: Fields, touched: set<string>)
    requires touched == {}
    ensures SyncSheet(env, sheet, c, touched) == sheet
  {
  }

  lemma TouchedByPatch(op: Op, actorId: string)
    requires Touched(op, actorId) != {}
    requires forall i | 0 <= i < |op.add| :: Actor(op.add[i]) != actorId
    ensures exists p :: p in op.patches && p.actorId == actorId
  {
    forall i | 0 <= i < |op.add| ensures Field(op.add[i], "actorId") != Str(actorId) {
      assert Actor(op.add[i]) != actorId;
    }
    var k :| k in Touched(op, actorId);
    var i :| 0 <= i < |op.patches| && op.patches[i].actorId == actorId && k in op.patches[i].values;
    assert op.patches[i] in op.patches;
  }

  /** The policy lets a patch through only from the master or the sheet's owner. */
  lemma PatchedByOwner(env: Env, s: Tabletop, caller: Id, e: Id, r: ApplyRequest, a: Accepted, c: Fields)
    requires Inv(env, s) && AcceptedAs(env, s, caller, e, r, a)
    requires c in Combatants(a.enc.state) && SheetOf(c).Some?
    requires exists p :: p in r.op.patches && p.actorId == Actor(c)
    ensures SheetOf(c).value in s.sheets
    ensures caller == a.enc.owner || caller == s.sheets[SheetOf(c).value].owner
  {
    hide Inv, ListOk, Tracks, SheetOf, Actor, ActorAccess, CheckPolicy, ApplyOps, Combatants, PatchesOk, AddsFit,
         Elsewhere, StateIds, LinkedIds, IsParticipant, KnownBefore;
    var cs := Combatants(a.enc.state);
    SheetsOfEncounter(env, s, e);
    AccessMeaning(env, s.sheets, cs, map[]);
    var actors := ActorAccess(env, s.sheets, cs, map[]).value;
    PolicyMeaning(env, a.enc, caller, actors, s.sheets, r.op);
    var p :| p in r.op.patches && p.actorId == Actor(c);
    assert MayTouch(a.enc, caller, actors[p.actorId]);
  }

  /** An encounter operation changes the runtime of a sheet only for its owner or for the master. */
  lemma ChangedByOwner(env: Env, s: Tabletop, caller: Id, e: Id, r: ApplyRequest, id: Id)
    requires Inv(env, s) && ApplyEncounter(env, s, caller, e, r).Ok? && id in s.sheets
    ensures var after := ApplyEncounter(env, s, caller, e, r).value.0;
            && e in s.encounters && id in after.sheets
            && (after.sheets[id].runtime != s.sheets[id].runtime ==> caller == s.sheets[id].owner || caller == s.encounters[e].owner)
  {
    hide ApplyEncounter, Accept, ListOk, ActorAccess, CheckPolicy, StateIds, Elsewhere, ApplyOps, Combatants, Inv,
         SheetOf, Actor, NormalizedAdd,
         PatchesOk, Harmless, KnownBefore, OpPayload, LinkedIds, AddFits, LinkedSheets, SyncSheet, Touched, Kept,
         Merged, SyncAll, Writable, NewList, Tracks, WrittenSheets;
    ApplyMeaning(env, s, caller, e, r);
    var a := Accept(env, s, caller, e, r).value;
    NewListIs(env, s, caller, e, r, a);
    SheetsStep(env, s, caller, e, r, a);
    var cs, ns := Combatants(a.enc.state), Combatants(a.state);
    var sheets := WrittenSheets(env, s, e, a);
    assert SheetStep(cs, ns, e, id, s.sheets[id], sheets[id]);
    if sheets[id].runtime != s.sheets[id].runtime {
      var c :| c in ns && SheetOf(c) == Some(id);
      var i :| 0 <= i < |ns| && ns[i] == c;
      WrittenFor(env, s, caller, e, r, a, i);
      ChangerOf(env, s, caller, e, r, a, i);
    }
  }

  /** The written sheet of a combatant. */
  lemma WrittenFor(env: Env, s: Tabletop, caller: Id, e: Id, r: ApplyRequest, a: Accepted, i: nat)
    requires Inv(env, s) && AcceptedAs(env, s, caller, e, r, a) && NewList(env, s, caller, e, r, a)
    requires i < |Combatants(a.state)| && SheetOf(Combatants(a.state)[i]).Some?
    requires SheetOf(Combatants(a.state)[i]).value in s.sheets
    ensures var c := Combatants(a.state)[i];
            var id := SheetOf(c).value;
            && LinkedSheets(s, e, a)[id].runtime == s.sheets[id].runtime
            && WrittenSheets(env, s, e, a)[id] == SyncSheet(env, LinkedSheets(s, e, a)[id], c, Touched(a.op, Actor(c)))
  {
    hide ListOk, SheetOf, Actor, ActorAccess, CheckPolicy, ApplyOps, Combatants, PatchesOk, AddsFit, EncounterOk,
         LinksOk, Inv, Parts, In,
         Elsewhere, StateIds, LinkedIds, IsParticipant, KnownBefore, Harmless, LinkedSheets, SyncSheet, Touched,
         SyncAll, Writable;
    var ns := Combatants(a.state);
    AllWritable(env, s, caller, e, r, a);
    SyncAllMeaning(env, LinkedSheets(s, e, a), a.loaded, ns, a.op);
    LinkStep(env, s, caller, e, r, a, SheetOf(ns[i]).value);
  }

  lemma ChangerOf(env: Env, s: Tabletop, caller: Id, e: Id, r: ApplyRequest, a: Accepted, i: nat)
    requires Inv(env, s) && AcceptedAs(env, s, caller, e, r, a) && NewList(env, s, caller, e, r, a)
    requires i < |Combatants(a.state)| && SheetOf(Combatants(a.state)[i]).Some?
    requires var c := Combatants(a.state)[i];
             && SheetOf(c).value in s.sheets
             && LinkedSheets(s, e, a)[SheetOf(c).value].runtime == s.sheets[SheetOf(c).value].runtime
             && SyncSheet(env, LinkedSheets(s, e, a)[SheetOf(c).value], c, Touched(a.op, Actor(c))).runtime
                != s.sheets[SheetOf(c).value].runtime
    ensures caller == s.sheets[SheetOf(Combatants(a.state)[i]).value].owner || caller == a.enc.owner
  {
    hide ListOk, SheetOf, Actor, ActorAccess, CheckPolicy, ApplyOps, Combatants, PatchesOk, Inv, AddFits, NormalizedAdd,
         Elsewhere, StateIds, LinkedIds, IsParticipant, KnownBefore, Harmless, LinkedSheets, SyncSheet, Touched, Kept,
         Merged;
    var cs, ns := Combatants(a.enc.state), Combatants(a.state);
    var kept := Kept(cs, a.op.remove);
    var known := KnownBefore(ActorAccess(env, s.sheets, cs, map[]).value);
    AddsOk(env, s.sheets, caller, r.op.add, known);
    if i < |kept| {
      MergedHarmless(a.op.patches, kept[i]);
      SameNames(ns[i], kept[i]);
      KeptMember(cs, a.op.remove, i);
      if Touched(a.op, Actor(ns[i])) == {} {
        UntouchedSheet(env, LinkedSheets(s, e, a)[SheetOf(ns[i]).value], ns[i], {});
      } else {
        TouchedByPatch(a.op, Actor(ns[i]));
        PatchedByOwner(env, s, caller, e, r, a, kept[i]);
      }
    } else {
      var j := i - |kept|;
      assert ns[|kept| + j] == NormalizedAdd(env, s.sheets, r.op.add[j]);
      FitsOwner(env, s.sheets, caller, r.op.add[j], known);
    }
  }

  lemma FitsOwner(env: Env, sheets: map<Id, Sheet>, caller: Id, a: Fields, known: Known)
    requires AddFits(env, sheets, caller, a, known)
    ensures AddRef(env, a).Some? ==> AddRef(env, a).value in sheets && sheets[AddRef(env, a).value].owner == caller
  {
    hide CharacterRef, Blank, Trimmed, TrimmedActorId;
  }
}
