/** A smallest session: its genesis is in order and a first command commits on it. */
module LedgerExample {
  import opened JsonValues
  import opened Outcomes
  import opened TextRules
  import opened WorldState
  import opened LedgerTables
  import opened LedgerRules
  import opened LedgerChain
  import opened LedgerActors
  import opened LedgerDecisions
  import opened LedgerRuns
  import opened LedgerAcceptance
  import opened LedgerTheorems
  import CanonicalJson
  import CanonicalRoundTrip
  import CT = CanonicalText

  function Zeros(n: nat): (s: string)
    ensures |s| == n && forall i | 0 <= i < n :: s[i] == '0'
  {
    seq(n, i => '0')
  }

  /** Has the shape of a hash. */
  function Hash(): string {
    "sha256:" + Zeros(64)
  }

  const USER: Uuid := "u"
  const ACTOR: Uuid := "a"
  const HERO: Json := Obj(map["id" := Str("h"), "controllerId" := Str(USER), "kind" := Str("playerCharacter")])

  function SmallIdentity(): Identity {
    Identity("s", "r", Hash(), "v")
  }

  /** A world with one hero, after the given commands. */
  function WorldAfter(ids: seq<Json>): Json {
    Obj(map[
      "actors" := Obj(map["h" := HERO]), "revision" := Num(|ids|), "logicalClock" := Num(0), "id" := Str("w"),
      "scene" := Obj(map["mode" := Str(EXPLORATION)]), "processedCommandIds" := Arr(ids), "pendingResolution" := Null])
  }

  function FirstRequest(): Request {
    Request("c", "x", "r", Hash(), ACTOR, [], 0, 0, Hash(), WORLD_SCHEMA_VERSION, "v", Hash(), Some(WorldAfter([Str("x")])),
            [ActorBinding(ACTOR, "h")], None, None)
  }

  /** Every request body denotes the first command, and the hash is constant. */
  function SmallEnv(): Env {
    Env(text => Hash(), body => Some(FirstRequest()), snapshot => true)
  }

  function GenesisTables(): Tables
    requires Exact(WorldAfter([])) && Exact(HERO)
  {
    var world, bytes := WorldAfter([]), CT.Text(WorldAfter([]));
    Tables(
      SessionRow(SmallIdentity(), EXPLORATION, AUTHORITY_LOCAL, STATUS_ACTIVE, world, bytes, WORLD_SCHEMA_VERSION, 0, 0, Hash()),
      map[USER := MemberRow(Player, false)],
      map[ACTOR := ActorRow(None, Some(USER), Some(USER), KIND_PLAYER, true, HERO, Hash(), WORLD_SCHEMA_VERSION, 0)],
      map[], [], [SnapshotRow(0, 0, SmallIdentity(), WORLD_SCHEMA_VERSION, world, bytes, Hash(), None)], [])
  }

  lemma HeroFields()
    ensures Exact(HERO) && Field(HERO.fields, "id") == Str("h") && Field(HERO.fields, "controllerId") == Str(USER)
    ensures Field(HERO.fields, "kind") == Str("playerCharacter") && Field(HERO.fields, "runtime") == Null
  {
  }

  lemma WorldFields(ids: seq<Json>)
    ensures var f := WorldAfter(ids).fields;
            && Field(f, "actors") == Obj(map["h" := HERO]) && Field(f, "revision") == Num(|ids|)
            && Field(f, "logicalClock") == Num(0) && Field(f, "id") == Str("w")
  {
  }

  lemma WorldFieldsMore(ids: seq<Json>)
    ensures var f := WorldAfter(ids).fields;
            && Field(f, "scene") == Obj(map["mode" := Str(EXPLORATION)])
            && Field(f, "processedCommandIds") == Arr(ids)
            && "pendingResolution" in f && f["pendingResolution"] == Null && Field(f, "ruleset") == Null
  {
  }

  lemma WorldExact(ids: seq<Json>)
    requires forall i | 0 <= i < |ids| :: Exact(ids[i])
    requires |ids| <= 1
    ensures Exact(WorldAfter(ids))
  {
    HeroFields();
    var f := WorldAfter(ids).fields;
    var actors, scene := Obj(map["h" := HERO]), Obj(map["mode" := Str(EXPLORATION)]);
    assert Exact(actors) && Exact(scene) && Exact(Arr(ids));
    forall k | k in f ensures Exact(f[k]) {
      if f[k].Num? {
        assert f[k] == Num(|ids|) || f[k] == Num(0);
      } else if f[k].Obj? {
        assert f[k] == actors || f[k] == scene;
      } else if f[k].Arr? {
        assert f[k] == Arr(ids);
      }
    }
  }

  lemma SmallIds(s: string)
    requires |s| == 1 && 'a' <= s[0] <= 'z'
    ensures StableId(s) && !Blank(s) && Trimmed(s) && Utf8Length(s) == 1
  {
    assert s[1..] == "";
    assert Utf8Length(s) == 1 + Utf8Length(s[1..]);
  }

  /** The small worlds are read as expected. */
  lemma WorldInspected(ids: seq<Json>, texts: seq<string>)
    requires ids == seq(|texts|, i requires 0 <= i < |texts| => Str(texts[i]))
    requires |texts| <= 1 && forall t | t in texts :: StableId(t)
    ensures InspectWorld(WorldAfter(ids)) ==
            Ok(WorldView(WorldAfter(ids).fields, map["h" := HERO], Null, |ids|, 0, EXPLORATION, "w", texts))
  {
    hide Blank, StableId;
    HeroFields();
    WorldFields(ids);
    WorldFieldsMore(ids);
    SmallIds("w");
    assert forall i | 0 <= i < |texts| :: texts[i] in texts;
    assert ReadIds(ids) == Some(texts) by {
      assert forall i | 0 <= i < |ids| :: ids[i].Str? && StableId(ids[i].text);
      assert seq(|ids|, i requires 0 <= i < |ids| => ids[i].text) == texts;
    }
    assert HpShapeOk(HERO);
  }

  lemma SmallSealed(v: Json)
    requires Exact(v)
    ensures Sealed(SmallEnv(), v, CT.Text(v), Hash())
  {
    hide CT.Text, Exact;
  }

  lemma FirstSnapshot(world: Json, w: WorldView)
    requires Exact(world) && InspectWorld(world) == Ok(w) && w.revision == 0
    ensures SnapshotAt(SmallEnv(), SmallIdentity(), 0, 0,
                       SnapshotRow(0, 0, SmallIdentity(), WORLD_SCHEMA_VERSION, world, CT.Text(world), Hash(), None))
  {
    hide InspectWorld, CT.Text, Exact, Sealed, SmallEnv, Hash, SmallIdentity;
    SmallSealed(world);
  }

  lemma NoDecisions(env: Env)
    ensures DecisionKeys([]) && PendingLedger(env, [], Null)
  {
  }

  /** The genesis of the small session is in order. */
  lemma SmallGenesis()
    ensures Exact(WorldAfter([])) && Exact(HERO)
    ensures Genesis(SmallEnv(), GenesisTables())
  {
    hide WorldAfter, InspectWorld, CT.Text, Exact, SmallEnv, Hash, SmallIdentity, SnapshotAt, DecisionKeys,
         PendingLedger;
    HeroFields();
    WorldExact([]);
    WorldInspected([], []);
    FirstSnapshot(WorldAfter([]), InspectWorld(WorldAfter([])).value);
    NoDecisions(SmallEnv());
  }

  // ---- The first command ----

  const RAW := "{}"

  lemma RawDecodes()
    ensures CanonicalJson.Decode(RAW) == Ok(Obj(map[])) && CT.Text(Obj(map[])) == RAW && Exact(Obj(map[]))
  {
    assert CT.Text(Obj(map[])) == "{" + CT.MembersText(Obj(map[]), CT.SortedKeys({}), 0);
    CanonicalRoundTrip.RoundTrip(Obj(map[]));
  }

  lemma HashShape()
    ensures IsSha256(Hash())
  {
  }

  lemma EnvelopePasses()
    ensures CheckEnvelope(FirstRequest()).Pass?
  {
    hide IsSha256, Utf8Length, TrimSpace, WorldAfter, Hash;
    HashShape();
    SmallIds("x");
    SmallIds("v");
    SmallIds("h");
  }

  lemma RawIsSmall()
    ensures Utf8Length(RAW) <= MAX_BODY_BYTES
  {
    assert RAW[1..] == "}" && "}"[1..] == "";
    assert Utf8Length("}") == 1 + Utf8Length("");
    assert Utf8Length(RAW) == 1 + Utf8Length("}");
  }

  function FirstPrepared(): Prepared
    requires Exact(WorldAfter([Str("x")]))
  {
    var world := WorldAfter([Str("x")]);
    Prepared(FirstRequest(), Obj(map[]), Hash(), world, CT.Text(world), Obj(map[]),
             WorldView(world.fields, map["h" := HERO], Null, 1, 0, EXPLORATION, "w", ["x"]))
  }

  lemma FirstIsPrepared()
    ensures Exact(WorldAfter([Str("x")])) && Prepare(SmallEnv(), RAW) == Ok(FirstPrepared())
  {
    hide WorldAfter, InspectWorld, CT.Text, CanonicalJson.Decode, Utf8Length, CheckEnvelope, StableId, Hash;
    RawDecodes();
    RawIsSmall();
    EnvelopePasses();
    SmallIds("x");
    WorldExact([Str("x")]);
    WorldInspected([Str("x")], ["x"]);
  }

  // ---- It commits ----

  function HeroRow(): ActorRow {
    ActorRow(None, Some(USER), Some(USER), KIND_PLAYER, true, HERO, Hash(), WORLD_SCHEMA_VERSION, 0)
  }

  lemma SmallActors()
    requires Exact(WorldAfter([])) && Exact(HERO)
    ensures ActiveActors(GenesisTables()) == map[ACTOR := HeroRow()]
    ensures GenesisTables().members == map[USER := MemberRow(Player, false)]
  {
    hide WorldAfter, Hash, CT.Text, Exact;
    assert KIND_PLAYER != KIND_WORLD_OBJECT;
  }

  lemma HeroBound()
    requires Exact(HERO)
    ensures ActorsBound(SmallEnv(), map[ACTOR := HeroRow()], map["h" := HERO])
  {
    hide Hash, CT.Text, Exact, Blank;
    HeroFields();
    SmallIds("h");
    assert |map[ACTOR := HeroRow()]| == 1 && |map["h" := HERO]| == 1;
  }

  function SmallContext(): ProjectionContext {
    ProjectionContext(SmallEnv(), FirstRequest(), map["h" := HERO], map["h" := HERO], map[ACTOR := HeroRow()],
                      map[USER := MemberRow(Player, false)], USER)
  }

  lemma HeroProjects()
    requires Exact(HERO)
    ensures PrepareProjections(SmallContext()).Ok?
  {
    hide Hash, CT.Text, Exact, WorldAfter;
    HeroFields();
    var c := SmallContext();
    assert |c.rows| == 1 && |c.newActors| == 1;
    assert ProjectActor(c, ActorBinding(ACTOR, "h")).Ok?;
    assert c.request.actorBindings[1..] == [];
    assert ProjectActors(c, []).Ok?;
  }

  lemma HeroControlled(t: Tables)
    requires ActiveActors(t) == map[ACTOR := HeroRow()] && t.members == map[USER := MemberRow(Player, false)]
    ensures CheckControl(t, USER, FirstRequest()).Pass?
  {
    hide ActiveActors, Hash, WorldAfter;
  }

  lemma FirstSucceeds(base: WorldView)
    requires Exact(WorldAfter([])) && Exact(WorldAfter([Str("x")])) && Exact(HERO)
    requires InspectWorld(WorldAfter([])) == Ok(base)
    ensures CheckSuccession(SmallEnv(), GenesisTables().session, base, FirstPrepared()).Pass?
    ensures base.pending == Null && base.actors == map["h" := HERO]
  {
    hide WorldAfter, InspectWorld, CT.Text, Hash, Exact;
    WorldInspected([], []);
    WorldFieldsMore([]);
    WorldFieldsMore([Str("x")]);
  }

  lemma NothingPlanned(env: Env, t: Tables, user: Uuid, p: Prepared)
    requires user in t.members && t.decisions == [] && p.world.pending == Null && p.request.decision == None
    ensures PlanDecision(env, t, user, p, Null) == Ok(DecisionPlan(None, None))
    ensures forall eventSeq :: ApplyDecision(env, t.decisions, p, DecisionPlan(None, None), eventSeq) == Ok(([], None))
  {
  }

  lemma FirstAdmitted()
    requires Exact(WorldAfter([])) && Exact(WorldAfter([Str("x")])) && Exact(HERO)
    requires Genesis(SmallEnv(), GenesisTables())
    ensures Admit(SmallEnv(), GenesisTables(), USER, FirstPrepared()).Ok?
    ensures Admit(SmallEnv(), GenesisTables(), USER, FirstPrepared()).value.Fresh?
    ensures Admit(SmallEnv(), GenesisTables(), USER, FirstPrepared()).value.plan == DecisionPlan(None, None)
  {
    hide WorldAfter, InspectWorld, CT.Text, Hash, Exact, SmallEnv, HeroRow, ActiveActors, ActorsBound, CheckControl,
         CheckSuccession, Genesis,
         PrepareProjections, PlanDecision, VerifyStored, HeadVerified, Chain, PendingLedger, DecisionKeys;
    var t := GenesisTables();
    GenesisHolds(SmallEnv(), t);
    HeadAccepted(SmallEnv(), t);
    WorldInspected([], []);
    SmallActors();
    HeroControlled(t);
    HeroBound();
    FirstSucceeds(InspectWorld(WorldAfter([])).value);
    HeroProjects();
    NothingPlanned(SmallEnv(), t, USER, FirstPrepared());
  }

  lemma SmallTables()
    requires Exact(WorldAfter([])) && Exact(HERO)
    ensures var t := GenesisTables();
            && t.commands == map[] && t.events == [] && t.decisions == [] && |t.snapshots| == 1
            && t.snapshots[0].seqNo == t.session.snapshotSeq == 0
  {
    hide WorldAfter, Hash, CT.Text, Exact;
  }

  /** A session can be in order, and a transition can commit on it. */
  lemma FirstCommandCommits(now: string)
    ensures Exact(WorldAfter([])) && Exact(HERO) && Genesis(SmallEnv(), GenesisTables())
    ensures var applied := Apply(SmallEnv(), GenesisTables(), USER, now, RAW);
            && applied.Ok? && |applied.value.0.events| == 1 && "c" in applied.value.0.commands
  {
    hide WorldAfter, InspectWorld, CT.Text, Hash, Exact, Genesis, GenesisTables, Prepare, Admit, Commit, Chain,
         PendingLedger, DecisionKeys,
         EventBody, Admitted, WellPrepared, Committing, SmallEnv, VerifyStored, CheckSuccession, LoadReceipt, MaxSeq;
    SmallGenesis();
    FirstIsPrepared();
    FirstAdmitted();
    var env, t, p := SmallEnv(), GenesisTables(), FirstPrepared();
    SmallTables();
    GenesisHolds(env, t);
    var Fresh(base, updates, plan) := Admit(env, t, USER, p).value;
    AdmitMeaning(env, t, USER, p, base, updates, plan);
    PreparedIsWell(env, RAW);
    AdmittedSuccession(env, t, USER, p, base, updates, plan);
    NewEventExact(env, t, now, p, base);
    FirstWrites(env, t, now, p, updates);
    TransitionKeeps(env, t, USER, now, p);
    var (after, response) := Transition(env, t, USER, now, p).value;
    CommittedOne(env, t, USER, p, after, response);
  }

  /** The first command, sent again by its caller, who is by then an observer, is forbidden. */
  lemma FirstRetryForbidden(now: string, later: string)
    ensures Exact(WorldAfter([])) && Exact(HERO)
    ensures var applied := Apply(SmallEnv(), GenesisTables(), USER, now, RAW);
            && applied.Ok?
            && var t2 := Run(SmallEnv(), applied.value.0, [Demotion(USER)]);
            USER in t2.members && Apply(SmallEnv(), t2, USER, later, RAW) == Err(Forbidden)
  {
    hide WorldAfter, Exact, Genesis, GenesisTables, SmallEnv, Apply, Inv, Run;
    FirstCommandCommits(now);
    GenesisHolds(SmallEnv(), GenesisTables());
    DemotedRetryForbidden(SmallEnv(), GenesisTables(), USER, now, RAW, later);
  }

  lemma FirstWrites(env: Env, t: Tables, now: string, p: Prepared, updates: seq<Projection>)
    requires env == SmallEnv() && t.commands == map[] && t.events == [] && t.decisions == []
    requires |t.snapshots| == 1 && t.snapshots[0].seqNo == t.session.snapshotSeq == 0
    requires p.world.pending == Null && Exact(p.body) && Exact(EventBody(t.session, p, MaxSeq(t.events) + 1, now))
    ensures Commit(env, t, USER, now, p, updates, DecisionPlan(None, None)).Ok?
  {
    hide EventBody, NewEvent, NewSnapshot, CommittedCommand, CommittedResponse, UpdateActors, CT.Text, Exact, Hash;
  }

  lemma CommittedOne(env: Env, t: Tables, user: Uuid, p: Prepared, after: Tables, response: Response)
    requires t.events == [] && p.request.commandId !in t.commands ==> Committing(env, t, user, p, after, response)
    requires t.events == [] && t.commands == map[]
    ensures |after.events| == 1 && p.request.commandId in after.commands
  {
    hide ActorsBound, ActorsChange, DecisionsGrow, ReportsLedger, StoresResponse;
  }
}
