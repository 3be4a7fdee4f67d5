/**
 * Runs of a session: whatever is submitted and however membership, status and
 * actors change in between, the ledger invariant holds, committed commands stay
 * committed, and exact retries return their stored response.
 */
module LedgerRuns {
  import opened JsonValues
  import opened Outcomes
  import opened TextRules
  import opened WorldState
  import opened LedgerTables
  import opened LedgerRules
  import opened LedgerChain
  import opened LedgerActors
  import opened LedgerDecisions
  import CanonicalJson
  import CanonicalRoundTrip
  import CT = CanonicalText

  // ---- The invariant of a session ----

  predicate Inv(env: Env, t: Tables) {
    && Chain(env, t)
    && DecisionKeys(t.decisions)
    && InspectWorld(t.session.snapshot).Ok?
    && PendingLedger(env, t.decisions, InspectWorld(t.session.snapshot).value.pending)
  }

  /** A session before its first command. */
  predicate Genesis(env: Env, t: Tables) {
    && t.events == [] && t.commands == map[] && |t.snapshots| == 1
    && t.snapshots[0].lastEventHash.None?
    && SnapshotAt(env, t.session.identity, t.snapshots[0].revision, 0, t.snapshots[0])
    && HeadIsNewest(t.session, 0, t.snapshots[0])
    && DecisionKeys(t.decisions)
    && PendingLedger(env, t.decisions, InspectWorld(t.session.snapshot).value.pending)
  }

  lemma GenesisHolds(env: Env, t: Tables)
    requires Genesis(env, t)
    ensures Inv(env, t)
  {
    hide PendingLedger, InspectWorld, Sealed;
    assert CommandIds(t.events) == {};
  }

  // ---- One transition ----

  /** What one committed command did. */
  predicate Committing(env: Env, t: Tables, user: Uuid, p: Prepared, after: Tables, response: Response) {
    && p.request.commandId !in t.commands
    && |after.events| == |t.events| + 1 && |after.snapshots| == |t.snapshots| + 1
    && t.events == after.events[..|t.events|] && t.snapshots == after.snapshots[..|t.snapshots|]
    && after.events[|t.events|].commandId == p.request.commandId
    && after.commands.Keys == t.commands.Keys + {p.request.commandId}
    && (forall id | id in t.commands :: after.commands[id] == t.commands[id])
    && StoresResponse(after, user, p, response)
    && after.session.identity == t.session.identity
    && p.request.releaseId == t.session.identity.releaseId && p.request.artifactHash == t.session.identity.artifactHash
    && after.session.snapshot == p.snapshot
    && ActorsChange(t, user, p.request, after.actors)
    && ActorsBound(env, ActiveActors(after), p.world.actors)
    && DecisionsGrow(t.decisions, after.decisions, p.request.commandId)
    && ReportsLedger(after.decisions, p.world.pending, p.request.commandId, response.decision)
  }

  lemma EnvelopeBindings(r: Request)
    requires CheckEnvelope(r).Pass?
    ensures BindingsOk(r.actorBindings)
  {
    hide BindingsOk, StableId, IsSha256, Blank, Trimmed, TargetsOk;
  }

  lemma PendingExact(v: Json, w: WorldView)
    requires Exact(v) && InspectWorld(v) == Ok(w)
    ensures Exact(w.pending)
  {
    ExactParts(v);
  }

  /** The store's own snapshot is exact. */
  lemma StoredExact(env: Env, t: Tables)
    requires Chain(env, t)
    ensures Exact(t.session.snapshot)
  {
    hide InspectWorld, CT.Text, Events, Commands;
    assert SnapshotAt(env, t.session.identity, t.snapshots[0].revision, |t.events|, t.snapshots[|t.events|]);
  }

  /** A fresh command keeps the invariant and does what `Committing` says. */
  lemma CommitKeeps(env: Env, t: Tables, user: Uuid, now: string, p: Prepared,
                    base: WorldView, updates: seq<Projection>, plan: DecisionPlan)
    requires Inv(env, t) && WellPrepared(env, p)
    requires Admitted(env, t, user, p, base, updates, plan)
    requires Commit(env, t, user, now, p, updates, plan).Ok?
    ensures var (after, response) := Commit(env, t, user, now, p, updates, plan).value;
            Inv(env, after) && Committing(env, t, user, p, after, response)
  {
    hide Chain, Commit, Admitted, InspectWorld, WellPrepared, StoresResponse, DecisionKeys, PendingLedger,
         DecisionsGrow,
         ReportsLedger, ActorsChange, ActorsBound, Exact, CommittedCommand, NewSnapshot;
    WellPreparedWorld(env, p);
    var (after, response) := Commit(env, t, user, now, p, updates, plan).value;
    TransitionExtendsChain(env, t, user, now, p, base, updates, plan);
    ChainLengths(env, t);
    FreshUnused(env, t, user, p, base, updates, plan);
    CommitActors(env, t, user, now, p, base, updates, plan);
    CommitDecisions(env, t, user, now, p, base, updates, plan);
  }

  lemma WellPreparedWorld(env: Env, p: Prepared)
    requires WellPrepared(env, p)
    ensures InspectWorld(p.snapshot) == Ok(p.world) && Exact(p.body)
  {
  }

  lemma CommitActors(env: Env, t: Tables, user: Uuid, now: string, p: Prepared,
                     base: WorldView, updates: seq<Projection>, plan: DecisionPlan)
    requires WellPrepared(env, p)
    requires Admitted(env, t, user, p, base, updates, plan)
    requires Commit(env, t, user, now, p, updates, plan).Ok?
    ensures var after := Commit(env, t, user, now, p, updates, plan).value.0;
            && ActorsChange(t, user, p.request, after.actors)
            && ActorsBound(env, ActiveActors(after), p.world.actors)
  {
    hide Commit, ApplyDecision, UpdateActors, PlanDecision, InspectWorld, CheckEnvelope, CheckSuccession, CheckControl,
         ActorsBound, VerifyStored, PrepareProjections, EventBody, NewEvent, MaxSeq, CommittedCommand, ActorsChange, Exact,
         CT.Text, ProjectionHashes, ActiveActors;
    var after := Commit(env, t, user, now, p, updates, plan).value.0;
    CommitMeaning(env, t, user, now, p, updates, plan);
    EnvelopeBindings(p.request);
    ActorsStep(env, t, user, p, base, updates, p.request.schemaVersion, t.session.snapshotSeq + 1);
    SameActive(after, t.(actors := after.actors));
  }

  lemma CommitDecisions(env: Env, t: Tables, user: Uuid, now: string, p: Prepared,
                        base: WorldView, updates: seq<Projection>, plan: DecisionPlan)
    requires Chain(env, t) && DecisionKeys(t.decisions) && WellPrepared(env, p)
    requires Admitted(env, t, user, p, base, updates, plan)
    requires Commit(env, t, user, now, p, updates, plan).Ok?
    ensures var (after, response) := Commit(env, t, user, now, p, updates, plan).value;
            && DecisionKeys(after.decisions) && PendingLedger(env, after.decisions, p.world.pending)
            && DecisionsGrow(t.decisions, after.decisions, p.request.commandId)
            && ReportsLedger(after.decisions, p.world.pending, p.request.commandId, response.decision)
  {
    hide Chain, Commit, ApplyDecision, UpdateActors, PlanDecision, InspectWorld, CheckEnvelope, CheckSuccession,
         CheckControl,
         ActorsBound, VerifyStored, PrepareProjections, EventBody, NewEvent, MaxSeq, CommittedCommand,
         DecisionKeys, PendingLedger, DecisionsGrow, ReportsLedger, Exact, CT.Text, ProjectionHashes, ActiveActors;
    CommitMeaning(env, t, user, now, p, updates, plan);
    StoredExact(env, t);
    HeadAccepted(env, t);
    PendingExact(t.session.snapshot, base);
    PendingExact(p.snapshot, p.world);
    DecisionStep(env, t, user, p, base.pending, plan, MaxSeq(t.events) + 1);
  }

  lemma SameActive(a: Tables, b: Tables)
    requires a.actors == b.actors
    ensures ActiveActors(a) == ActiveActors(b)
  {
  }

  /** A transition either replays a receipt and changes nothing, or commits. */
  lemma TransitionKeeps(env: Env, t: Tables, user: Uuid, now: string, p: Prepared)
    requires Inv(env, t) && WellPrepared(env, p)
    requires Transition(env, t, user, now, p).Ok?
    ensures var (after, response) := Transition(env, t, user, now, p).value;
            && Inv(env, after)
            && if p.request.commandId in t.commands
               then after == t && LoadReceipt(env, t, user, p) == Ok(Some(response))
               else Committing(env, t, user, p, after, response)
    ensures user in t.members && t.members[user].role != Observer
    ensures p.request.releaseId == t.session.identity.releaseId && p.request.artifactHash == t.session.identity.artifactHash
  {
    hide Inv, Commit, WellPrepared, Admitted, Admit, Committing, LoadReceipt;
    match Admit(env, t, user, p).value
    case Replay(response) =>
      ReplayMeaning(env, t, user, p, response);
    case Fresh(base, updates, plan) =>
      AdmitMeaning(env, t, user, p, base, updates, plan);
      FreshUnused(env, t, user, p, base, updates, plan);
      CommitKeeps(env, t, user, now, p, base, updates, plan);
  }

  lemma ReplayMeaning(env: Env, t: Tables, user: Uuid, p: Prepared, response: Response)
    requires Admit(env, t, user, p) == Ok(Replay(response))
    ensures LoadReceipt(env, t, user, p) == Ok(Some(response)) && p.request.commandId in t.commands
    ensures user in t.members && t.members[user].role != Observer
    ensures p.request.releaseId == t.session.identity.releaseId && p.request.artifactHash == t.session.identity.artifactHash
  {
    hide VerifyStored, HeadVerified, CheckControl, ActorsBound, CheckSuccession, PrepareProjections, PlanDecision,
         Sealed, ReadResponse, ReceiptMatches;
  }

  lemma FreshUnused(env: Env, t: Tables, user: Uuid, p: Prepared, base: WorldView, updates: seq<Projection>,
        plan: DecisionPlan)
    requires Admitted(env, t, user, p, base, updates, plan)
    ensures p.request.commandId !in t.commands && user in t.members && t.members[user].role != Observer
    ensures p.request.releaseId == t.session.identity.releaseId && p.request.artifactHash == t.session.identity.artifactHash
  {
  }

  // ---- Runs ----

  /** Submissions, and changes that other parts of the system make to the session. */
  datatype Action =
    | Submit(user: Uuid, now: string, raw: string)
    | SetStatus(status: string)
    | SetAuthority(authorityMode: string)
    | SetMembers(members: map<Uuid, Member>)
    | SetActors(actors: map<Uuid, ActorRow>)

  function Step(env: Env, t: Tables, a: Action): Tables {
    match a
    case Submit(user, now, raw) => (match Apply(env, t, user, now, raw) case Ok(r) => r.0 case Err(_) => t)
    case SetStatus(status) => t.(session := t.session.(status := status))
    case SetAuthority(authorityMode) => t.(session := t.session.(authorityMode := authorityMode))
    case SetMembers(members) => t.(members := members)
    case SetActors(actors) => t.(actors := actors)
  }

  function Run(env: Env, t: Tables, actions: seq<Action>): Tables
    decreases |actions|
  {
    if actions == [] then t else Run(env, Step(env, t, actions[0]), actions[1..])
  }

  /** A row is as it was, or was open then and is resolved now. */
  predicate RowLater(before: DecisionRow, after: DecisionRow) {
    after == before ||
    (before.status.Open? && after.status.Resolved? && after == before.(status := after.status))
  }

  /** History only grows: nothing written is rewritten. */
  predicate Later(t: Tables, after: Tables) {
    && after.session.identity == t.session.identity
    && t.events <= after.events && t.snapshots <= after.snapshots
    && (forall id | id in t.commands :: id in after.commands && after.commands[id] == t.commands[id])
    && |t.decisions| <= |after.decisions|
    && forall i | 0 <= i < |t.decisions| :: RowLater(t.decisions[i], after.decisions[i])
  }

  lemma LaterTransitive(a: Tables, b: Tables, c: Tables)
    requires Later(a, b) && Later(b, c)
    ensures Later(a, c)
  {
    forall i | 0 <= i < |a.decisions| ensures RowLater(a.decisions[i], c.decisions[i]) {
      assert RowLater(a.decisions[i], b.decisions[i]) && RowLater(b.decisions[i], c.decisions[i]);
    }
    assert a.events == b.events[..|a.events|] && b.events == c.events[..|b.events|];
  }

  lemma CommittingIsLater(env: Env, t: Tables, user: Uuid, p: Prepared, after: Tables, response: Response)
    requires Committing(env, t, user, p, after, response)
    ensures Later(t, after)
  {
    hide ActorsBound, ActorsChange, ReportsLedger, StoresResponse, ActiveActors;
  }

  lemma StepKeeps(env: Env, t: Tables, a: Action)
    requires Inv(env, t)
    ensures Inv(env, Step(env, t, a)) && Later(t, Step(env, t, a))
  {
    hide Inv, Later;
    LaterReflexive(t);
    match a
    case Submit(user, now, raw) =>
      SubmitKeeps(env, t, user, now, raw);
    case _ =>
      OutsideKeeps(env, t, Step(env, t, a));
  }

  lemma SubmitKeeps(env: Env, t: Tables, user: Uuid, now: string, raw: string)
    requires Inv(env, t)
    ensures Apply(env, t, user, now, raw).Ok? ==>
              var after := Apply(env, t, user, now, raw).value.0;
              Inv(env, after) && Later(t, after)
  {
    hide Inv, Transition, WellPrepared, Prepare, Committing, LoadReceipt, Later;
    LaterReflexive(t);
    if Apply(env, t, user, now, raw).Ok? {
      var p := Prepare(env, raw).value;
      PreparedIsWell(env, raw);
      TransitionKeeps(env, t, user, now, p);
      var (after, response) := Transition(env, t, user, now, p).value;
      if p.request.commandId !in t.commands {
        CommittingIsLater(env, t, user, p, after, response);
      }
    }
  }

  /** Changes of status, authority, membership or actors do not touch the history. */
  lemma OutsideKeeps(env: Env, t: Tables, after: Tables)
    requires Inv(env, t)
    requires after.session == t.session.(status := after.session.status, authorityMode := after.session.authorityMode)
    requires after == t.(session := after.session, members := after.members, actors := after.actors)
    ensures Inv(env, after) && Later(t, after)
  {
    hide InspectWorld, SnapshotAt, EventAt, CommandAt, CommandIds, PendingLedger, DecisionKeys;
    assert Snapshots(env, after) && Events(env, after) && Commands(env, after);
  }

  /** The main safety result: the invariant holds after every run, and history only grows. */
  lemma {:induction false} RunKeeps(env: Env, t: Tables, actions: seq<Action>)
    requires Inv(env, t)
    ensures Inv(env, Run(env, t, actions)) && Later(t, Run(env, t, actions))
    decreases |actions|
  {
    hide Inv, Later, Step;
    if actions == [] {
      LaterReflexive(t);
    } else {
      StepKeeps(env, t, actions[0]);
      RunKeeps(env, Step(env, t, actions[0]), actions[1..]);
      LaterTransitive(t, Step(env, t, actions[0]), Run(env, t, actions));
    }
  }

  lemma LaterReflexive(t: Tables)
    ensures Later(t, t)
  {
  }

  /** The verification at the start of every transition accepts every reachable session. */
  lemma ReachableAccepted(env: Env, t: Tables, actions: seq<Action>)
    requires Genesis(env, t)
    ensures var s := Run(env, t, actions);
            && VerifyStored(env, s.session) == InspectWorld(s.session.snapshot)
            && VerifyStored(env, s.session).Ok? && HeadVerified(env, s)
            && s.session.identity == t.session.identity
            && s.session.revision - s.session.snapshotSeq == t.session.revision
            && |s.snapshots| == |s.events| + 1 == s.session.snapshotSeq + 1
  {
    hide InspectWorld, VerifyStored, HeadVerified, EventAt, Commands, PendingLedger, DecisionKeys, Sealed;
    GenesisHolds(env, t);
    RunKeeps(env, t, actions);
    var s := Run(env, t, actions);
    HeadAccepted(env, s);
    assert SnapshotAt(env, s.session.identity, s.snapshots[0].revision, |s.events|, s.snapshots[|s.events|]);
    assert s.snapshots[0] == t.snapshots[0];
  }
}
