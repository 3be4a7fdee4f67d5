/**
 * Row locks of the endpoints: every transaction runs the lock program of its
 * job, no reachable lock state has a cyclic wait, and some transaction can
 * always move.
 */
module LockJobs {
  import opened TextOrder
  import opened Identifiers
  import opened TabletopTables
  import opened CommandRules
  import opened LockOrder
  import SB = SupportBatch

  // ---- Jobs ----

  /** The transactions that lock rows, with the rows that they ask for. */
  datatype Job =
    | Apply(e: Id, sheets: set<Id>)
    | Delete(e: Id, sheets: set<Id>)
    | Join(e: Id)
    | SheetWrite(id: Id)
    | Command(lockHash: int, request: CommandRequest)
    | Batch(entries: seq<SB.Entry>)

  /** What validation leaves of a command, and sorting of a batch. */
  predicate WellFormed(env: Env, job: Job) {
    match job
    case Command(_, request) => CommandOk(env, request)
    case Batch(entries) => SB.Ordered(entries)
    case _ => true
  }

  function SheetRows(ids: seq<string>): (keys: seq<Key>)
    ensures |keys| == |ids| && forall i | 0 <= i < |ids| :: keys[i] == SheetRow(ids[i])
  {
    seq(|ids|, i requires 0 <= i < |ids| => SheetRow(ids[i]))
  }

  function ParticipantIds(r: CommandRequest): (ids: seq<string>)
    ensures |ids| == |r.participants| && forall i | 0 <= i < |ids| :: ids[i] == r.participants[i].characterId
  {
    seq(|r.participants|, i requires 0 <= i < |r.participants| => r.participants[i].characterId)
  }

  function ContentRows(entries: seq<SB.Entry>): (keys: seq<Key>)
    ensures |keys| == |entries| && forall i | 0 <= i < |entries| :: keys[i] == SB.LockKey(entries[i])
  {
    seq(|entries|, i requires 0 <= i < |entries| => SB.LockKey(entries[i]))
  }

  /**
   * The locks of a job in the order in which it asks for them: an encounter
   * before its sheets by ascending id, the caller's command lock before the
   * participants in the order of the request, content rows in sorted order.
   */
  function Program(job: Job): seq<Key> {
    match job
    case Apply(e, sheets) => [EncounterRow(e)] + SheetRows(SortedTexts(sheets))
    case Delete(e, sheets) => [EncounterRow(e)] + SheetRows(SortedTexts(sheets))
    case Join(e) => [EncounterRow(e)]
    case SheetWrite(id) => [SheetRow(id)]
    case Command(lockHash, request) => [Advisory(lockHash)] + SheetRows(ParticipantIds(request))
    case Batch(entries) => ContentRows(entries)
  }

  // ---- Programs follow the global order ----

  lemma HeadedIncreasing(head: Key, ids: seq<string>)
    requires Rank(head) < 2 && Ascending(ids)
    ensures Increasing([head] + SheetRows(ids))
  {
    hide Precedes;
    var keys := [head] + SheetRows(ids);
    forall i, j | 0 <= i < j < |keys| ensures Before(keys[i], keys[j]) {
      assert keys[j] == SheetRow(ids[j - 1]);
      if i > 0 { assert keys[i] == SheetRow(ids[i - 1]); }
    }
  }

  lemma {:induction false} NeighboursAscend(ids: seq<string>)
    requires forall i | 0 < i < |ids| :: Precedes(ids[i - 1], ids[i])
    ensures Ascending(ids)
  {
    hide Precedes;
    if ids != [] {
      var last := |ids| - 1;
      var init := ids[..last];
      NeighboursAscend(init);
      forall i, j | 0 <= i < j < |ids| ensures Precedes(ids[i], ids[j]) {
        if j == last {
          if i < last - 1 {
            assert Precedes(init[i], init[last - 1]);
            PrecedesTransitive(ids[i], ids[last - 1], ids[last]);
          }
        } else {
          assert Precedes(init[i], init[j]);
        }
      }
    }
  }

  lemma ParticipantsAscend(env: Env, r: CommandRequest)
    requires CommandOk(env, r)
    ensures Ascending(ParticipantIds(r))
  {
    hide PatchOk, RulesetOk, Precedes, Ascending;
    NeighboursAscend(ParticipantIds(r));
  }

  lemma ContentIncreasing(entries: seq<SB.Entry>)
    requires SB.Ordered(entries)
    ensures Increasing(ContentRows(entries))
  {
    hide Before, SB.LockKey;
  }

  /** Every job asks for its locks in the global order. */
  lemma ProgramIncreases(env: Env, job: Job)
    requires WellFormed(env, job)
    ensures Increasing(Program(job))
  {
    hide Increasing, Ascending, SortedTexts, CommandOk, SB.Ordered;
    match job
    case Apply(e, sheets) =>
      SortedAscends(sheets);
      HeadedIncreasing(EncounterRow(e), SortedTexts(sheets));
    case Delete(e, sheets) =>
      SortedAscends(sheets);
      HeadedIncreasing(EncounterRow(e), SortedTexts(sheets));
    case Join(e) => SingleIncreasing(EncounterRow(e));
    case SheetWrite(id) => SingleIncreasing(SheetRow(id));
    case Command(lockHash, request) =>
      ParticipantsAscend(env, request);
      HeadedIncreasing(Advisory(lockHash), ParticipantIds(request));
    case Batch(entries) => ContentIncreasing(entries);
  }

  lemma SingleIncreasing(k: Key)
    ensures Increasing([k])
  {
  }

  // ---- Transactions ----

  /** A transaction holds the first `held` locks of its job's program until it ends. */
  datatype Tx = Tx(job: Job, held: nat)

  type Locks = map<int, Tx>

  predicate Holds(s: Locks, t: int, k: Key) {
    t in s && exists i :: 0 <= i < s[t].held && i < |Program(s[t].job)| && Program(s[t].job)[i] == k
  }

  predicate Wants(s: Locks, t: int) {
    t in s && s[t].held < |Program(s[t].job)|
  }

  function Wanted(s: Locks, t: int): Key
    requires Wants(s, t)
  {
    Program(s[t].job)[s[t].held]
  }

  /** One transaction waits for a lock that another one holds. */
  predicate WaitsFor(s: Locks, t: int, u: int) {
    t != u && Wants(s, t) && Holds(s, u, Wanted(s, t))
  }

  datatype Move = Begin(tx: int, job: Job) | Acquire(tx: int) | End(tx: int)

  /** A lock is granted only when nobody else holds it; commit and rollback release all. */
  predicate Enabled(env: Env, s: Locks, a: Move) {
    match a
    case Begin(t, job) => t !in s && WellFormed(env, job)
    case Acquire(t) => Wants(s, t) && forall u | u in s :: !WaitsFor(s, t, u)
    case End(t) => t in s
  }

  function Next(env: Env, s: Locks, a: Move): Locks
    requires Enabled(env, s, a)
  {
    match a
    case Begin(t, job) => s[t := Tx(job, 0)]
    case Acquire(t) => s[t := s[t].(held := s[t].held + 1)]
    case End(t) => s - {t}
  }

  ghost predicate Inv(env: Env, s: Locks) {
    && (forall t | t in s :: WellFormed(env, s[t].job) && s[t].held <= |Program(s[t].job)|)
    && forall t, u, k | t in s && u in s && t != u && Holds(s, t, k) :: !Holds(s, u, k)
  }

  lemma NextKeeps(env: Env, s: Locks, a: Move)
    requires Inv(env, s) && Enabled(env, s, a)
    ensures Inv(env, Next(env, s, a))
  {
    hide Program, WellFormed;
    var n := Next(env, s, a);
    forall t, u, k | t in n && u in n && t != u && Holds(n, t, k) ensures !Holds(n, u, k) {
      HoldsAfter(env, s, a, t, k);
      HoldsAfter(env, s, a, u, k);
    }
  }

  /** Only an acquisition adds a held lock. */
  lemma HoldsAfter(env: Env, s: Locks, a: Move, t: int, k: Key)
    requires Inv(env, s) && Enabled(env, s, a)
    ensures Holds(Next(env, s, a), t, k) ==>
              Holds(s, t, k) || (a == Acquire(t) && k == Wanted(s, t) && forall u | u in s && u != t :: !Holds(s, u, k))
  {
    hide Program, WellFormed;
    if Holds(Next(env, s, a), t, k) && a == Acquire(t) && !Holds(s, t, k) {
      assert forall u | u in s :: !WaitsFor(s, t, u);
    }
  }

  // ---- No cyclic wait ----

  /** Whoever is waited for and waits itself wants a later key. */
  lemma WaitingRises(env: Env, s: Locks, t: int, u: int)
    requires Inv(env, s) && WaitsFor(s, t, u) && Wants(s, u)
    ensures Before(Wanted(s, t), Wanted(s, u))
  {
    var i :| 0 <= i < s[u].held && i < |Program(s[u].job)| && Program(s[u].job)[i] == Wanted(s, t);
    ProgramIncreases(env, s[u].job);
    assert Before(Program(s[u].job)[i], Program(s[u].job)[s[u].held]);
  }

  predicate WaitChain(s: Locks, chain: seq<int>) {
    |chain| > 0 && forall i | 0 < i < |chain| :: WaitsFor(s, chain[i - 1], chain[i])
  }

  lemma {:induction false} ChainRises(env: Env, s: Locks, chain: seq<int>)
    requires Inv(env, s) && WaitChain(s, chain) && |chain| > 1 && Wants(s, chain[|chain| - 1])
    ensures Wants(s, chain[0]) && Before(Wanted(s, chain[0]), Wanted(s, chain[|chain| - 1]))
  {
    hide Before, Holds;
    var last := |chain| - 1;
    assert WaitsFor(s, chain[last - 1], chain[last]);
    WaitingRises(env, s, chain[last - 1], chain[last]);
    if |chain| > 2 {
      var shorter := chain[..last];
      ChainRises(env, s, shorter);
      BeforeTransitive(Wanted(s, chain[0]), Wanted(s, chain[last - 1]), Wanted(s, chain[last]));
    }
  }

  /** A chain of waits never comes back to where it started. */
  lemma NoCyclicWait(env: Env, s: Locks, chain: seq<int>)
    requires Inv(env, s) && WaitChain(s, chain) && |chain| > 1
    ensures chain[0] != chain[|chain| - 1]
  {
    hide Before, Holds;
    if chain[0] == chain[|chain| - 1] {
      assert WaitsFor(s, chain[0], chain[1]);
      ChainRises(env, s, chain);
      BeforeIrreflexive(Wanted(s, chain[0]));
    }
  }

  // ---- Runs ----

  predicate IsRun(env: Env, s: Locks, moves: seq<Move>)
    decreases |moves|
  {
    moves == [] || (Enabled(env, s, moves[0]) && IsRun(env, Next(env, s, moves[0]), moves[1..]))
  }

  function After(env: Env, s: Locks, moves: seq<Move>): Locks
    requires IsRun(env, s, moves)
    decreases |moves|
  {
    if moves == [] then s else After(env, Next(env, s, moves[0]), moves[1..])
  }

  lemma {:induction false} RunKeeps(env: Env, s: Locks, moves: seq<Move>)
    requires Inv(env, s) && IsRun(env, s, moves)
    ensures Inv(env, After(env, s, moves))
    decreases |moves|
  {
    hide Inv, Enabled, Next;
    if moves != [] {
      NextKeeps(env, s, moves[0]);
      RunKeeps(env, Next(env, s, moves[0]), moves[1..]);
    }
  }

  /** Deadlock freedom: no reachable lock state has a cycle of waits. */
  lemma DeadlockFree(env: Env, moves: seq<Move>, chain: seq<int>)
    requires IsRun(env, map[], moves) && WaitChain(After(env, map[], moves), chain) && |chain| > 1
    ensures chain[0] != chain[|chain| - 1]
  {
    hide WaitChain, IsRun, After;
    RunKeeps(env, map[], moves);
    NoCyclicWait(env, After(env, map[], moves), chain);
  }

  // ---- Progress ----

  predicate Latest(s: Locks, ts: set<int>, t: int) {
    t in ts && Wants(s, t) && forall u | u in ts && Wants(s, u) :: !Before(Wanted(s, t), Wanted(s, u))
  }

  lemma {:induction false} LatestExists(s: Locks, ts: set<int>)
    requires exists t :: t in ts && Wants(s, t)
    ensures exists t :: Latest(s, ts, t)
  {
    hide Before, Holds;
    var t :| t in ts && Wants(s, t);
    var rest := ts - {t};
    BeforeIrreflexive(Wanted(s, t));
    if exists u :: u in rest && Wants(s, u) {
      LatestExists(s, rest);
      var m :| Latest(s, rest, m);
      if Before(Wanted(s, m), Wanted(s, t)) {
        forall u | u in ts && Wants(s, u) ensures !Before(Wanted(s, t), Wanted(s, u)) {
          if u != t && Before(Wanted(s, t), Wanted(s, u)) {
            BeforeTransitive(Wanted(s, m), Wanted(s, t), Wanted(s, u));
          }
        }
        assert Latest(s, ts, t);
      } else {
        assert Latest(s, ts, m);
      }
    } else {
      assert Latest(s, ts, t);
    }
  }

  /** Some transaction with locks to get can get its next one, unless all have all of theirs. */
  lemma SomeoneMoves(env: Env, s: Locks, open: int)
    requires Inv(env, s) && open in s
    ensures exists t :: t in s && (!Wants(s, t) || Enabled(env, s, Acquire(t)))
  {
    hide Before;
    if t :| t in s && !Wants(s, t) {
    } else {
      assert open in s.Keys && Wants(s, open);
      LatestExists(s, s.Keys);
      var t :| Latest(s, s.Keys, t);
      forall u | u in s ensures !WaitsFor(s, t, u) {
        if WaitsFor(s, t, u) {
          WaitingRises(env, s, t, u);
        }
      }
      assert Enabled(env, s, Acquire(t));
    }
  }

  /** In every reachable lock state with an open transaction, one of them can get its next lock or has all its locks. */
  lemma Progress(env: Env, moves: seq<Move>, open: int)
    requires IsRun(env, map[], moves) && open in After(env, map[], moves)
    ensures var s := After(env, map[], moves);
            exists t :: t in s && (!Wants(s, t) || Enabled(env, s, Acquire(t)))
  {
    hide Inv, IsRun, After, Enabled;
    StartHolds(env);
    RunKeeps(env, map[], moves);
    SomeoneMoves(env, After(env, map[], moves), open);
  }

  lemma StartHolds(env: Env)
    ensures Inv(env, map[])
  {
  }

  /** Of two open transactions that have all their locks, neither locks a row of the other. */
  lemma ProgramsDisjoint(env: Env, moves: seq<Move>, t: int, u: int, k: Key)
    requires IsRun(env, map[], moves)
    requires var s := After(env, map[], moves); t in s && u in s && t != u && !Wants(s, t) && !Wants(s, u)
    ensures var s := After(env, map[], moves); !(k in Program(s[t].job) && k in Program(s[u].job))
  {
    hide IsRun, After, Program, WellFormed;
    StartHolds(env);
    RunKeeps(env, map[], moves);
    var s := After(env, map[], moves);
    assert k in Program(s[t].job) ==> Holds(s, t, k);
    assert k in Program(s[u].job) ==> Holds(s, u, k);
  }
}
