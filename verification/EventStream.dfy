/**
 * Live delivery of encounter events: the hub that fans frames out to local
 * subscribers, and the protocol of committers, listener and streamers.
 */
module EventStream {
  /** Frames a subscriber's channel holds before further ones are dropped. */
  const CAPACITY := 64

  /** What a bounded channel holds after another frame is offered: a full channel drops it. */
  function Offered<T>(frames: seq<T>, frame: T): seq<T> {
    if |frames| < CAPACITY then frames + [frame] else frames
  }

  // ---- The subscriber table ----

  function Added<C>(subs: map<string, set<C>>, id: string, ch: C): map<string, set<C>> {
    subs[id := (if id in subs then subs[id] else {}) + {ch}]
  }

  /** The last subscriber of an encounter takes its entry away. */
  function Removed<C>(subs: map<string, set<C>>, id: string, ch: C): map<string, set<C>> {
    if id !in subs then subs
    else if subs[id] - {ch} == {} then subs - {id}
    else subs[id := subs[id] - {ch}]
  }

  predicate NoEmptyEntry<C>(subs: map<string, set<C>>) {
    forall id | id in subs :: subs[id] != {}
  }

  /** Unsubscribing undoes subscribing. */
  lemma SubscribeUndone<C>(subs: map<string, set<C>>, id: string, ch: C)
    requires NoEmptyEntry(subs) && (id in subs ==> ch !in subs[id])
    ensures NoEmptyEntry(Added(subs, id, ch))
    ensures Removed(Added(subs, id, ch), id, ch) == subs
  {
    var more := Added(subs, id, ch);
    if id in subs {
      assert more[id] - {ch} == subs[id];
    } else {
      assert more[id] - {ch} == {};
    }
  }

  class Channel {
    var frames: seq<string>
    var closed: bool

    constructor ()
      ensures frames == [] && !closed
    {
      frames, closed := [], false;
    }
  }

  class EncounterHub {
    var subs: map<string, set<Channel>>

    constructor ()
      ensures subs == map[]
    {
      subs := map[];
    }

    ghost predicate Valid()
      reads this
    {
      NoEmptyEntry(subs)
    }

    method Subscribe(id: string) returns (ch: Channel)
      requires Valid()
      modifies this
      ensures Valid() && fresh(ch) && ch.frames == [] && !ch.closed
      ensures subs == Added(old(subs), id, ch)
    {
      ch := new Channel();
      if id !in subs {
        subs := subs[id := {}];
      }
      subs := subs[id := subs[id] + {ch}];
    }

    method Unsubscribe(id: string, ch: Channel)
      requires Valid()
      modifies this, ch`closed
      ensures Valid() && ch.closed
      ensures subs == Removed(old(subs), id, ch)
    {
      if id in subs {
        var rest := subs[id] - {ch};
        if rest == {} {
          subs := subs - {id};
        } else {
          subs := subs[id := rest];
        }
      }
      ch.closed := true;
    }

    /** Hands the frame to every subscriber with room, in any order, and to nobody else. */
    method PublishLocal(id: string, frame: string)
      modifies if id in subs then subs[id] else {}
      ensures subs == old(subs)
      ensures id in subs ==> forall ch | ch in subs[id] ::
                ch.frames == Offered(old(ch.frames), frame) && ch.closed == old(ch.closed)
    {
      if id !in subs {
        return;
      }
      var all := subs[id];
      var todo := all;
      while todo != {}
        invariant todo <= all && subs == old(subs)
        invariant forall ch | ch in all :: ch.closed == old(ch.closed)
        invariant forall ch | ch in todo :: ch.frames == old(ch.frames)
        invariant forall ch | ch in all - todo :: ch.frames == Offered(old(ch.frames), frame)
        decreases |todo|
      {
        var ch :| ch in todo;
        if |ch.frames| < CAPACITY {
          ch.frames := ch.frames + [frame];
        }
        todo := todo - {ch};
      }
    }
  }

  // ---- The protocol ----

  /** A streamer subscribes, reads the log, writes what it read, then relays its channel. */
  datatype Phase = Subscribed | Replaying(remaining: seq<int>) | Live | Closed

  /**
   * `logged` and `relayed` were written to the client, from the log and from
   * the channel, each in order; `dropped` met a full channel; `skipped` were
   * never read because the replay query failed.
   */
  datatype Client = Client(
    since: int, phase: Phase, buffer: seq<int>, logged: seq<int>, relayed: seq<int>, dropped: set<int>, skipped: set<int>)

  datatype Publisher = Waiting | Loaded(seqNo: int) | Sending(seqNo: int, targets: set<int>)

  /**
   * One encounter on one instance. Events 1 to `last` are committed; `owed`
   * are committed but not yet announced, `queue` are announced to the
   * listener, `missed` were announced to nobody; `heard` and `taken` record
   * all announcements the listener got and took so far.
   */
  datatype Hub = Hub(
    last: int, owed: set<int>, queue: seq<int>, listening: bool, publisher: Publisher,
    subscribers: set<int>, clients: map<int, Client>, missed: set<int>, heard: seq<int>, taken: seq<int>)

  datatype Action =
    | Commit
    | Announce(seqNo: int)
    | AnnounceFails(seqNo: int)
    | Connect
    | Disconnect
    | Take
    | LoadFails
    | Snapshot
    | Send(client: int)
    | Done
    | Open(client: int, since: int)
    | ReadLog(client: int)
    | ReadFails(client: int)
    | WriteLogged(client: int)
    | GoLive(client: int)
    | Relay(client: int)
    | Close(client: int)

  function Range(low: int, high: int): (r: seq<int>)
    ensures forall k :: k in r <==> low < k <= high
    decreases high - low
  {
    if high <= low then [] else Range(low, high - 1) + [high]
  }

  /** What a query of the log returns: the committed events past `since`, in order; events are numbered from 1. */
  function LogPast(since: int, last: int): seq<int> {
    Range(if since < 0 then 0 else since, last)
  }

  function With(h: Hub, id: int, c: Client): Hub {
    h.(clients := h.clients[id := c])
  }

  /** A closed client gets nothing; a full channel drops the event. */
  function Sent(c: Client, k: int): Client {
    if c.phase.Closed? then c
    else c.(buffer := Offered(c.buffer, k), dropped := if |c.buffer| < CAPACITY then c.dropped else c.dropped + {k})
  }

  /** The guard of every action. */
  predicate Enabled(h: Hub, a: Action) {
    match a
    case Commit => true
    case Announce(k) => k in h.owed
    case AnnounceFails(k) => k in h.owed
    case Connect => !h.listening && h.publisher.Waiting?
    case Disconnect => h.listening && h.publisher.Waiting?
    case Take => h.listening && h.publisher.Waiting? && h.queue != []
    case LoadFails => h.publisher.Loaded?
    case Snapshot => h.publisher.Loaded?
    case Send(id) => h.publisher.Sending? && id in h.publisher.targets && id in h.clients
    case Done => h.publisher.Sending? && h.publisher.targets == {}
    case Open(id, _) => id !in h.clients
    case ReadLog(id) => id in h.clients && h.clients[id].phase.Subscribed?
    case ReadFails(id) => id in h.clients && h.clients[id].phase.Subscribed?
    case WriteLogged(id) => id in h.clients && h.clients[id].phase.Replaying? && h.clients[id].phase.remaining != []
    case GoLive(id) => id in h.clients && h.clients[id].phase.Replaying? && h.clients[id].phase.remaining == []
    case Relay(id) => id in h.clients && h.clients[id].phase.Live? && h.clients[id].buffer != []
    case Close(id) => id in h.clients && !h.clients[id].phase.Closed?
  }

  function Next(h: Hub, a: Action): Hub
    requires Enabled(h, a)
  {
    match a
    case Commit => h.(last := h.last + 1, owed := h.owed + {h.last + 1})
    case Announce(k) =>
      if h.listening then h.(owed := h.owed - {k}, queue := h.queue + [k], heard := h.heard + [k])
      else h.(owed := h.owed - {k}, missed := h.missed + {k})
    case AnnounceFails(k) => h.(owed := h.owed - {k}, missed := h.missed + {k})
    case Connect => h.(listening := true)
    case Disconnect => h.(listening := false, queue := [], missed := h.missed + set k | k in h.queue)
    case Take => h.(publisher := Loaded(h.queue[0]), queue := h.queue[1..], taken := h.taken + [h.queue[0]])
    case LoadFails => h.(publisher := Waiting, missed := h.missed + {h.publisher.seqNo})
    case Snapshot => h.(publisher := Sending(h.publisher.seqNo, h.subscribers))
    case Send(id) =>
      With(h, id, Sent(h.clients[id], h.publisher.seqNo)).(publisher := Sending(h.publisher.seqNo, h.publisher.targets - {id}))
    case Done => h.(publisher := Waiting)
    case Open(id, since) => With(h, id, Client(since, Subscribed, [], [], [], {}, {})).(subscribers := h.subscribers + {id})
    case ReadLog(id) => With(h, id, h.clients[id].(phase := Replaying(LogPast(h.clients[id].since, h.last))))
    case ReadFails(id) => With(h, id, h.clients[id].(phase := Live, skipped := set k | k in LogPast(h.clients[id].since, h.last)))
    case WriteLogged(id) =>
      var c := h.clients[id];
      With(h, id, c.(phase := Replaying(c.phase.remaining[1..]), logged := c.logged + [c.phase.remaining[0]]))
    case GoLive(id) => With(h, id, h.clients[id].(phase := Live))
    case Relay(id) =>
      var c := h.clients[id];
      With(h, id, c.(buffer := c.buffer[1..], relayed := c.relayed + [c.buffer[0]]))
    case Close(id) => With(h, id, h.clients[id].(phase := Closed)).(subscribers := h.subscribers - {id})
  }

  const START := Hub(0, {}, [], true, Waiting, {}, map[], {}, [], [])

  predicate Written(c: Client, k: int) {
    k in c.logged || k in c.relayed
  }

  // ---- No event is lost silently ----

  /** Where an event may be while the streamer has not written it yet. */
  predicate Accounted(h: Hub, id: int, c: Client, k: int) {
    || c.phase.Subscribed?
    || (c.phase.Replaying? && k in c.phase.remaining)
    || Written(c, k)
    || k in c.buffer
    || k in h.owed
    || k in h.queue
    || h.publisher == Loaded(k)
    || (h.publisher.Sending? && h.publisher.seqNo == k && id in h.publisher.targets)
    || k in c.dropped || k in c.skipped || k in h.missed
  }

  predicate ClientOk(h: Hub, id: int, c: Client) {
    !c.phase.Closed? ==>
      id in h.subscribers && forall k | 0 < k <= h.last && c.since < k :: Accounted(h, id, c, k)
  }

  predicate Inv(h: Hub) {
    && h.last >= 0
    && h.subscribers <= h.clients.Keys
    && forall id | id in h.clients :: ClientOk(h, id, h.clients[id])
  }

  lemma NextKeeps(h: Hub, a: Action)
    requires Inv(h) && Enabled(h, a)
    ensures Inv(Next(h, a))
  {
    var n := Next(h, a);
    forall id | id in n.clients ensures ClientOk(n, id, n.clients[id]) {
      if id in h.clients {
        ClientKept(h, a, id);
      }
    }
  }

  /** Every step keeps every client accounted for. */
  lemma ClientKept(h: Hub, a: Action, id: int)
    requires Inv(h) && Enabled(h, a) && id in h.clients
    ensures id in Next(h, a).clients && ClientOk(Next(h, a), id, Next(h, a).clients[id])
  {
    var n := Next(h, a);
    var before, after := h.clients[id], n.clients[id];
    assert ClientOk(h, id, before);
    if !after.phase.Closed? {
      forall k | 0 < k <= n.last && after.since < k ensures Accounted(n, id, after, k) {
        if k <= h.last {
          assert Accounted(h, id, before, k);
          AccountedKept(h, a, id, k);
        }
      }
    }
  }

  lemma AccountedKept(h: Hub, a: Action, id: int, k: int)
    requires Inv(h) && Enabled(h, a) && id in h.clients && id in Next(h, a).clients
    requires !Next(h, a).clients[id].phase.Closed? && !h.clients[id].phase.Closed?
    requires 0 < k <= h.last && h.clients[id].since < k && Accounted(h, id, h.clients[id], k)
    requires id in h.subscribers
    ensures Accounted(Next(h, a), id, Next(h, a).clients[id], k)
  {
    var c := h.clients[id];
    match a
    case Take =>
      assert h.queue == [h.queue[0]] + h.queue[1..];
    case WriteLogged(w) =>
      if w == id {
        assert c.phase.remaining == [c.phase.remaining[0]] + c.phase.remaining[1..];
      }
    case Relay(w) =>
      if w == id {
        assert c.buffer == [c.buffer[0]] + c.buffer[1..];
      }
    case _ =>
  }

  /** A run of the protocol: every action is enabled when it happens. */
  predicate IsRun(h: Hub, actions: seq<Action>)
    decreases |actions|
  {
    actions == [] || (Enabled(h, actions[0]) && IsRun(Next(h, actions[0]), actions[1..]))
  }

  function After(h: Hub, actions: seq<Action>): Hub
    requires IsRun(h, actions)
    decreases |actions|
  {
    if actions == [] then h else After(Next(h, actions[0]), actions[1..])
  }

  lemma {:induction false} RunKeeps(h: Hub, actions: seq<Action>)
    requires Inv(h) && IsRun(h, actions)
    ensures Inv(After(h, actions))
    decreases |actions|
  {
    hide Inv, Next, Enabled;
    if actions != [] {
      NextKeeps(h, actions[0]);
      RunKeeps(Next(h, actions[0]), actions[1..]);
    }
  }

  /** In every interleaving, every committed event past `since` is written, on its way, or visibly dropped, skipped or missed. */
  lemma NothingLostSilently(actions: seq<Action>, id: int, k: int)
    requires IsRun(START, actions)
    requires var h := After(START, actions);
             id in h.clients && !h.clients[id].phase.Closed? && 0 < k <= h.last && h.clients[id].since < k
    ensures var h := After(START, actions); Accounted(h, id, h.clients[id], k)
  {
    hide Next, Enabled, Accounted, After, IsRun;
    RunKeeps(START, actions);
    var h := After(START, actions);
    assert ClientOk(h, id, h.clients[id]);
  }

  // ---- When nothing can go wrong ----

  /** The action finds room in the channel, a connected listener and a working database. */
  predicate Smooth(h: Hub, a: Action)
    requires Enabled(h, a)
  {
    match a
    case Announce(_) => h.listening
    case AnnounceFails(_) => false
    case Disconnect => false
    case LoadFails => false
    case ReadFails(_) => false
    case Send(id) => |h.clients[id].buffer| < CAPACITY
    case _ => true
  }

  predicate SmoothRun(h: Hub, actions: seq<Action>)
    requires IsRun(h, actions)
    decreases |actions|
  {
    actions == [] || (Smooth(h, actions[0]) && SmoothRun(Next(h, actions[0]), actions[1..]))
  }

  predicate Lossless(h: Hub) {
    && h.listening && h.missed == {}
    && forall id | id in h.clients :: h.clients[id].dropped == {} && h.clients[id].skipped == {}
  }

  lemma {:induction false} SmoothKeepsLossless(h: Hub, actions: seq<Action>)
    requires IsRun(h, actions) && SmoothRun(h, actions) && Lossless(h)
    ensures Lossless(After(h, actions))
    decreases |actions|
  {
    if actions != [] {
      SmoothStep(h, actions[0]);
      SmoothKeepsLossless(Next(h, actions[0]), actions[1..]);
    }
  }

  lemma SmoothStep(h: Hub, a: Action)
    requires Enabled(h, a) && Smooth(h, a) && Lossless(h)
    ensures Lossless(Next(h, a))
  {
  }

  /** Nothing is on its way any more. */
  predicate Quiet(h: Hub, id: int) {
    && h.owed == {} && h.queue == [] && h.publisher.Waiting?
    && id in h.clients && h.clients[id].phase.Live? && h.clients[id].buffer == []
  }

  /** After a smooth run that has come to rest, a live streamer has written every event past `since`. */
  lemma AllDelivered(actions: seq<Action>, id: int, k: int)
    requires IsRun(START, actions) && SmoothRun(START, actions)
    requires var h := After(START, actions); Quiet(h, id) && 0 < k <= h.last && h.clients[id].since < k
    ensures Written(After(START, actions).clients[id], k)
  {
    hide Next, Enabled, Smooth, After, IsRun, SmoothRun;
    NothingLostSilently(actions, id, k);
    SmoothKeepsLossless(START, actions);
  }

  // ---- Why the order matters ----

  /** A streamer that reads the log before it subscribes: an event committed and published in between reaches it nowhere. */
  lemma SubscribeLateLoses()
    ensures var read := LogPast(0, START.last);
            var actions := [Commit] + ([Announce(1)] + ([Take] + ([Snapshot] + ([Done] + []))));
            && IsRun(START, actions) && SmoothRun(START, actions)
            && var h := After(START, actions);
            && 1 !in read
            && var late := Client(0, Live, [], read, [], {}, {});
               !Accounted(With(h, 7, late).(subscribers := h.subscribers + {7}), 7, late, 1)
  {
    var h1 := Next(START, Commit);
    var h2 := Next(h1, Announce(1));
    var h3 := Next(h2, Take);
    var h4 := Next(h3, Snapshot);
    var h5 := Next(h4, Done);
    RunCons(h4, Done, []);
    RunCons(h3, Snapshot, [Done] + []);
    RunCons(h2, Take, [Snapshot] + ([Done] + []));
    RunCons(h1, Announce(1), [Take] + ([Snapshot] + ([Done] + [])));
    RunCons(START, Commit, [Announce(1)] + ([Take] + ([Snapshot] + ([Done] + []))));
    assert After(h5, []) == h5;
  }

  lemma RunCons(h: Hub, a: Action, rest: seq<Action>)
    requires Enabled(h, a) && Smooth(h, a) && IsRun(Next(h, a), rest) && SmoothRun(Next(h, a), rest)
    ensures var all := [a] + rest;
            IsRun(h, all) && SmoothRun(h, all) && After(h, all) == After(Next(h, a), rest)
  {
    assert ([a] + rest)[1..] == rest;
  }
}
