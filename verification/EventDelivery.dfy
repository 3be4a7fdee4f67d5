/** What a client of the event stream is written, over every run: nothing unasked, nothing twice, nothing out of order. */
module EventDelivery {
  import opened EventStream

  // ---- Subsequences ----

  /** `a` is `b` with some elements left out. */
  predicate Sub(a: seq<int>, b: seq<int>) {
    a == [] ||
    (b != [] && ((a[|a| - 1] == b[|b| - 1] && Sub(a[..|a| - 1], b[..|b| - 1])) || Sub(a, b[..|b| - 1])))
  }

  lemma SubMore(a: seq<int>, b: seq<int>, x: int)
    requires Sub(a, b)
    ensures Sub(a, b + [x]) && Sub(a + [x], b + [x])
  {
    assert (b + [x])[..|b|] == b && (a + [x])[..|a|] == a;
  }

  lemma {:induction false} SubDrop(a: seq<int>, c: seq<int>, b: seq<int>)
    requires Sub(a + c, b)
    ensures Sub(a, b)
    decreases |b|
  {
    if c == [] {
      assert a + c == a;
    } else {
      var init, shorter := c[..|c| - 1], b[..|b| - 1];
      assert (a + c)[..|a + c| - 1] == a + init;
      if Sub(a + c, shorter) {
        SubDrop(a, c, shorter);
      } else {
        SubDrop(a, init, shorter);
      }
    }
  }

  lemma {:induction false} SubMembers(a: seq<int>, b: seq<int>)
    requires Sub(a, b)
    ensures forall x | x in a :: x in b
    decreases |b|
  {
    if a != [] {
      var init, shorter := a[..|a| - 1], b[..|b| - 1];
      assert a == init + [a[|a| - 1]];
      if Sub(a, shorter) { SubMembers(a, shorter); } else { SubMembers(init, shorter); }
    }
  }

  predicate NoRepeats(s: seq<int>) {
    forall i, j | 0 <= i < j < |s| :: s[i] != s[j]
  }

  lemma {:induction false} SubNoRepeats(a: seq<int>, b: seq<int>)
    requires Sub(a, b) && NoRepeats(b)
    ensures NoRepeats(a)
    decreases |b|
  {
    if a != [] {
      var init, shorter := a[..|a| - 1], b[..|b| - 1];
      if Sub(a, shorter) {
        SubNoRepeats(a, shorter);
      } else {
        SubNoRepeats(init, shorter);
        SubMembers(init, shorter);
        forall i | 0 <= i < |init| ensures a[i] != a[|a| - 1] {
          assert init[i] in shorter;
        }
      }
    }
  }

  // ---- The invariant ----

  /** The event the publisher is busy with is the last one it took. */
  predicate PublisherOk(h: Hub) {
    match h.publisher
    case Waiting => true
    case Loaded(k) => h.taken != [] && h.taken[|h.taken| - 1] == k
    case Sending(k, _) => h.taken != [] && h.taken[|h.taken| - 1] == k
  }

  predicate Committed(h: Hub, k: int) {
    0 < k <= h.last
  }

  /** Announcements are of committed events, each once, and taken in the order in which they were heard. */
  ghost predicate AnnouncedOk(h: Hub) {
    && h.last >= 0
    && (forall k | k in h.owed || k in h.heard || k in h.missed :: Committed(h, k))
    && (forall k | k in h.heard :: k !in h.owed)
    && NoRepeats(h.heard)
    && Sub(h.taken + h.queue, h.heard)
    && PublisherOk(h)
    && MissedFinal(h)
  }

  /** What was missed is nowhere on its way, and the publisher is only busy while it listens. */
  predicate MissedFinal(h: Hub) {
    && (forall k | k in h.missed :: k !in h.owed && k !in h.queue)
    && (!h.publisher.Waiting? ==> h.listening)
    && (h.publisher.Loaded? ==> h.publisher.seqNo !in h.missed)
    && (h.publisher.Sending? ==> h.publisher.seqNo !in h.missed)
  }

  /** The events taken before the one that is still on its way to this client. */
  function TakenBefore(h: Hub, id: int): seq<int>
    requires PublisherOk(h)
  {
    if h.publisher.Loaded? || (h.publisher.Sending? && id in h.publisher.targets) then h.taken[..|h.taken| - 1] else h.taken
  }

  /** What the log gave the client, written or still to be written. */
  function FromLog(c: Client): seq<int> {
    c.logged + if c.phase.Replaying? then c.phase.remaining else []
  }

  ghost predicate ClientFits(h: Hub, id: int, c: Client)
    requires PublisherOk(h)
  {
    && Sub(c.relayed + c.buffer, TakenBefore(h, id))
    && (forall k | k in FromLog(c) || k in c.skipped :: Committed(h, k) && c.since < k)
    && (forall k | k in c.dropped :: Committed(h, k))
    && (c.phase.Subscribed? ==> c.logged == [])
    && ChannelFits(c)
  }

  /** The channel holds at most 64 frames, and nothing of it is written before the log. */
  predicate ChannelFits(c: Client) {
    |c.buffer| <= 64 && (c.phase.Subscribed? || c.phase.Replaying? ==> c.relayed == [])
  }

  ghost predicate Delivers(h: Hub) {
    && AnnouncedOk(h)
    && forall id | id in h.clients :: ClientFits(h, id, h.clients[id])
  }

  lemma OrderStep(h: Hub, a: Action)
    requires Sub(h.taken + h.queue, h.heard) && PublisherOk(h) && Enabled(h, a)
    ensures var n := Next(h, a); Sub(n.taken + n.queue, n.heard) && PublisherOk(n)
  {
    hide Sub, LogPast, Sent;
    var n := Next(h, a);
    match a
    case Announce(k) =>
      SubMore(h.taken + h.queue, h.heard, k);
      assert h.listening ==> n.taken + n.queue == (h.taken + h.queue) + [k];
    case Disconnect =>
      SubDrop(h.taken, h.queue, h.heard);
      assert h.taken + [] == h.taken;
    case Take =>
      assert n.taken + n.queue == h.taken + h.queue;
    case _ =>
  }

  lemma CommittedStep(h: Hub, a: Action)
    requires AnnouncedOk(h) && Enabled(h, a)
    ensures var n := Next(h, a);
            && n.last >= 0 && (forall k | k in n.owed || k in n.heard || k in n.missed :: Committed(n, k))
            && (forall k | k in n.heard :: k !in n.owed) && NoRepeats(n.heard)
  {
    hide Sub, LogPast, Sent;
    SubMembers(h.taken + h.queue, h.heard);
    assert forall k | k in h.queue || k in h.taken :: k in h.taken + h.queue;
  }

  lemma MissedStep(h: Hub, a: Action)
    requires AnnouncedOk(h) && Enabled(h, a)
    ensures MissedFinal(Next(h, a))
  {
    hide Sub, LogPast, Sent;
    var onTheWay := h.taken + h.queue;
    SubMembers(onTheWay, h.heard);
    SubNoRepeats(onTheWay, h.heard);
    forall k | k in h.queue || k in h.taken ensures k in onTheWay && k !in h.owed {}
    if !h.publisher.Waiting? {
      forall i | 0 <= i < |h.queue| ensures h.queue[i] != h.publisher.seqNo {
        assert onTheWay[|h.taken| - 1] == h.publisher.seqNo && onTheWay[|h.taken| + i] == h.queue[i];
      }
    }
    if a.Take? {
      forall i | 0 < i < |h.queue| ensures h.queue[i] != h.queue[0] {
        assert onTheWay[|h.taken|] == h.queue[0] && onTheWay[|h.taken| + i] == h.queue[i];
      }
    }
  }

  lemma AnnouncedStep(h: Hub, a: Action)
    requires AnnouncedOk(h) && Enabled(h, a)
    ensures AnnouncedOk(Next(h, a))
  {
    hide Sub, Next, Enabled, NoRepeats, PublisherOk, MissedFinal;
    OrderStep(h, a);
    CommittedStep(h, a);
    MissedStep(h, a);
  }

  lemma TakenCommitted(h: Hub)
    requires AnnouncedOk(h)
    ensures forall k | k in h.taken :: k in h.heard && Committed(h, k)
  {
    SubMembers(h.taken + h.queue, h.heard);
    assert forall k | k in h.taken :: k in h.taken + h.queue;
  }

  lemma Taking(x: seq<int>, taken: seq<int>)
    requires taken != [] && Sub(x, taken[..|taken| - 1])
    ensures Sub(x, taken) && Sub(x + [taken[|taken| - 1]], taken)
  {
    hide Sub;
    SubMore(x, taken[..|taken| - 1], taken[|taken| - 1]);
    assert taken[..|taken| - 1] + [taken[|taken| - 1]] == taken;
  }

  /** A client that the step does not name keeps its channel's place among the taken events. */
  lemma ChannelStep(h: Hub, a: Action, id: int)
    requires PublisherOk(h) && Enabled(h, a) && id in h.clients && PublisherOk(Next(h, a))
    requires Sub(h.clients[id].relayed + h.clients[id].buffer, TakenBefore(h, id))
    ensures var n := Next(h, a);
            id in n.clients && Sub(n.clients[id].relayed + n.clients[id].buffer, TakenBefore(n, id))
  {
    hide Sub, LogPast;
    var c, n := h.clients[id], Next(h, a);
    match a
    case Take => assert n.taken[..|n.taken| - 1] == h.taken;
    case LoadFails => Taking(c.relayed + c.buffer, h.taken);
    case Snapshot => Taking(c.relayed + c.buffer, h.taken);
    case Send(w) =>
      if w == id {
        Taking(c.relayed + c.buffer, h.taken);
        assert c.relayed + (c.buffer + [h.publisher.seqNo]) == (c.relayed + c.buffer) + [h.publisher.seqNo];
      }
    case Relay(w) =>
      if w == id { assert n.clients[id].relayed + n.clients[id].buffer == c.relayed + c.buffer; }
    case _ =>
  }

  /** What the log gave a client is committed and past its `since`. */
  lemma LogStep(h: Hub, a: Action, id: int)
    requires Enabled(h, a) && id in h.clients && h.last >= 0
    requires var c := h.clients[id];
             && (forall k | k in FromLog(c) || k in c.skipped :: Committed(h, k) && c.since < k)
             && (c.phase.Subscribed? ==> c.logged == [])
    ensures var n := Next(h, a);
            id in n.clients
            && var c := n.clients[id];
            && (forall k | k in FromLog(c) || k in c.skipped :: Committed(n, k) && c.since < k)
            && (c.phase.Subscribed? ==> c.logged == [])
  {
    var c, n := h.clients[id], Next(h, a);
    assert forall k | k in c.logged :: k in FromLog(c);
    match a
    case WriteLogged(w) =>
      if w == id { assert FromLog(n.clients[id]) == FromLog(c); }
    case ReadLog(w) =>
      if w == id { assert FromLog(n.clients[id]) == LogPast(c.since, h.last); }
    case Close(w) =>
      if w == id { assert FromLog(n.clients[id]) == c.logged; }
    case _ => assert FromLog(n.clients[id]) == FromLog(c);
  }

  lemma DroppedStep(h: Hub, a: Action, id: int)
    requires AnnouncedOk(h) && Enabled(h, a) && id in h.clients && (forall k | k in h.clients[id].dropped :: Committed(h, k))
    ensures id in Next(h, a).clients && forall k | k in Next(h, a).clients[id].dropped :: Committed(Next(h, a), k)
  {
    hide Sub, NoRepeats, LogPast;
    TakenCommitted(h);
  }

  lemma ChannelFitsStep(h: Hub, a: Action, id: int)
    requires Enabled(h, a) && id in h.clients && ChannelFits(h.clients[id])
    ensures id in Next(h, a).clients && ChannelFits(Next(h, a).clients[id])
  {
    hide LogPast;
  }

  lemma DeliversStep(h: Hub, a: Action)
    requires Delivers(h) && Enabled(h, a)
    ensures Delivers(Next(h, a))
  {
    hide Sub, NoRepeats, LogPast, FromLog, Committed;
    AnnouncedStep(h, a);
    var n := Next(h, a);
    forall id | id in n.clients ensures ClientFits(n, id, n.clients[id]) {
      if id in h.clients {
        FitsKept(h, a, id);
      } else {
        ClientOpened(h, a, id);
      }
    }
  }

  lemma FitsKept(h: Hub, a: Action, id: int)
    requires Delivers(h) && Enabled(h, a) && id in h.clients && PublisherOk(Next(h, a))
    ensures id in Next(h, a).clients && ClientFits(Next(h, a), id, Next(h, a).clients[id])
  {
    hide Sub, NoRepeats, Next, FromLog, Committed, ChannelFits;
    assert ClientFits(h, id, h.clients[id]);
    ChannelStep(h, a, id);
    LogStep(h, a, id);
    DroppedStep(h, a, id);
    ChannelFitsStep(h, a, id);
  }

  lemma ClientOpened(h: Hub, a: Action, id: int)
    requires Enabled(h, a) && id !in h.clients && id in Next(h, a).clients && PublisherOk(Next(h, a))
    ensures ClientFits(Next(h, a), id, Next(h, a).clients[id])
  {
    var none: seq<int> := [];
    assert none + none == none;
  }

  lemma {:induction false} RunDelivers(h: Hub, actions: seq<Action>)
    requires Delivers(h) && IsRun(h, actions)
    ensures Delivers(After(h, actions))
    decreases |actions|
  {
    hide Delivers, Next, Enabled;
    if actions != [] {
      DeliversStep(h, actions[0]);
      RunDelivers(Next(h, actions[0]), actions[1..]);
    }
  }

  lemma StartDelivers()
    ensures Delivers(START)
  {
    var none: seq<int> := [];
    assert none + none == none;
  }

  // ---- The listener ----

  predicate NoneOf(actions: seq<Action>, x: Action) {
    forall a | a in actions :: a != x
  }

  lemma {:induction false} DeafRun(h: Hub, actions: seq<Action>)
    requires !h.listening && IsRun(h, actions) && NoneOf(actions, Connect)
    ensures !After(h, actions).listening && After(h, actions).heard == h.heard
    decreases |actions|
  {
    hide LogPast, Sent;
    if actions != [] {
      assert actions[0] in actions && forall a | a in actions[1..] :: a in actions;
      DeafRun(Next(h, actions[0]), actions[1..]);
    }
  }

  lemma {:induction false} ListeningRun(h: Hub, actions: seq<Action>)
    requires h.listening && IsRun(h, actions) && NoneOf(actions, Disconnect)
    ensures After(h, actions).listening
    decreases |actions|
  {
    hide LogPast, Sent;
    if actions != [] {
      assert actions[0] in actions && forall a | a in actions[1..] :: a in actions;
      ListeningRun(Next(h, actions[0]), actions[1..]);
    }
  }

  /**
   * From a disconnection to the next connection nothing is heard, and what is
   * announced is missed; from a connection to the next disconnection everything
   * announced is heard and queued.
   */
  lemma HeardWhileConnected(h: Hub, actions: seq<Action>, k: int)
    ensures Enabled(h, Disconnect) && IsRun(Next(h, Disconnect), actions) && NoneOf(actions, Connect) ==>
              var later := After(Next(h, Disconnect), actions);
              later.heard == h.heard && (Enabled(later, Announce(k)) ==> k in Next(later, Announce(k)).missed)
    ensures Enabled(h, Connect) && IsRun(Next(h, Connect), actions) && NoneOf(actions, Disconnect) ==>
              var later := After(Next(h, Connect), actions);
              Enabled(later, Announce(k)) ==>
                var n := Next(later, Announce(k)); n.heard == later.heard + [k] && n.queue == later.queue + [k] && n.missed == later.missed
  {
    if Enabled(h, Disconnect) && IsRun(Next(h, Disconnect), actions) && NoneOf(actions, Connect) {
      DeafRun(Next(h, Disconnect), actions);
    }
    if Enabled(h, Connect) && IsRun(Next(h, Connect), actions) && NoneOf(actions, Disconnect) {
      ListeningRun(Next(h, Connect), actions);
    }
  }

  // ---- Main results ----

  /**
   * In every interleaving a client is only written committed events, and what
   * the log gives it is past its `since`; a visible loss is of a committed event.
   */
  lemma OnlyCommittedWritten(actions: seq<Action>, id: int, k: int)
    requires IsRun(START, actions) && id in After(START, actions).clients
    ensures var h := After(START, actions);
            var c := h.clients[id];
            && (Written(c, k) || k in c.buffer || k in c.dropped || k in c.skipped || k in h.missed ==> 0 < k <= h.last)
            && (k in c.logged || (c.phase.Replaying? && k in c.phase.remaining) || k in c.skipped ==> c.since < k)
  {
    hide IsRun, After, Sub, NoRepeats;
    StartDelivers();
    RunDelivers(START, actions);
    var h := After(START, actions);
    var c := h.clients[id];
    assert ClientFits(h, id, c);
    TakenCommitted(h);
    SubMembers(c.relayed + c.buffer, TakenBefore(h, id));
    assert forall x | x in TakenBefore(h, id) :: x in h.taken;
    assert k in c.relayed || k in c.buffer ==> k in c.relayed + c.buffer;
    assert k in c.logged || (c.phase.Replaying? && k in c.phase.remaining) ==> k in FromLog(c);
  }

  /**
   * In every interleaving the channel of a client, relayed and waiting, is a
   * subsequence of what the listener heard, and no event is relayed twice.
   */
  lemma RelayedInOrder(actions: seq<Action>, id: int)
    requires IsRun(START, actions) && id in After(START, actions).clients
    ensures var h := After(START, actions);
            var c := h.clients[id];
            Sub(c.relayed + c.buffer, h.taken) && Sub(h.taken + h.queue, h.heard) && NoRepeats(h.heard) && NoRepeats(c.relayed + c.buffer)
  {
    hide IsRun, After, Sub, NoRepeats;
    StartDelivers();
    RunDelivers(START, actions);
    var h := After(START, actions);
    var c := h.clients[id];
    assert ClientFits(h, id, c);
    if h.taken != [] && TakenBefore(h, id) != h.taken { Taking(c.relayed + c.buffer, h.taken); }
    SubDrop(h.taken, h.queue, h.heard);
    SubNoRepeats(h.taken, h.heard);
    SubNoRepeats(c.relayed + c.buffer, h.taken);
  }

  /**
   * In every interleaving a channel holds at most 64 frames and nothing of it is
   * written before the log has been, and an event that was missed is not owed,
   * queued or being published: it never turns up later.
   */
  lemma ChannelsBounded(actions: seq<Action>, id: int, k: int)
    requires IsRun(START, actions)
    ensures var h := After(START, actions);
            && (id in h.clients ==> |h.clients[id].buffer| <= 64)
            && (id in h.clients && (h.clients[id].phase.Subscribed? || h.clients[id].phase.Replaying?) ==> h.clients[id].relayed == [])
            && (k in h.missed ==> k !in h.owed && k !in h.queue && h.publisher != Loaded(k)
                                  && !(h.publisher.Sending? && h.publisher.seqNo == k))
  {
    hide IsRun, After, Sub, NoRepeats;
    StartDelivers();
    RunDelivers(START, actions);
    var h := After(START, actions);
    if id in h.clients { assert ClientFits(h, id, h.clients[id]); }
  }

  /** A frame is dropped exactly when the channel holds 64. */
  lemma DroppedIffFull(frames: seq<int>, k: int)
    requires |frames| <= 64
    ensures Offered(frames, k) == if |frames| == 64 then frames else frames + [k]
  {
  }

  predicate Ascending(s: seq<int>) {
    forall i, j | 0 <= i < j < |s| :: s[i] < s[j]
  }

  lemma {:induction false} RangeAscends(low: int, high: int)
    ensures Ascending(Range(low, high))
    decreases high - low
  {
    if low < high {
      var init := Range(low, high - 1);
      RangeAscends(low, high - 1);
      assert forall i | 0 <= i < |init| :: init[i] in init;
    }
  }

  /** A replay under way or over hands out the one reading of the log and nothing else. */
  lemma {:induction false} ReplayKept(h: Hub, actions: seq<Action>, id: int, log: seq<int>)
    requires IsRun(h, actions) && id in h.clients && !h.clients[id].phase.Subscribed?
    requires FromLog(h.clients[id]) <= log && (!h.clients[id].phase.Closed? ==> FromLog(h.clients[id]) == log)
    ensures var n := After(h, actions);
            && id in n.clients && n.clients[id].since == h.clients[id].since && !n.clients[id].phase.Subscribed?
            && FromLog(n.clients[id]) <= log && (!n.clients[id].phase.Closed? ==> FromLog(n.clients[id]) == log)
    decreases |actions|
  {
    if actions != [] {
      ReplayStep(h, actions[0], id, log);
      ReplayKept(Next(h, actions[0]), actions[1..], id, log);
    }
  }

  lemma ReplayStep(h: Hub, a: Action, id: int, log: seq<int>)
    requires Enabled(h, a) && id in h.clients && !h.clients[id].phase.Subscribed?
    requires FromLog(h.clients[id]) <= log && (!h.clients[id].phase.Closed? ==> FromLog(h.clients[id]) == log)
    ensures var n := Next(h, a);
            && id in n.clients && n.clients[id].since == h.clients[id].since && !n.clients[id].phase.Subscribed?
            && FromLog(n.clients[id]) <= log && (!n.clients[id].phase.Closed? ==> FromLog(n.clients[id]) == log)
  {
    var c, n := h.clients[id], Next(h, a);
    match a
    case WriteLogged(w) =>
      if w == id { assert FromLog(n.clients[id]) == FromLog(c); }
    case _ =>
  }

  /**
   * Whatever else goes on, a client whose query succeeded is written from the
   * log, in ascending order, exactly the events past its `since` that were
   * committed when the query ran, once its replay is over; until then, or if it
   * closes first, a beginning of them.
   */
  lemma ReplayIsExact(before: seq<Action>, id: int, later: seq<Action>)
    requires IsRun(START, before) && Enabled(After(START, before), ReadLog(id))
    requires IsRun(Next(After(START, before), ReadLog(id)), later)
    ensures var read := After(START, before);
            var h := After(Next(read, ReadLog(id)), later);
            && id in h.clients && Ascending(h.clients[id].logged)
            && (forall k | k in h.clients[id].logged :: 0 < k <= read.last && read.clients[id].since < k)
            && (h.clients[id].phase.Live? ==>
                  forall k | 0 < k <= read.last && read.clients[id].since < k :: k in h.clients[id].logged)
  {
    hide IsRun, After, Sub, NoRepeats, LogPast;
    StartDelivers();
    RunDelivers(START, before);
    var read := After(START, before);
    assert ClientFits(read, id, read.clients[id]);
    var n := Next(read, ReadLog(id));
    var log := LogPast(read.clients[id].since, read.last);
    assert FromLog(n.clients[id]) == log;
    ReplayKept(n, later, id, log);
    var c := After(n, later).clients[id];
    LogPastMeaning(read.clients[id].since, read.last);
    LoggedIsPrefix(c, log);
  }

  lemma LogPastMeaning(since: int, last: int)
    ensures Ascending(LogPast(since, last))
    ensures last >= 0 ==> forall k :: k in LogPast(since, last) <==> 0 < k <= last && since < k
  {
    RangeAscends(if since < 0 then 0 else since, last);
  }

  lemma LoggedIsPrefix(c: Client, log: seq<int>)
    requires FromLog(c) <= log && Ascending(log) && (!c.phase.Closed? ==> FromLog(c) == log)
    ensures Ascending(c.logged) && (forall k | k in c.logged :: k in log) && (c.phase.Live? ==> c.logged == log)
  {
    assert forall i | 0 <= i < |c.logged| :: c.logged[i] == FromLog(c)[i] == log[i];
  }
}
