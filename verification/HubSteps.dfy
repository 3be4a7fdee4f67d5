/** The hub class takes the protocol's steps: its table and channels always show a protocol state. */
module HubSteps {
  import opened EventStream

  // ---- A publication as one step ----

  /** The clients after every target was offered the event. */
  function Offers(clients: map<int, Client>, targets: set<int>, k: int): map<int, Client> {
    map id | id in clients :: if id in targets then Sent(clients[id], k) else clients[id]
  }

  lemma OffersNobody(clients: map<int, Client>, k: int)
    ensures Offers(clients, {}, k) == clients
  {
  }

  lemma OffersOneMore(clients: map<int, Client>, targets: set<int>, id: int, k: int)
    requires id in clients && id in targets
    ensures Offers(clients[id := Sent(clients[id], k)], targets - {id}, k) == Offers(clients, targets, k)
  {
    hide Sent;
  }

  /** The protocol state after every subscriber was offered the loaded event. */
  function Published(h: Hub): Hub
    requires h.publisher.Loaded?
  {
    h.(publisher := Waiting, clients := Offers(h.clients, h.subscribers, h.publisher.seqNo))
  }

  ghost predicate Lists(order: seq<int>, ids: set<int>) {
    && (forall id :: id in order <==> id in ids)
    && forall i, j | 0 <= i < j < |order| :: order[i] != order[j]
  }

  function Sends(order: seq<int>): seq<Action> {
    if order == [] then [Done] else [Send(order[0])] + Sends(order[1..])
  }

  lemma {:induction false} SendsAll(h: Hub, order: seq<int>)
    requires h.publisher.Sending? && Lists(order, h.publisher.targets) && h.publisher.targets <= h.clients.Keys
    ensures IsRun(h, Sends(order))
    ensures After(h, Sends(order)) ==
            h.(publisher := Waiting, clients := Offers(h.clients, h.publisher.targets, h.publisher.seqNo))
    decreases |order|
  {
    hide Sent, Offers;
    var actions := Sends(order);
    if order == [] {
      forall x ensures x !in h.publisher.targets { assert x !in order; }
      assert actions[1..] == [] && After(Next(h, Done), []) == Next(h, Done);
      OffersNobody(h.clients, h.publisher.seqNo);
    } else {
      var id := order[0];
      assert order[0] in order;
      var n := Next(h, Send(id));
      OffersOneMore(h.clients, h.publisher.targets, id, h.publisher.seqNo);
      assert forall x :: x in order <==> x == id || x in order[1..];
      assert forall i | 0 <= i < |order[1..]| :: order[1..][i] == order[i + 1];
      assert actions[1..] == Sends(order[1..]);
      SendsAll(n, order[1..]);
    }
  }

  /** In whatever order the subscribers are served, a publication is a run of the protocol with one outcome. */
  lemma PublishIsRun(h: Hub, order: seq<int>)
    requires h.publisher.Loaded? && Lists(order, h.subscribers) && h.subscribers <= h.clients.Keys
    ensures IsRun(h, [Snapshot] + Sends(order)) && After(h, [Snapshot] + Sends(order)) == Published(h)
  {
    hide Lists;
    var n := Next(h, Snapshot);
    SendsAll(n, order);
    assert ([Snapshot] + Sends(order))[1..] == Sends(order);
  }

  // ---- What the class shows ----

  function Frames(events: seq<int>, frameOf: int -> string): (frames: seq<string>)
    ensures |frames| == |events| && forall i | 0 <= i < |frames| :: frames[i] == frameOf(events[i])
  {
    seq(|events|, i requires 0 <= i < |events| => frameOf(events[i]))
  }

  function Subscribers(subs: map<string, set<Channel>>, enc: string): set<Channel> {
    if enc in subs then subs[enc] else {}
  }

  /** The channels of an encounter are its protocol subscribers and hold the frames of their buffers. */
  ghost predicate Shows(hub: EncounterHub, enc: string, name: map<Channel, int>, h: Hub, frameOf: int -> string)
    reads hub, Subscribers(hub.subs, enc)
  {
    var chs := Subscribers(hub.subs, enc);
    && chs <= name.Keys
    && (forall a, b | a in chs && b in chs && name[a] == name[b] :: a == b)
    && h.subscribers == (set ch | ch in chs :: name[ch])
    && h.subscribers <= h.clients.Keys
    && forall ch | ch in chs ::
         !ch.closed && !h.clients[name[ch]].phase.Closed?
         && ch.frames == Frames(h.clients[name[ch]].buffer, frameOf)
  }

  /** A subscription is the protocol's opening step. */
  method SubscribeShown(hub: EncounterHub, enc: string, ghost name: map<Channel, int>, ghost h: Hub, ghost frameOf: int -> string,
      ghost id: int, ghost since: int) returns (ch: Channel)
    requires hub.Valid() && Shows(hub, enc, name, h, frameOf) && Enabled(h, Open(id, since))
    modifies hub
    ensures hub.Valid() && fresh(ch) && Shows(hub, enc, name[ch := id], Next(h, Open(id, since)), frameOf)
  {
    ghost var before := Subscribers(hub.subs, enc);
    ch := hub.Subscribe(enc);
    assert Subscribers(hub.subs, enc) == before + {ch} && ch !in before;
    assert Next(h, Open(id, since)).subscribers == h.subscribers + {id};
  }

  /** Ending a subscription is the protocol's closing step. */
  method UnsubscribeShown(hub: EncounterHub, enc: string, ch: Channel, ghost name: map<Channel, int>, ghost h: Hub,
      ghost frameOf: int -> string)
    requires hub.Valid() && Shows(hub, enc, name, h, frameOf) && ch in Subscribers(hub.subs, enc)
    modifies hub, ch`closed
    ensures hub.Valid() && ch.closed && Enabled(h, Close(name[ch])) && Shows(hub, enc, name, Next(h, Close(name[ch])), frameOf)
  {
    ghost var before := Subscribers(hub.subs, enc);
    hub.Unsubscribe(enc, ch);
    assert Subscribers(hub.subs, enc) == before - {ch};
  }

  /** A publication to the encounter's channels is the protocol's publication. */
  method PublishShown(hub: EncounterHub, enc: string, frame: string, ghost name: map<Channel, int>, ghost h: Hub,
      ghost frameOf: int -> string)
    requires Shows(hub, enc, name, h, frameOf) && h.publisher.Loaded? && frame == frameOf(h.publisher.seqNo)
    modifies Subscribers(hub.subs, enc)
    ensures hub.subs == old(hub.subs) && Shows(hub, enc, name, Published(h), frameOf)
  {
    hub.PublishLocal(enc, frame);
    assert Published(h).subscribers == h.subscribers && Published(h).clients.Keys == h.clients.Keys;
    forall ch | ch in Subscribers(hub.subs, enc)
      ensures !ch.closed && name[ch] in Published(h).clients && !Published(h).clients[name[ch]].phase.Closed?
      ensures ch.frames == Frames(Published(h).clients[name[ch]].buffer, frameOf)
    {
      var c := h.clients[name[ch]];
      assert name[ch] in h.subscribers && Published(h).clients[name[ch]] == Sent(c, h.publisher.seqNo);
      assert ch.frames == Offered(Frames(c.buffer, frameOf), frame);
      OfferedFrames(c.buffer, h.publisher.seqNo, frameOf);
    }
  }

  /** Offering the event to a buffer and its frame to a channel keeps them together. */
  lemma OfferedFrames(events: seq<int>, k: int, frameOf: int -> string)
    ensures Frames(Offered(events, k), frameOf) == Offered(Frames(events, frameOf), frameOf(k))
  {
  }
}
