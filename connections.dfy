/**
 * The connection registry: every open WebSocket's record, in the order the sockets
 * connected, the views the handlers take of it, and delivery of events. A socket is a
 * number; `open` is the set of sockets whose `readyState` is `OPEN`, and `outbox` the
 * `(socket, event)` pairs actually written, in order.
 */
module Connections {
  import opened Wrappers
  import opened Sequences
  import opened OrderedMaps
  import opened Protocol
  import opened Config
  import RateLimit

  type Socket = nat

  /** Every connection's limiter admits this many messages … */
  const MaxRequests := 30
  /** … per this many milliseconds. */
  const WindowMs := 10000

  /**
   * A `Connection` record. `authTimer` names the pending authentication timer the
   * record holds, and `stamps` is the state of its `RateLimiter(30, 10000)`.
   */
  datatype Conn = Conn(
    ws: Socket,
    publicKey: Option<string>,
    name: Option<string>,
    bio: Option<string>,
    authenticated: bool,
    authNonce: Option<string>,
    authTimer: Option<nat>,
    joinedChannels: set<string>,
    voiceChannelId: Option<string>,
    stamps: seq<int>)

  /** What every record keeps: the limiter's bound, and an identity once authenticated. */
  ghost predicate ConnOk(c: Conn) {
    |c.stamps| <= MaxRequests
    && (c.authenticated ==> Truthy(c.publicKey) && c.authNonce.None?)
  }

  /** The record `addConnection` creates. */
  function NewConn(ws: Socket): (c: Conn)
    ensures ConnOk(c) && !c.authenticated && c.publicKey.None? && c.name.None? && c.bio.None?
    ensures c.authNonce.None? && c.authTimer.None? && c.joinedChannels == {} && c.voiceChannelId.None?
    ensures c.ws == ws && c.stamps == []
  {
    Conn(ws, None, None, None, false, None, None, {}, None, [])
  }

  predicate InChannel(c: Conn, channelId: string) {
    channelId in c.joinedChannels
  }

  /** `c.authenticated && c.publicKey`. */
  predicate IsMember(c: Conn) {
    c.authenticated && Truthy(c.publicKey)
  }

  predicate IsMemberC(c: Conn, u: ()) {
    IsMember(c)
  }

  /** `getChannelConnections`. */
  function ChannelConnections(all: seq<Conn>, channelId: string): seq<Conn> {
    FilterWith(all, InChannel, channelId)
  }

  /** `getAuthenticatedConnections`. */
  function AuthenticatedConnections(all: seq<Conn>): seq<Conn> {
    FilterWith(all, IsMemberC, ())
  }

  /** `getConnectionByPublicKey`: the first authenticated record carrying the key. */
  function ConnectionByPublicKey(all: seq<Conn>, publicKey: string): (r: Option<Conn>)
    ensures r.Some? ==> r.value in all && r.value.authenticated && r.value.publicKey == Some(publicKey)
    ensures r.None? <==> forall i :: 0 <= i < |all| ==> !(all[i].authenticated && all[i].publicKey == Some(publicKey))
  {
    if all == [] then None
    else if all[0].authenticated && all[0].publicKey == Some(publicKey) then Some(all[0])
    else
      var r := ConnectionByPublicKey(all[1..], publicKey);
      assert forall i :: 1 <= i < |all| ==> all[i] == all[1..][i - 1];
      r
  }

  /** The first matching record comes before every other record that matches. */
  lemma {:induction false} ConnectionByPublicKeyIsFirst(all: seq<Conn>, publicKey: string, k: int)
    requires 0 <= k < |all| && all[k].authenticated && all[k].publicKey == Some(publicKey)
    ensures ConnectionByPublicKey(all, publicKey).Some?
    ensures exists j :: (0 <= j <= k && all[j] == ConnectionByPublicKey(all, publicKey).value
      && forall i :: 0 <= i < j ==> !(all[i].authenticated && all[i].publicKey == Some(publicKey)))
  {
    if !(all[0].authenticated && all[0].publicKey == Some(publicKey)) {
      ConnectionByPublicKeyIsFirst(all[1..], publicKey, k - 1);
      var j :| 0 <= j <= k - 1 && all[1..][j] == ConnectionByPublicKey(all[1..], publicKey).value
        && forall i :: 0 <= i < j ==> !(all[1..][i].authenticated && all[1..][i].publicKey == Some(publicKey));
      assert all[j + 1] == ConnectionByPublicKey(all, publicKey).value;
      forall i | 0 <= i < j + 1
        ensures !(all[i].authenticated && all[i].publicKey == Some(publicKey))
      {
        if i > 0 {
          assert all[i] == all[1..][i - 1];
        }
      }
    }
  }

  /** The sockets of a list of records. */
  function SocketsOf(targets: seq<Conn>): set<Socket> {
    set c | c in targets :: c.ws
  }

  /** What `send` writes for one record: the event, if the socket is open and not excluded. */
  function DeliveryTo(c: Conn, exclude: Option<Socket>, open: set<Socket>, e: Event): seq<(Socket, Event)> {
    if exclude != Some(c.ws) && c.ws in open then [(c.ws, e)] else []
  }

  /** The writes of a broadcast over `targets`, in their order. */
  function Deliveries(targets: seq<Conn>, exclude: Option<Socket>, open: set<Socket>, e: Event): seq<(Socket, Event)> {
    if targets == [] then []
    else Deliveries(targets[..|targets| - 1], exclude, open, e) + DeliveryTo(targets[|targets| - 1], exclude, open, e)
  }

  /** What `send` writes to one socket: the event when the socket is open, otherwise nothing. */
  function Unicast(open: set<Socket>, ws: Socket, e: Event): seq<(Socket, Event)> {
    if ws in open then [(ws, e)] else []
  }

  /** What sending each event in turn to one socket writes. */
  function UnicastAll(open: set<Socket>, ws: Socket, es: seq<Event>): seq<(Socket, Event)> {
    if es == [] then []
    else UnicastAll(open, ws, es[..|es| - 1]) + Unicast(open, ws, es[|es| - 1])
  }

  /** Sending a list of events to a socket writes exactly that list to it when it is open, and nothing otherwise. */
  lemma {:induction false} UnicastAllExact(open: set<Socket>, ws: Socket, es: seq<Event>)
    ensures UnicastAll(open, ws, es) == if ws in open then seq(|es|, i requires 0 <= i < |es| => (ws, es[i])) else []
  {
    if es != [] {
      UnicastAllExact(open, ws, es[..|es| - 1]);
    }
  }

  /** The writes of one broadcast per event, in order. */
  function DeliveriesEach(targets: seq<Conn>, exclude: Option<Socket>, open: set<Socket>, es: seq<Event>): seq<(Socket, Event)> {
    if es == [] then []
    else DeliveriesEach(targets, exclude, open, es[..|es| - 1]) + Deliveries(targets, exclude, open, es[|es| - 1])
  }

  /** Appending in two steps appends the concatenation. */
  lemma Appended<T>(a: seq<T>, b: seq<T>, c: seq<T>)
    ensures a + b + c == a + (b + c)
  {
  }

  /** A broadcast over one more target writes what it wrote before, then that target's delivery. */
  lemma DeliveriesStep(targets: seq<Conn>, exclude: Option<Socket>, open: set<Socket>, e: Event, i: nat)
    requires i < |targets|
    ensures Deliveries(targets[..i + 1], exclude, open, e)
         == Deliveries(targets[..i], exclude, open, e) + DeliveryTo(targets[i], exclude, open, e)
  {
    assert targets[..i + 1][..i] == targets[..i];
  }

  /** Broadcasting one more event writes what was written before, then that event's broadcast. */
  lemma DeliveriesEachStep(targets: seq<Conn>, exclude: Option<Socket>, open: set<Socket>, es: seq<Event>, i: nat)
    requires i < |es|
    ensures DeliveriesEach(targets, exclude, open, es[..i + 1])
         == DeliveriesEach(targets, exclude, open, es[..i]) + Deliveries(targets, exclude, open, es[i])
  {
    assert es[..i + 1][..i] == es[..i];
  }

  /** The key of an authenticated record (`c.publicKey!`). */
  function KeyOf(c: Conn): string {
    c.publicKey.GetOr("")
  }

  /** `getAuthenticatedConnections().map((c) => c.publicKey!)`. */
  function OnlineKeys(all: seq<Conn>): (r: seq<string>)
    ensures |r| == |AuthenticatedConnections(all)|
  {
    var members := AuthenticatedConnections(all);
    seq(|members|, i requires 0 <= i < |members| => KeyOf(members[i]))
  }

  /** The records of members other than the socket `ws`. */
  predicate IsOtherMember(c: Conn, ws: Socket) {
    IsMember(c) && c.ws != ws
  }

  function OtherMembers(all: seq<Conn>, ws: Socket): seq<Conn> {
    FilterWith(all, IsOtherMember, ws)
  }

  /** A broadcast writes `e` to exactly the open, non-excluded sockets of its targets, and nothing else. */
  lemma {:induction false} DeliveriesExact(targets: seq<Conn>, exclude: Option<Socket>, open: set<Socket>, e: Event)
    ensures forall d :: d in Deliveries(targets, exclude, open, e) ==> d.1 == e
    ensures forall w :: (w, e) in Deliveries(targets, exclude, open, e) <==>
      w in open && exclude != Some(w) && w in SocketsOf(targets)
  {
    if targets != [] {
      var init := targets[..|targets| - 1];
      DeliveriesExact(init, exclude, open, e);
      assert targets == init + [targets[|targets| - 1]];
      assert SocketsOf(targets) == SocketsOf(init) + {targets[|targets| - 1].ws};
    }
  }

  /** The registry of live connections, the sockets that are open, and what was sent. */
  class Registry {
    var conns: OMap<Socket, Conn>
    var open: set<Socket>
    var outbox: seq<(Socket, Event)>

    /** Each record is filed under its own socket and keeps `ConnOk`. */
    ghost predicate Valid()
      reads this
    {
      conns.Valid() && forall w :: w in conns.vals ==> conns.vals[w].ws == w && ConnOk(conns.vals[w])
    }

    constructor ()
      ensures Valid() && conns == Empty() && open == {} && outbox == []
    {
      conns := Empty();
      open := {};
      outbox := [];
    }

    /** `getAllConnections`: the records in the order their sockets connected. */
    function All(): (r: seq<Conn>)
      reads this
      requires Valid()
      ensures |r| == |conns.keys| && forall i :: 0 <= i < |r| ==> r[i] == conns.vals[conns.keys[i]]
    {
      conns.Values()
    }

    /** `getConnection`. */
    function Get(ws: Socket): (r: Option<Conn>)
      reads this
      requires Valid()
      ensures r.Some? <==> ws in conns.vals
      ensures r.Some? ==> r.value.ws == ws && ConnOk(r.value)
    {
      if ws in conns.vals then Some(conns.vals[ws]) else None
    }

    /** `addConnection`: a fresh record for a socket that has just opened. */
    method AddConnection(ws: Socket) returns (c: Conn)
      requires Valid()
      modifies this
      ensures Valid()
      ensures c == NewConn(ws)
      ensures conns == old(conns).Put(ws, c) && open == old(open) + {ws} && outbox == old(outbox)
    {
      c := NewConn(ws);
      conns := conns.Put(ws, c);
      open := open + {ws};
    }

    /** `removeConnection`: drop the socket's record and hand it back. */
    method RemoveConnection(ws: Socket) returns (r: Option<Conn>)
      requires Valid()
      modifies this`conns
      ensures Valid()
      ensures r == old(Get(ws))
      ensures conns == old(conns).Remove(ws)
      ensures Get(ws).None? && forall w :: w != ws ==> Get(w) == old(Get(w))
    {
      r := Get(ws);
      conns := conns.Remove(ws);
    }

    /** The handlers' assignments to a record's fields. */
    method Update(c: Conn)
      requires Valid() && c.ws in conns.vals && ConnOk(c)
      modifies this`conns
      ensures Valid()
      ensures conns == old(conns).Put(c.ws, c) && conns.keys == old(conns.keys)
      ensures Get(c.ws) == Some(c) && forall w :: w != c.ws ==> Get(w) == old(Get(w))
    {
      conns := conns.Put(c.ws, c);
    }

    /** `send`: write the event when the socket is open, otherwise do nothing. */
    method Send(ws: Socket, e: Event)
      modifies this`outbox
      ensures outbox == old(outbox) + Unicast(open, ws, e)
    {
      if ws in open {
        outbox := outbox + [(ws, e)];
      }
    }

    /** `send` of each event in turn to one socket. */
    method SendEach(ws: Socket, es: seq<Event>)
      modifies this`outbox
      ensures outbox == old(outbox) + UnicastAll(open, ws, es)
    {
      for i := 0 to |es|
        invariant outbox == old(outbox) + UnicastAll(open, ws, es[..i])
      {
        assert es[..i + 1][..i] == es[..i];
        Send(ws, es[i]);
      }
      assert es[..|es|] == es;
    }

    /** `ws.close()`: the socket leaves the `OPEN` state; its record stays until the close event. */
    method CloseSocket(ws: Socket)
      modifies this`open
      ensures open == old(open) - {ws}
    {
      open := open - {ws};
    }

    /** Send to each of `targets` except the excluded socket. */
    method SendAll(targets: seq<Conn>, e: Event, exclude: Option<Socket>)
      modifies this`outbox
      ensures outbox == old(outbox) + Deliveries(targets, exclude, open, e)
    {
      for i := 0 to |targets|
        invariant outbox == old(outbox) + Deliveries(targets[..i], exclude, open, e)
      {
        DeliveriesStep(targets, exclude, open, e, i);
        ghost var sent := Deliveries(targets[..i], exclude, open, e);
        if exclude != Some(targets[i].ws) {
          Send(targets[i].ws, e);
        }
        Appended(old(outbox), sent, DeliveryTo(targets[i], exclude, open, e));
      }
      assert targets[..|targets|] == targets;
    }

    /** `broadcastToChannel`. */
    method BroadcastToChannel(channelId: string, e: Event, exclude: Option<Socket>)
      requires Valid()
      modifies this`outbox
      ensures outbox == old(outbox) + Deliveries(ChannelConnections(All(), channelId), exclude, open, e)
    {
      SendAll(ChannelConnections(All(), channelId), e, exclude);
    }

    /** `broadcastToAll`. */
    method BroadcastToAll(e: Event, exclude: Option<Socket>)
      requires Valid()
      modifies this`outbox
      ensures outbox == old(outbox) + Deliveries(AuthenticatedConnections(All()), exclude, open, e)
    {
      SendAll(AuthenticatedConnections(All()), e, exclude);
    }

    /** `broadcastToAll` of each event in turn. */
    method BroadcastEach(es: seq<Event>, exclude: Option<Socket>)
      requires Valid()
      modifies this`outbox
      ensures outbox == old(outbox) + DeliveriesEach(AuthenticatedConnections(All()), exclude, open, es)
    {
      SendAllEach(AuthenticatedConnections(All()), es, exclude);
    }

    /** Send each event in turn to each of `targets` except the excluded socket. */
    method SendAllEach(targets: seq<Conn>, es: seq<Event>, exclude: Option<Socket>)
      modifies this`outbox
      ensures outbox == old(outbox) + DeliveriesEach(targets, exclude, open, es)
    {
      for i := 0 to |es|
        invariant outbox == old(outbox) + DeliveriesEach(targets, exclude, open, es[..i])
      {
        DeliveriesEachStep(targets, exclude, open, es, i);
        ghost var sent := DeliveriesEach(targets, exclude, open, es[..i]);
        SendAll(targets, es[i], exclude);
        Appended(old(outbox), sent, Deliveries(targets, exclude, open, es[i]));
      }
      assert es[..|es|] == es;
    }
  }

  /**
   * A channel broadcast reaches exactly the open sockets whose records joined the
   * channel, other than the excluded one.
   */
  lemma ChannelBroadcastReaches(conns: OMap<Socket, Conn>, channelId: string, exclude: Option<Socket>,
                                open: set<Socket>, e: Event, w: Socket)
    requires conns.Valid() && forall v :: v in conns.vals ==> conns.vals[v].ws == v
    ensures (w, e) in Deliveries(ChannelConnections(conns.Values(), channelId), exclude, open, e) <==>
      w in conns.vals && channelId in conns.vals[w].joinedChannels && w in open && exclude != Some(w)
  {
    var targets := ChannelConnections(conns.Values(), channelId);
    DeliveriesExact(targets, exclude, open, e);
    ReachedRecords(conns, targets, InChannel, channelId, w);
  }

  /**
   * A broadcast to all reaches exactly the open sockets of authenticated records with
   * an identity, other than the excluded one; an unauthenticated record never hears it.
   */
  lemma AllBroadcastReaches(conns: OMap<Socket, Conn>, exclude: Option<Socket>,
                            open: set<Socket>, e: Event, w: Socket)
    requires conns.Valid() && forall v :: v in conns.vals ==> conns.vals[v].ws == v
    ensures (w, e) in Deliveries(AuthenticatedConnections(conns.Values()), exclude, open, e) <==>
      w in conns.vals && IsMember(conns.vals[w]) && w in open && exclude != Some(w)
  {
    var targets := AuthenticatedConnections(conns.Values());
    DeliveriesExact(targets, exclude, open, e);
    ReachedRecords(conns, targets, IsMemberC, (), w);
  }

  /** A filter of the registry holds a record for `w` exactly when `w`'s record passes the test. */
  lemma ReachedRecords<A>(conns: OMap<Socket, Conn>, targets: seq<Conn>, p: (Conn, A) -> bool, a: A, w: Socket)
    requires conns.Valid() && forall v :: v in conns.vals ==> conns.vals[v].ws == v
    requires targets == FilterWith(conns.Values(), p, a)
    ensures w in SocketsOf(targets) <==> w in conns.vals && p(conns.vals[w], a)
  {
    var all := conns.Values();
    if w in SocketsOf(targets) {
      var c :| c in targets && c.ws == w;
      assert c in all;
      var k :| 0 <= k < |all| && all[k] == c;
      assert conns.keys[k] in conns.vals;
    }
    if w in conns.vals && p(conns.vals[w], a) {
      var k :| 0 <= k < |conns.keys| && conns.keys[k] == w;
      assert all[k] in targets;
    }
  }
}
