/** The peer daemon's delivery protocol: what was sent stays cached until the remote daemon
    acknowledges it, and is sent again, in order, after every reconnect. */
module PeerDelivery {
  import opened Types

  /** What identifies a protocol message to a receipt: its swap and its type. */
  datatype Key = Key(swap: SwapId, kind: nat)

  datatype Message =
    | Protocol(key: Key, body: nat)
    | Receipt(acked: Key)
    | Other(size: nat)

  datatype Notice = Disconnected | Reconnected | PeerdTerminated | FailedPeerMessage(msg: Message)

  /** The daemon: its cache, what it put on the link and what it told the other daemons. */
  datatype Peer = Peer(fromListener: bool, cache: seq<Message>, wire: seq<Message>, notices: seq<Notice>) {
    function Tell(n: Notice): Peer {
      this.(notices := notices + [n])
    }

    function Put(m: Message): Peer {
      this.(wire := wire + [m])
    }
  }

  /** Which of the next attempts to connect or send will work. Without a prediction left
      they all do: a call that returns is one that got through in the end. */
  type Luck = seq<bool>

  predicate Fails(luck: Luck) {
    luck != [] && !luck[0]
  }

  function Later(luck: Luck): (rest: Luck)
    ensures |rest| <= |luck| && (luck != [] ==> |rest| < |luck|)
  {
    if luck == [] then [] else luck[1..]
  }

  /** The outcome of an operation, with the attempts still to come. */
  datatype Tried = Tried(peer: Peer, luck: Luck, ok: bool)

  /** Sends messages one after the other, up to the first that fails. */
  function Emit(p: Peer, msgs: seq<Message>, luck: Luck): (t: Tried)
    ensures |t.luck| <= |luck| && (!t.ok ==> |t.luck| < |luck|)
    decreases |msgs|
  {
    if msgs == [] then Tried(p, luck, true)
    else if Fails(luck) then Tried(p, Later(luck), false)
    else Emit(p.Put(msgs[0]), msgs[1..], Later(luck))
  }

  /** Dials until a connection stands. */
  function Dial(luck: Luck): (rest: Luck)
    ensures |rest| <= |luck|
  {
    if Fails(luck) then Dial(Later(luck)) else Later(luck)
  }

  function ReconnectPeer(p: Peer, luck: Luck): (t: Tried)
    ensures |t.luck| <= |luck| && (!t.ok ==> |t.luck| < |luck|)
  {
    var t := Emit(p, p.cache, Dial(luck));
    if t.ok then t.(peer := t.peer.Tell(Reconnected)) else t
  }

  /** Reconnects until the whole cache is out again. */
  function Reconnect(p: Peer, luck: Luck): (t: Tried)
    ensures t.ok && |t.luck| <= |luck|
    decreases |luck|
  {
    var t := ReconnectPeer(p, luck);
    if t.ok then t else Reconnect(t.peer, t.luck)
  }

  predicate HasKey(m: Message, k: Key) {
    m.Protocol? && m.key == k
  }

  /** The first cached message with a key is dropped. */
  function Without(cache: seq<Message>, k: Key): seq<Message> {
    if cache == [] then []
    else if HasKey(cache[0], k) then cache[1..]
    else [cache[0]] + Without(cache[1..], k)
  }

  function Returned(cache: seq<Message>): seq<Notice> {
    if cache == [] then [] else [FailedPeerMessage(cache[0])] + Returned(cache[1..])
  }

  /** A daemon forked from a listener cannot reconnect: it gives back what is cached and
      waits to be terminated. */
  function GiveUp(p: Peer): Peer {
    p.(cache := [], notices := p.notices + Returned(p.cache) + [PeerdTerminated])
  }

  function HandleMsg(p: Peer, m: Message, luck: Luck): Tried
    decreases |luck|
  {
    if Fails(luck) then
      var q := p.Tell(Disconnected);
      if p.fromListener then Tried(GiveUp(q), Later(luck), false)
      else
        var t := Reconnect(q, Later(luck));
        HandleMsg(t.peer, m, t.luck)
    else
      var q := p.Put(m);
      Tried(if m.Protocol? then q.(cache := Without(q.cache, m.key) + [m]) else q, Later(luck), true)
  }

  function HandleReceipt(p: Peer, k: Key): Peer {
    p.(cache := Without(p.cache, k))
  }

  /** The receiving half of the connection has shut down. */
  function HandleShutdown(p: Peer, luck: Luck): Tried {
    var q := p.Tell(Disconnected);
    if p.fromListener then
      Tried(q.(cache := [], notices := q.notices + [PeerdTerminated] + Returned(p.cache)), luck, false)
    else Reconnect(q, luck)
  }

  // ----- the cache -----

  ghost predicate Cached(cache: seq<Message>) {
    && (forall i :: 0 <= i < |cache| ==> cache[i].Protocol?)
    && (forall i, j :: 0 <= i < j < |cache| && cache[i].Protocol? && cache[j].Protocol? ==>
       cache[i].key != cache[j].key)
  }

  lemma {:induction false} WithoutKeeps(cache: seq<Message>, k: Key)
    requires Cached(cache)
    ensures Cached(Without(cache, k))
    ensures forall m :: m in Without(cache, k) <==> m in cache && !HasKey(m, k)
  {
    if cache != [] {
      var rest := cache[1..];
      assert Cached(rest) by { assert forall i :: 0 <= i < |rest| ==> rest[i] == cache[i + 1]; }
      WithoutKeeps(rest, k);
      var w := Without(rest, k);
      assert forall m :: m in cache <==> m == cache[0] || m in rest;
      if !HasKey(cache[0], k) {
        assert forall i :: 0 <= i < |w| ==> w[i] in rest;
        assert forall m :: m in rest && m.Protocol? ==> m.key != cache[0].key;
      } else {
        assert forall m :: m in rest ==> !HasKey(m, k);
      }
    }
  }

  // ----- reconnecting -----

  lemma {:induction false} EmitSends(p: Peer, msgs: seq<Message>, luck: Luck)
    ensures var t := Emit(p, msgs, luck);
      && t.peer == p.(wire := t.peer.wire) && p.wire <= t.peer.wire <= p.wire + msgs
      && (t.ok ==> t.peer.wire == p.wire + msgs)
    decreases |msgs|
  {
    if msgs != [] && !Fails(luck) {
      EmitSends(p.Put(msgs[0]), msgs[1..], Later(luck));
      assert p.wire + msgs == p.wire + [msgs[0]] + msgs[1..];
    }
  }

  ghost predicate From(wire: seq<Message>, cache: seq<Message>) {
    forall m :: m in wire ==> m in cache
  }

  /** A reconnect loses nothing from the cache, and what it ends with on the link is the
      whole cache in order; before that there are only repetitions of it. */
  lemma {:induction false} ReconnectResends(p: Peer, luck: Luck)
    ensures var r := Reconnect(p, luck).peer;
      && r.cache == p.cache && r.fromListener == p.fromListener
      && p.wire <= r.wire && From(r.wire[|p.wire|..], p.cache)
      && |r.wire| >= |p.wire| + |p.cache| && r.wire[|r.wire| - |p.cache|..] == p.cache
      && r.notices == p.notices + [Reconnected]
    decreases |luck|
  {
    var t := ReconnectPeer(p, luck);
    EmitSends(p, p.cache, Dial(luck));
    var e := Emit(p, p.cache, Dial(luck)).peer.wire;
    assert From(e[|p.wire|..], p.cache) by { assert e == (p.wire + p.cache)[..|e|]; }
    if !t.ok {
      ReconnectResends(t.peer, t.luck);
      var r := Reconnect(p, luck).peer.wire;
      assert r[|p.wire|..] == e[|p.wire|..] + r[|e|..];
    }
  }

  /** Handing a message to a connecting daemon: it is on the link and in the cache, in place
      of an older one of its kind, and nothing else is lost. */
  lemma {:induction false} HandedIsCached(p: Peer, m: Message, luck: Luck)
    requires !p.fromListener
    ensures var t := HandleMsg(p, m, luck); var r := t.peer;
      && t.ok && !r.fromListener
      && r.cache == (if m.Protocol? then Without(p.cache, m.key) + [m] else p.cache)
      && p.wire < r.wire && r.wire[|r.wire| - 1] == m && From(r.wire[|p.wire|..], p.cache + [m])
    decreases |luck|
  {
    if Fails(luck) {
      var q := p.Tell(Disconnected);
      var t := Reconnect(q, Later(luck));
      ReconnectResends(q, Later(luck));
      HandedIsCached(t.peer, m, t.luck);
      var r := HandleMsg(p, m, luck).peer.wire;
      assert r[|p.wire|..] == t.peer.wire[|p.wire|..] + r[|t.peer.wire|..];
    } else {
      assert (p.wire + [m])[|p.wire|..] == [m];
    }
  }

  lemma HandingKeepsCache(p: Peer, m: Message, luck: Luck)
    requires Cached(p.cache) && !p.fromListener
    ensures Cached(HandleMsg(p, m, luck).peer.cache)
    ensures forall c :: c in p.cache && !(m.Protocol? && HasKey(c, m.key)) ==> c in HandleMsg(p, m, luck).peer.cache
  {
    HandedIsCached(p, m, luck);
    if m.Protocol? {
      WithoutKeeps(p.cache, m.key);
      var w := Without(p.cache, m.key);
      assert forall i :: 0 <= i < |w| ==> w[i] in w;
    }
  }

  /** A listener-side daemon gives back everything it had cached, but not the message whose
      sending failed. */
  lemma ListenerLosesTheMessage(p: Peer, m: Message, luck: Luck)
    requires p.fromListener && Fails(luck)
    ensures var r := HandleMsg(p, m, luck).peer;
      && r.cache == [] && r.wire == p.wire
      && r.notices == p.notices + [Disconnected] + Returned(p.cache) + [PeerdTerminated]
      && (FailedPeerMessage(m) in r.notices <==> FailedPeerMessage(m) in p.notices || m in p.cache)
  {
    ReturnedIsCache(p.cache, m);
  }

  lemma {:induction false} ReturnedIsCache(cache: seq<Message>, m: Message)
    ensures FailedPeerMessage(m) in Returned(cache) <==> m in cache
    ensures |Returned(cache)| == |cache| && forall i :: 0 <= i < |cache| ==>
      Returned(cache)[i] == FailedPeerMessage(cache[i])
  {
    if cache != [] { ReturnedIsCache(cache[1..], m); }
  }

  // ----- a connecting daemon, a lossy link, a remote daemon -----

  /** The daemon, everything handed to it, what is under way in both directions, and what
      the remote daemon has forwarded. */
  datatype Net = Net(peer: Peer, handed: seq<Message>, inFlight: set<Message>, acks: set<Key>, forwarded: set<Message>)

  ghost function OnLink(before: Peer, after: Peer): set<Message> {
    set m | m in after.wire && |before.wire| <= |after.wire| && m in after.wire[|before.wire|..]
  }

  ghost predicate TakesIn(n: Net, r: Net, m: Message, luck: Luck) {
    var peer := HandleMsg(n.peer, m, luck).peer;
    r == n.(peer := peer, inFlight := n.inFlight + OnLink(n.peer, peer), handed := if m.Protocol? then n.handed + [m]
      else n.handed)
  }

  /** A message is handed over under a key of its own. */
  ghost predicate Hands(n: Net, r: Net, m: Message, luck: Luck) {
    (m.Protocol? ==> forall h :: h in n.handed ==> !HasKey(h, m.key)) && TakesIn(n, r, m, luck)
  }

  /** The link may lose anything, at any time. */
  predicate Loses(n: Net, r: Net) {
    r.inFlight <= n.inFlight && r.acks <= n.acks && r == n.(inFlight := r.inFlight, acks := r.acks)
  }

  /** The remote daemon forwards a protocol message to its swap and acknowledges it. */
  predicate Delivers(n: Net, r: Net, m: Message) {
    m in n.inFlight && m.Protocol? && r == n.(forwarded := n.forwarded + {m}, acks := n.acks + {m.key})
  }

  predicate Acknowledges(n: Net, r: Net, k: Key) {
    k in n.acks && r == n.(peer := HandleReceipt(n.peer, k))
  }

  ghost predicate Shuts(n: Net, r: Net, luck: Luck) {
    var peer := HandleShutdown(n.peer, luck).peer;
    r == n.(peer := peer, inFlight := n.inFlight + OnLink(n.peer, peer))
  }

  ghost predicate NetStep(n: Net, r: Net) {
    || (exists m, luck :: Hands(n, r, m, luck))
    || Loses(n, r)
    || (exists m :: Delivers(n, r, m))
    || (exists k :: Acknowledges(n, r, k))
    || (exists luck :: Shuts(n, r, luck))
  }

  ghost predicate NetRun(states: seq<Net>) {
    && |states| > 0
    && states[0] == Net(Peer(false, [], [], []), [], {}, {}, {})
    && forall i :: 0 < i < |states| ==> NetStep(states[i - 1], states[i])
  }

  ghost predicate OneEach(handed: seq<Message>) {
    forall a, b :: a in handed && b in handed && a.Protocol? && b.Protocol? && a.key == b.key ==> a == b
  }

  ghost predicate NetOk(n: Net) {
    && !n.peer.fromListener && Cached(n.peer.cache)
    && OneEach(n.handed)
    && (forall m :: m in n.peer.cache ==> m in n.handed)
    && (forall m :: m in n.inFlight && m.Protocol? ==> m in n.handed)
    && (forall m :: m in n.forwarded ==> m in n.handed && m.Protocol?)
    && (forall k :: k in n.acks ==> exists m :: m in n.forwarded && HasKey(m, k))
    && (forall m :: m in n.handed ==> m.Protocol? && (m in n.peer.cache || m in n.forwarded))
  }

  lemma HandsKeeps(n: Net, r: Net, m: Message, luck: Luck)
    requires NetOk(n) && Hands(n, r, m, luck)
    ensures NetOk(r)
  {
    HandedIsCached(n.peer, m, luck);
    HandingKeepsCache(n.peer, m, luck);
    if m.Protocol? { WithoutKeeps(n.peer.cache, m.key); }
  }

  lemma AcknowledgesKeeps(n: Net, r: Net, k: Key)
    requires NetOk(n) && Acknowledges(n, r, k)
    ensures NetOk(r)
  {
    WithoutKeeps(n.peer.cache, k);
    var f :| f in n.forwarded && HasKey(f, k);
  }

  lemma ShutsKeeps(n: Net, r: Net, luck: Luck)
    requires NetOk(n) && Shuts(n, r, luck)
    ensures NetOk(r)
  {
    ReconnectResends(n.peer.Tell(Disconnected), luck);
  }

  lemma NetStepKeeps(n: Net, r: Net)
    requires NetOk(n) && NetStep(n, r)
    ensures NetOk(r)
  {
    hide Cached, OneEach;
    if m, luck :| Hands(n, r, m, luck) { HandsKeeps(n, r, m, luck); }
    else if Loses(n, r) { }
    else if m :| Delivers(n, r, m) { }
    else if k :| Acknowledges(n, r, k) { AcknowledgesKeeps(n, r, k); }
    else { var luck :| Shuts(n, r, luck); ShutsKeeps(n, r, luck); }
  }

  /** At-least-once delivery: over any run, with any losses, drops and reconnects, what was
      handed over is still cached or has been forwarded by the remote daemon, and the cache
      holds each key once. */
  lemma {:induction false} AtLeastOnce(states: seq<Net>, i: nat, m: Message)
    requires NetRun(states) && i < |states|
    ensures NetOk(states[i])
    ensures m in states[i].handed ==> m in states[i].peer.cache || m in states[i].forwarded
  {
    if i > 0 {
      AtLeastOnce(states, i - 1, m);
      NetStepKeeps(states[i - 1], states[i]);
    }
  }

  /** Without a key of its own a message can be lost, and exactly so: what is cached and not yet
      forwarded leaves the cache when another message is handed over under its key, or when a
      receipt for its key arrives, and never otherwise. */
  lemma LostExactlyByItsKey(n: Net, r: Net, m: Message)
    requires !n.peer.fromListener && Cached(n.peer.cache) && m in n.peer.cache && m !in n.forwarded
    ensures forall h, luck :: TakesIn(n, r, h, luck) ==>
      (m !in r.peer.cache <==> h.Protocol? && h.key == m.key && h != m)
    ensures forall k :: Acknowledges(n, r, k) ==> (m !in r.peer.cache <==> k == m.key)
    ensures forall luck :: Shuts(n, r, luck) ==> m in r.peer.cache
    ensures Loses(n, r) || (exists d :: Delivers(n, r, d)) ==> m in r.peer.cache
  {
    forall h, luck | TakesIn(n, r, h, luck)
      ensures m !in r.peer.cache <==> h.Protocol? && h.key == m.key && h != m
    {
      HandedIsCached(n.peer, h, luck);
      if h.Protocol? { WithoutKeeps(n.peer.cache, h.key); }
    }
    forall k | Acknowledges(n, r, k)
      ensures m !in r.peer.cache <==> k == m.key
    {
      WithoutKeeps(n.peer.cache, k);
    }
    forall luck | Shuts(n, r, luck)
      ensures m in r.peer.cache
    {
      ReconnectResends(n.peer.Tell(Disconnected), luck);
    }
  }

  /** For one: the receipt for a first message of a kind also drops a
      second one, whether or not that was ever forwarded. */
  lemma ReusedKeyIsLost(k: Key, first: Message, second: Message)
    requires first == Protocol(k, 1) && second == Protocol(k, 2)
    ensures var p := HandleMsg(HandleMsg(Peer(false, [], [], []), first, []).peer, second, []).peer;
      second in p.cache && second !in HandleReceipt(p, k).cache
  {
    assert Without([first], k) == [];
    assert Without([second], k) == [];
  }
}
