/** The peer daemon as it runs: one object whose cache is searched, shortened, extended and
    drained in place, with loops that block until the connection stands. */
module PeerdRuntime {
  import Delivery = PeerDelivery
  import opened PeerDelivery

  class PeerRuntime {
    const forkedFromListener: bool
    var uncheckedMsgCache: seq<Message>
    ghost var wire: seq<Message>
    ghost var notices: seq<Notice>

    ghost function View(): Peer
      reads this
    {
      Peer(forkedFromListener, uncheckedMsgCache, wire, notices)
    }

    constructor (forkedFromListener: bool)
      ensures View() == Peer(forkedFromListener, [], [], [])
    {
      this.forkedFromListener := forkedFromListener;
      uncheckedMsgCache, wire, notices := [], [], [];
    }

    method Tell(n: Notice)
      modifies this`notices
      ensures View() == old(View()).Tell(n)
    {
      notices := notices + [n];
    }

    method SendMessage(m: Message, luck: Luck) returns (ok: bool, rest: Luck)
      modifies this`wire
      ensures ok == !Fails(luck) && rest == Later(luck)
      ensures View() == if ok then old(View()).Put(m) else old(View())
    {
      ok := !Fails(luck);
      rest := Later(luck);
      if ok { wire := wire + [m]; }
    }

    method ReconnectPeer(luck: Luck) returns (ok: bool, rest: Luck)
      modifies this`wire, this`notices
      ensures Tried(View(), rest, ok) == Delivery.ReconnectPeer(old(View()), luck)
    {
      rest := luck;
      while Fails(rest)
        invariant Dial(rest) == Dial(luck)
        decreases |rest|
      {
        rest := Later(rest);
      }
      rest := Later(rest);
      ok := true;
      var i := 0;
      while i < |uncheckedMsgCache|
        invariant 0 <= i <= |uncheckedMsgCache|
        invariant notices == old(notices)
        invariant Emit(View(), uncheckedMsgCache[i..], rest) == Emit(old(View()), uncheckedMsgCache, Dial(luck))
      {
        ok, rest := SendMessage(uncheckedMsgCache[i], rest);
        if !ok { return; }
        i := i + 1;
      }
      Tell(Reconnected);
    }

    method Reconnect(luck: Luck) returns (rest: Luck)
      modifies this`wire, this`notices
      ensures Tried(View(), rest, true) == Delivery.Reconnect(old(View()), luck)
    {
      var ok;
      ok, rest := ReconnectPeer(luck);
      while !ok
        invariant uncheckedMsgCache == old(uncheckedMsgCache)
        invariant Delivery.Reconnect(old(View()), luck) == if ok then Tried(View(), rest, true)
          else Delivery.Reconnect(View(), rest)
        decreases |rest|, !ok
      {
        ok, rest := ReconnectPeer(rest);
      }
    }

    /** Removes the first cached message with a key, by position. */
    method Forget(k: Key)
      modifies this`uncheckedMsgCache
      ensures uncheckedMsgCache == Without(old(uncheckedMsgCache), k)
    {
      var pos := 0;
      while pos < |uncheckedMsgCache| && !HasKey(uncheckedMsgCache[pos], k)
        invariant 0 <= pos <= |uncheckedMsgCache| && uncheckedMsgCache == old(uncheckedMsgCache)
        invariant Without(uncheckedMsgCache, k) == uncheckedMsgCache[..pos] + Without(uncheckedMsgCache[pos..], k)
      {
        pos := pos + 1;
      }
      if pos < |uncheckedMsgCache| {
        uncheckedMsgCache := uncheckedMsgCache[..pos] + uncheckedMsgCache[pos + 1..];
      }
    }

    /** Drains the cache, giving each message back to its swap. */
    method GiveBack()
      modifies this`uncheckedMsgCache, this`notices
      ensures uncheckedMsgCache == [] && notices == old(notices) + Returned(old(uncheckedMsgCache))
    {
      while uncheckedMsgCache != []
        invariant notices + Returned(uncheckedMsgCache) == old(notices) + Returned(old(uncheckedMsgCache))
        decreases |uncheckedMsgCache|
      {
        Tell(FailedPeerMessage(uncheckedMsgCache[0]));
        uncheckedMsgCache := uncheckedMsgCache[1..];
      }
    }

    method HandleMsg(m: Message, luck: Luck) returns (ok: bool, rest: Luck)
      modifies this
      ensures Tried(View(), rest, ok) == Delivery.HandleMsg(old(View()), m, luck)
    {
      rest := luck;
      ok := false;
      while !ok
        invariant uncheckedMsgCache == old(uncheckedMsgCache)
        invariant Delivery.HandleMsg(old(View()), m, luck)
          == if ok then Tried(if m.Protocol? then View().(cache := Without(View().cache, m.key) + [m])
            else View(), rest, true)
             else Delivery.HandleMsg(View(), m, rest)
        decreases |rest|, !ok
      {
        ok, rest := SendMessage(m, rest);
        if !ok {
          Tell(Disconnected);
          if forkedFromListener {
            GiveBack();
            Tell(PeerdTerminated);
            return;
          }
          rest := Reconnect(rest);
        }
      }
      if m.Protocol? {
        Forget(m.key);
        uncheckedMsgCache := uncheckedMsgCache + [m];
      }
    }

    method HandleReceipt(k: Key)
      modifies this`uncheckedMsgCache
      ensures View() == Delivery.HandleReceipt(old(View()), k)
    {
      Forget(k);
    }

    method HandleShutdown(luck: Luck) returns (ok: bool, rest: Luck)
      modifies this
      ensures Tried(View(), rest, ok) == Delivery.HandleShutdown(old(View()), luck)
    {
      Tell(Disconnected);
      if forkedFromListener {
        Tell(PeerdTerminated);
        GiveBack();
        return false, luck;
      }
      rest := Reconnect(luck);
      ok := true;
    }
  }
}
