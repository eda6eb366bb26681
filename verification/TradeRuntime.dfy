/** farcasterd as it runs: one object whose vector of machines is searched, drained and pushed
    to, and whose service sets change in place. */
module TradeRuntime {
  import opened Types
  import Spec = Trades
  import opened Trades

  class FarcasterdRuntime {
    var tradeStateMachines: seq<Machine>
    var registeredServices: seq<Service>
    var spawningServices: seq<Service>
    var deals: set<PublicDeal>
    ghost var log: seq<Deed>

    ghost function View(): Node
      reads this
    {
      Node(tradeStateMachines, registeredServices, spawningServices, deals, log)
    }

    constructor ()
      ensures View() == FRESH
    {
      tradeStateMachines, registeredServices, spawningServices := [], [], [];
      deals, log := {}, [];
    }

    method SendTo(h: Host, to: Service, msg: Message) returns (ok: bool)
      modifies this`log
      ensures ok == (to in h.reachable)
      ensures View() == if ok then old(View()).Tell(to, msg) else old(View())
    {
      ok := to in h.reachable;
      if ok { log := log + [Told(to, msg)]; }
    }

    /** Starts a process; what it announces itself as is expected from now on. */
    method Spawn(h: Host, s: Service) returns (ok: bool)
      modifies this`log, this`spawningServices
      ensures ok == (s in h.launchable)
      ensures View() == if !ok then old(View())
        else old(View()).(spawning := Inserted(old(View()).spawning, s), log := old(View()).log + [Launched(s)])
    {
      ok := s in h.launchable;
      if ok {
        log := log + [Launched(s)];
        spawningServices := Inserted(spawningServices, s);
      }
    }

    method HandleNewConnection(connection: Service)
      modifies this`registeredServices, this`spawningServices
      ensures View() == Registers(old(View()), connection)
    {
      if connection.Peer? {
        spawningServices := Removed(spawningServices, Peer(0, connection.address));
      }
      registeredServices := Inserted(registeredServices, connection);
    }

    method HandleFailedConnection(h: Host, connection: Service) returns (ok: bool)
      modifies this`registeredServices, this`spawningServices, this`log
      ensures ok == (connection in h.reachable)
      ensures var k := Unregisters(old(View()), connection); View() == if ok then k.Tell(connection, Terminate) else k
    {
      if connection.Peer? {
        spawningServices := Removed(spawningServices, Peer(0, connection.address));
      }
      registeredServices := Removed(registeredServices, connection);
      ok := SendTo(h, connection, Terminate);
    }

    /** The first service in iteration order that leads to a node. */
    static method FindNode(order: seq<Service>, members: seq<Service>, node: nat) returns (r: Option<Service>)
      ensures r == First(order, members, s => IsNode(s, node))
    {
      var i := 0;
      while i < |order|
        invariant 0 <= i <= |order|
        invariant First(order, members, s => IsNode(s, node)) == First(order[i..], members, s => IsNode(s, node))
      {
        if order[i] in members && IsNode(order[i], node) { return Some(order[i]); }
        i := i + 1;
      }
      r := None;
    }

    method ConnectPeer(h: Host, address: NodeAddr) returns (ok: bool, connected: bool, peerd: Service)
      modifies this`log, this`spawningServices
      ensures var c := Spec.ConnectPeer(old(View()), h, address);
        && ok == c.Found?
        && (ok ==> c == Found(View(), connected, peerd))
        && (!ok ==> View() == old(View()))
    {
      peerd := Peer(0, address);
      connected := false;
      if !h.ready { ok := false; return; }
      var waiting := FindNode(h.early + spawningServices, spawningServices, address.node);
      if waiting.Some? { return true, false, waiting.value; }
      var known := FindNode(h.early + registeredServices, registeredServices, address.node);
      if known.Some? { return true, true, known.value; }
      ok := Spawn(h, peerd);
    }

    // ----- starting a machine -----

    method AttemptTransitionToMakeDeal(h: Host, source: Service, deal: PublicDeal)
        returns (next: Option<Machine>, ok: bool)
      modifies this`log, this`deals
      ensures Ran(View(), next, ok) == StartMaker(old(View()), h, source, deal)
    {
      next := None;
      if !h.binds {
        ok := SendTo(h, source, Failure);
        return;
      }
      if !h.listens {
        ok := SendTo(h, source.Answering(), Failure);
        return;
      }
      ok := SendTo(h, Service.Database, SetDealStatus(deal, Open));
      if !ok { return; }
      ok := SendTo(h, source.Answering(), MadeDeal(deal));
      if !ok { return; }
      deals := deals + {deal};
      next := Some(MakeDeal(deal));
    }

    method RegisterTaken(h: Host, client: Service, deal: PublicDeal, peerd: Service)
        returns (next: Option<Machine>, ok: bool)
      modifies this`log, this`deals
      ensures Ran(View(), next, ok) == Take(old(View()), h, client, deal, peerd)
    {
      next := None;
      ok := SendTo(h, Wallet, CreateSwapKeys(deal));
      if !ok { return; }
      ok := SendTo(h, client.Answering(), TookDeal(deal));
      if !ok { return; }
      deals := deals + {deal};
      next := Some(TakeDeal(deal, peerd));
    }

    method ConsumedDealsContains(deal: PublicDeal) returns (found: bool)
      ensures found == Consumed(tradeStateMachines, deal)
    {
      for i := 0 to |tradeStateMachines|
        invariant forall j :: 0 <= j < i ==>
          !(!tradeStateMachines[j].MakeDeal? && tradeStateMachines[j].deal.id == deal.id)
      {
        if !tradeStateMachines[i].MakeDeal? && tradeStateMachines[i].deal.id == deal.id { return true; }
      }
      found := false;
    }

    method AttemptTransitionToTakerConnectOrTakeDeal(h: Host, source: Service, deal: PublicDeal)
      returns (next: Option<Machine>, ok: bool)
      modifies this`log, this`deals, this`spawningServices
      ensures Ran(View(), next, ok) == StartTaker(old(View()), h, source, deal)
    {
      next := None;
      var consumed := ConsumedDealsContains(deal);
      if consumed || deal in deals {
        ok := SendTo(h, source.Answering(), Failure);
        return;
      }
      var found, connected, peerd := ConnectPeer(h, deal.maker);
      if !found {
        ok := SendTo(h, source.Answering(), Failure);
      } else if connected {
        next, ok := RegisterTaken(h, source, deal, peerd);
      } else {
        next, ok := Some(TakerConnect(deal, source)), true;
      }
    }

    // ----- one machine -----

    method AttemptTransitionToTakerCommitted(h: Host, e: Event, m: Machine) returns (next: Option<Machine>, ok: bool)
      requires m.MakeDeal?
      modifies this`log
      ensures Ran(View(), next, ok) == NextOpen(old(View()), h, e, m)
    {
      next, ok := None, true;
      if e.request.CommitOfTaker? {
        if !e.source.Peer? || e.request.deal != m.deal { next := Some(m); return; }
        ok := SendTo(h, Wallet, CreateSwapKeys(m.deal));
        if !ok { return; }
        ok := SendTo(h, Service.Database, SetDealStatus(m.deal, InProgress));
        if !ok { return; }
        next := Some(Machine.TakerCommit(m.deal, e.source, e.request.swap));
      } else if e.request.RevokeDeal? {
        ok := SendTo(h, e.source.Answering(), Info);
        if ok && e.request.deal != m.deal { next := Some(m); }
      } else {
        next := Some(m);
      }
    }

    method AttemptTransitionToTakeDeal(h: Host, e: Event, m: Machine) returns (next: Option<Machine>, ok: bool)
      requires m.TakerConnect?
      modifies this
      ensures Ran(View(), next, ok) == NextConnecting(old(View()), h, e, m)
    {
      next, ok := None, true;
      if e.request.ConnectSuccess? && e.source.Address() == Some(m.deal.maker) {
        HandleNewConnection(e.source);
        next, ok := RegisterTaken(h, m.client, m.deal, e.source);
      } else if e.request.ConnectFailed? && e.source.Address() == Some(m.deal.maker) {
        ok := HandleFailedConnection(h, e.source);
        if !ok { return; }
        ok := SendTo(h, m.client.Answering(), Failure);
      } else {
        next := Some(m);
      }
    }

    method EnsureSyncer(h: Host, chain: Blockchain, network: nat) returns (ok: bool)
      modifies this`log, this`spawningServices
      ensures Ran(View(), None, ok) == SyncerUp(old(View()), h, chain, network)
    {
      var s := SyncerOf(chain, network);
      ok := true;
      if s !in registeredServices && s !in spawningServices {
        ok := Spawn(h, s);
      }
    }

    method TransitionToSwapdLaunched(h: Host, role: TradeRole, deal: PublicDeal, peerd: Service, swap: SwapId)
      returns (next: Option<Machine>, ok: bool)
      modifies this`log, this`spawningServices
      ensures Ran(View(), next, ok) == Launch(old(View()), h, role, deal, peerd, swap)
    {
      next := None;
      if !h.configured { return None, false; }
      ok := EnsureSyncer(h, Bitcoin, deal.network);
      if !ok { return; }
      ok := EnsureSyncer(h, Monero, deal.network);
      if !ok { return; }
      ok := Swap(swap) in h.launchable;
      if !ok { return; }
      log := log + [LaunchedSwapd(deal, swap, role)];
      var bitcoin, monero := SyncerOf(Bitcoin, deal.network), SyncerOf(Monero, deal.network);
      next := Some(SwapdLaunched(deal, peerd, swap, role,
                                 if bitcoin in registeredServices then Some(bitcoin) else None,
                                 if monero in registeredServices then Some(monero) else None, false, false));
    }

    /** The first registered service at the peer's address. */
    method FindPeer(h: Host, peerd: Service) returns (found: Option<Service>)
      ensures found == Spec.FindPeer(View(), h, peerd)
    {
      var order := h.early + registeredServices;
      var i := 0;
      while i < |order|
        invariant 0 <= i <= |order|
        invariant First(order, registeredServices, s => SamePeer(s, peerd))
          == First(order[i..], registeredServices, s => SamePeer(s, peerd))
      {
        if order[i] in registeredServices && SamePeer(order[i], peerd) { return Some(order[i]); }
        i := i + 1;
      }
      found := None;
    }

    method AttemptTransitionToSwapdRunning(h: Host, e: Event, m: Machine) returns (next: Option<Machine>, ok: bool)
      requires m.SwapdLaunched?
      modifies this`log
      ensures Ran(View(), next, ok) == NextLaunched(old(View()), h, e, m)
    {
      var peerd, arbitrating, accordant, swapdUp, reconnected := m.peerd, m.arbitrating, m.accordant, m.swapdUp,
        m.reconnected;
      if e.request.Hello? {
        if e.source == SyncerOf(Monero, m.deal.network) {
          accordant := Some(e.source);
        } else if e.source == Swap(m.swap) {
          swapdUp := true;
        } else if e.source == SyncerOf(Bitcoin, m.deal.network) {
          arbitrating := Some(e.source);
        }
      }
      var found := FindPeer(h, peerd);
      if found.Some? && found.value != peerd {
        peerd, reconnected := found.value, true;
      }
      if accordant.None? || arbitrating.None? || !swapdUp || found.None? {
        next := Some(SwapdLaunched(m.deal, peerd, m.swap, m.role, arbitrating, accordant, swapdUp, reconnected));
        ok := true;
        return;
      }
      next, ok := None, true;
      if reconnected {
        ok := SendTo(h, Swap(m.swap), PeerdReconnected(peerd));
        if !ok { return; }
      }
      ok := SendTo(h, Swap(m.swap), if m.role == Maker then MakeSwap(m.swap, peerd) else TakeSwap(m.swap, peerd));
      if !ok { return; }
      next := Some(SwapdRunning(m.deal, peerd, m.swap, m.role, arbitrating.value, accordant.value, false));
    }

    /** Drains a copy of the registered services, terminating what no machine uses. */
    method TerminateUnused(h: Host)
      modifies this`log, this`registeredServices
      ensures View() == CleanedUp(old(View()), h, old(View()).registered)
    {
      var services := registeredServices;
      var i := 0;
      while i < |services|
        invariant 0 <= i <= |services|
        invariant spawningServices == old(spawningServices) && deals == old(deals)
          && tradeStateMachines == old(tradeStateMachines)
        invariant CleanedUp(old(View()), h, services) == CleanedUp(View(), h, services[i..])
      {
        if Useless(tradeStateMachines, h, services[i]) {
          var ok := SendTo(h, services[i], Terminate);
          if ok { registeredServices := Removed(registeredServices, services[i]); }
        }
        i := i + 1;
      }
    }

    method CleanUpAfterSwap(h: Host, m: Machine, outcome: Outcome) returns (ok: bool)
      requires m.SwapdRunning?
      modifies this`log, this`registeredServices
      ensures Ran(View(), None, ok) == NextRunning(old(View()), h, Event(Swap(m.swap), SwapOutcome(outcome)), m)
    {
      ok := SendTo(h, Service.Database, SetDealStatus(m.deal, Ended(outcome)));
      if !ok { return; }
      ok := SendTo(h, Swap(m.swap), Terminate);
      if !ok { return; }
      ok := SendTo(h, Service.Database, RemoveCheckpoint(m.swap));
      TerminateUnused(h);
    }

    method AttemptTransitionToEnd(h: Host, e: Event, m: Machine) returns (next: Option<Machine>, ok: bool)
      requires m.SwapdRunning?
      modifies this`log, this`registeredServices, this`spawningServices
      ensures Ran(View(), next, ok) == NextRunning(old(View()), h, e, m)
    {
      next, ok := Some(m), true;
      match e.request
      case Hello =>
        if e.source.Peer? && e.source.Address() == m.peerd.Address() {
          ok := SendTo(h, Swap(m.swap), PeerdReconnected(e.source));
          if !ok { next := None; }
        }
      case FundingInfo(swap) => next := Some(m.(swap := swap, funding := true));
      case FundingCompleted => next := Some(m.(funding := false));
      case FundingCanceled => next := Some(m.(funding := false));
      case Connect(swap) =>
        if swap == m.swap {
          ok := SendTo(h, e.source.Answering(), Failure);
          if !ok { next := None; }
        }
      case PeerdUnreachable(peerd) =>
        if e.source == Swap(m.swap) && peerd in registeredServices {
          ok := HandleFailedConnection(h, peerd);
          if !ok { next := None; return; }
          ok := SendTo(h, peerd, Terminate);
        }
      case SwapOutcome(outcome) =>
        if e.source == Swap(m.swap) {
          next := None;
          ok := CleanUpAfterSwap(h, m, outcome);
        }
      case _ =>
    }

    /** Moves a machine by one event. */
    method Execute(h: Host, e: Event, m: Machine) returns (next: Option<Machine>, ok: bool)
      modifies this
      ensures Ran(View(), next, ok) == Next(old(View()), h, e, m)
    {
      next, ok := Some(m), true;
      match m
      case MakeDeal(_) => next, ok := AttemptTransitionToTakerCommitted(h, e, m);
      case TakerConnect(_, _) => next, ok := AttemptTransitionToTakeDeal(h, e, m);
      case TakerCommit(deal, peerd, swap) =>
        if e.request.SwapKeys? { next, ok := TransitionToSwapdLaunched(h, Maker, deal, peerd, swap); }
      case TakeDeal(deal, peerd) =>
        if e.request.SwapKeys? { next, ok := TransitionToSwapdLaunched(h, Taker, deal, peerd, deal.id); }
      case SwapdLaunched(_, _, _, _, _, _, _, _) => next, ok := AttemptTransitionToSwapdRunning(h, e, m);
      case SwapdRunning(_, _, _, _, _, _, _) => next, ok := AttemptTransitionToEnd(h, e, m);
    }

    // ----- the daemon -----

    /** Takes the first machine a request is for out of the vector. */
    method MatchRequestToTradeStateMachine(e: Event) returns (m: Option<Machine>)
      modifies this`tradeStateMachines
      ensures var was := old(tradeStateMachines); var i := Position(was, e);
        if i < |was| then m == Some(was[i]) && tradeStateMachines == Without(was, i)
        else m == None && tradeStateMachines == was
    {
      var pos := 0;
      while pos < |tradeStateMachines| && !Matches(tradeStateMachines[pos], e)
        invariant 0 <= pos <= |tradeStateMachines| && tradeStateMachines == old(tradeStateMachines)
        invariant Position(tradeStateMachines, e) == pos + Position(tradeStateMachines[pos..], e)
      {
        pos := pos + 1;
      }
      m := None;
      if pos < |tradeStateMachines| {
        m := Some(tradeStateMachines[pos]);
        tradeStateMachines := tradeStateMachines[..pos] + tradeStateMachines[pos + 1..];
      }
    }

    method ProcessRequestWithStateMachines(h: Host, e: Event) returns (ok: bool)
      modifies this
      ensures Stepped(View(), ok) == Process(old(View()), h, e)
    {
      var next: Option<Machine>;
      if e.request.AskMakeDeal? {
        next, ok := AttemptTransitionToMakeDeal(h, e.source, e.request.deal);
      } else if e.request.AskTakeDeal? {
        next, ok := AttemptTransitionToTakerConnectOrTakeDeal(h, e.source, e.request.deal);
      } else {
        var m := MatchRequestToTradeStateMachine(e);
        if m.None? {
          ok := true;
          if e.request.RevokeDeal? || e.request.Connect? {
            ok := SendTo(h, e.source, Failure);
          } else if e.request.CommitOfTaker? {
            ok := SendTo(h, e.source, Message.DealNotFound(e.request.swap));
          }
          return;
        }
        next, ok := Execute(h, e, m.value);
      }
      if next.Some? { tradeStateMachines := tradeStateMachines + [next.value]; }
    }

    /** Drains the machines, shows the announcement to each and pushes back what it becomes. */
    method ShowToAll(h: Host, e: Event) returns (ok: bool)
      modifies this
      ensures Stepped(View(), ok) == Show(old(View()).(machines := []), h, e, old(View()).machines)
    {
      var moved := tradeStateMachines;
      tradeStateMachines := [];
      ok := true;
      var i := 0;
      while i < |moved|
        invariant 0 <= i <= |moved|
        invariant Show(old(View()).(machines := []), h, e, moved) == Show(View(), h, e, moved[i..])
      {
        var next;
        next, ok := Execute(h, e, moved[i]);
        if !ok { return; }
        if next.Some? { tradeStateMachines := tradeStateMachines + [next.value]; }
        i := i + 1;
      }
    }

    method HandleHello(h: Host, source: Service) returns (ok: bool)
      modifies this
      ensures Stepped(View(), ok) == Step(old(View()), h, Event(source, Hello))
    {
      ok := true;
      match source {
        case Database =>
          registeredServices := Inserted(registeredServices, source);
          ok := SendTo(h, source, CleanDanglingDeals);
        case Wallet =>
          registeredServices := Inserted(registeredServices, source);
          ok := SendTo(h, source, GetKeys);
        case Peer(_, address) =>
          if !Awaited(tradeStateMachines, address) { HandleNewConnection(source); }
        case Syncer(_, _) =>
          if source in spawningServices {
            spawningServices := Removed(spawningServices, source);
            registeredServices := Inserted(registeredServices, source);
          }
        case _ =>
      }
      if ok { ok := ShowToAll(h, Event(source, Hello)); }
    }

    method Handle(h: Host, e: Event) returns (ok: bool)
      modifies this
      ensures Stepped(View(), ok) == Step(old(View()), h, e)
    {
      if e.request.Hello? {
        assert e == Event(e.source, Hello);
        ok := HandleHello(h, e.source);
      } else if e.request.PeerdTerminated? && e.source.Peer? {
        ok := HandleFailedConnection(h, e.source);
      } else {
        ok := ProcessRequestWithStateMachines(h, e);
      }
    }
  }
}
