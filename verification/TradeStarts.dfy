/** When farcasterd starts a launched swap: at once when it can be, with one exception, and
    once only, by the last announcement it was waiting for. */
module TradeStarts {
  import opened Types
  import opened Trades
  import opened TradeRuns

  // ----- as soon as it can be -----

  predicate Complete(m: Machine, registered: seq<Service>) {
    m.SwapdLaunched? && Missing(m) == {} && PeerUp(registered, m.peerd)
  }

  /** No machine has all it needs and still waits. */
  ghost predicate Prompt(n: Node) {
    forall m :: m in n.machines ==> !Complete(m, n.registered)
  }

  lemma GreetedIsPrompt(m: Machine, was: Machine, source: Service, registered: seq<Service>)
    requires Greeted(m, was, source, registered) && Linked(was) && Linked(m)
    ensures !Complete(m, registered)
  {
  }

  predicate Linked(m: Machine) {
    m.SwapdLaunched? ==> m.peerd.Peer?
  }

  lemma RightIsLinked(m: Machine, deals: set<PublicDeal>)
    requires Right(m, deals)
    ensures Linked(m)
  {
  }

  /** No service here stands for a peer that was not there before. */
  predicate NoNewPeer(before: seq<Service>, after: seq<Service>) {
    forall s :: s in after && s.Peer? ==> exists t :: t in before && t.Address() == s.Address()
  }

  lemma StillIncomplete(m: Machine, before: seq<Service>, after: seq<Service>)
    requires Linked(m) && !Complete(m, before) && NoNewPeer(before, after)
    ensures !Complete(m, after)
  {
    if m.SwapdLaunched? && PeerUp(after, m.peerd) {
      var s :| s in after && SamePeer(s, m.peerd);
      assert s.Peer?;
      var t :| t in before && t.Address() == s.Address();
      assert SamePeer(t, m.peerd);
    }
  }

  lemma HelloMakesPrompt(n: Node, h: Host, source: Service)
    requires Tidy(n) && Welcome(n, h, source).ok
    ensures Prompt(Step(n, h, Event(source, Hello)).node)
  {
    hide Greeted, Right, Complete, Step, TakenAreKnown;
    StepTidy(n, h, Event(source, Hello));
    HelloKeepsEveryone(n, h, source);
    var s := Step(n, h, Event(source, Hello)).node;
    forall m | m in s.machines
      ensures !Complete(m, s.registered)
    {
      var i :| 0 <= i < |s.machines| && s.machines[i] == m;
      assert n.machines[i] in n.machines;
      RightIsLinked(m, s.deals);
      RightIsLinked(n.machines[i], n.deals);
      GreetedIsPrompt(m, n.machines[i], source, s.registered);
    }
  }

  lemma RunningRegisters(n: Node, h: Host, e: Event, m: Machine)
    requires m.SwapdRunning?
    ensures forall s :: s in NextRunning(n, h, e, m).node.registered ==> s in n.registered
  {
    hide Useless, CleanedUp;
    if e.request.SwapOutcome? {
      var l := n.Tell(Service.Database, SetDealStatus(m.deal, Ended(e.request.outcome)))
                .Tell(Swap(m.swap), Terminate).Tell(Service.Database, RemoveCheckpoint(m.swap));
      CleaningKeeps(l, h, l.registered);
    }
  }

  /** A machine's step registers nobody but a peer that has just connected, and leaves no
      launched machine waiting for nothing. */
  lemma NextRegisters(n: Node, h: Host, e: Event, m: Machine)
    ensures var r := Next(n, h, e, m);
      && (forall s :: s in r.node.registered ==>
         s in n.registered || (s == e.source && e.request.ConnectSuccess? && s.Peer?))
      && (r.next.Some? ==> !Complete(r.next.value, n.registered))
  {
    hide NextRunning, FindPeer, PeerUp;
    if m.SwapdRunning? { RunningRegisters(n, h, e, m); RunningStays(n, h, e, m); }
    if m.SwapdLaunched? { FindPeerFinds(n, h, m.peerd); LaunchedWaits(n, h, e, m); }
  }

  lemma RunningStays(n: Node, h: Host, e: Event, m: Machine)
    requires m.SwapdRunning?
    ensures NextRunning(n, h, e, m).next.Some? ==> NextRunning(n, h, e, m).next.value.SwapdRunning?
  {
  }

  lemma LaunchedWaits(n: Node, h: Host, e: Event, m: Machine)
    requires m.SwapdLaunched?
    ensures var next := NextLaunched(n, h, e, m).next; next.Some? ==> !Complete(next.value, n.registered)
  {
    hide FindPeer, PeerUp;
    FindPeerFinds(n, h, m.peerd);
  }

  /** The one event that may leave a machine waiting for nothing: a peer connects for another
      deal, from an address that was not registered. */
  predicate Reconnects(n: Node, e: Event) {
    && e.request.ConnectSuccess? && e.source.Peer? && Awaited(n.machines, e.source.address)
    && forall s :: s in n.registered ==> s.Address() != Some(e.source.address)
  }

  lemma ProcessRegisters(n: Node, h: Host, e: Event)
    requires !e.request.Hello?
    ensures !Reconnects(n, e) ==> NoNewPeer(n.registered, Step(n, h, e).node.registered)
  {
    hide Next, StartMaker, StartTaker, Unclaimed;
    if e.request.AskMakeDeal? {
      StartsRegister(n, h, e.source, e.request.deal);
    } else if e.request.AskTakeDeal? {
      StartsRegister(n, h, e.source, e.request.deal);
    } else {
      UnclaimedMarks(n, h, e);
      var i := Position(n.machines, e);
      if i < |n.machines| { NextRegisters(n.(machines := Without(n.machines, i)), h, e, n.machines[i]); }
    }
  }

  lemma StartsRegister(n: Node, h: Host, source: Service, deal: PublicDeal)
    ensures StartMaker(n, h, source, deal).node.registered == n.registered
    ensures StartTaker(n, h, source, deal).node.registered == n.registered
  {
    hide First, Inserted, Consumed;
  }

  lemma ProcessPrompt(n: Node, h: Host, e: Event, m: Machine)
    requires !e.request.Hello? && m in Step(n, h, e).node.machines
    ensures m in n.machines || !Complete(m, n.registered)
  {
    hide Next, StartMaker, StartTaker, Unclaimed, Complete;
    if e.request.AskMakeDeal? {
      StartsFresh(n, h, e.source, e.request.deal);
    } else if e.request.AskTakeDeal? {
      StartsFresh(n, h, e.source, e.request.deal);
    } else {
      UnclaimedMarks(n, h, e);
      var i := Position(n.machines, e);
      if i < |n.machines| {
        var k := n.(machines := Without(n.machines, i));
        NextRegisters(k, h, e, n.machines[i]);
        NextTouches(k, h, e, n.machines[i]);
      }
    }
  }

  lemma StartsFresh(n: Node, h: Host, source: Service, deal: PublicDeal)
    ensures var r := StartMaker(n, h, source, deal);
      r.node.machines == n.machines && (r.next.Some? ==> !Complete(r.next.value, n.registered))
    ensures var r := StartTaker(n, h, source, deal);
      r.node.machines == n.machines && (r.next.Some? ==> !Complete(r.next.value, n.registered))
  {
    hide StartTaker;
    StartTakerMarks(n, h, source, deal);
  }

  /** A swap is started the moment it can be: no event but a reconnection for another deal
      leaves a launched machine with both syncers, its swap daemon and its peer. */
  lemma StepStaysPrompt(n: Node, h: Host, e: Event)
    requires Tidy(n) && Prompt(n) && !Reconnects(n, e)
    ensures Prompt(Step(n, h, e).node)
  {
    hide Right, Complete, Step, NoNewPeer, Reconnects, TakenAreKnown;
    var s := Step(n, h, e).node;
    StepTidy(n, h, e);
    if e.request.Hello? && Welcome(n, h, e.source).ok {
      assert e == Event(e.source, Hello);
      HelloMakesPrompt(n, h, e.source);
    } else {
      forall m | m in s.machines
        ensures !Complete(m, s.registered)
      {
        RightIsLinked(m, s.deals);
        if e.request.Hello? {
          FailedWelcome(n, h, e);
        } else {
          ProcessPrompt(n, h, e, m);
          ProcessRegisters(n, h, e);
        }
        StillIncomplete(m, n.registered, s.registered);
      }
    }
  }

  lemma FailedWelcome(n: Node, h: Host, e: Event)
    requires e.request.Hello? && !Welcome(n, h, e.source).ok
    ensures Step(n, h, e).node.machines == n.machines && NoNewPeer(n.registered, Step(n, h, e).node.registered)
  {
  }

  /** A machine that lacks nothing but its peer, which is not connected. */
  predicate LacksOnlyPeer(m: Machine, address: NodeAddr) {
    m.SwapdLaunched? && Missing(m) == {} && m.peerd.Address() == Some(address)
  }

  /** A reconnection for another deal while a machine waits for just this peer. */
  predicate LeavesWaiting(n: Node, e: Event) {
    Reconnects(n, e) && exists k :: 0 <= k < |n.machines| && LacksOnlyPeer(n.machines[k], e.source.address)
  }

  /** What that reconnection does: the first machine that awaits it goes on, whether or not it
      fails, and nobody else hears of it. */
  lemma ReconnectingMoves(n: Node, h: Host, e: Event)
    requires Reconnects(n, e)
    ensures var i := Position(n.machines, e); var s := Step(n, h, e).node;
      && i < |n.machines| && n.machines[i].TakerConnect? && e.source.Peer?
      && (s.machines == Without(n.machines, i)
          || exists m: Machine :: m.TakeDeal? && s.machines == Without(n.machines, i) + [m])
      && (forall s' :: s' in s.registered <==> s' in n.registered || s' == e.source)
  {
    hide Inserted, Removed;
    var i := Position(n.machines, e);
    var c := n.machines[i];
    TakeTouches(Registers(n.(machines := Without(n.machines, i)), e.source), h, c.client, c.deal, e.source);
  }

  /** It starts nobody: a machine that lacked only this peer keeps waiting. */
  lemma ReconnectingStartsNobody(n: Node, h: Host, e: Event, k: nat)
    requires Reconnects(n, e) && k < |n.machines| && LacksOnlyPeer(n.machines[k], e.source.address)
    ensures n.machines[k] in Step(n, h, e).node.machines && !Prompt(Step(n, h, e).node)
  {
    hide Step, Reconnects, Missing;
    ReconnectingMoves(n, h, e);
    var i := Position(n.machines, e);
    assert n.machines[k] == if k < i then Without(n.machines, i)[k] else Without(n.machines, i)[k - 1];
    assert SamePeer(e.source, n.machines[k].peerd);
  }

  lemma LackedOnlyThis(m: Machine, before: seq<Service>, after: seq<Service>, source: Service)
    requires Linked(m) && !Complete(m, before) && Complete(m, after)
    requires forall s :: s in after ==> s in before || s == source
    ensures source.Peer? && LacksOnlyPeer(m, source.address)
  {
    var s :| s in after && SamePeer(s, m.peerd);
  }

  /** And if nobody lacked only this peer, nobody waits for nothing. */
  lemma ReconnectingIsPrompt(n: Node, h: Host, e: Event)
    requires Prompt(n) && Tidy(n) && Reconnects(n, e) && !LeavesWaiting(n, e)
    ensures Prompt(Step(n, h, e).node)
  {
    hide Step, Missing, Right, TakenAreKnown;
    ReconnectingMoves(n, h, e);
    StepTidy(n, h, e);
    var s := Step(n, h, e).node;
    forall m | m in s.machines
      ensures !Complete(m, s.registered)
    {
      if Complete(m, s.registered) {
        RightIsLinked(m, s.deals);
        LackedOnlyThis(m, n.registered, s.registered, e.source);
        assert false;
      }
    }
  }

  /** A step keeps the swaps started that can be, except exactly in that case. */
  lemma StepStaysPromptExactly(n: Node, h: Host, e: Event)
    requires Tidy(n) && Prompt(n)
    ensures Prompt(Step(n, h, e).node) <==> !LeavesWaiting(n, e)
  {
    hide Tidy, Prompt, Step, Awaited, LacksOnlyPeer;
    if LeavesWaiting(n, e) {
      var k :| 0 <= k < |n.machines| && LacksOnlyPeer(n.machines[k], e.source.address);
      ReconnectingStartsNobody(n, h, e, k);
    } else if Reconnects(n, e) {
      ReconnectingIsPrompt(n, h, e);
    } else {
      StepStaysPrompt(n, h, e);
    }
  }

  /** The daemon was never in a state in which a swap could be started and was not. */
  ghost predicate AlwaysPrompt(turns: seq<Turn>) {
    forall i :: 0 <= i <= |turns| ==> Prompt(Run(FRESH, turns[..i]))
  }

  /** No turn of the run was a reconnection that leaves somebody waiting. */
  ghost predicate NeverLeftWaiting(turns: seq<Turn>) {
    forall i :: 0 <= i < |turns| ==> !LeavesWaiting(Run(FRESH, turns[..i]), turns[i].event)
  }

  /** Over whole runs, errors included: a swap is started the moment it can be, unless a peer
      reconnected for another deal while the machine of this one waited for it. */
  lemma {:induction false} RunIsPromptExactly(turns: seq<Turn>)
    ensures AlwaysPrompt(turns) <==> NeverLeftWaiting(turns)
    decreases |turns|
  {
    hide Prompt, LeavesWaiting, Step, Tidy, AlwaysPrompt, NeverLeftWaiting;
    if turns == [] {
      FreshIsPrompt(turns);
    } else {
      var before := turns[..|turns| - 1];
      var t := turns[|turns| - 1];
      RunIsPromptExactly(before);
      RunTidy(before);
      if Prompt(Run(FRESH, before)) { StepStaysPromptExactly(Run(FRESH, before), t.host, t.event); }
      PromptSplits(turns);
      if AlwaysPrompt(before) { LastIsPrompt(before); }
    }
  }

  lemma PromptSplits(turns: seq<Turn>)
    requires turns != []
    ensures var before := turns[..|turns| - 1]; var t := turns[|turns| - 1];
      && (AlwaysPrompt(turns) <==> AlwaysPrompt(before) && Prompt(Run(FRESH, turns)))
      && (NeverLeftWaiting(turns) <==> NeverLeftWaiting(before) && !LeavesWaiting(Run(FRESH, before), t.event))
  {
    hide Prompt, LeavesWaiting, Run;
    var before := turns[..|turns| - 1];
    assert turns[..|turns|] == turns;
    assert forall i :: 0 <= i <= |before| ==> turns[..i] == before[..i];
    if AlwaysPrompt(turns) {
      forall i | 0 <= i <= |before| ensures Prompt(Run(FRESH, before[..i])) { assert turns[..i] == before[..i]; }
    }
  }

  lemma LastIsPrompt(turns: seq<Turn>)
    requires AlwaysPrompt(turns)
    ensures Prompt(Run(FRESH, turns))
  {
    hide Prompt, Run;
    assert turns[..|turns|] == turns;
  }

  lemma FreshIsPrompt(turns: seq<Turn>)
    requires turns == []
    ensures AlwaysPrompt(turns) && NeverLeftWaiting(turns)
  {
  }

  // ----- a start that is missed -----

  const MAKER := NodeAddr(1, 1)
  const FIRSTDEAL := PublicDeal(1, MAKER, 0, 0)
  const SECONDDEAL := PublicDeal(2, MAKER, 0, 0)
  const BITCOIN := SyncerOf(Bitcoin, 0)
  const MONERO := SyncerOf(Monero, 0)
  const CLIENT := Service.Client(0)
  const DUMMY := Peer(0, MAKER)

  /** Everybody can be reached and launched. */
  const CALM := Host({Wallet, CLIENT, Peer(5, MAKER), Peer(6, MAKER), Swap(1)}, {DUMMY, BITCOIN, MONERO, Swap(1)},
                     [], {}, true, true, true, true)

  function FirstSwap(arbitrating: bool, accordant: bool, up: bool): Machine {
    SwapdLaunched(FIRSTDEAL, Peer(5, MAKER), 1, Taker, if arbitrating then Some(BITCOIN) else None,
                  if accordant then Some(MONERO) else None, up, false)
  }

  /** A deal is taken, and the connection to its maker breaks before the swap daemon is up.
      The maker connects again while another of its deals is being taken. */
  function MissedEvents(): seq<Event> {
    [ Event(CLIENT, AskTakeDeal(FIRSTDEAL)), Event(Peer(5, MAKER), ConnectSuccess), Event(Wallet, SwapKeys(FIRSTDEAL)),
      Event(BITCOIN, Hello), Event(MONERO, Hello), Event(Peer(5, MAKER), PeerdTerminated), Event(Swap(1), Hello),
      Event(CLIENT, AskTakeDeal(SECONDDEAL)), Event(Peer(6, MAKER), ConnectSuccess) ]
  }

  function MissedTurns(i: nat): seq<Turn>
    requires i <= 9
  {
    seq(i, j requires 0 <= j < i => Turn(CALM, MissedEvents()[j]))
  }

  /** The daemon after each of these events, but for what it has told others. */
  function MissedNode(i: nat, log: seq<Deed>): Node {
    match i
    case 0 => Node([], [], [], {}, log)
    case 1 => Node([TakerConnect(FIRSTDEAL, CLIENT)], [], [DUMMY], {}, log)
    case 2 => Node([TakeDeal(FIRSTDEAL, Peer(5, MAKER))], [Peer(5, MAKER)], [], {FIRSTDEAL}, log)
    case 3 => Node([FirstSwap(false, false, false)], [Peer(5, MAKER)], [BITCOIN, MONERO], {FIRSTDEAL}, log)
    case 4 => Node([FirstSwap(true, false, false)], [Peer(5, MAKER), BITCOIN], [MONERO], {FIRSTDEAL}, log)
    case 5 => Node([FirstSwap(true, true, false)], [Peer(5, MAKER), BITCOIN, MONERO], [], {FIRSTDEAL}, log)
    case 6 => Node([FirstSwap(true, true, false)], [BITCOIN, MONERO], [], {FIRSTDEAL}, log)
    case 7 => Node([FirstSwap(true, true, true)], [BITCOIN, MONERO], [], {FIRSTDEAL}, log)
    case 8 => Node([FirstSwap(true, true, true), TakerConnect(SECONDDEAL, CLIENT)], [BITCOIN, MONERO], [DUMMY],
      {FIRSTDEAL}, log)
    case _ => Node([FirstSwap(true, true, true), TakeDeal(SECONDDEAL, Peer(6, MAKER))],
      [BITCOIN, MONERO, Peer(6, MAKER)], [],
                   {FIRSTDEAL, SECONDDEAL}, log)
  }

  lemma {:induction false} NothingRemoved(s: seq<Service>, x: Service)
    requires x !in s
    ensures Removed(s, x) == s
  {
    if s != [] { NothingRemoved(s[1..], x); }
  }

  lemma FirstRemoved(x: Service, s: seq<Service>)
    requires x !in s
    ensures Removed([x] + s, x) == s
  {
    NothingRemoved(s, x);
    assert ([x] + s)[1..] == s;
  }

  lemma {:induction false} NoFirst(order: seq<Service>, members: seq<Service>, p: Service -> bool)
    requires forall s :: s in members ==> !p(s)
    ensures First(order, members, p) == None
  {
    if order != [] { NoFirst(order[1..], members, p); }
  }

  /** Both times a deal of this maker is taken, there is no connection to it. */
  lemma MissedTaking(i: nat, log: seq<Deed>) returns (l: seq<Deed>)
    requires i == 0 || i == 7
    ensures Step(MissedNode(i, log), CALM, MissedEvents()[i]) == Stepped(MissedNode(i + 1, l), true)
  {
    hide First;
    var n := MissedNode(i, log);
    NoFirst(CALM.early + n.spawning, n.spawning, s => IsNode(s, MAKER.node));
    NoFirst(CALM.early + n.registered, n.registered, s => IsNode(s, MAKER.node));
    l := log + [Launched(DUMMY)];
  }

  lemma MissedConnecting(i: nat, log: seq<Deed>) returns (l: seq<Deed>)
    requires i == 1 || i == 8
    ensures Step(MissedNode(i, log), CALM, MissedEvents()[i]) == Stepped(MissedNode(i + 1, l), true)
  {
    hide Removed;
    var n := MissedNode(i, log);
    FirstRemoved(DUMMY, []);
    assert [DUMMY] + [] == [DUMMY];
    assert Position(n.machines, MissedEvents()[i]) == |n.machines| - 1;
    assert Without(n.machines, |n.machines| - 1) == n.machines[..|n.machines| - 1];
    l := log + [Told(Wallet, CreateSwapKeys(n.machines[|n.machines| - 1].deal)),
      Told(CLIENT, TookDeal(n.machines[|n.machines| - 1].deal))];
  }

  lemma MissedLaunching(log: seq<Deed>) returns (l: seq<Deed>)
    ensures Step(MissedNode(2, log), CALM, MissedEvents()[2]) == Stepped(MissedNode(3, l), true)
  {
    var n := MissedNode(2, log);
    assert Position(n.machines, MissedEvents()[2]) == 0;
    assert Without(n.machines, 0) == [];
    l := log + [Launched(BITCOIN), Launched(MONERO), LaunchedSwapd(FIRSTDEAL, 1, Taker)];
  }

  lemma MissedAnnouncing(i: nat, log: seq<Deed>)
    requires i == 3 || i == 4 || i == 6
    ensures Step(MissedNode(i, log), CALM, MissedEvents()[i]) == Stepped(MissedNode(i + 1, log), true)
  {
    hide First, Removed;
    var n := MissedNode(i, log);
    var e := MissedEvents()[i];
    var w := Welcome(n, CALM, e.source).node;
    var m := n.machines[0];
    FirstRemoved(BITCOIN, [MONERO]);
    assert [BITCOIN] + [MONERO] == [BITCOIN, MONERO];
    FirstRemoved(MONERO, []);
    assert [MONERO] + [] == [MONERO];
    assert w == MissedNode(i + 1, log).(machines := n.machines);
    var k := w.(machines := []);
    if i == 6 {
      NoFirst(CALM.early + k.registered, k.registered, s => SamePeer(s, m.peerd));
    } else {
      FirstOf(CALM.early + k.registered, k.registered, s => SamePeer(s, m.peerd));
    }
    assert Next(k, CALM, e, m) == Ran(k, Some(MissedNode(i + 1, log).machines[0]), true);
    assert Show(k, CALM, e, [m]) == Show(k.Push(Some(MissedNode(i + 1, log).machines[0])), CALM, e, []);
  }

  lemma FirstOf(order: seq<Service>, members: seq<Service>, p: Service -> bool)
    requires order != [] && order[0] in members && p(order[0])
    ensures First(order, members, p) == Some(order[0])
  {
  }

  lemma MissedTerminating(log: seq<Deed>) returns (l: seq<Deed>)
    ensures Step(MissedNode(5, log), CALM, MissedEvents()[5]) == Stepped(MissedNode(6, l), true)
  {
    hide Removed;
    FirstRemoved(Peer(5, MAKER), [BITCOIN, MONERO]);
    assert [Peer(5, MAKER)] + [BITCOIN, MONERO] == [Peer(5, MAKER), BITCOIN, MONERO];
    NothingRemoved([], DUMMY);
    l := log + [Told(Peer(5, MAKER), Terminate)];
  }

  lemma MissedStep(i: nat, log: seq<Deed>) returns (l: seq<Deed>)
    requires i < 9
    ensures Step(MissedNode(i, log), CALM, MissedEvents()[i]) == Stepped(MissedNode(i + 1, l), true)
  {
    hide Step, MissedNode;
    if i == 0 || i == 7 {
      l := MissedTaking(i, log);
    } else if i == 1 || i == 8 {
      l := MissedConnecting(i, log);
    } else if i == 2 {
      l := MissedLaunching(log);
    } else if i == 5 {
      l := MissedTerminating(log);
    } else {
      MissedAnnouncing(i, log);
      l := log;
    }
  }

  lemma {:induction false} MissedRun(i: nat) returns (l: seq<Deed>)
    requires i <= 9
    ensures Run(FRESH, MissedTurns(i)) == MissedNode(i, l) && OkFrom(FRESH, MissedTurns(i))
  {
    hide Step, MissedEvents;
    if i == 0 {
      l := [];
    } else {
      var b := MissedRun(i - 1);
      assert MissedTurns(i)[..i - 1] == MissedTurns(i - 1);
      l := MissedStep(i - 1, b);
    }
  }

  lemma LastIsLeft(log: seq<Deed>)
    ensures LeavesWaiting(MissedNode(8, log), MissedEvents()[8])
  {
    var n := MissedNode(8, log);
    assert LacksOnlyPeer(n.machines[0], MAKER) && AwaitsConnect(n.machines[1], MAKER);
    assert Awaited(n.machines, MAKER);
    assert MissedEvents()[8] == Event(Peer(6, MAKER), ConnectSuccess);
    assert Reconnects(n, MissedEvents()[8]);
  }

  /** A run without errors after which a swap has all it needs and is not started. */
  lemma AStartIsMissed()
    ensures OkFrom(FRESH, MissedTurns(9)) && !NeverLeftWaiting(MissedTurns(9))
    ensures exists m :: m in Run(FRESH, MissedTurns(9)).machines && Complete(m, Run(FRESH, MissedTurns(9)).registered)
  {
    hide Run, OkFrom;
    var turns := MissedTurns(9);
    var l := MissedRun(9);
    var b := MissedRun(8);
    assert turns[..8] == MissedTurns(8);
    LastIsLeft(b);
    assert LeavesWaiting(Run(FRESH, turns[..8]), turns[8].event);
    assert Complete(FirstSwap(true, true, true), MissedNode(9, l).registered) by {
      assert SamePeer(Peer(6, MAKER), Peer(5, MAKER));
    }
  }

  // ----- once, by the last announcement needed -----

  /** Who has announced itself in a run. */
  function Heard(turns: seq<Turn>): set<Service> {
    set i | 0 <= i < |turns| && turns[i].event.request.Hello? :: turns[i].event.source
  }

  predicate HasPeer(registered: seq<Service>, peerd: Service) {
    exists s :: s in registered && s.Address() == peerd.Address()
  }

  /** A launched machine after some announcements, while something is still missing. */
  predicate Like(m: Machine, was: Machine, heard: set<Service>)
    requires was.SwapdLaunched?
  {
    && m.SwapdLaunched? && m.deal == was.deal && m.swap == was.swap && m.role == was.role
    && m.peerd.Address() == was.peerd.Address() && Missing(m) == Missing(was) - heard
  }

  /** Where the swap of a launched machine stands after some announcements: one machine waits
      for what has not been heard of, and none once everything has. */
  ghost predicate Stands(ms: seq<Machine>, was: Machine, heard: set<Service>)
    requires was.SwapdLaunched?
  {
    && (forall m :: m in ms && Waiting(was.swap)(m) ==> !(Missing(was) <= heard) && Like(m, was, heard))
    && Count(ms, Waiting(was.swap)) == if Missing(was) <= heard then 0 else 1
  }

  lemma LikeGreeted(m: Machine, k: Machine, was: Machine, heard: set<Service>, source: Service,
      registered: seq<Service>)
    requires was.SwapdLaunched? && was.peerd.Peer? && HasPeer(registered, was.peerd)
    requires !(Missing(was) <= heard) && Like(k, was, heard) && Greeted(m, k, source, registered)
    ensures if Missing(was) <= heard + {source} then m.SwapdRunning? else Like(m, was, heard + {source})
  {
    hide Missing;
    var s :| s in registered && s.Address() == was.peerd.Address();
    assert SamePeer(s, k.peerd);
    assert Missing(k) <= {source} <==> Missing(was) <= heard + {source};
  }

  lemma CountAround(ms: seq<Machine>, k: nat, p: Machine -> bool)
    requires k < |ms|
    ensures Count(ms, p) == Count(Without(ms, k), p) + Weight(p, Some(ms[k]))
  {
    hide Count;
    CountWithout(ms, k, p);
    CountPush(p);
  }

  lemma NoneElse(before: seq<Machine>, after: seq<Machine>, k: nat, p: Machine -> bool)
    requires k < |before| == |after|
    requires forall m :: m in Without(before, k) ==> !p(m)
    requires forall j :: 0 <= j < |after| && p(after[j]) ==> p(before[j])
    ensures forall m :: m in Without(after, k) ==> !p(m)
  {
    forall m | m in Without(after, k)
      ensures !p(m)
    {
      var i :| 0 <= i < |Without(after, k)| && Without(after, k)[i] == m;
      var j := if i < k then i else i + 1;
      assert after[j] == m && before[j] == Without(before, k)[i];
    }
  }

  /** If one machine has a property and others cannot come to have it, that one still decides. */
  lemma OnlyOneStays(before: seq<Machine>, after: seq<Machine>, k: nat, p: Machine -> bool)
    requires k < |before| == |after| && p(before[k]) && Count(before, p) == 1
    requires forall j :: 0 <= j < |after| && p(after[j]) ==> p(before[j])
    ensures Count(after, p) == Weight(p, Some(after[k]))
    ensures forall j :: 0 <= j < |after| && j != k ==> !p(after[j])
  {
    hide Count, Without;
    CountAround(before, k, p);
    CountAround(after, k, p);
    CountNone(Without(before, k), p);
    CountNone(Without(after, k), p);
    NoneElse(before, after, k, p);
    forall j | 0 <= j < |after| && j != k ensures !p(after[j]) { OthersAreWithout(after, j, k); }
  }

  lemma OthersAreWithout(ms: seq<Machine>, j: nat, k: nat)
    requires j < |ms| && k < |ms| && j != k
    ensures ms[j] in Without(ms, k)
  {
    assert Without(ms, k)[if j < k then j else j - 1] == ms[j];
  }

  /** An announcement, in which everybody is greeted in place. */
  lemma GreetedStands(before: seq<Machine>, after: seq<Machine>, was: Machine, heard: set<Service>, source: Service,
                      registered: seq<Service>)
    requires was.SwapdLaunched? && was.peerd.Peer? && HasPeer(registered, was.peerd) && Stands(before, was, heard)
    requires |after| == |before| && forall j :: 0 <= j < |after| ==> Greeted(after[j], before[j], source, registered)
    ensures Stands(after, was, heard + {source})
  {
    hide Count, Like, Missing, PeerUp;
    var p := Waiting(was.swap);
    assert forall j :: 0 <= j < |after| && p(after[j]) ==> p(before[j]);
    CountNone(before, p);
    CountNone(after, p);
    if Missing(was) <= heard {
      forall m | m in after ensures !p(m) { var j :| 0 <= j < |after| && after[j] == m; assert before[j] in before; }
    } else {
      var x :| x in before && p(x);
      var k :| 0 <= k < |before| && before[k] == x;
      OnlyOneStays(before, after, k, p);
      LikeGreeted(after[k], before[k], was, heard, source, registered);
      LikeWaits(after[k], was, heard + {source});
    }
  }

  lemma LikeWaits(m: Machine, was: Machine, heard: set<Service>)
    requires was.SwapdLaunched?
    ensures Like(m, was, heard) ==> Waiting(was.swap)(m)
  {
  }

  lemma HelloStands(n: Node, h: Host, source: Service, was: Machine, heard: set<Service>)
    requires was.SwapdLaunched? && was.peerd.Peer? && Stands(n.machines, was, heard)
    requires var s := Step(n, h, Event(source, Hello)); s.ok && HasPeer(s.node.registered, was.peerd)
    ensures Stands(Step(n, h, Event(source, Hello)).node.machines, was, heard + {source})
  {
    hide Step, Stands, Greeted;
    HelloOk(n, h, source);
    HelloKeepsEveryone(n, h, source);
    var s := Step(n, h, Event(source, Hello)).node;
    GreetedStands(n.machines, s.machines, was, heard, source, s.registered);
  }

  lemma HelloOk(n: Node, h: Host, source: Service)
    requires Step(n, h, Event(source, Hello)).ok
    ensures Welcome(n, h, source).ok
  {
  }

  lemma LikeStays(n: Node, h: Host, e: Event, m: Machine, was: Machine, heard: set<Service>)
    requires was.SwapdLaunched? && Like(m, was, heard) && !(Missing(was) <= heard) && !e.request.Hello?
    ensures var r := Next(n, h, e, m); r.next.Some? && Like(r.next.value, was, heard)
  {
    hide FindPeer, PeerUp;
    FindPeerFinds(n, h, m.peerd);
    assert Missing(m) != {};
  }

  lemma LaunchIsCounted(n: Node, h: Host, e: Event, m: Machine, swap: SwapId)
    requires !Waiting(swap)(m)
    ensures var r := Next(n, h, e, m);
      r.next.Some? && Waiting(swap)(r.next.value) ==>
        Count(r.node.log, LaunchOf(swap)) == Count(n.log, LaunchOf(swap)) + 1
  {
    hide Next, Marked, Count;
    var r := Next(n, h, e, m);
    NextMarks(n, h, e, m);
    CountMarked(n.log, r.node.log, KeyOf(m, r.next), LaunchOf(swap));
  }

  /** One machine's step, if it launches nothing. */
  lemma MovedStands(ms: seq<Machine>, i: nat, next: Option<Machine>, was: Machine, heard: set<Service>)
    requires was.SwapdLaunched? && i < |ms| && Stands(ms, was, heard)
    requires if Waiting(was.swap)(ms[i]) then next.Some? && Like(next.value, was, heard)
             else next.Some? ==> !Waiting(was.swap)(next.value)
    ensures Stands(Without(ms, i) + if next.None? then [] else [next.value], was, heard)
  {
    hide Count, Like, Missing;
    var p := Waiting(was.swap);
    var after := Without(ms, i) + if next.None? then [] else [next.value];
    CountAround(ms, i, p);
    CountPush(p);
    if next.None? { assert after == Without(ms, i); } else { LikeWaits(next.value, was, heard); }
    assert forall m :: m in after ==> m in ms || Some(m) == next;
    assert ms[i] in ms;
  }

  lemma ProcessStands(n: Node, h: Host, e: Event, was: Machine, heard: set<Service>)
    requires !e.request.Hello? && !e.request.AskMakeDeal? && !e.request.AskTakeDeal?
    requires was.SwapdLaunched? && Stands(n.machines, was, heard)
    requires Count(Process(n, h, e).node.log, LaunchOf(was.swap)) == Count(n.log, LaunchOf(was.swap))
    ensures Stands(Process(n, h, e).node.machines, was, heard)
  {
    hide Count, Next, Unclaimed, Like, Missing, Marked;
    UnclaimedMarks(n, h, e);
    var i := Position(n.machines, e);
    if i < |n.machines| {
      var k := n.(machines := Without(n.machines, i));
      var m := n.machines[i];
      var r := Next(k, h, e, m);
      NextTouches(k, h, e, m);
      assert m in n.machines;
      if Waiting(was.swap)(m) { LikeStays(k, h, e, m, was, heard); } else { LaunchIsCounted(k, h, e, m, was.swap); }
      MovedStands(n.machines, i, r.next, was, heard);
      assert r.next.None? ==> r.node.machines == r.node.machines + [];
    }
  }

  lemma StartedStands(n: Node, h: Host, e: Event, was: Machine, heard: set<Service>)
    requires e.request.AskMakeDeal? || e.request.AskTakeDeal?
    requires was.SwapdLaunched? && Stands(n.machines, was, heard)
    ensures Stands(Step(n, h, e).node.machines, was, heard)
  {
    hide Count, StartMaker, StartTaker, Like, Missing, Marked;
    CountPush(Waiting(was.swap));
    StartsOther(n, h, e.source, e.request.deal);
  }

  lemma StartsOther(n: Node, h: Host, source: Service, deal: PublicDeal)
    ensures var r := StartMaker(n, h, source, deal);
      r.node.machines == n.machines && (r.next.Some? ==> !r.next.value.SwapdLaunched?)
    ensures var r := StartTaker(n, h, source, deal);
      r.node.machines == n.machines && (r.next.Some? ==> !r.next.value.SwapdLaunched?)
  {
    hide StartTaker;
    StartTakerMarks(n, h, source, deal);
  }

  /** Any event but an announcement leaves the swap where it stands, unless it is launched anew. */
  lemma OtherStands(n: Node, h: Host, e: Event, was: Machine, heard: set<Service>)
    requires !e.request.Hello? && was.SwapdLaunched? && Stands(n.machines, was, heard)
    requires Count(Step(n, h, e).node.log, LaunchOf(was.swap)) == Count(n.log, LaunchOf(was.swap))
    ensures Stands(Step(n, h, e).node.machines, was, heard)
  {
    hide Stands, Process, Count;
    if e.request.PeerdTerminated? && e.source.Peer? {
    } else if e.request.AskMakeDeal? || e.request.AskTakeDeal? {
      StartedStands(n, h, e, was, heard);
    } else {
      ProcessStands(n, h, e, was, heard);
    }
  }

  // ----- launches are not forgotten -----

  ghost function Launches(swap: SwapId): Scale {
    Scale(LaunchOf(swap), (d: Deed) => false, (m: Machine) => false, false)
  }

  lemma LaunchesNatural(swap: SwapId)
    ensures Natural(Launches(swap)) && forall d :: Opens(Launches(swap), d)
  {
  }

  lemma StepLaunchesMore(n: Node, h: Host, e: Event, swap: SwapId)
    ensures Count(n.log, LaunchOf(swap)) <= Count(Step(n, h, e).node.log, LaunchOf(swap))
  {
    hide Natural, Opens, Step, Count;
    var w := Launches(swap);
    LaunchesNatural(swap);
    KeepsWhenNatural(h, e, w);
    StepBalances(n, h, e, w);
    var s := Step(n, h, e).node;
    CountNone(n.log, w.outward);
    CountNone(s.log, w.outward);
    CountNone(n.machines, w.held);
    CountNone(s.machines, w.held);
  }

  lemma {:induction false} RunLaunchesMore(n: Node, turns: seq<Turn>, swap: SwapId)
    ensures Count(n.log, LaunchOf(swap)) <= Count(Run(n, turns).log, LaunchOf(swap))
    decreases |turns|
  {
    hide Step, Count;
    if turns != [] {
      var t := turns[|turns| - 1];
      RunLaunchesMore(n, turns[..|turns| - 1], swap);
      StepLaunchesMore(Run(n, turns[..|turns| - 1]), t.host, t.event, swap);
    }
  }

  // ----- whole runs -----

  /** Whenever somebody announces itself in the run, a connection to the peer is registered. */
  ghost predicate PeerStays(n: Node, turns: seq<Turn>, peerd: Service) {
    forall i :: 0 <= i < |turns| && turns[i].event.request.Hello? ==> HasPeer(Run(n, turns[..i + 1]).registered, peerd)
  }

  /** What the theorems on starting ask of a run: no event fails, the swap is not launched a
      second time, and its peer is there. */
  ghost predicate Undisturbed(n: Node, turns: seq<Turn>, was: Machine)
    requires was.SwapdLaunched?
  {
    && OkFrom(n, turns) && PeerStays(n, turns, was.peerd)
    && Count(Run(n, turns).log, LaunchOf(was.swap)) == Count(n.log, LaunchOf(was.swap))
  }

  lemma UndisturbedBefore(n: Node, turns: seq<Turn>, was: Machine)
    requires was.SwapdLaunched? && turns != [] && Undisturbed(n, turns, was)
    ensures var before := turns[..|turns| - 1]; var t := turns[|turns| - 1]; var b := Run(n, before);
      && Undisturbed(n, before, was) && Step(b, t.host, t.event).ok
      && Count(Step(b, t.host, t.event).node.log, LaunchOf(was.swap)) == Count(b.log, LaunchOf(was.swap))
      && (t.event.request.Hello? ==> HasPeer(Step(b, t.host, t.event).node.registered, was.peerd))
  {
    hide Step, Count, HasPeer;
    var before := turns[..|turns| - 1];
    var t := turns[|turns| - 1];
    RunLaunchesMore(n, before, was.swap);
    StepLaunchesMore(Run(n, before), t.host, t.event, was.swap);
    assert turns[..|turns| - 1 + 1] == turns;
    forall i | 0 <= i < |before| && before[i].event.request.Hello?
      ensures HasPeer(Run(n, before[..i + 1]).registered, was.peerd)
    {
      assert turns[i] == before[i] && turns[..i + 1] == before[..i + 1];
    }
  }

  /** Whatever else happens in the run, and in whatever order the announcements come: one
      machine waits for just what has not announced itself, and none once everything has. */
  lemma {:induction false} StartsInAnyOrder(n: Node, turns: seq<Turn>, was: Machine)
    requires was in n.machines && was.SwapdLaunched? && was.peerd.Peer? && Missing(was) != {}
    requires Count(n.machines, Waiting(was.swap)) == 1 && Undisturbed(n, turns, was)
    ensures Stands(Run(n, turns).machines, was, Heard(turns))
    decreases |turns|
  {
    hide Missing, Step, Undisturbed, Stands, Count, HasPeer;
    if turns == [] {
      assert Heard(turns) == {};
      StandsAtFirst(n.machines, was);
    } else {
      var before := turns[..|turns| - 1];
      var t := turns[|turns| - 1];
      var b := Run(n, before);
      UndisturbedBefore(n, turns, was);
      StartsInAnyOrder(n, before, was);
      assert turns == before + [t];
      if t.event.request.Hello? {
        assert Heard(turns) == Heard(before) + {t.event.source};
        assert t.event == Event(t.event.source, Hello);
        HelloStands(b, t.host, t.event.source, was, Heard(before));
      } else {
        assert Heard(turns) == Heard(before);
        OtherStands(b, t.host, t.event, was, Heard(before));
      }
    }
  }

  lemma StandsAtFirst(ms: seq<Machine>, was: Machine)
    requires was in ms && was.SwapdLaunched? && Missing(was) != {} && Count(ms, Waiting(was.swap)) == 1
    ensures Stands(ms, was, {})
  {
    hide Missing, Count, Without;
    var k :| 0 <= k < |ms| && ms[k] == was;
    OnlyOneStays(ms, ms, k, Waiting(was.swap));
  }

  /** In every such run the start message for a launched swap is sent exactly once, by the
      announcement that completes what it was missing, and not before. */
  lemma StartedByTheLastHello(n: Node, turns: seq<Turn>, was: Machine)
    requires was in n.machines && was.SwapdLaunched? && was.peerd.Peer? && Missing(was) != {}
    requires Count(n.machines, Waiting(was.swap)) == 1 && Undisturbed(n, turns, was)
    ensures Count(Run(n, turns).log, StartOf(was.swap))
      == Count(n.log, StartOf(was.swap)) + if Missing(was) <= Heard(turns) then 1 else 0
  {
    hide Missing, Natural, Opens, Run, OkFrom, Heard, PeerStays, Count;
    StartsNatural(was.swap);
    RunBalances(n, turns, Starts(was.swap));
    StartsInAnyOrder(n, turns, was);
  }
}
