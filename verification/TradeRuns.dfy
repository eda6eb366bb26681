/** What the trade machines keep over whole runs of the daemon, errors included. */
module TradeRuns {
  import opened Types
  import opened Trades

  // ----- what one machine's step touches -----

  lemma {:induction false} CleaningKeeps(n: Node, h: Host, services: seq<Service>)
    ensures var r := CleanedUp(n, h, services);
      && r.machines == n.machines && r.deals == n.deals && n.log <= r.log
      && (forall d :: d in r.log[|n.log|..] ==> d.Told? && d.msg == Terminate)
      && (forall s :: s in r.registered ==> s in n.registered)
      && (forall s :: s in n.registered && !Useless(n.machines, h, s) ==> s in r.registered)
      && (forall s :: s in services && s in r.registered && Useless(n.machines, h, s) ==> s !in h.reachable)
    decreases |services|
  {
    if services != [] {
      var s := services[0];
      if Useless(n.machines, h, s) && s in h.reachable {
        var m := n.(registered := Removed(n.registered, s)).Tell(s, Terminate);
        CleaningKeeps(m, h, services[1..]);
        var r := CleanedUp(m, h, services[1..]);
        assert r.log[|n.log|..] == [Told(s, Terminate)] + r.log[|m.log|..];
      } else {
        CleaningKeeps(n, h, services[1..]);
      }
    }
  }

  ghost predicate Touches(n: Node, r: Ran) {
    r.node.machines == n.machines && n.log <= r.node.log && n.deals <= r.node.deals
  }

  lemma LaunchTouches(n: Node, h: Host, role: TradeRole, deal: PublicDeal, peerd: Service, swap: SwapId)
    ensures Touches(n, Launch(n, h, role, deal, peerd, swap))
  {
  }

  lemma NextRunningTouches(n: Node, h: Host, e: Event, m: Machine)
    requires m.SwapdRunning?
    ensures Touches(n, NextRunning(n, h, e, m))
  {
    hide Inserted, Removed, Useless;
    if e.request.SwapOutcome? {
      var l := n.Tell(Service.Database, SetDealStatus(m.deal, Ended(e.request.outcome)))
                .Tell(Swap(m.swap), Terminate).Tell(Service.Database, RemoveCheckpoint(m.swap));
      CleaningKeeps(l, h, l.registered);
    }
  }

  lemma NextLaunchedTouches(n: Node, h: Host, e: Event, m: Machine)
    requires m.SwapdLaunched?
    ensures Touches(n, NextLaunched(n, h, e, m))
  {
    hide FindPeer, Learns, Relinked, StartMessage;
  }

  lemma NextTouches(n: Node, h: Host, e: Event, m: Machine)
    ensures Touches(n, Next(n, h, e, m))
  {
    hide NextRunning, NextLaunched, Launch, Inserted, Removed;
    match m
    case MakeDeal(_) =>
    case TakerConnect(_, _) =>
    case TakerCommit(deal, peerd, swap) => LaunchTouches(n, h, Maker, deal, peerd, swap);
    case TakeDeal(deal, peerd) => LaunchTouches(n, h, Taker, deal, peerd, deal.id);
    case SwapdLaunched(_, _, _, _, _, _, _, _) => NextLaunchedTouches(n, h, e, m);
    case SwapdRunning(_, _, _, _, _, _, _) => NextRunningTouches(n, h, e, m);
  }

  // ----- one event, one machine -----

  /** A request other than an announcement moves at most the first machine it matches: the
      others stay, in their order, whatever becomes of that one, and it goes last. */
  lemma OnlyTheMatchedMachineMoves(n: Node, h: Host, e: Event)
    requires !e.request.Hello?
    ensures var s := Step(n, h, e).node.machines; var i := Position(n.machines, e);
      || s == n.machines
      || (i < |n.machines| && s == Without(n.machines, i))
      || (i < |n.machines| && exists m :: s == Without(n.machines, i) + [m] && m.deal == n.machines[i].deal)
      || ((e.request.AskMakeDeal? || e.request.AskTakeDeal?)
          && exists m :: s == n.machines + [m] && m.deal == e.request.deal && (m.MakeDeal? <==> e.request.AskMakeDeal?))
  {
    var i := Position(n.machines, e);
    if e.request.AskMakeDeal? || e.request.AskTakeDeal? {
      PositionOfNew(n.machines, e);
    } else if i < |n.machines| {
      var k := n.(machines := Without(n.machines, i));
      NextTouches(k, h, e, n.machines[i]);
      var r := Next(k, h, e, n.machines[i]);
      if r.next.Some? {
        NextKeepsDeal(k, h, e, n.machines[i]);
      }
    }
  }

  lemma {:induction false} PositionOfNew(ms: seq<Machine>, e: Event)
    requires e.request.AskMakeDeal? || e.request.AskTakeDeal?
    ensures Position(ms, e) == |ms|
  {
    if ms != [] { PositionOfNew(ms[1..], e); }
  }

  lemma NextKeepsDeal(n: Node, h: Host, e: Event, m: Machine)
    ensures var r := Next(n, h, e, m); r.next.Some? ==> r.next.value.deal == m.deal
  {
  }

  // ----- announcements -----

  predicate PeerUp(registered: seq<Service>, peerd: Service) {
    exists s :: s in registered && SamePeer(s, peerd)
  }

  /** What a machine still waits for. */
  function Missing(m: Machine): set<Service>
    requires m.SwapdLaunched?
  {
    (if m.arbitrating.None? then {SyncerOf(Bitcoin, m.deal.network)} else {})
    + (if m.accordant.None? then {SyncerOf(Monero, m.deal.network)} else {})
    + (if m.swapdUp then {} else {Swap(m.swap)})
  }

  /** What becomes of a machine that hears an announcement without an error. */
  predicate Greeted(m: Machine, was: Machine, source: Service, registered: seq<Service>) {
    if !was.SwapdLaunched? then m == was
    else if Missing(was) <= {source} && PeerUp(registered, was.peerd) then
      m.SwapdRunning? && m.deal == was.deal && m.swap == was.swap && m.role == was.role && SamePeer(m.peerd, was.peerd)
    else
      && m.SwapdLaunched? && m.deal == was.deal && m.swap == was.swap && m.role == was.role
      && Missing(m) == Missing(was) - {source} && SamePeer(m.peerd, was.peerd)
      && (m.peerd != was.peerd ==> m.reconnected)
  }

  lemma FindPeerFinds(n: Node, h: Host, peerd: Service)
    ensures FindPeer(n, h, peerd).Some? <==> PeerUp(n.registered, peerd)
    ensures FindPeer(n, h, peerd).Some? ==>
      FindPeer(n, h, peerd).value in n.registered && SamePeer(FindPeer(n, h, peerd).value, peerd)
  {
    assert forall s :: s in n.registered ==> s in h.early + n.registered;
  }

  lemma NextGreets(n: Node, h: Host, source: Service, m: Machine)
    ensures var r := Next(n, h, Event(source, Hello), m);
      && r.node.registered == n.registered && r.node.deals == n.deals && r.node.machines == n.machines
      && (r.ok ==> r.next.Some? && Greeted(r.next.value, m, source, n.registered))
  {
    hide FindPeer, PeerUp;
    if m.SwapdLaunched? {
      var found := FindPeer(n, h, m.peerd);
      FindPeerFinds(n, h, m.peerd);
      var l := Learns(m, Event(source, Hello));
      assert Missing(l) == Missing(m) - {source};
      assert Missing(l) == {} <==> Missing(m) <= {source};
      assert Missing(Relinked(l, found)) == Missing(l);
    }
  }

  /** A machine has something to tell its swap daemon on an announcement: the start, or that
      its peer is back. */
  predicate Tells(m: Machine, source: Service, registered: seq<Service>) {
    || (m.SwapdLaunched? && Missing(m) <= {source} && PeerUp(registered, m.peerd))
    || (m.SwapdRunning? && source.Peer? && source.Address() == m.peerd.Address())
  }

  /** And cannot. */
  predicate Stuck(m: Machine, h: Host, source: Service, registered: seq<Service>) {
    Tells(m, source, registered) && Swap(m.swap) !in h.reachable
  }

  lemma NextTells(n: Node, h: Host, source: Service, m: Machine)
    ensures Next(n, h, Event(source, Hello), m).ok <==> !Stuck(m, h, source, n.registered)
  {
    hide FindPeer, PeerUp;
    if m.SwapdLaunched? {
      FindPeerFinds(n, h, m.peerd);
      var l := Learns(m, Event(source, Hello));
      assert Missing(l) == Missing(m) - {source};
      assert Missing(l) == {} <==> Missing(m) <= {source};
    }
  }

  /** How many machines hear of an announcement before one fails: those before the first
      that has something to tell and cannot. */
  function Hearers(ms: seq<Machine>, h: Host, source: Service, registered: seq<Service>): (k: nat)
    ensures k <= |ms|
    ensures forall i :: 0 <= i < k ==> !Stuck(ms[i], h, source, registered)
    ensures k < |ms| ==> Stuck(ms[k], h, source, registered)
  {
    if ms == [] || Stuck(ms[0], h, source, registered) then 0 else 1 + Hearers(ms[1..], h, source, registered)
  }

  lemma {:induction false} ShowIsPointwise(n: Node, h: Host, source: Service, todo: seq<Machine>)
    ensures var s := Show(n, h, Event(source, Hello), todo); var ms := s.node.machines;
      var k := Hearers(todo, h, source, n.registered);
      && |ms| == |n.machines| + k && ms[..|n.machines|] == n.machines && s.ok == (k == |todo|)
      && (forall j :: 0 <= j < k ==> Greeted(ms[|n.machines| + j], todo[j], source, n.registered))
      && s.node.registered == n.registered && s.node.deals == n.deals
    decreases |todo|
  {
    hide Next, Greeted, Stuck;
    if todo != [] {
      var r := Next(n, h, Event(source, Hello), todo[0]);
      NextGreets(n, h, source, todo[0]);
      NextTells(n, h, source, todo[0]);
      if r.ok {
        ShowIsPointwise(r.node.Push(r.next), h, source, todo[1..]);
        var ms := Show(n, h, Event(source, Hello), todo).node.machines;
        assert ms[|n.machines|] == r.next.value;
        forall j | 0 < j < |ms| - |n.machines|
          ensures Greeted(ms[|n.machines| + j], todo[j], source, n.registered)
        {
          assert todo[j] == todo[1..][j - 1];
          assert ms[|n.machines| + j] == ms[|n.machines| + 1 + (j - 1)];
        }
      }
    }
  }

  lemma WelcomeTouches(n: Node, h: Host, source: Service)
    ensures var w := Welcome(n, h, source).node;
      && w.machines == n.machines && w.deals == n.deals && n.log <= w.log
      && (forall s :: s in n.registered ==> s in w.registered)
      && (forall s :: s in w.registered ==> s in n.registered || s == source)
  {
  }

  /** An announcement reaches the machines once and in place, up to the first that has
      something to tell its swap daemon and cannot: then that one and all after it are gone.
      None else ends or appears, and only launched ones change. */
  lemma HelloKeepsEveryone(n: Node, h: Host, source: Service)
    requires Welcome(n, h, source).ok
    ensures var s := Step(n, h, Event(source, Hello)); var ms := s.node.machines;
      var k := Hearers(n.machines, h, source, s.node.registered);
      && |ms| == k && s.ok == (k == |n.machines|)
      && (forall i :: 0 <= i < k ==> Greeted(ms[i], n.machines[i], source, s.node.registered))
      && s.node.registered == Welcome(n, h, source).node.registered && s.node.deals == n.deals
  {
    hide Greeted, Welcome, Show, Stuck;
    WelcomeTouches(n, h, source);
    var k := Welcome(n, h, source).node.(machines := []);
    ShowIsPointwise(k, h, source, n.machines);
    var ms := Show(k, h, Event(source, Hello), n.machines).node.machines;
    forall i | 0 <= i < |ms| ensures Greeted(ms[i], n.machines[i], source, k.registered) {
      assert ms[|k.machines| + i] == ms[i];
    }
  }

  /** So an announcement loses nobody exactly if everybody who has something to tell can. */
  lemma HelloLosesNobodyExactly(n: Node, h: Host, source: Service)
    requires Welcome(n, h, source).ok
    ensures var s := Step(n, h, Event(source, Hello));
      |s.node.machines| == |n.machines| <==> forall m :: m in n.machines ==> !Stuck(m, h, source, s.node.registered)
  {
    hide Welcome, Stuck;
    HelloKeepsEveryone(n, h, source);
    var k := Hearers(n.machines, h, source, Step(n, h, Event(source, Hello)).node.registered);
    if k < |n.machines| { assert n.machines[k] in n.machines; }
  }

  /** For one: a swap daemon that announces itself and is gone again takes an open deal with it. */
  lemma OneIsLost(deal: PublicDeal, open: PublicDeal, peerd: Service, h: Host)
    requires peerd.Peer? && Swap(0) !in h.reachable
    ensures var bitcoin, monero := SyncerOf(Bitcoin, deal.network), SyncerOf(Monero, deal.network);
      var m := SwapdLaunched(deal, peerd, 0, Taker, Some(bitcoin), Some(monero), false, false);
      var n := Node([m, MakeDeal(open)], [peerd], [], {open}, []);
      !Step(n, h, Event(Swap(0), Hello)).ok && Step(n, h, Event(Swap(0), Hello)).node.machines == []
  {
    var bitcoin, monero := SyncerOf(Bitcoin, deal.network), SyncerOf(Monero, deal.network);
    var m := SwapdLaunched(deal, peerd, 0, Taker, Some(bitcoin), Some(monero), false, false);
    var n := Node([m, MakeDeal(open)], [peerd], [], {open}, []);
    HelloKeepsEveryone(n, h, Swap(0));
    assert PeerUp(n.registered, peerd) by { assert SamePeer(peerd, peerd); }
  }

  // ----- counting -----

  ghost function Count<T(!new)>(s: seq<T>, p: T -> bool): nat {
    if s == [] then 0 else Count(s[..|s| - 1], p) + if p(s[|s| - 1]) then 1 else 0
  }

  lemma CountPush<T(!new)>(p: T -> bool)
    ensures forall s: seq<T>, x: T {:trigger Count(s + [x], p)} ::
      Count(s + [x], p) == Count(s, p) + if p(x) then 1 else 0
  {
    forall s: seq<T>, x: T
      ensures Count(s + [x], p) == Count(s, p) + if p(x) then 1 else 0
    {
      assert (s + [x])[..|s|] == s;
    }
  }

  lemma {:induction false} CountAppend<T(!new)>(s: seq<T>, t: seq<T>, p: T -> bool)
    ensures Count(s + t, p) == Count(s, p) + Count(t, p)
  {
    if t == [] {
      assert s + t == s;
    } else {
      CountAppend(s, t[..|t| - 1], p);
      assert (s + t)[..|s + t| - 1] == s + t[..|t| - 1];
    }
  }

  lemma {:induction false} CountNone<T(!new)>(s: seq<T>, p: T -> bool)
    ensures Count(s, p) == 0 <==> forall x :: x in s ==> !p(x)
  {
    if s != [] {
      CountNone(s[..|s| - 1], p);
      assert s == s[..|s| - 1] + [s[|s| - 1]];
    }
  }

  lemma CountWithout(ms: seq<Machine>, i: nat, p: Machine -> bool)
    requires i < |ms|
    ensures Count(Without(ms, i) + [ms[i]], p) == Count(ms, p)
  {
    hide Count;
    var a, x, b := ms[..i], [ms[i]], ms[i + 1..];
    CountAppend(a, b, p);
    CountAppend(a, x, p);
    CountAppend(a + x, b, p);
    CountAppend(a + b, x, p);
    assert ms == a + x + b;
  }

  /** A balance: deeds that bring something in, deeds that bring it out, and the machines
      that hold it in between. An exact one is never changed by an event without errors. */
  datatype Scale = Scale(inward: Deed -> bool, outward: Deed -> bool, held: Machine -> bool, exact: bool)

  ghost function Balance(n: Node, w: Scale): int {
    Count(n.log, w.inward) - Count(n.log, w.outward) - Count(n.machines, w.held)
  }

  ghost predicate Fair(n: Node, s: Stepped, w: Scale) {
    Balance(s.node, w) >= Balance(n, w) && (w.exact && s.ok ==> Balance(s.node, w) == Balance(n, w))
  }

  /** Every part of a step keeps the balance. */
  ghost predicate Keeps(h: Host, e: Event, w: Scale) {
    && (forall n: Node, m: Machine :: Fair(n.Push(Some(m)), Finish(Next(n, h, e, m)), w))
    && (e.request.AskMakeDeal? ==> forall n: Node :: Fair(n, Finish(StartMaker(n, h, e.source, e.request.deal)), w))
    && (e.request.AskTakeDeal? ==> forall n: Node :: Fair(n, Finish(StartTaker(n, h, e.source, e.request.deal)), w))
    && (forall n: Node :: Fair(n, Unclaimed(n, h, e), w))
    && (forall n: Node :: Fair(n, Welcome(n, h, e.source), w))
    && !w.inward(Told(e.source, Terminate)) && !w.outward(Told(e.source, Terminate))
  }

  lemma {:induction false} ShowBalances(n: Node, h: Host, e: Event, todo: seq<Machine>, w: Scale)
    requires Keeps(h, e, w)
    ensures Fair(n.(machines := n.machines + todo), Show(n, h, e, todo), w)
    decreases |todo|
  {
    CountAppend(n.machines, todo, w.held);
    if todo == [] {
      assert n.machines + todo == n.machines;
    } else {
      var m := todo[0];
      var r := Next(n, h, e, m);
      var p := n.Push(Some(m));
      assert Fair(p, Finish(r), w);
      CountAppend([m], todo[1..], w.held);
      assert todo == [m] + todo[1..];
      CountAppend(n.machines, [m], w.held);
      NextTouches(n, h, e, m);
      if r.ok {
        var q := r.node.Push(r.next);
        ShowBalances(q, h, e, todo[1..], w);
        CountAppend(q.machines, todo[1..], w.held);
      }
    }
  }

  lemma StepBalances(n: Node, h: Host, e: Event, w: Scale)
    requires Keeps(h, e, w)
    ensures Fair(n, Step(n, h, e), w)
  {
    CountPush(w.inward);
    CountPush(w.outward);
    if e.request.Hello? {
      var s := Welcome(n, h, e.source);
      assert Fair(n, s, w);
      if s.ok {
        var k := s.node.(machines := []);
        ShowBalances(k, h, e, s.node.machines, w);
        assert [] + s.node.machines == s.node.machines;
      }
    } else if e.request.PeerdTerminated? && e.source.Peer? {
    } else {
      var i := Position(n.machines, e);
      if !e.request.AskMakeDeal? && !e.request.AskTakeDeal? && i < |n.machines| {
        var k := n.(machines := Without(n.machines, i));
        assert Fair(k.Push(Some(n.machines[i])), Finish(Next(k, h, e, n.machines[i])), w);
        CountWithout(n.machines, i, w.held);
      }
    }
  }

  // ----- what is weighed -----

  function StatusOf(deal: PublicDeal, status: Status): Deed -> bool {
    (d: Deed) => d == Told(Service.Database, SetDealStatus(deal, status))
  }

  function LaunchAs(deal: PublicDeal, role: TradeRole): Deed -> bool {
    (d: Deed) => d.LaunchedSwapd? && d.deal == deal && d.role == role
  }

  function LaunchOf(swap: SwapId): Deed -> bool {
    (d: Deed) => d.LaunchedSwapd? && d.swap == swap
  }

  function StartOf(swap: SwapId): Deed -> bool {
    (d: Deed) => d.Told? && d.to == Swap(swap) && (d.msg.MakeSwap? || d.msg.TakeSwap?) && d.msg.swap == swap
  }

  function OpenDeal(deal: PublicDeal): Machine -> bool {
    (m: Machine) => m.MakeDeal? && m.deal == deal
  }

  function CommittedDeal(deal: PublicDeal): Machine -> bool {
    (m: Machine) => m.TakerCommit? && m.deal == deal
  }

  function TakenDeal(deal: PublicDeal): Machine -> bool {
    (m: Machine) => (m.TakerConnect? || m.TakeDeal?) && m.deal == deal
  }

  function Waiting(swap: SwapId): Machine -> bool {
    (m: Machine) => m.SwapdLaunched? && m.swap == swap
  }

  /** Announcing a deal brings it in, accepting a commitment to it takes it out. */
  ghost function Offers(deal: PublicDeal): Scale {
    Scale(StatusOf(deal, Open), StatusOf(deal, InProgress), OpenDeal(deal), false)
  }

  /** Accepting a commitment allows one launch as maker. */
  ghost function Acceptances(deal: PublicDeal): Scale {
    Scale(StatusOf(deal, InProgress), LaunchAs(deal, Maker), CommittedDeal(deal), false)
  }

  /** A launch allows one start, and without errors is followed by one or still waits. */
  ghost function Starts(swap: SwapId): Scale {
    Scale(LaunchOf(swap), StartOf(swap), Waiting(swap), true)
  }

  // ----- the deed that marks a transition -----

  predicate Chatter(d: Deed) {
    match d
    case Launched(_) => true
    case LaunchedSwapd(_, _, _) => false
    case Told(_, SetDealStatus(_, status)) => status.Ended?
    case Told(_, msg) => !msg.MakeSwap? && !msg.TakeSwap?
  }

  ghost predicate Deaf(p: Deed -> bool) {
    forall d :: Chatter(d) ==> !p(d)
  }

  ghost predicate Quiet(c: seq<Deed>) {
    forall d :: d in c ==> Chatter(d)
  }

  function Mark(key: Option<Deed>): seq<Deed> {
    if key.Some? then [key.value] else []
  }

  ghost predicate Marked(before: seq<Deed>, after: seq<Deed>, key: Option<Deed>) {
    exists c :: Quiet(c) && after == before + c + Mark(key)
  }

  /** The one deed by which others learn of a transition. */
  function KeyOf(m: Machine, next: Option<Machine>): Option<Deed> {
    if next.None? then None
    else match next.value
      case TakerCommit(deal, _, _) => if m.MakeDeal? then Some(Told(Service.Database, SetDealStatus(deal, InProgress)))
        else None
      case SwapdLaunched(deal, _, swap, role, _, _, _, _) => if m.SwapdLaunched? then None
        else Some(LaunchedSwapd(deal, swap, role))
      case SwapdRunning(_, peerd, swap, role, _, _, _) =>
        if m.SwapdRunning? then None
          else Some(Told(Swap(swap), if role == Maker then MakeSwap(swap, peerd) else TakeSwap(swap, peerd)))
      case _ => None
  }

  /** The transitions there are. */
  predicate Follows(m: Machine, next: Option<Machine>) {
    match next
    case None => m.MakeDeal? || m.TakerConnect? || m.SwapdRunning?
    case Some(TakerCommit(deal, _, _)) => m == next.value || m == MakeDeal(deal)
    case Some(TakeDeal(deal, _)) => m == next.value || (m.TakerConnect? && m.deal == deal)
    case Some(SwapdLaunched(deal, _, swap, role, _, _, _, _)) =>
      || (m.SwapdLaunched? && m.deal == deal && m.swap == swap && m.role == role)
      || (m.TakerCommit? && m.deal == deal && m.swap == swap && role == Maker)
      || (m.TakeDeal? && m.deal == deal && deal.id == swap && role == Taker)
    case Some(SwapdRunning(deal, _, swap, role, _, _, _)) =>
      || (m.SwapdLaunched? && m.deal == deal && m.swap == swap && m.role == role)
      || (m.SwapdRunning? && m.deal == deal && m.role == role)
    case _ => next.value == m
  }

  ghost predicate Marks(n: Node, m: Machine, r: Ran) {
    && (r.ok ==> Follows(m, r.next))
    && (!r.ok ==> r.next.None?)
    && Marked(n.log, r.node.log, KeyOf(m, r.next))
  }

  lemma MarkedBy(before: seq<Deed>, c: seq<Deed>, after: seq<Deed>, key: Option<Deed>)
    requires Quiet(c) && after == before + c + Mark(key)
    ensures Marked(before, after, key)
  {
  }

  lemma SyncerUpMarks(n: Node, h: Host, chain: Blockchain, network: nat)
    ensures var r := SyncerUp(n, h, chain, network); r.next.None? && n.log <= r.node.log && Quiet(r.node.log[|n.log|..])
  {
  }

  lemma LaunchMarks(n: Node, h: Host, role: TradeRole, deal: PublicDeal, peerd: Service, swap: SwapId, m: Machine)
    requires m == (if role == Maker then Machine.TakerCommit(deal, peerd, swap) else TakeDeal(deal, peerd))
    requires role == Taker ==> swap == deal.id
    ensures Marks(n, m, Launch(n, h, role, deal, peerd, swap))
  {
    hide SyncerUp;
    var r := Launch(n, h, role, deal, peerd, swap);
    var first := SyncerUp(n, h, Bitcoin, deal.network);
    var second := SyncerUp(first.node, h, Monero, deal.network);
    SyncerUpMarks(n, h, Bitcoin, deal.network);
    SyncerUpMarks(first.node, h, Monero, deal.network);
    var c := first.node.log[|n.log|..];
    var d := second.node.log[|first.node.log|..];
    if !h.configured {
      MarkedBy(n.log, [], r.node.log, None);
    } else if !first.ok {
      MarkedBy(n.log, c, r.node.log, None);
    } else {
      MarkedBy(n.log, c + d, r.node.log, KeyOf(m, r.next));
    }
  }

  lemma OutcomeMarks(n: Node, h: Host, e: Event, m: Machine)
    requires m.SwapdRunning? && e.request.SwapOutcome?
    ensures Marks(n, m, NextRunning(n, h, e, m))
  {
    hide Useless, CleanedUp;
    var r := NextRunning(n, h, e, m);
    var told := [Told(Service.Database, SetDealStatus(m.deal, Ended(e.request.outcome))), Told(Swap(m.swap), Terminate),
                 Told(Service.Database, RemoveCheckpoint(m.swap))];
    if r.ok && r.next.None? {
      var l := n.Tell(Service.Database, told[0].msg).Tell(Swap(m.swap), Terminate).Tell(Service.Database, told[2].msg);
      CleaningKeeps(l, h, l.registered);
      MarkedBy(n.log, told + r.node.log[|l.log|..], r.node.log, None);
    } else {
      MarkedBy(n.log, if r.node.log == n.log then [] else told[..1], r.node.log, None);
    }
  }

  lemma NextRunningMarks(n: Node, h: Host, e: Event, m: Machine)
    requires m.SwapdRunning?
    ensures Marks(n, m, NextRunning(n, h, e, m))
  {
    hide Inserted, Removed, CleanedUp;
    if e.request.SwapOutcome? {
      OutcomeMarks(n, h, e, m);
    } else {
      var r := NextRunning(n, h, e, m);
      MarkedBy(n.log, r.node.log[|n.log|..], r.node.log, None);
    }
  }

  lemma NextLaunchedMarks(n: Node, h: Host, e: Event, m: Machine)
    requires m.SwapdLaunched?
    ensures Marks(n, m, NextLaunched(n, h, e, m))
  {
    hide FindPeer;
    var r := NextLaunched(n, h, e, m);
    if r.next.Some? && r.next.value.SwapdRunning? {
      MarkedBy(n.log, r.node.log[|n.log|..|r.node.log| - 1], r.node.log, KeyOf(m, r.next));
    } else {
      MarkedBy(n.log, [], r.node.log, None);
    }
  }

  lemma NextOpenMarks(n: Node, h: Host, e: Event, m: Machine)
    requires m.MakeDeal?
    ensures Marks(n, m, NextOpen(n, h, e, m))
  {
    var r := NextOpen(n, h, e, m);
    if r.next.Some? && r.next.value.TakerCommit? {
      MarkedBy(n.log, [Told(Wallet, CreateSwapKeys(m.deal))], r.node.log, KeyOf(m, r.next));
    } else {
      MarkedBy(n.log, r.node.log[|n.log|..], r.node.log, None);
    }
  }

  lemma TakeTouches(n: Node, h: Host, client: Service, deal: PublicDeal, peerd: Service)
    ensures var r := Take(n, h, client, deal, peerd);
      && r.node.machines == n.machines && n.deals <= r.node.deals && n.log <= r.node.log && Quiet(r.node.log[|n.log|..])
      && (!r.ok ==> r.next.None?) && (r.ok ==> r.next == Some(TakeDeal(deal, peerd)) && deal in r.node.deals)
  {
  }

  lemma RegistersOnly(n: Node, s: Service)
    ensures Registers(n, s) == n.(registered := Registers(n, s).registered, spawning := Registers(n, s).spawning)
  {
  }

  lemma NextConnectingMarks(n: Node, h: Host, e: Event, m: Machine)
    requires m.TakerConnect?
    ensures Marks(n, m, NextConnecting(n, h, e, m))
  {
    hide Inserted, Removed, Take, Registers;
    var r := NextConnecting(n, h, e, m);
    RegistersOnly(n, e.source);
    TakeTouches(Registers(n, e.source), h, m.client, m.deal, e.source);
    MarkedBy(n.log, r.node.log[|n.log|..], r.node.log, None);
  }

  /** Every transition is one of the automaton's, and is marked by its one deed. */
  lemma NextMarks(n: Node, h: Host, e: Event, m: Machine)
    ensures Marks(n, m, Next(n, h, e, m))
  {
    hide NextOpen, NextConnecting, NextLaunched, NextRunning, Launch;
    match m
    case MakeDeal(_) => NextOpenMarks(n, h, e, m);
    case TakerConnect(_, _) => NextConnectingMarks(n, h, e, m);
    case TakerCommit(deal, peerd, swap) =>
      if e.request.SwapKeys? {
        LaunchMarks(n, h, Maker, deal, peerd, swap, m);
      } else {
        MarkedBy(n.log, [], n.log, None);
      }
    case TakeDeal(deal, peerd) =>
      if e.request.SwapKeys? {
        LaunchMarks(n, h, Taker, deal, peerd, deal.id, m);
      } else {
        MarkedBy(n.log, [], n.log, None);
      }
    case SwapdLaunched(_, _, _, _, _, _, _, _) => NextLaunchedMarks(n, h, e, m);
    case SwapdRunning(_, _, _, _, _, _, _) => NextRunningMarks(n, h, e, m);
  }

  // ----- weighing a step -----

  function Weight<T>(p: T -> bool, x: Option<T>): int {
    if x.Some? && p(x.value) then 1 else 0
  }

  ghost predicate Natural(w: Scale) {
    && Deaf(w.inward) && Deaf(w.outward)
    && (forall m, next :: Follows(m, next) ==>
          var change := Weight(w.inward, KeyOf(m, next)) - Weight(w.outward, KeyOf(m, next))
            + Weight(w.held, Some(m)) - Weight(w.held, next);
          change >= 0 && (w.exact ==> change == 0))
  }

  /** A new deal is announced before there is a machine for it. */
  ghost predicate Opens(w: Scale, deal: PublicDeal) {
    var open := Told(Service.Database, SetDealStatus(deal, Open));
    && !w.outward(open)
    && (w.held(MakeDeal(deal)) ==> w.inward(open))
    && (w.exact ==> !w.inward(open) && !w.held(MakeDeal(deal)))
  }

  lemma CountMarked(before: seq<Deed>, after: seq<Deed>, key: Option<Deed>, p: Deed -> bool)
    requires Deaf(p) && Marked(before, after, key)
    ensures Count(after, p) == Count(before, p) + Weight(p, key)
  {
    var c :| Quiet(c) && after == before + c + Mark(key);
    CountAppend(before, c, p);
    CountNone(c, p);
    if key.Some? {
      CountPush(p);
      assert after == before + c + [key.value];
    } else {
      assert after == before + c;
    }
  }

  lemma NextFair(n: Node, h: Host, e: Event, m: Machine, w: Scale)
    requires Natural(w)
    ensures Fair(n.Push(Some(m)), Finish(Next(n, h, e, m)), w)
  {
    hide Next, Marked, Follows, KeyOf;
    var r := Next(n, h, e, m);
    NextMarks(n, h, e, m);
    NextTouches(n, h, e, m);
    CountMarked(n.log, r.node.log, KeyOf(m, r.next), w.inward);
    CountMarked(n.log, r.node.log, KeyOf(m, r.next), w.outward);
    CountPush(w.held);
    NoKey(m);
  }

  lemma NoKey(m: Machine)
    ensures KeyOf(m, None) == None
  {
  }

  ghost function OpenDeed(deal: PublicDeal): Deed {
    Told(Service.Database, SetDealStatus(deal, Open))
  }

  /** A maker's machine exists only after its deal was announced to the database. */
  lemma StartMakerMarks(n: Node, h: Host, source: Service, deal: PublicDeal, p: Deed -> bool)
    requires Deaf(p)
    ensures var r := StartMaker(n, h, source, deal);
      && r.node.machines == n.machines
      && (r.next == Some(MakeDeal(deal)) || r.next.None?) && (!r.ok ==> r.next.None?)
      && (Count(r.node.log, p) == Count(n.log, p) + Weight(p, Some(OpenDeed(deal)))
          || (r.next.None? && Count(r.node.log, p) == Count(n.log, p)))
      && (!p(OpenDeed(deal)) ==> Count(r.node.log, p) == Count(n.log, p))
  {
    hide Marked;
    var r := StartMaker(n, h, source, deal);
    if h.binds && h.listens && Service.Database in h.reachable {
      var told := n.log + [OpenDeed(deal)];
      MarkedBy(n.log, [], told, Some(OpenDeed(deal)));
      MarkedBy(told, r.node.log[|told|..], r.node.log, None);
      CountMarked(n.log, told, Some(OpenDeed(deal)), p);
      CountMarked(told, r.node.log, None, p);
    } else {
      MarkedBy(n.log, r.node.log[|n.log|..], r.node.log, None);
      CountMarked(n.log, r.node.log, None, p);
    }
  }

  lemma StartMakerFair(n: Node, h: Host, source: Service, deal: PublicDeal, w: Scale)
    requires Deaf(w.inward) && Deaf(w.outward) && Opens(w, deal)
    ensures Fair(n, Finish(StartMaker(n, h, source, deal)), w)
  {
    hide StartMaker, Deaf;
    StartMakerMarks(n, h, source, deal, w.inward);
    StartMakerMarks(n, h, source, deal, w.outward);
    CountPush(w.held);
  }

  lemma ConnectTouches(n: Node, h: Host, address: NodeAddr)
    ensures var c := ConnectPeer(n, h, address);
      c.Found? ==> (c.node.machines == n.machines && c.node.deals == n.deals && n.log <= c.node.log
        && Quiet(c.node.log[|n.log|..]))
  {
    hide First, Inserted;
  }

  lemma StartTakerMarks(n: Node, h: Host, source: Service, deal: PublicDeal)
    ensures var r := StartTaker(n, h, source, deal);
      && r.node.machines == n.machines && Marked(n.log, r.node.log, None)
      && (r.next.Some? ==> (r.next.value.TakerConnect? || r.next.value.TakeDeal?) && r.next.value.deal == deal)
      && (r.next.Some? ==> !Consumed(n.machines, deal) && deal !in n.deals && Right(r.next.value, r.node.deals))
      && n.deals <= r.node.deals
  {
    hide ConnectPeer, Consumed, Take;
    var r := StartTaker(n, h, source, deal);
    var c := ConnectPeer(n, h, deal.maker);
    ConnectTouches(n, h, deal.maker);
    if Consumed(n.machines, deal) || deal in n.deals || c.Refused? {
      MarkedBy(n.log, r.node.log[|n.log|..], r.node.log, None);
    } else {
      TakeTouches(c.node, h, source, deal, c.peerd);
      var d := r.node.log[|c.node.log|..];
      MarkedBy(n.log, c.node.log[|n.log|..] + d, r.node.log, None);
    }
  }

  lemma StartTakerFair(n: Node, h: Host, source: Service, deal: PublicDeal, w: Scale)
    requires Deaf(w.inward) && Deaf(w.outward)
    requires forall m :: TakenDeal(deal)(m) ==> !w.held(m)
    ensures Fair(n, Finish(StartTaker(n, h, source, deal)), w)
  {
    hide StartTaker, Marked;
    var r := StartTaker(n, h, source, deal);
    StartTakerMarks(n, h, source, deal);
    CountMarked(n.log, r.node.log, None, w.inward);
    CountMarked(n.log, r.node.log, None, w.outward);
    CountPush(w.held);
    assert r.next.Some? ==> TakenDeal(deal)(r.next.value);
  }

  lemma UnclaimedMarks(n: Node, h: Host, e: Event)
    ensures var u := Unclaimed(n, h, e).node; u == n.(log := u.log) && Marked(n.log, u.log, None)
  {
    var u := Unclaimed(n, h, e).node;
    MarkedBy(n.log, u.log[|n.log|..], u.log, None);
  }

  lemma WelcomeMarks(n: Node, h: Host, source: Service)
    ensures Marked(n.log, Welcome(n, h, source).node.log, None)
  {
    hide Inserted, Removed, Awaited;
    var w := Welcome(n, h, source).node;
    MarkedBy(n.log, w.log[|n.log|..], w.log, None);
  }

  lemma AsideFair(n: Node, h: Host, e: Event, w: Scale)
    requires Deaf(w.inward) && Deaf(w.outward)
    ensures Fair(n, Unclaimed(n, h, e), w) && Fair(n, Welcome(n, h, e.source), w)
  {
    hide Unclaimed, Welcome, Marked;
    UnclaimedMarks(n, h, e);
    WelcomeMarks(n, h, e.source);
    WelcomeTouches(n, h, e.source);
    CountMarked(n.log, Unclaimed(n, h, e).node.log, None, w.inward);
    CountMarked(n.log, Unclaimed(n, h, e).node.log, None, w.outward);
    CountMarked(n.log, Welcome(n, h, e.source).node.log, None, w.inward);
    CountMarked(n.log, Welcome(n, h, e.source).node.log, None, w.outward);
  }

  lemma KeepsWhenNatural(h: Host, e: Event, w: Scale)
    requires Natural(w) && (e.request.AskMakeDeal? ==> Opens(w, e.request.deal))
    requires e.request.AskTakeDeal? ==> forall m :: TakenDeal(e.request.deal)(m) ==> !w.held(m)
    ensures Keeps(h, e, w)
  {
    hide Fair, Natural, Opens, StartMaker, StartTaker, Unclaimed, Welcome, Next;
    forall n: Node, m: Machine ensures Fair(n.Push(Some(m)), Finish(Next(n, h, e, m)), w) { NextFair(n, h, e, m, w); }
    assert Deaf(w.inward) && Deaf(w.outward) by { NaturalIsDeaf(w); }
    if e.request.AskMakeDeal? {
      forall n: Node ensures Fair(n, Finish(StartMaker(n, h, e.source, e.request.deal)), w) {
        StartMakerFair(n, h, e.source, e.request.deal, w);
      }
    }
    if e.request.AskTakeDeal? {
      forall n: Node ensures Fair(n, Finish(StartTaker(n, h, e.source, e.request.deal)), w) {
        StartTakerFair(n, h, e.source, e.request.deal, w);
      }
    }
    forall n: Node ensures Fair(n, Unclaimed(n, h, e), w) && Fair(n, Welcome(n, h, e.source), w) {
      AsideFair(n, h, e, w);
    }
    assert Chatter(Told(e.source, Terminate));
  }

  lemma NaturalIsDeaf(w: Scale)
    requires Natural(w)
    ensures Deaf(w.inward) && Deaf(w.outward)
  {
  }

  // ----- deals -----

  /** No event of the run ended in an error. */
  ghost predicate OkFrom(n: Node, turns: seq<Turn>)
    decreases |turns|
  {
    turns != [] ==>
      var t := turns[|turns| - 1];
      OkFrom(n, turns[..|turns| - 1]) && Step(Run(n, turns[..|turns| - 1]), t.host, t.event).ok
  }

  lemma {:induction false} RunBalances(n: Node, turns: seq<Turn>, w: Scale)
    requires Natural(w)
    requires forall deal :: Opens(w, deal)
    requires forall deal, m :: TakenDeal(deal)(m) ==> !w.held(m)
    ensures Balance(Run(n, turns), w) >= Balance(n, w)
    ensures w.exact && OkFrom(n, turns) ==> Balance(Run(n, turns), w) == Balance(n, w)
    decreases |turns|
  {
    hide Natural, Opens, Balance, Step;
    if turns != [] {
      var before := turns[..|turns| - 1];
      var t := turns[|turns| - 1];
      RunBalances(n, before, w);
      KeepsWhenNatural(t.host, t.event, w);
      StepBalances(Run(n, before), t.host, t.event, w);
    }
  }

  lemma OffersNatural(deal: PublicDeal)
    ensures Natural(Offers(deal)) && forall d :: Opens(Offers(deal), d)
  {
  }

  lemma AcceptancesNatural(deal: PublicDeal)
    ensures Natural(Acceptances(deal)) && forall d :: Opens(Acceptances(deal), d)
  {
  }

  lemma StartsNatural(swap: SwapId)
    ensures Natural(Starts(swap)) && forall d :: Opens(Starts(swap), d)
  {
  }

  /** How often a run is asked to make a deal. Each request makes a fresh one, so once at most. */
  ghost function Asked(turns: seq<Turn>, deal: PublicDeal): nat {
    Count(turns, (t: Turn) => t.event.request == AskMakeDeal(deal))
  }

  ghost function Announced(deal: PublicDeal): Scale {
    Scale((d: Deed) => false, StatusOf(deal, Open), (m: Machine) => false, false)
  }

  lemma AnnouncedNatural(deal: PublicDeal)
    ensures Natural(Announced(deal)) && forall d :: d != deal ==> Opens(Announced(deal), d)
  {
  }

  lemma {:induction false} AnnouncedWhenAsked(turns: seq<Turn>, deal: PublicDeal)
    ensures Count(Run(FRESH, turns).log, StatusOf(deal, Open)) <= Asked(turns, deal)
    decreases |turns|
  {
    hide Natural, Opens, Step;
    if turns != [] {
      var before := turns[..|turns| - 1];
      var t := turns[|turns| - 1];
      AnnouncedWhenAsked(before, deal);
      var n := Run(FRESH, before);
      if t.event.request == AskMakeDeal(deal) {
        AskedOnce(n, t.host, t.event, deal);
      } else {
        var w := Announced(deal);
        AnnouncedNatural(deal);
        KeepsWhenNatural(t.host, t.event, w);
        StepBalances(n, t.host, t.event, w);
        CountNone(n.log, w.inward);
        CountNone(Step(n, t.host, t.event).node.log, w.inward);
        CountNone(n.machines, w.held);
        CountNone(Step(n, t.host, t.event).node.machines, w.held);
      }
    }
  }

  lemma AskedOnce(n: Node, h: Host, e: Event, deal: PublicDeal)
    requires e.request == AskMakeDeal(deal)
    ensures Count(Step(n, h, e).node.log, StatusOf(deal, Open)) <= Count(n.log, StatusOf(deal, Open)) + 1
  {
    CountPush(StatusOf(deal, Open));
  }

  /** Over every run: launches as maker follow accepted commitments, and an accepted
      commitment or a deal still open each answer to their own request to make the deal. */
  lemma MadeDealsAreConsumedOnce(turns: seq<Turn>, deal: PublicDeal)
    ensures var n := Run(FRESH, turns);
      && Count(n.log, LaunchAs(deal, Maker)) + Count(n.machines, CommittedDeal(deal))
         <= Count(n.log, StatusOf(deal, InProgress))
      && Count(n.log, StatusOf(deal, InProgress)) + Count(n.machines, OpenDeal(deal)) <= Asked(turns, deal)
  {
    hide Natural, Opens;
    OffersNatural(deal);
    AcceptancesNatural(deal);
    RunBalances(FRESH, turns, Offers(deal));
    RunBalances(FRESH, turns, Acceptances(deal));
    AnnouncedWhenAsked(turns, deal);
  }

  lemma NoneMatches(ms: seq<Machine>, e: Event)
    requires forall m :: m in ms ==> !Matches(m, e)
    ensures Position(ms, e) == |ms|
  {
  }

  /** Once a freshly made deal has been accepted, every further commitment to it is answered
      with "deal not found" and changes nothing. */
  lemma LateCommitsAreRefused(turns: seq<Turn>, h: Host, source: Service, deal: PublicDeal, swap: SwapId)
    requires Asked(turns, deal) <= 1
    requires Told(Service.Database, SetDealStatus(deal, InProgress)) in Run(FRESH, turns).log
    ensures var n := Run(FRESH, turns);
      Step(n, h, Event(source, CommitOfTaker(deal, swap)))
        == if source in h.reachable then Stepped(n.Tell(source, Message.DealNotFound(swap)), true)
          else Stepped(n, false)
  {
    var n := Run(FRESH, turns);
    var e := Event(source, CommitOfTaker(deal, swap));
    MadeDealsAreConsumedOnce(turns, deal);
    CountNone(n.log, StatusOf(deal, InProgress));
    CountNone(n.machines, OpenDeal(deal));
    assert forall m :: Matches(m, e) ==> OpenDeal(deal)(m);
    NoneMatches(n.machines, e);
  }

  /** Over every run: the start message for a swap goes out at most once per launch, and
      without errors every launch has been followed by one or has a machine still waiting. */
  lemma StartsMatchLaunches(turns: seq<Turn>, swap: SwapId)
    ensures var n := Run(FRESH, turns);
      && Count(n.log, StartOf(swap)) + Count(n.machines, Waiting(swap)) <= Count(n.log, LaunchOf(swap))
      && (OkFrom(FRESH, turns) ==>
         Count(n.log, StartOf(swap)) + Count(n.machines, Waiting(swap)) == Count(n.log, LaunchOf(swap)))
  {
    hide Natural, Opens;
    StartsNatural(swap);
    RunBalances(FRESH, turns, Starts(swap));
  }

  // ----- what every run keeps -----

  predicate Right(m: Machine, deals: set<PublicDeal>) {
    match m
    case MakeDeal(_) => true
    case TakerCommit(_, peerd, _) => peerd.Peer?
    case TakerConnect(_, _) => true
    case TakeDeal(deal, peerd) => peerd.Peer? && deal in deals
    case SwapdLaunched(deal, peerd, _, _, arbitrating, accordant, _, _) =>
      && peerd.Peer?
      && arbitrating in {None, Some(SyncerOf(Bitcoin, deal.network))}
         && accordant in {None, Some(SyncerOf(Monero, deal.network))}
    case SwapdRunning(deal, peerd, _, _, arbitrating, accordant, _) =>
      peerd.Peer? && arbitrating == SyncerOf(Bitcoin, deal.network) && accordant == SyncerOf(Monero, deal.network)
  }

  ghost predicate TakenAreKnown(log: seq<Deed>, deals: set<PublicDeal>) {
    forall d :: d in log && d.LaunchedSwapd? && d.role == Taker ==> d.deal in deals
  }

  ghost predicate Tidy(n: Node) {
    && (forall m :: m in n.machines ==> Right(m, n.deals))
    && TakenAreKnown(n.log, n.deals)
  }

  lemma NextRight(n: Node, h: Host, e: Event, m: Machine)
    requires Right(m, n.deals)
    ensures var r := Next(n, h, e, m); r.next.Some? ==> Right(r.next.value, r.node.deals)
  {
    hide FindPeer, CleanedUp, Useless;
    if m.SwapdLaunched? { FindPeerFinds(n, h, m.peerd); }
    if m.TakerConnect? { TakeTouches(Registers(n, e.source), h, m.client, m.deal, e.source); }
  }

  lemma MarkedKnown(before: seq<Deed>, after: seq<Deed>, key: Option<Deed>, deals: set<PublicDeal>)
    requires Marked(before, after, key) && TakenAreKnown(before, deals)
    requires key.Some? && key.value.LaunchedSwapd? && key.value.role == Taker ==> key.value.deal in deals
    ensures TakenAreKnown(after, deals)
  {
  }

  lemma NextTidy(n: Node, h: Host, e: Event, m: Machine)
    requires Tidy(n.Push(Some(m)))
    ensures Tidy(Next(n, h, e, m).node.Push(Next(n, h, e, m).next))
  {
    hide Next, Marked, Right;
    var r := Next(n, h, e, m);
    NextTouches(n, h, e, m);
    NextMarks(n, h, e, m);
    assert m in n.Push(Some(m)).machines;
    NextRight(n, h, e, m);
    RightStays(n.machines, n.deals, r.node.deals);
    assert KeyOf(m, r.next).Some? && KeyOf(m, r.next).value.LaunchedSwapd? && KeyOf(m, r.next).value.role == Taker
      ==> KeyOf(m, r.next).value.deal in r.node.deals by { LaunchesKnown(m, r.next, n.deals); }
    assert TakenAreKnown(n.log, r.node.deals);
    MarkedKnown(n.log, r.node.log, KeyOf(m, r.next), r.node.deals);
  }

  lemma LaunchesKnown(m: Machine, next: Option<Machine>, deals: set<PublicDeal>)
    requires Right(m, deals) && (next.Some? ==> Follows(m, next))
    ensures var key := KeyOf(m, next);
      key.Some? && key.value.LaunchedSwapd? && key.value.role == Taker ==> key.value.deal in deals
  {
  }

  lemma RightStays(ms: seq<Machine>, before: set<PublicDeal>, after: set<PublicDeal>)
    requires before <= after && forall m :: m in ms ==> Right(m, before)
    ensures forall m :: m in ms ==> Right(m, after)
  {
  }

  lemma {:induction false} ShowTidy(n: Node, h: Host, e: Event, todo: seq<Machine>)
    requires Tidy(n.(machines := n.machines + todo))
    ensures Tidy(Show(n, h, e, todo).node)
    decreases |todo|
  {
    hide Right, Next, TakenAreKnown;
    if todo == [] {
      assert n.machines + todo == n.machines;
    } else {
      var r := Next(n, h, e, todo[0]);
      NextTidy(n, h, e, todo[0]);
      NextTouches(n, h, e, todo[0]);
      RightStays(todo[1..], n.deals, r.node.deals);
      if r.ok { ShowTidy(r.node.Push(r.next), h, e, todo[1..]); }
    }
  }

  lemma StartTakerTidy(n: Node, h: Host, source: Service, deal: PublicDeal)
    requires Tidy(n)
    ensures Tidy(Finish(StartTaker(n, h, source, deal)).node)
  {
    hide StartTaker, Right, Marked;
    var r := StartTaker(n, h, source, deal);
    StartTakerMarks(n, h, source, deal);
    RightStays(n.machines, n.deals, r.node.deals);
    assert TakenAreKnown(n.log, r.node.deals);
    MarkedKnown(n.log, r.node.log, None, r.node.deals);
  }

  lemma StartMakerTidy(n: Node, h: Host, source: Service, deal: PublicDeal)
    requires Tidy(n)
    ensures Tidy(Finish(StartMaker(n, h, source, deal)).node)
  {
    var r := StartMaker(n, h, source, deal);
    RightStays(n.machines, n.deals, r.node.deals);
  }

  lemma AsideTidy(n: Node, h: Host, e: Event)
    requires Tidy(n)
    ensures Tidy(Unclaimed(n, h, e).node) && Tidy(Welcome(n, h, e.source).node)
  {
    hide Unclaimed, Welcome, Marked, Right;
    UnclaimedMarks(n, h, e);
    WelcomeMarks(n, h, e.source);
    WelcomeTouches(n, h, e.source);
    MarkedKnown(n.log, Unclaimed(n, h, e).node.log, None, n.deals);
    MarkedKnown(n.log, Welcome(n, h, e.source).node.log, None, n.deals);
  }

  /** Every machine stands on a real connection and on its own network's syncers, and what
      was taken is known, whatever happens. */
  lemma StepTidy(n: Node, h: Host, e: Event)
    requires Tidy(n)
    ensures Tidy(Step(n, h, e).node)
  {
    hide Right, Next, Show, Welcome, Unclaimed, StartMaker, StartTaker, TakenAreKnown, Removed;
    AsideTidy(n, h, e);
    if e.request.Hello? {
      var w := Welcome(n, h, e.source);
      if w.ok {
        assert w.node.(machines := []).machines + w.node.machines == w.node.machines;
        ShowTidy(w.node.(machines := []), h, e, w.node.machines);
      }
    } else if e.request.PeerdTerminated? && e.source.Peer? {
      ToldTidy(n, Unregisters(n, e.source), e.source);
    } else if e.request.AskMakeDeal? {
      StartMakerTidy(n, h, e.source, e.request.deal);
    } else if e.request.AskTakeDeal? {
      StartTakerTidy(n, h, e.source, e.request.deal);
    } else {
      var i := Position(n.machines, e);
      if i < |n.machines| { NextTidy(n.(machines := Without(n.machines, i)), h, e, n.machines[i]); }
    }
  }

  lemma ToldTidy(n: Node, m: Node, s: Service)
    requires Tidy(n) && m == n.(registered := m.registered, spawning := m.spawning)
    ensures Tidy(m) && Tidy(m.Tell(s, Terminate))
  {
  }

  lemma {:induction false} RunTidy(turns: seq<Turn>)
    ensures Tidy(Run(FRESH, turns))
    decreases |turns|
  {
    hide Tidy, Step;
    if turns == [] {
      FreshTidy();
    } else {
      var t := turns[|turns| - 1];
      RunTidy(turns[..|turns| - 1]);
      StepTidy(Run(FRESH, turns[..|turns| - 1]), t.host, t.event);
    }
  }

  lemma FreshTidy()
    ensures Tidy(FRESH)
  {
  }

  // ----- taking -----

  ghost function Takings(deal: PublicDeal): Scale {
    Scale((d: Deed) => false, LaunchAs(deal, Taker), TakenDeal(deal), false)
  }

  lemma TakingsNatural(deal: PublicDeal)
    ensures Natural(Takings(deal)) && forall d :: Opens(Takings(deal), d)
  {
  }

  lemma TakingAdds(n: Node, h: Host, e: Event, deal: PublicDeal)
    requires Tidy(n) && e.request == AskTakeDeal(deal)
    requires Count(n.log, LaunchAs(deal, Taker)) + Count(n.machines, TakenDeal(deal)) <= 1
    ensures var s := Step(n, h, e).node; Count(s.log, LaunchAs(deal, Taker)) + Count(s.machines, TakenDeal(deal)) <= 1
  {
    hide StartTaker, Marked;
    var r := StartTaker(n, h, e.source, deal);
    StartTakerMarks(n, h, e.source, deal);
    CountMarked(n.log, r.node.log, None, LaunchAs(deal, Taker));
    CountPush(TakenDeal(deal));
    if r.next.Some? {
      CountNone(n.log, LaunchAs(deal, Taker));
      CountNone(n.machines, TakenDeal(deal));
      assert forall m :: m in n.machines ==> !TakenDeal(deal)(m);
    }
  }

  /** Over every run a deal is taken, and its swap launched as taker, at most once. */
  lemma {:induction false} DealsAreTakenOnce(turns: seq<Turn>, deal: PublicDeal)
    ensures var n := Run(FRESH, turns); Count(n.log, LaunchAs(deal, Taker)) + Count(n.machines, TakenDeal(deal)) <= 1
    decreases |turns|
  {
    hide Natural, Opens, Step, Tidy;
    if turns != [] {
      var t := turns[|turns| - 1];
      var n := Run(FRESH, turns[..|turns| - 1]);
      DealsAreTakenOnce(turns[..|turns| - 1], deal);
      if t.event.request == AskTakeDeal(deal) {
        RunTidy(turns[..|turns| - 1]);
        TakingAdds(n, t.host, t.event, deal);
      } else {
        var w := Takings(deal);
        TakingsNatural(deal);
        KeepsWhenNatural(t.host, t.event, w);
        StepBalances(n, t.host, t.event, w);
        CountNone(n.log, w.inward);
        CountNone(Step(n, t.host, t.event).node.log, w.inward);
      }
    }
  }
}
