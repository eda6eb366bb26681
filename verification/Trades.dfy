/** farcasterd's trade machines: how a request finds the machine it is for, what that machine
    does with it, and how an announcement is shown to every machine. */
module Trades {
  import opened Types

  datatype NodeAddr = NodeAddr(node: nat, socket: nat)

  /** The services on the bus as farcasterd tells them apart. */
  datatype Service =
    | Farcasterd
    | Database
    | Wallet
    | Grpcd
    | Peer(thread: nat, address: NodeAddr)
    | Syncer(chain: Blockchain, network: nat)
    | Swap(swap: SwapId)
    | Client(client: nat)
    | GrpcdClient(client: nat)
  {
    function Address(): Option<NodeAddr> {
      if Peer? then Some(address) else None
    }

    /** Where an answer for this client is sent. */
    function Answering(): Service {
      if GrpcdClient? then Grpcd else this
    }
  }

  /** A public deal. Its identifier is also the swap identifier on the taker's side. */
  datatype PublicDeal = PublicDeal(id: nat, maker: NodeAddr, network: nat, terms: nat)

  datatype Status = Open | InProgress | Ended(outcome: Outcome)

  datatype Message =
    | CreateSwapKeys(deal: PublicDeal)
    | SetDealStatus(deal: PublicDeal, status: Status)
    | MadeDeal(deal: PublicDeal)
    | TookDeal(deal: PublicDeal)
    | Info
    | Failure
    | MakeSwap(swap: SwapId, peerd: Service)
    | TakeSwap(swap: SwapId, peerd: Service)
    | PeerdReconnected(peerd: Service)
    | DealNotFound(swap: SwapId)
    | Terminate
    | RemoveCheckpoint(swap: SwapId)
    | CleanDanglingDeals
    | GetKeys

  /** What the daemon does that others notice. */
  datatype Deed =
    | Told(to: Service, msg: Message)
    | Launched(service: Service)
    | LaunchedSwapd(deal: PublicDeal, swap: SwapId, role: TradeRole)

  datatype Machine =
    | MakeDeal(deal: PublicDeal)
    | TakerCommit(deal: PublicDeal, peerd: Service, swap: SwapId)
    | TakerConnect(deal: PublicDeal, client: Service)
    | TakeDeal(deal: PublicDeal, peerd: Service)
    | SwapdLaunched(deal: PublicDeal, peerd: Service, swap: SwapId, role: TradeRole,
                    arbitrating: Option<Service>, accordant: Option<Service>, swapdUp: bool, reconnected: bool)
    | SwapdRunning(deal: PublicDeal, peerd: Service, swap: SwapId, role: TradeRole,
                   arbitratingSyncer: Service, accordantSyncer: Service, funding: bool)

  datatype Request =
    | Hello
    | AskMakeDeal(deal: PublicDeal)
    | AskTakeDeal(deal: PublicDeal)
    | CommitOfTaker(deal: PublicDeal, swap: SwapId)
    | RevokeDeal(deal: PublicDeal)
    | SwapKeys(deal: PublicDeal)
    | ConnectSuccess
    | ConnectFailed
    | PeerdTerminated
    | PeerdUnreachable(peerd: Service)
    | FundingInfo(swap: SwapId)
    | FundingCompleted
    | FundingCanceled
    | Connect(swap: SwapId)
    | SwapOutcome(outcome: Outcome)

  datatype Event = Event(source: Service, request: Request)

  /** What the machine under the daemon does during one event: who can be reached and launched,
      which services come first when a hash set is iterated, which syncers other work uses. */
  datatype Host = Host(
    reachable: set<Service>,
    launchable: set<Service>,
    early: seq<Service>,
    busy: set<Service>,
    ready: bool,
    configured: bool,
    binds: bool,
    listens: bool)

  /** The daemon. The two service lists are sets, in one of their iteration orders. */
  datatype Node = Node(
    machines: seq<Machine>,
    registered: seq<Service>,
    spawning: seq<Service>,
    deals: set<PublicDeal>,
    log: seq<Deed>)
  {
    function Tell(to: Service, msg: Message): Node {
      this.(log := log + [Told(to, msg)])
    }

    function Push(m: Option<Machine>): Node {
      if m.None? then this else this.(machines := machines + [m.value])
    }
  }

  const FRESH := Node([], [], [], {}, [])

  /** A machine's step: the daemon after it, the machine's next state if it has one, and
      whether it came to its end without an error. A failed machine is gone. */
  datatype Ran = Ran(node: Node, next: Option<Machine>, ok: bool)

  function Failed(n: Node): Ran {
    Ran(n, None, false)
  }

  // ----- sets kept as lists -----

  function Inserted(s: seq<Service>, x: Service): (r: seq<Service>)
    ensures forall y :: y in r <==> y in s || y == x
  {
    if x in s then s else s + [x]
  }

  function Removed(s: seq<Service>, x: Service): (r: seq<Service>)
    ensures forall y :: y in r <==> y in s && y != x
  {
    if s == [] then []
    else if s[0] == x then Removed(s[1..], x)
    else [s[0]] + Removed(s[1..], x)
  }

  /** The first service, in iteration order, with a property. */
  function First(order: seq<Service>, members: seq<Service>, p: Service -> bool): (r: Option<Service>)
    ensures r.Some? ==> r.value in members && p(r.value)
    ensures r.None? ==> forall s :: s in order && s in members ==> !p(s)
  {
    if order == [] then None
    else if order[0] in members && p(order[0]) then Some(order[0])
    else First(order[1..], members, p)
  }

  function SyncerOf(chain: Blockchain, network: nat): Service {
    Service.Syncer(chain, network)
  }

  // ----- routing -----

  predicate AwaitsConnect(m: Machine, address: NodeAddr) {
    m.TakerConnect? && m.deal.maker == address
  }

  predicate HasSwap(m: Machine, swap: SwapId) {
    (m.SwapdLaunched? || m.SwapdRunning?) && m.swap == swap
  }

  predicate Matches(m: Machine, e: Event) {
    match e.request
    case CommitOfTaker(deal, _) => m.MakeDeal? && m.deal == deal
    case RevokeDeal(deal) => m.MakeDeal? && m.deal == deal
    case SwapKeys(deal) => !m.MakeDeal? && m.deal == deal
    case ConnectSuccess => e.source.Peer? && AwaitsConnect(m, e.source.address)
    case ConnectFailed => e.source.Peer? && AwaitsConnect(m, e.source.address)
    case PeerdUnreachable(_) => e.source.Swap? && HasSwap(m, e.source.swap)
    case FundingInfo(_) => e.source.Swap? && HasSwap(m, e.source.swap)
    case FundingCompleted => e.source.Swap? && HasSwap(m, e.source.swap)
    case FundingCanceled => e.source.Swap? && HasSwap(m, e.source.swap)
    case SwapOutcome(_) => e.source.Swap? && HasSwap(m, e.source.swap)
    case Connect(swap) => HasSwap(m, swap)
    case _ => false
  }

  /** The position of the first machine an event is for, or the length if there is none. */
  function Position(ms: seq<Machine>, e: Event): (i: nat)
    ensures i <= |ms|
    ensures i < |ms| ==> Matches(ms[i], e)
    ensures forall j :: 0 <= j < i ==> !Matches(ms[j], e)
  {
    if ms == [] then 0 else if Matches(ms[0], e) then 0 else 1 + Position(ms[1..], e)
  }

  // ----- connections -----

  function Registers(n: Node, connection: Service): Node {
    var m := if connection.Peer? then n.(spawning := Removed(n.spawning, Peer(0, connection.address))) else n;
    m.(registered := Inserted(m.registered, connection))
  }

  function Unregisters(n: Node, connection: Service): Node {
    var m := if connection.Peer? then n.(spawning := Removed(n.spawning, Peer(0, connection.address))) else n;
    m.(registered := Removed(m.registered, connection))
  }

  datatype Connection = Refused | Found(node: Node, connected: bool, peerd: Service)

  predicate IsNode(s: Service, node: nat) {
    s.Peer? && s.address.node == node
  }

  /** No service of the list connects to the node. */
  predicate NoneOf(members: seq<Service>, node: nat) {
    forall s :: s in members ==> !IsNode(s, node)
  }

  /** A connection to the same node, on whatever socket: one still waited for, else one that
      stands, else a new one is launched. It is refused only before the node is set up, or if
      there is none and none can be launched. */
  function ConnectPeer(n: Node, h: Host, address: NodeAddr): (c: Connection)
    ensures c.Found? ==> IsNode(c.peerd, address.node)
    ensures c.Found? && c.connected ==> c.node == n && c.peerd in n.registered && NoneOf(n.spawning, address.node)
    ensures c.Found? && !c.connected ==> c.peerd in c.node.spawning
    ensures c.Found? && c.node != n ==>
      && NoneOf(n.spawning, address.node) && NoneOf(n.registered, address.node)
      && c.peerd == Peer(0, address) && c.node.log == n.log + [Launched(c.peerd)]
    ensures c.Refused? <==>
      || !h.ready
      || (NoneOf(n.spawning, address.node) && NoneOf(n.registered, address.node) && Peer(0, address) !in h.launchable)
  {
    var same := (s: Service) => IsNode(s, address.node);
    var waiting := First(h.early + n.spawning, n.spawning, same);
    var known := First(h.early + n.registered, n.registered, same);
    var dummy := Peer(0, address);
    if !h.ready then Refused
    else if waiting.Some? then Found(n, false, waiting.value)
    else if known.Some? then Found(n, true, known.value)
    else if dummy !in h.launchable then Refused
    else Found(n.(spawning := Inserted(n.spawning, dummy), log := n.log + [Launched(dummy)]), false, dummy)
  }

  // ----- starting a machine -----

  function StartMaker(n: Node, h: Host, source: Service, deal: PublicDeal): Ran {
    if !h.binds then
      if source in h.reachable then Ran(n.Tell(source, Failure), None, true) else Failed(n)
    else if !h.listens then
      if source.Answering() in h.reachable then Ran(n.Tell(source.Answering(), Failure), None, true) else Failed(n)
    else if Service.Database !in h.reachable then Failed(n)
    else
      var m := n.Tell(Service.Database, SetDealStatus(deal, Open));
      if source.Answering() !in h.reachable then Failed(m)
      else
        var k := m.Tell(source.Answering(), MadeDeal(deal));
        Ran(k.(deals := k.deals + {deal}), Some(MakeDeal(deal)), true)
  }

  predicate Consumed(ms: seq<Machine>, deal: PublicDeal) {
    exists i :: 0 <= i < |ms| && !ms[i].MakeDeal? && ms[i].deal.id == deal.id
  }

  function Take(n: Node, h: Host, client: Service, deal: PublicDeal, peerd: Service): Ran {
    if Wallet !in h.reachable then Failed(n)
    else
      var m := n.Tell(Wallet, CreateSwapKeys(deal));
      if client.Answering() !in h.reachable then Failed(m)
      else
        var k := m.Tell(client.Answering(), TookDeal(deal));
        Ran(k.(deals := k.deals + {deal}), Some(TakeDeal(deal, peerd)), true)
  }

  function StartTaker(n: Node, h: Host, source: Service, deal: PublicDeal): Ran {
    var c := ConnectPeer(n, h, deal.maker);
    if Consumed(n.machines, deal) || deal in n.deals || c.Refused? then
      if source.Answering() in h.reachable then Ran(n.Tell(source.Answering(), Failure), None, true) else Failed(n)
    else if c.connected then Take(c.node, h, source, deal, c.peerd)
    else Ran(c.node, Some(TakerConnect(deal, source)), true)
  }

  // ----- launching and starting the swap daemon -----

  /** Launches a syncer nobody has asked for yet. */
  function SyncerUp(n: Node, h: Host, chain: Blockchain, network: nat): Ran {
    var s := SyncerOf(chain, network);
    if s in n.registered || s in n.spawning then Ran(n, None, true)
    else if s !in h.launchable then Failed(n)
    else Ran(n.(spawning := Inserted(n.spawning, s), log := n.log + [Launched(s)]), None, true)
  }

  function IfRegistered(n: Node, s: Service): Option<Service> {
    if s in n.registered then Some(s) else None
  }

  function Launch(n: Node, h: Host, role: TradeRole, deal: PublicDeal, peerd: Service, swap: SwapId): Ran {
    var first := SyncerUp(n, h, Bitcoin, deal.network);
    var second := SyncerUp(first.node, h, Monero, deal.network);
    if !h.configured then Failed(n)
    else if !first.ok then first
    else if !second.ok then second
    else if Swap(swap) !in h.launchable then Failed(second.node)
    else
      var m := second.node;
      Ran(m.(log := m.log + [LaunchedSwapd(deal, swap, role)]),
          Some(SwapdLaunched(deal, peerd, swap, role, IfRegistered(m, SyncerOf(Bitcoin, deal.network)),
                             IfRegistered(m, SyncerOf(Monero, deal.network)), false, false)), true)
  }

  /** What a launched machine learns from an event: only announcements count. */
  function Learns(m: Machine, e: Event): (l: Machine)
    requires m.SwapdLaunched?
    ensures l.SwapdLaunched? && l.swap == m.swap && l.deal == m.deal
  {
    if !e.request.Hello? then m
    else if e.source == SyncerOf(Monero, m.deal.network) then m.(accordant := Some(e.source))
    else if e.source == Swap(m.swap) then m.(swapdUp := true)
    else if e.source == SyncerOf(Bitcoin, m.deal.network) then m.(arbitrating := Some(e.source))
    else m
  }

  predicate SamePeer(s: Service, peerd: Service) {
    s == peerd || s.Address() == peerd.Address()
  }

  function FindPeer(n: Node, h: Host, peerd: Service): Option<Service> {
    First(h.early + n.registered, n.registered, s => SamePeer(s, peerd))
  }

  /** The peer may have reconnected under another name since the machine was launched. */
  function Relinked(m: Machine, found: Option<Service>): (l: Machine)
    requires m.SwapdLaunched?
    ensures l.SwapdLaunched? && (found.Some? ==> l.peerd == found.value)
  {
    if found.None? || found.value == m.peerd then m else m.(peerd := found.value, reconnected := true)
  }

  function StartMessage(m: Machine): Message
    requires m.SwapdLaunched?
  {
    if m.role == Maker then MakeSwap(m.swap, m.peerd) else TakeSwap(m.swap, m.peerd)
  }

  function NextLaunched(n: Node, h: Host, e: Event, m: Machine): Ran
    requires m.SwapdLaunched?
  {
    var found := FindPeer(n, h, m.peerd);
    var l := Relinked(Learns(m, e), found);
    if l.accordant.None? || l.arbitrating.None? || !l.swapdUp || found.None? then Ran(n, Some(l), true)
    else if Swap(l.swap) !in h.reachable then Failed(n)
    else
      var k := if l.reconnected then n.Tell(Swap(l.swap), PeerdReconnected(l.peerd)) else n;
      Ran(k.Tell(Swap(l.swap), StartMessage(l)),
          Some(SwapdRunning(l.deal, l.peerd, l.swap, l.role, l.arbitrating.value, l.accordant.value, false)), true)
  }

  // ----- a running swap -----

  predicate UsesConnection(ms: seq<Machine>, s: Service) {
    exists i :: 0 <= i < |ms| && !ms[i].MakeDeal? && !ms[i].TakerConnect? && ms[i].peerd == s
  }

  predicate UsesSyncer(ms: seq<Machine>, s: Service) {
    exists i :: 0 <= i < |ms| && (
      || (ms[i].SwapdLaunched? && Some(s) in [ms[i].arbitrating, ms[i].accordant])
      || (ms[i].SwapdRunning? && s in [ms[i].arbitratingSyncer, ms[i].accordantSyncer]))
  }

  predicate Useless(ms: seq<Machine>, h: Host, s: Service) {
    (s.Peer? && !UsesConnection(ms, s)) || (s.Syncer? && !UsesSyncer(ms, s) && s !in h.busy)
  }

  /** Terminates what no machine uses any more, keeping what cannot be told so. */
  function CleanedUp(n: Node, h: Host, services: seq<Service>): Node
    decreases |services|
  {
    if services == [] then n
    else
      var s := services[0];
      var m := if Useless(n.machines, h, s) && s in h.reachable
               then n.(registered := Removed(n.registered, s)).Tell(s, Terminate) else n;
      CleanedUp(m, h, services[1..])
  }

  function NextRunning(n: Node, h: Host, e: Event, m: Machine): Ran
    requires m.SwapdRunning?
  {
    match e.request
    case Hello =>
      if !e.source.Peer? || e.source.Address() != m.peerd.Address() then Ran(n, Some(m), true)
      else if Swap(m.swap) !in h.reachable then Failed(n)
      else Ran(n.Tell(Swap(m.swap), PeerdReconnected(e.source)), Some(m), true)
    case FundingInfo(swap) => Ran(n, Some(m.(swap := swap, funding := true)), true)
    case FundingCompleted => Ran(n, Some(m.(funding := false)), true)
    case FundingCanceled => Ran(n, Some(m.(funding := false)), true)
    case Connect(swap) =>
      if swap != m.swap then Ran(n, Some(m), true)
      else if e.source.Answering() !in h.reachable then Failed(n)
      else Ran(n.Tell(e.source.Answering(), Failure), Some(m), true)
    case PeerdUnreachable(peerd) =>
      if e.source != Swap(m.swap) || peerd !in n.registered then Ran(n, Some(m), true)
      else
        var k := Unregisters(n, peerd);
        if peerd !in h.reachable then Failed(k)
        else Ran(k.Tell(peerd, Terminate).Tell(peerd, Terminate), Some(m), true)
    case SwapOutcome(outcome) =>
      if e.source != Swap(m.swap) then Ran(n, Some(m), true)
      else if Service.Database !in h.reachable then Failed(n)
      else
        var k := n.Tell(Service.Database, SetDealStatus(m.deal, Ended(outcome)));
        if Swap(m.swap) !in h.reachable then Failed(k)
        else
          var l := k.Tell(Swap(m.swap), Terminate).Tell(Service.Database, RemoveCheckpoint(m.swap));
          Ran(CleanedUp(l, h, l.registered), None, true)
    case _ => Ran(n, Some(m), true)
  }

  // ----- one machine -----

  function NextOpen(n: Node, h: Host, e: Event, m: Machine): Ran
    requires m.MakeDeal?
  {
    match e.request
    case CommitOfTaker(deal, swap) =>
      if !e.source.Peer? || deal != m.deal then Ran(n, Some(m), true)
      else if Wallet !in h.reachable then Failed(n)
      else
        var k := n.Tell(Wallet, CreateSwapKeys(deal));
        if Service.Database !in h.reachable then Failed(k)
        else Ran(k.Tell(Service.Database, SetDealStatus(deal, InProgress)),
          Some(Machine.TakerCommit(deal, e.source, swap)), true)
    case RevokeDeal(deal) =>
      if e.source.Answering() !in h.reachable then Failed(n)
      else Ran(n.Tell(e.source.Answering(), Info), if deal == m.deal then None else Some(m), true)
    case _ => Ran(n, Some(m), true)
  }

  function NextConnecting(n: Node, h: Host, e: Event, m: Machine): Ran
    requires m.TakerConnect?
  {
    if e.request.ConnectSuccess? && e.source.Address() == Some(m.deal.maker) then
      Take(Registers(n, e.source), h, m.client, m.deal, e.source)
    else if e.request.ConnectFailed? && e.source.Address() == Some(m.deal.maker) then
      var k := Unregisters(n, e.source);
      if e.source !in h.reachable then Failed(k)
      else if m.client.Answering() !in h.reachable then Failed(k.Tell(e.source, Terminate))
      else Ran(k.Tell(e.source, Terminate).Tell(m.client.Answering(), Failure), None, true)
    else Ran(n, Some(m), true)
  }

  function Next(n: Node, h: Host, e: Event, m: Machine): Ran {
    match m
    case MakeDeal(_) => NextOpen(n, h, e, m)
    case TakerConnect(_, _) => NextConnecting(n, h, e, m)
    case TakerCommit(deal, peerd, swap) =>
      if e.request.SwapKeys? then Launch(n, h, Maker, deal, peerd, swap) else Ran(n, Some(m), true)
    case TakeDeal(deal, peerd) =>
      if e.request.SwapKeys? then Launch(n, h, Taker, deal, peerd, deal.id) else Ran(n, Some(m), true)
    case SwapdLaunched(_, _, _, _, _, _, _, _) => NextLaunched(n, h, e, m)
    case SwapdRunning(_, _, _, _, _, _, _) => NextRunning(n, h, e, m)
  }

  // ----- the daemon -----

  datatype Stepped = Stepped(node: Node, ok: bool)

  /** Answers a request no machine is waiting for. */
  function Unclaimed(n: Node, h: Host, e: Event): Stepped {
    match e.request
    case RevokeDeal(_) => if e.source in h.reachable then Stepped(n.Tell(e.source, Failure), true)
      else Stepped(n, false)
    case Connect(_) => if e.source in h.reachable then Stepped(n.Tell(e.source, Failure), true) else Stepped(n, false)
    case CommitOfTaker(_, swap) =>
      if e.source in h.reachable then Stepped(n.Tell(e.source, Message.DealNotFound(swap)), true) else Stepped(n, false)
    case _ => Stepped(n, true)
  }

  function Without(ms: seq<Machine>, i: nat): seq<Machine>
    requires i < |ms|
  {
    ms[..i] + ms[i + 1..]
  }

  function Finish(r: Ran): Stepped {
    Stepped(r.node.Push(r.next), r.ok)
  }

  /** A request for one machine: it is taken out, stepped, and put back at the end. */
  function Process(n: Node, h: Host, e: Event): Stepped {
    if e.request.AskMakeDeal? then Finish(StartMaker(n, h, e.source, e.request.deal))
    else if e.request.AskTakeDeal? then Finish(StartTaker(n, h, e.source, e.request.deal))
    else
      var i := Position(n.machines, e);
      if i < |n.machines| then
        Finish(Next(n.(machines := Without(n.machines, i)), h, e, n.machines[i]))
      else Unclaimed(n, h, e)
  }

  /** Shows an event to one machine after the other. After an error the rest is not put back. */
  function Show(n: Node, h: Host, e: Event, todo: seq<Machine>): Stepped
    decreases |todo|
  {
    if todo == [] then Stepped(n, true)
    else
      var r := Next(n, h, e, todo[0]);
      if r.ok then Show(r.node.Push(r.next), h, e, todo[1..]) else Stepped(r.node, false)
  }

  predicate Awaited(ms: seq<Machine>, address: NodeAddr) {
    exists i :: 0 <= i < |ms| && AwaitsConnect(ms[i], address)
  }

  /** What an announcement changes before the machines hear of it. */
  function Welcome(n: Node, h: Host, source: Service): Stepped {
    match source
    case Database =>
      var m := n.(registered := Inserted(n.registered, source));
      if source in h.reachable then Stepped(m.Tell(source, CleanDanglingDeals), true) else Stepped(m, false)
    case Wallet =>
      var m := n.(registered := Inserted(n.registered, source));
      if source in h.reachable then Stepped(m.Tell(source, GetKeys), true) else Stepped(m, false)
    case Peer(_, address) => Stepped(if Awaited(n.machines, address) then n else Registers(n, source), true)
    case Syncer(_, _) =>
      Stepped(if source !in n.spawning then n
              else n.(spawning := Removed(n.spawning, source), registered := Inserted(n.registered, source)), true)
    case _ => Stepped(n, true)
  }

  function Step(n: Node, h: Host, e: Event): Stepped {
    if e.request.Hello? then
      var w := Welcome(n, h, e.source);
      if w.ok then Show(w.node.(machines := []), h, e, w.node.machines) else w
    else if e.request.PeerdTerminated? && e.source.Peer? then
      var m := Unregisters(n, e.source);
      if e.source in h.reachable then Stepped(m.Tell(e.source, Terminate), true) else Stepped(m, false)
    else Process(n, h, e)
  }

  datatype Turn = Turn(host: Host, event: Event)

  function Run(n: Node, turns: seq<Turn>): Node
    decreases |turns|
  {
    if turns == [] then n
    else
      var last := turns[|turns| - 1];
      Step(Run(n, turns[..|turns| - 1]), last.host, last.event).node
  }
}
