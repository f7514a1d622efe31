/**
 The mesh as a distributed state machine: any number of nodes running the handlers of MeshSpec over
 TCP connections. Each direction of a connection is a FIFO queue, kept as the lines sent so far and
 the number of them already handled. One event is one run of one handler.
 */
module MeshNet {
  import opened Common
  import opened MeshSpec

  /** The random id and the canonical address of every node. */
  datatype Config = Config(ids: seq<int>, addrs: seq<Addr>) {
    ghost predicate Valid() {
      && |ids| == |addrs|
      && (forall m, n :: 0 <= m < n < |ids| ==> ids[m] != ids[n])
      && (forall m, n :: 0 <= m < n < |ids| ==> addrs[m] != addrs[n])
      && (forall m, n :: 0 <= m < |ids| && 0 <= n < |ids| && m != n ==> addrs[m] != Alias(n))
    }

    /** The address the loopback entry of n carries until a peer tells n its own ip. */
    function Alias(n: nat): Addr
      requires n < |addrs|
    {
      Addr(LOCALHOST, addrs[n].port)
    }

    /** The node listening at this address, |addrs| when there is none. */
    function NodeAt(addr: Addr): (n: nat)
      ensures n <= |addrs|
      ensures n < |addrs| ==> addrs[n] == addr
      ensures n == |addrs| ==> addr !in addrs
    {
      NodeFrom(addr, 0)
    }

    function NodeFrom(addr: Addr, k: nat): (n: nat)
      requires k <= |addrs|
      ensures k <= n <= |addrs|
      ensures n < |addrs| ==> addrs[n] == addr
      ensures n == |addrs| ==> addr !in addrs[k..]
      decreases |addrs| - k
    {
      if k == |addrs| || addrs[k] == addr then k else NodeFrom(addr, k + 1)
    }
  }

  datatype Flow = Flow(sent: seq<Line>, got: nat)

  /** The dialling end; its lines go to hosts[dialHost] of the dialler unless it is Gone. */
  datatype DialEnd = Unopened | Open | Gone

  /** The accepting end: still read by handle_incoming_connection, owned by a host, or closed. */
  datatype AcceptEnd = Waiting | Attached(host: nat) | Refused

  datatype Conn = Conn(dialer: nat, dialHost: nat, target: Addr, acceptor: nat,
                       dialEnd: DialEnd, acceptEnd: AcceptEnd, up: Flow, down: Flow)

  datatype State = State(nodes: seq<Node>, conns: seq<Conn>)

  datatype Event =
    | UserAdds(node: nat, addr: Addr)                      // add_host called by the application
    | Opens(conn: nat)                                     // connect() succeeded at the dialler
    | Receives(sock: Sock, published: seq<string>)         // the next line at this end is handled
    | Closes(conn: nat)                                    // the dialler notices it was refused
    | Broadcasts(node: nat, text: string)                  // Host::broadcast by the application
    | Writes(node: nat, host: nat, text: string)           // Host::send to one ready host

  function Init(cfg: Config): State
    requires cfg.Valid()
  {
    State(seq(|cfg.ids|, n requires 0 <= n < |cfg.ids| => Start(cfg.ids[n], cfg.addrs[n].port)), [])
  }

  function NewConn(cfg: Config, n: nat, addr: Addr, host: nat): Conn {
    Conn(n, host, addr, cfg.NodeAt(addr), Unopened, Waiting, Flow([], 0), Flow([], 0))
  }

  /** One effect of node n. Nothing is sent on a socket that is not open. */
  function Do(cfg: Config, n: nat, conns: seq<Conn>, e: Effect): seq<Conn> {
    match e
    case Send(sock, lines) =>
      if sock.conn < |conns| && Listening(conns[sock.conn], sock.side)
      then conns[sock.conn := AddSent(conns[sock.conn], sock.side, lines)] else conns
    case Attach(sock, i) =>
      if sock.conn < |conns| && sock.side.Acceptor?
      then conns[sock.conn := conns[sock.conn].(acceptEnd := Attached(i))] else conns
    case Close(sock) =>
      if sock.conn >= |conns| then conns
      else if sock.side.Dialer? then conns[sock.conn := conns[sock.conn].(dialEnd := Gone)]
      else conns[sock.conn := conns[sock.conn].(acceptEnd := Refused)]
    case Dial(addr, i) => conns + [NewConn(cfg, n, addr, i)]
    case Withdraw(_) => conns
  }

  function AddSent(k: Conn, side: Side, lines: seq<Line>): Conn {
    if side.Dialer? then k.(up := k.up.(sent := k.up.sent + lines))
    else k.(down := k.down.(sent := k.down.sent + lines))
  }

  function DoAll(cfg: Config, n: nat, conns: seq<Conn>, effects: seq<Effect>): seq<Conn>
    decreases |effects|
  {
    if effects == [] then conns
    else DoAll(cfg, n, Do(cfg, n, conns, effects[0]), effects[1..])
  }

  /** Node n ran a handler. */
  function Apply(cfg: Config, s: State, n: nat, o: Outcome): State
    requires n < |s.nodes|
  {
    State(s.nodes[n := o.node], DoAll(cfg, n, s.conns, o.effects))
  }

  /** The line at the head of the queue towards this end is done with. */
  function Handled(k: Conn, side: Side): Conn {
    if side.Dialer? then k.(down := k.down.(got := k.down.got + 1))
    else k.(up := k.up.(got := k.up.got + 1))
  }

  function Inflow(k: Conn, side: Side): Flow {
    if side.Dialer? then k.down else k.up
  }

  function Outflow(k: Conn, side: Side): Flow {
    if side.Dialer? then k.up else k.down
  }

  function Local(k: Conn, side: Side): nat {
    if side.Dialer? then k.dialer else k.acceptor
  }

  /** Some listener reads this end. */
  predicate Listening(k: Conn, side: Side) {
    if side.Dialer? then k.dialEnd.Open? else !k.acceptEnd.Refused?
  }

  predicate Enabled(cfg: Config, s: State, e: Event) {
    match e
    case UserAdds(n, addr) => n < |s.nodes| && n < |cfg.addrs| && addr != cfg.addrs[n] && addr != cfg.Alias(n)
    case Opens(c) => c < |s.conns| && s.conns[c].dialEnd.Unopened? && s.conns[c].acceptor < |s.nodes|
                     && s.conns[c].dialer < |s.nodes|
    case Receives(sock, _) =>
      && sock.conn < |s.conns|
      && var k := s.conns[sock.conn];
      && Listening(k, sock.side)
      && Inflow(k, sock.side).got < |Inflow(k, sock.side).sent|
      && Local(k, sock.side) < |s.nodes|
      && k.dialer < |cfg.addrs|
      && (!(sock.side.Acceptor? && k.acceptEnd.Waiting?) ==>
            HostOf(k, sock.side) < |s.nodes[Local(k, sock.side)].hosts|)
    case Closes(c) =>
      && c < |s.conns|
      && s.conns[c].dialEnd.Open? && s.conns[c].acceptEnd.Refused?
      && s.conns[c].down.got == |s.conns[c].down.sent|
      && s.conns[c].dialer < |s.nodes|
      && s.conns[c].dialHost < |s.nodes[s.conns[c].dialer].hosts|
    case Broadcasts(n, _) => n < |s.nodes|
    case Writes(n, i, _) => n < |s.nodes| && i < |s.nodes[n].hosts| && s.nodes[n].hosts[i].ready
  }

  /** The host whose on_receive an attached end feeds. */
  function HostOf(k: Conn, side: Side): nat {
    if side.Dialer? then k.dialHost
    else if k.acceptEnd.Attached? then k.acceptEnd.host else 0
  }

  /** The line leaves the queue and its handler runs. */
  function Receive(cfg: Config, s: State, sock: Sock, published: seq<string>): State
    requires Enabled(cfg, s, Receives(sock, published))
  {
    var k := s.conns[sock.conn];
    var n := Local(k, sock.side);
    var flow := Inflow(k, sock.side);
    var line := flow.sent[flow.got];
    var o :=
      if sock.side.Acceptor? && k.acceptEnd.Waiting? then
        if line.Id? then Incoming(s.nodes[n], sock, cfg.addrs[k.dialer].ip, line.id, line.port)
        else Outcome(s.nodes[n], [])
      else OnReceive(s.nodes[n], HostOf(k, sock.side), line, |s.conns|, published);
    Apply(cfg, s.(conns := s.conns[sock.conn := Handled(k, sock.side)]), n, o)
  }

  function Open'(cfg: Config, s: State, c: nat): State
    requires Enabled(cfg, s, Opens(c))
  {
    var k := s.conns[c];
    var s' := s.(conns := s.conns[c := k.(dialEnd := Open)]);
    Apply(cfg, s', k.dialer, Outcome(s.nodes[k.dialer],
                                     [Welcome(s.nodes[k.dialer], Sock(c, Dialer), k.target.ip)]))
  }

  function Reopen(cfg: Config, s: State, c: nat): State
    requires Enabled(cfg, s, Closes(c))
  {
    var k := s.conns[c];
    var s' := s.(conns := s.conns[c := k.(dialEnd := Gone)]);
    Apply(cfg, s', k.dialer, OnClose(s.nodes[k.dialer], k.dialHost, |s.conns|))
  }

  function Step(cfg: Config, s: State, e: Event): State {
    if !Enabled(cfg, s, e) then s else
    match e
    case UserAdds(n, addr) => Apply(cfg, s, n, AddHost(s.nodes[n], addr, |s.conns|))
    case Opens(c) => Open'(cfg, s, c)
    case Receives(sock, published) => Receive(cfg, s, sock, published)
    case Closes(c) => Reopen(cfg, s, c)
    case Broadcasts(n, text) =>
      Apply(cfg, s, n, Outcome(s.nodes[n], Broadcast(s.nodes[n].hosts, [Signal(text)])))
    case Writes(n, i, text) =>
      Apply(cfg, s, n, Outcome(s.nodes[n], SendTo(s.nodes[n].hosts[i], [Signal(text)])))
  }

  /** The state after a run; an event that is not enabled changes nothing. */
  function Run(cfg: Config, events: seq<Event>): State
    requires cfg.Valid()
  {
    if events == [] then Init(cfg)
    else Step(cfg, Run(cfg, events[..|events| - 1]), events[|events| - 1])
  }
}
