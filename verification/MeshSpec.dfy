/**
 The handlers of src/mesh.cpp as functions on the value of one process: its id, its signalling port
 and its `hosts` table. A handler returns the new value and what it asks of the sockets, in order.
 */
module MeshSpec {
  import opened Common

  datatype Addr = Addr(ip: string, port: int)

  /** One end of one TCP connection. */
  datatype Side = Dialer | Acceptor
  datatype Sock = Sock(conn: nat, side: Side)

  /** The lines two nodes exchange; Signal is everything handed to digest_message. */
  datatype Line =
    | Id(id: int, port: int)
    | You(ip: string)
    | Connected
    | HostAt(addr: Addr)
    | Signal(text: string)

  datatype Host = Host(addr: Addr, id: int, ready: bool, server: bool, sock: Option<Sock>)

  /** `hosts[0]` is the loopback entry, Host::me(). */
  datatype Node = Node(id: int, port: int, hosts: seq<Host>)

  /** What a handler does to sockets. A Send carries the lines of one write. */
  datatype Effect =
    | Send(sock: Sock, lines: seq<Line>)
    | Attach(sock: Sock, host: nat)  // the socket's lines now go to hosts[host]
    | Close(sock: Sock)              // remove_listeners and close(true)
    | Dial(addr: Addr, host: nat)    // a new client socket, owned by hosts[host]
    | Withdraw(host: nat)            // on_host_close: the channels of hosts[host] lose their publisher

  datatype Outcome = Outcome(node: Node, effects: seq<Effect>)

  const LOCALHOST := "localhost"

  /** The first entry with this address, |hosts| when there is none. */
  function Find(hosts: seq<Host>, addr: Addr): (i: nat)
    ensures i <= |hosts|
    ensures i < |hosts| ==> hosts[i].addr == addr
    ensures forall j :: 0 <= j < i ==> hosts[j].addr != addr
  {
    if hosts == [] then 0
    else if hosts[0].addr == addr then 0
    else 1 + Find(hosts[1..], addr)
  }

  predicate HasHost(hosts: seq<Host>, addr: Addr) {
    Find(hosts, addr) < |hosts|
  }

  function Loopback(port: int): Host {
    Host(Addr(LOCALHOST, port), 0, false, true, None)
  }

  function Start(id: int, port: int): Node {
    Node(id, port, [Loopback(port)])
  }

  function SendTo(h: Host, lines: seq<Line>): seq<Effect> {
    if h.sock.Some? then [Send(h.sock.value, lines)] else []
  }

  /** One write to every ready host from index i on. */
  function BroadcastFrom(hosts: seq<Host>, i: nat, lines: seq<Line>): seq<Effect>
    decreases |hosts| - i
  {
    if i >= |hosts| then []
    else (if hosts[i].ready then SendTo(hosts[i], lines) else []) + BroadcastFrom(hosts, i + 1, lines)
  }

  function Broadcast(hosts: seq<Host>, lines: seq<Line>): seq<Effect> {
    BroadcastFrom(hosts, 1, lines)
  }

  function BroadcastAll(hosts: seq<Host>, texts: seq<string>): seq<Effect> {
    if texts == [] then [] else Broadcast(hosts, [Signal(texts[0])]) + BroadcastAll(hosts, texts[1..])
  }

  /** The Host= lines of broadcast_hosts, in table order, from index i on. */
  function HostLines(hosts: seq<Host>, i: nat): seq<Line>
    decreases |hosts| - i
  {
    if i >= |hosts| then []
    else (if hosts[i].ready then [HostAt(hosts[i].addr)] else []) + HostLines(hosts, i + 1)
  }

  function Welcome(me: Node, sock: Sock, peerIp: string): Effect {
    Send(sock, [Id(me.id, me.port), You(peerIp)])
  }

  /** add_host: dial unless the address is already in the table. `next` names the new connection. */
  function AddHost(me: Node, addr: Addr, next: nat): Outcome {
    if HasHost(me.hosts, addr) then Outcome(me, [])
    else Outcome(me.(hosts := me.hosts + [Host(addr, 0, false, false, Some(Sock(next, Dialer)))]),
                 [Dial(addr, |me.hosts|)])
  }

  /** The first line on an accepted connection: accept it, let it replace our own dial, or refuse it. */
  function Incoming(me: Node, sock: Sock, ip: string, id: int, port: int): Outcome {
    var i := Find(me.hosts, Addr(ip, port));
    if i == |me.hosts| then
      Outcome(me.(hosts := me.hosts + [Host(Addr(ip, port), 0, false, true, Some(sock))]),
              [Attach(sock, i), Welcome(me, sock, ip), Send(sock, [Connected])])
    else
      var h := me.hosts[i];
      if id > me.id || h.server then
        Outcome(me.(hosts := me.hosts[i := h.(server := true, sock := Some(sock))]),
                (if h.sock.Some? then [Close(h.sock.value)] else [])
                + [Attach(sock, i), Welcome(me, sock, ip)]
                + if !h.ready then [Send(sock, [Connected])] else [])
      else if id < me.id then Outcome(me, [Close(sock)])
      else Outcome(me, [])
  }

  /**
   A line on a connection owned by hosts[i]. `published` is what on_host_open broadcasts.
   A line other than the handshake is dropped while the host is not ready.
   */
  function OnReceive(me: Node, i: nat, line: Line, next: nat, published: seq<string>): Outcome
    requires i < |me.hosts|
  {
    var h := me.hosts[i];
    match line
    case Id(id, port) =>
      var h' := h.(id := id, addr := Addr(h.addr.ip, port));
      Outcome(me.(hosts := me.hosts[i := h']), SendTo(h', [Connected]))
    case You(ip) =>
      var me0 := me.hosts[0];
      Outcome(me.(hosts := me.hosts[0 := me0.(addr := Addr(ip, me0.addr.port), ready := true)]), [])
    case Connected =>
      var hosts' := me.hosts[i := h.(ready := true)];
      Outcome(me.(hosts := hosts'),
              BroadcastAll(hosts', published) + Broadcast(hosts', HostLines(hosts', 0)))
    case HostAt(addr) => if h.ready then AddHost(me, addr, next) else Outcome(me, [])
    case Signal(_) => Outcome(me, [])
  }

  /** The dialled connection of hosts[i] was closed by the peer: the socket dials again. */
  function OnClose(me: Node, i: nat, next: nat): Outcome
    requires i < |me.hosts|
  {
    Outcome(me.(hosts := me.hosts[i := me.hosts[i].(ready := false, sock := Some(Sock(next, Dialer)))]),
            [Withdraw(i), Dial(me.hosts[i].addr, i)])
  }
}
