/**
 What the handlers of the mesh do to the table and to the sockets, said for every node and every line,
 whether a run can get there or not: who is closed, attached, dialled, and what is written on each socket.
 */
module MeshHandlers {
  import opened Common
  import opened MeshSpec

  /** What is written on one socket, in order. */
  function LinesOn(effects: seq<Effect>, sock: Sock): seq<Line> {
    if effects == [] then []
    else
      var rest := LinesOn(effects[1..], sock);
      match effects[0]
      case Send(s, lines) => if s == sock then lines + rest else rest
      case _ => rest
  }

  /** The sockets closed, in order. */
  function Closed(effects: seq<Effect>): seq<Sock> {
    if effects == [] then []
    else if effects[0].Close? then [effects[0].sock] + Closed(effects[1..])
    else Closed(effects[1..])
  }

  /** The sockets given to a host, in order. */
  function Given(effects: seq<Effect>): seq<(Sock, nat)> {
    if effects == [] then []
    else if effects[0].Attach? then [(effects[0].sock, effects[0].host)] + Given(effects[1..])
    else Given(effects[1..])
  }

  /** The addresses dialled and the hosts they are dialled for, in order. */
  function Dialled(effects: seq<Effect>): seq<(Addr, nat)> {
    if effects == [] then []
    else if effects[0].Dial? then [(effects[0].addr, effects[0].host)] + Dialled(effects[1..])
    else Dialled(effects[1..])
  }

  /** The hosts whose channels are withdrawn, in order. */
  function Withdrawn(effects: seq<Effect>): seq<nat> {
    if effects == [] then []
    else if effects[0].Withdraw? then [effects[0].host] + Withdrawn(effects[1..])
    else Withdrawn(effects[1..])
  }

  /** What one more effect, put first, adds. */
  lemma {:induction false} FirstEffect(e: Effect, rest: seq<Effect>)
    ensures var es := [e] + rest;
      && Closed(es) == (if e.Close? then [e.sock] else []) + Closed(rest)
      && Given(es) == (if e.Attach? then [(e.sock, e.host)] else []) + Given(rest)
      && Dialled(es) == (if e.Dial? then [(e.addr, e.host)] else []) + Dialled(rest)
      && Withdrawn(es) == (if e.Withdraw? then [e.host] else []) + Withdrawn(rest)
      && forall sock :: LinesOn(es, sock) == (if e.Send? && e.sock == sock then e.lines else []) + LinesOn(rest, sock)
  {
    assert ([e] + rest)[1..] == rest;
  }

  /** Nothing but entry i may have changed. */
  predicate OnlyEntry(me: Node, me': Node, i: nat) {
    && me'.id == me.id && me'.port == me.port && |me'.hosts| == |me.hosts|
    && forall j :: 0 <= j < |me.hosts| && j != i ==> me'.hosts[j] == me.hosts[j]
  }

  /** The address is that of entry i and of no other. */
  predicate Entry(me: Node, i: nat, addr: Addr) {
    i < |me.hosts| && me.hosts[i].addr == addr && forall j :: 0 <= j < i ==> me.hosts[j].addr != addr
  }

  lemma EntryFound(me: Node, i: nat, addr: Addr)
    requires Entry(me, i, addr)
    ensures Find(me.hosts, addr) == i
  {
  }

  // ---------- the ID= of a peer that connects

  /** The lines that welcome a peer, and CONNECTED if it was not ready. */
  function Greeting(me: Node, ip: string, ready: bool): seq<Line> {
    [Id(me.id, me.port), You(ip)] + if ready then [] else [Connected]
  }

  /** Nobody but the peer on sock is written to, nobody is dialled or withdrawn. */
  ghost predicate OnlyTo(effects: seq<Effect>, sock: Sock) {
    && Dialled(effects) == [] && Withdrawn(effects) == []
    && forall other: Sock :: other != sock ==> LinesOn(effects, other) == []
  }

  /** The peer's socket has taken the place of the one entry i had. */
  ghost predicate TakesOver(me: Node, o: Outcome, i: nat, sock: Sock, ip: string)
    requires i < |me.hosts|
  {
    var h := me.hosts[i];
    && OnlyEntry(me, o.node, i) && o.node.hosts[i] == Host(h.addr, h.id, h.ready, true, Some(sock))
    && Closed(o.effects) == (if h.sock.Some? then [h.sock.value] else [])
    && Given(o.effects) == [(sock, i)]
    && LinesOn(o.effects, sock) == Greeting(me, ip, h.ready)
    && OnlyTo(o.effects, sock)
  }

  /** The old socket, if any, is closed first, then the new one attached, greeted, and perhaps connected. */
  lemma TakeOverEffects(me: Node, i: nat, sock: Sock, ip: string)
    requires i < |me.hosts|
    ensures var h := me.hosts[i];
      var es := (if h.sock.Some? then [Close(h.sock.value)] else [])
                + [Attach(sock, i), Send(sock, [Id(me.id, me.port), You(ip)])]
                + if !h.ready then [Send(sock, [Connected])] else [];
      TakesOver(me, Outcome(me.(hosts := me.hosts[i := h.(server := true, sock := Some(sock))]), es), i, sock, ip)
  {
    var h := me.hosts[i];
    var greet := [Attach(sock, i), Send(sock, [Id(me.id, me.port), You(ip)])] + if !h.ready then [Send(sock, [Connected])] else [];
    GreetEffects(me, i, sock, ip, h.ready);
    if h.sock.Some? { FirstEffect(Close(h.sock.value), greet); }
    assert (if h.sock.Some? then [Close(h.sock.value)] else [])
           + [Attach(sock, i), Send(sock, [Id(me.id, me.port), You(ip)])]
           + (if !h.ready then [Send(sock, [Connected])] else [])
           == if h.sock.Some? then [Close(h.sock.value)] + greet else greet;
  }

  lemma GreetEffects(me: Node, i: nat, sock: Sock, ip: string, ready: bool)
    ensures var es := [Attach(sock, i), Send(sock, [Id(me.id, me.port), You(ip)])]
                      + if !ready then [Send(sock, [Connected])] else [];
      && Closed(es) == [] && Given(es) == [(sock, i)] && LinesOn(es, sock) == Greeting(me, ip, ready) && OnlyTo(es, sock)
  {
    var welcome := Send(sock, [Id(me.id, me.port), You(ip)]);
    var last := if !ready then [Send(sock, [Connected])] else [];
    FirstEffect(Send(sock, [Connected]), []);
    FirstEffect(welcome, last);
    FirstEffect(Attach(sock, i), [welcome] + last);
    assert [Send(sock, [Connected])] + [] == [Send(sock, [Connected])];
    assert [Attach(sock, i), welcome] + last == [Attach(sock, i)] + ([welcome] + last);
  }

  /** A peer that a socket of ours was accepted from before is accepted again, whatever its id. */
  lemma PeerComesBack(me: Node, sock: Sock, ip: string, id: int, port: int, i: nat)
    requires Entry(me, i, Addr(ip, port)) && me.hosts[i].server
    ensures TakesOver(me, Incoming(me, sock, ip, id, port), i, sock, ip)
    ensures me.hosts[i].sock != Some(sock) ==> sock !in Closed(Incoming(me, sock, ip, id, port).effects)
  {
    EntryFound(me, i, Addr(ip, port));
    TakeOverEffects(me, i, sock, ip);
  }

  /** Of two opposite dials the one from the higher id is kept: its acceptor gives its own up for it. */
  lemma HigherPeerTakesOver(me: Node, sock: Sock, ip: string, id: int, port: int, i: nat)
    requires Entry(me, i, Addr(ip, port)) && id > me.id
    ensures TakesOver(me, Incoming(me, sock, ip, id, port), i, sock, ip)
  {
    EntryFound(me, i, Addr(ip, port));
    TakeOverEffects(me, i, sock, ip);
  }

  /** A peer with a lower id that we dial ourselves is refused, and nothing else happens. */
  lemma LowerPeerRefused(me: Node, sock: Sock, ip: string, id: int, port: int, i: nat)
    requires Entry(me, i, Addr(ip, port)) && !me.hosts[i].server && id < me.id
    ensures var o := Incoming(me, sock, ip, id, port);
      o.node == me && o.effects == [Close(sock)]
  {
    EntryFound(me, i, Addr(ip, port));
  }

  /** A peer with our own id is neither accepted nor refused. */
  lemma SameIdIgnored(me: Node, sock: Sock, ip: string, port: int, i: nat)
    requires Entry(me, i, Addr(ip, port)) && !me.hosts[i].server
    ensures Incoming(me, sock, ip, me.id, port) == Outcome(me, [])
  {
    EntryFound(me, i, Addr(ip, port));
  }

  /** An unknown peer gets an entry of its own, not ready, and is greeted. */
  lemma StrangerAccepted(me: Node, sock: Sock, ip: string, id: int, port: int)
    requires forall j :: 0 <= j < |me.hosts| ==> me.hosts[j].addr != Addr(ip, port)
    ensures var o := Incoming(me, sock, ip, id, port);
      && o.node == Node(me.id, me.port, me.hosts + [Host(Addr(ip, port), 0, false, true, Some(sock))])
      && Closed(o.effects) == [] && Given(o.effects) == [(sock, |me.hosts|)]
      && LinesOn(o.effects, sock) == Greeting(me, ip, false) && OnlyTo(o.effects, sock)
  {
    assert Find(me.hosts, Addr(ip, port)) == |me.hosts|;
    var i := |me.hosts|;
    GreetEffects(me, i, sock, ip, false);
    assert [Attach(sock, i), Welcome(me, sock, ip), Send(sock, [Connected])]
           == [Attach(sock, i), Send(sock, [Id(me.id, me.port), You(ip)])] + [Send(sock, [Connected])];
  }

  // ---------- the lines of a host's own connection

  /** ID=: the entry has the peer's id and port, and CONNECTED is the answer. */
  lemma IdHeard(me: Node, i: nat, id: int, port: int, next: nat, published: seq<string>)
    requires i < |me.hosts|
    ensures var o := OnReceive(me, i, Id(id, port), next, published);
      var h := me.hosts[i];
      && OnlyEntry(me, o.node, i) && o.node.hosts[i] == Host(Addr(h.addr.ip, port), id, h.ready, h.server, h.sock)
      && o.effects == if h.sock.Some? then [Send(h.sock.value, [Connected])] else []
  {
  }

  /** YOU=: the loopback host has the ip told and from now on is gossiped like the others. */
  lemma YouHeard(me: Node, i: nat, ip: string, next: nat, published: seq<string>)
    requires i < |me.hosts|
    ensures var o := OnReceive(me, i, You(ip), next, published);
      var h := me.hosts[0];
      && OnlyEntry(me, o.node, 0) && o.node.hosts[0] == Host(Addr(ip, h.addr.port), h.id, true, h.server, h.sock)
      && o.effects == []
      && HostAt(Addr(ip, h.addr.port)) in HostLines(o.node.hosts, 0)
  {
    var o := OnReceive(me, i, You(ip), next, published);
    HostLinesName(o.node.hosts, 0, Addr(ip, me.hosts[0].addr.port));
    assert o.node.hosts[0].ready;
  }

  /** A ready host from entry i on has this address. */
  ghost predicate ReadyAt(hosts: seq<Host>, i: nat, addr: Addr) {
    exists j :: 0 <= j < |hosts| && i <= j && hosts[j].ready && hosts[j].addr == addr
  }

  lemma ReadyAtNext(hosts: seq<Host>, i: nat, addr: Addr)
    requires i < |hosts|
    ensures ReadyAt(hosts, i, addr) <==> (hosts[i].ready && hosts[i].addr == addr) || ReadyAt(hosts, i + 1, addr)
  {
  }

  /** The lines of broadcast_hosts name the ready hosts and nobody else. */
  lemma {:induction false} HostLinesName(hosts: seq<Host>, i: nat, addr: Addr)
    ensures HostAt(addr) in HostLines(hosts, i) <==> ReadyAt(hosts, i, addr)
    decreases |hosts| - i
  {
    if i < |hosts| {
      HostLinesName(hosts, i + 1, addr);
      ReadyAtNext(hosts, i, addr);
      var first := if hosts[i].ready then [HostAt(hosts[i].addr)] else [];
      assert HostLines(hosts, i) == first + HostLines(hosts, i + 1);
    }
  }

  /** They are one for each ready host, and nothing else. */
  lemma {:induction false} HostLinesCount(hosts: seq<Host>, i: nat)
    ensures |HostLines(hosts, i)| == Ready(hosts, i)
    ensures forall k :: 0 <= k < |HostLines(hosts, i)| ==> HostLines(hosts, i)[k].HostAt?
    decreases |hosts| - i
  {
    if i < |hosts| { HostLinesCount(hosts, i + 1); }
  }

  function Ready(hosts: seq<Host>, i: nat): nat
    decreases |hosts| - i
  {
    if i >= |hosts| then 0 else (if hosts[i].ready then 1 else 0) + Ready(hosts, i + 1)
  }

  /** They come in the order of the table. */
  lemma {:induction false} HostLinesInOrder(hosts: seq<Host>, i: nat, j: nat)
    requires i <= j < |hosts| && hosts[j].ready
    ensures var k := Ready(hosts, i) - Ready(hosts, j);
      0 <= k < |HostLines(hosts, i)| && HostLines(hosts, i)[k] == HostAt(hosts[j].addr)
    decreases j - i
  {
    if i < j {
      HostLinesInOrder(hosts, i + 1, j);
    } else {
      HostLinesCount(hosts, i);
    }
  }

  predicate OwnSockets(hosts: seq<Host>) {
    forall a, b :: 0 <= a < b < |hosts| && hosts[a].sock.Some? ==> hosts[a].sock != hosts[b].sock
  }

  /** sock is that of a ready host other than the loopback one, from entry i on. */
  ghost predicate ReadyOn(hosts: seq<Host>, i: nat, sock: Sock) {
    exists j :: 0 <= j < |hosts| && i <= j && hosts[j].ready && hosts[j].sock == Some(sock)
  }

  lemma {:induction false} LinesAppend(a: seq<Effect>, b: seq<Effect>, sock: Sock)
    ensures LinesOn(a + b, sock) == LinesOn(a, sock) + LinesOn(b, sock)
    decreases |a|
  {
    if a == [] {
      assert a + b == b;
    } else {
      assert (a + b)[0] == a[0] && (a + b)[1..] == a[1..] + b;
      LinesAppend(a[1..], b, sock);
      if a[0].Send? && a[0].sock == sock {
        assert a[0].lines + (LinesOn(a[1..], sock) + LinesOn(b, sock)) == a[0].lines + LinesOn(a[1..], sock) + LinesOn(b, sock);
      }
    }
  }

  /** A broadcast is written once to each ready host and to nobody else. */
  lemma {:induction false} BroadcastLines(hosts: seq<Host>, i: nat, lines: seq<Line>, sock: Sock)
    requires OwnSockets(hosts)
    ensures LinesOn(BroadcastFrom(hosts, i, lines), sock) == if ReadyOn(hosts, i, sock) then lines else []
    decreases |hosts| - i
  {
    if i < |hosts| {
      BroadcastLines(hosts, i + 1, lines, sock);
      var first := if hosts[i].ready then SendTo(hosts[i], lines) else [];
      LinesAppend(first, BroadcastFrom(hosts, i + 1, lines), sock);
      if hosts[i].ready && hosts[i].sock == Some(sock) {
        assert first == [Send(sock, lines)] && first[1..] == [];
        assert !ReadyOn(hosts, i + 1, sock);
        assert ReadyOn(hosts, i, sock);
      } else {
        assert LinesOn(first, sock) == [] by { if first != [] { assert first[1..] == []; } }
        assert ReadyOn(hosts, i, sock) <==> ReadyOn(hosts, i + 1, sock);
      }
    }
  }

  function Signals(texts: seq<string>): seq<Line> {
    if texts == [] then [] else [Signal(texts[0])] + Signals(texts[1..])
  }

  lemma {:induction false} BroadcastAllLines(hosts: seq<Host>, texts: seq<string>, sock: Sock)
    requires OwnSockets(hosts)
    ensures LinesOn(BroadcastAll(hosts, texts), sock) == if ReadyOn(hosts, 1, sock) then Signals(texts) else []
    decreases |texts|
  {
    if texts != [] {
      BroadcastLines(hosts, 1, [Signal(texts[0])], sock);
      BroadcastAllLines(hosts, texts[1..], sock);
      LinesAppend(Broadcast(hosts, [Signal(texts[0])]), BroadcastAll(hosts, texts[1..]), sock);
    }
  }

  /**
   CONNECTED: the host is ready, and every ready remote host, the new one included, is told what is
   published here and then of all ready hosts; nobody else is written to.
   */
  lemma ConnectedHeard(me: Node, i: nat, next: nat, published: seq<string>, sock: Sock)
    requires i < |me.hosts| && OwnSockets(me.hosts)
    ensures var o := OnReceive(me, i, Connected, next, published);
      var h := me.hosts[i];
      && OnlyEntry(me, o.node, i) && o.node.hosts[i] == Host(h.addr, h.id, true, h.server, h.sock)
      && LinesOn(o.effects, sock)
         == (if ReadyOn(o.node.hosts, 1, sock) then Signals(published) + HostLines(o.node.hosts, 0) else [])
  {
    var hosts := OnReceive(me, i, Connected, next, published).node.hosts;
    assert OwnSockets(hosts);
    BroadcastAllLines(hosts, published, sock);
    BroadcastLines(hosts, 1, HostLines(hosts, 0), sock);
    LinesAppend(BroadcastAll(hosts, published), Broadcast(hosts, HostLines(hosts, 0)), sock);
  }

  /** Host=: an unready host is not listened to, a known address changes nothing, a new one is dialled. */
  lemma HostHeard(me: Node, i: nat, addr: Addr, next: nat, published: seq<string>)
    requires i < |me.hosts|
    ensures var o := OnReceive(me, i, HostAt(addr), next, published);
      if me.hosts[i].ready && forall j :: 0 <= j < |me.hosts| ==> me.hosts[j].addr != addr then
        && o.node == Node(me.id, me.port, me.hosts + [Host(addr, 0, false, false, Some(Sock(next, Dialer)))])
        && o.effects == [Dial(addr, |me.hosts|)]
      else o == Outcome(me, [])
  {
    if forall j :: 0 <= j < |me.hosts| ==> me.hosts[j].addr != addr { assert Find(me.hosts, addr) == |me.hosts|; }
  }

  // ---------- the loss of a connection

  /** The host is not ready any more, its channels are withdrawn, and only then its address is dialled again. */
  lemma LossHandled(me: Node, i: nat, next: nat)
    requires i < |me.hosts|
    ensures var o := OnClose(me, i, next);
      var h := me.hosts[i];
      && OnlyEntry(me, o.node, i) && o.node.hosts[i] == Host(h.addr, h.id, false, h.server, Some(Sock(next, Dialer)))
      && Withdrawn(o.effects) == [i] && Dialled(o.effects) == [(h.addr, i)]
      && Closed(o.effects) == [] && Given(o.effects) == []
      && o.effects[0].Withdraw?
  {
    var dial := Dial(me.hosts[i].addr, i);
    FirstEffect(dial, []);
    FirstEffect(Withdraw(i), [dial]);
    assert [dial] + [] == [dial] && [Withdraw(i)] + [dial] == [Withdraw(i), dial];
  }
}
