/** What gossip has achieved so far, and the whole invariant over every event and every run. */
module MeshGossip {
  import opened Common
  import opened MeshSpec
  import opened MeshNet
  import opened MeshInv
  import opened MeshCore
  import opened MeshIncoming

  /** Of two ready entries, the first has been sent the address of the second. */
  ghost predicate ToldOk(conns: seq<Conn>, h: Host, h': Host) {
    h.ready && h'.ready ==>
      && h.sock.Some? && h.sock.value.conn < |conns|
      && HostAt(h'.addr) in Outflow(conns[h.sock.value.conn], h.sock.value.side).sent
  }

  /** The addresses of the Host= lines n has handled on one flow are its own or in its table. */
  ghost predicate HeardOk(cfg: Config, nodes: seq<Node>, n: nat, flow: Flow)
    requires |nodes| == |cfg.addrs|
  {
    n < |nodes| ==>
      forall x :: 0 <= x < flow.got && x < |flow.sent| && flow.sent[x].HostAt? ==>
        flow.sent[x].addr == cfg.addrs[n] || Knows(nodes[n], flow.sent[x].addr)
  }

  ghost predicate Told(s: State) {
    forall n, i, j {:trigger ToldOk(s.conns, s.nodes[n].hosts[i], s.nodes[n].hosts[j])} ::
      0 <= n < |s.nodes| && 1 <= i < |s.nodes[n].hosts| && 1 <= j < |s.nodes[n].hosts|
      ==> ToldOk(s.conns, s.nodes[n].hosts[i], s.nodes[n].hosts[j])
  }

  ghost predicate Heard(cfg: Config, s: State)
    requires |s.nodes| == |cfg.addrs|
  {
    forall c, side {:trigger Inflow(s.conns[c], side)} :: 0 <= c < |s.conns| ==>
      HeardOk(cfg, s.nodes, Local(s.conns[c], side), Inflow(s.conns[c], side))
  }

  ghost predicate Inv(cfg: Config, s: State)
    requires cfg.Valid()
  {
    Core(cfg, s) && Told(s) && Heard(cfg, s)
  }

  // ---------- what keeps it

  /** A queue after a step: it grew at the end, and lost at most one line that has been heeded. */
  ghost predicate FlowOk(cfg: Config, nodes: seq<Node>, n: nat, f: Flow, f': Flow)
    requires |nodes| == |cfg.addrs|
  {
    && f.got <= |f.sent| && f.sent <= f'.sent
    && (f'.got == f.got
        || (f'.got == f.got + 1 && f.got < |f.sent|
            && (n < |nodes| && f.sent[f.got].HostAt? ==>
                  f.sent[f.got].addr == cfg.addrs[n] || Knows(nodes[n], f.sent[f.got].addr))))
  }

  ghost predicate ConnGrows(cfg: Config, nodes: seq<Node>, k: Conn, k': Conn)
    requires |nodes| == |cfg.addrs|
  {
    && k'.dialer == k.dialer && k'.acceptor == k.acceptor
    && FlowOk(cfg, nodes, k.acceptor, k.up, k'.up)
    && FlowOk(cfg, nodes, k.dialer, k.down, k'.down)
  }

  ghost predicate Progress(cfg: Config, s: State, s': State)
    requires |s.nodes| == |cfg.addrs|
  {
    && |s'.nodes| == |s.nodes| && |s.conns| <= |s'.conns|
    && (forall n {:trigger Grows(s.nodes[n], s'.nodes[n])} :: 0 <= n < |s.nodes| ==> Grows(s.nodes[n], s'.nodes[n]))
    && (forall c {:trigger ConnGrows(cfg, s'.nodes, s.conns[c], s'.conns[c])} ::
          0 <= c < |s.conns| ==> ConnGrows(cfg, s'.nodes, s.conns[c], s'.conns[c]))
    && (forall c :: |s.conns| <= c < |s'.conns| ==> s'.conns[c].up.got == 0 && s'.conns[c].down.got == 0)
  }

  lemma FlowHeard(cfg: Config, nodes: seq<Node>, nodes': seq<Node>, n: nat, f: Flow, f': Flow)
    requires |nodes| == |nodes'| == |cfg.addrs| && HeardOk(cfg, nodes, n, f) && FlowOk(cfg, nodes', n, f, f')
    requires n < |nodes| ==> Grows(nodes[n], nodes'[n])
    ensures HeardOk(cfg, nodes', n, f')
  {
    if n < |nodes| {
      forall x | 0 <= x < f'.got && x < |f'.sent| && f'.sent[x].HostAt?
        ensures f'.sent[x].addr == cfg.addrs[n] || Knows(nodes'[n], f'.sent[x].addr)
      {
        assert f'.sent[x] == f.sent[x];
        if x < f.got && f.sent[x].addr != cfg.addrs[n] { KnowsKept(nodes[n], nodes'[n], f.sent[x].addr); }
      }
    }
  }

  lemma HeardKept(cfg: Config, s: State, s': State)
    requires |s.nodes| == |cfg.addrs| && Heard(cfg, s) && Progress(cfg, s, s')
    ensures Heard(cfg, s')
  {
    forall c, side | 0 <= c < |s'.conns|
      ensures HeardOk(cfg, s'.nodes, Local(s'.conns[c], side), Inflow(s'.conns[c], side))
    {
      if c < |s.conns| {
        var k := s.conns[c];
        assert ConnGrows(cfg, s'.nodes, k, s'.conns[c]);
        var n := Local(k, side);
        assert HeardOk(cfg, s.nodes, n, Inflow(k, side));
        assert n < |s.nodes| ==> Grows(s.nodes[n], s'.nodes[n]);
        FlowHeard(cfg, s.nodes, s'.nodes, n, Inflow(k, side), Inflow(s'.conns[c], side));
      }
    }
  }

  /** No entry becomes ready or changes socket while ready. */
  ghost predicate NoneReadied(me: Node, me': Node) {
    forall i :: 1 <= i < |me'.hosts| && me'.hosts[i].ready ==>
      i < |me.hosts| && me.hosts[i].ready && me'.hosts[i].sock == me.hosts[i].sock
  }

  lemma ToldKept(cfg: Config, s: State, s': State)
    requires |s.nodes| == |cfg.addrs| && Told(s) && Progress(cfg, s, s')
    requires forall n :: 0 <= n < |s.nodes| ==> NoneReadied(s.nodes[n], s'.nodes[n])
    ensures Told(s')
  {
    forall n, i, j | 0 <= n < |s'.nodes| && 1 <= i < |s'.nodes[n].hosts| && 1 <= j < |s'.nodes[n].hosts|
      ensures ToldOk(s'.conns, s'.nodes[n].hosts[i], s'.nodes[n].hosts[j])
    {
      var h, h' := s'.nodes[n].hosts[i], s'.nodes[n].hosts[j];
      if h.ready && h'.ready {
        assert NoneReadied(s.nodes[n], s'.nodes[n]) && Grows(s.nodes[n], s'.nodes[n]);
        assert ToldOk(s.conns, s.nodes[n].hosts[i], s.nodes[n].hosts[j]);
        var c := h.sock.value.conn;
        assert ConnGrows(cfg, s'.nodes, s.conns[c], s'.conns[c]);
        var sent := Outflow(s.conns[c], h.sock.value.side).sent;
        var x :| 0 <= x < |sent| && sent[x] == HostAt(h'.addr);
        assert Outflow(s'.conns[c], h.sock.value.side).sent[x] == HostAt(h'.addr);
      }
    }
  }

  lemma InvFrom(cfg: Config, s: State, s': State)
    requires cfg.Valid() && Inv(cfg, s) && Core(cfg, s') && Progress(cfg, s, s')
    requires forall n :: 0 <= n < |s.nodes| ==> NoneReadied(s.nodes[n], s'.nodes[n])
    ensures Inv(cfg, s')
  {
    HeardKept(cfg, s, s');
    ToldKept(cfg, s, s');
  }

  lemma ProgressSame(cfg: Config, s: State)
    requires cfg.Valid() && Core(cfg, s)
    ensures Progress(cfg, s, s)
  {
    forall c | 0 <= c < |s.conns| ensures ConnGrows(cfg, s.nodes, s.conns[c], s.conns[c]) { ConnFacts(cfg, s, c); }
  }

  // ---------- dialling

  lemma DialInv(cfg: Config, s: State, n: nat, addr: Addr)
    requires cfg.Valid() && Inv(cfg, s) && n < |s.nodes| && addr != cfg.addrs[n] && addr != cfg.Alias(n)
    ensures var s' := Apply(cfg, s, n, AddHost(s.nodes[n], addr, |s.conns|)); Inv(cfg, s') && Progress(cfg, s, s')
  {
    var s' := Apply(cfg, s, n, AddHost(s.nodes[n], addr, |s.conns|));
    if HasHost(s.nodes[n].hosts, addr) {
      assert s' == s;
      ProgressSame(cfg, s);
    } else {
      DialCore(cfg, s, n, addr);
      Do1(cfg, n, s.conns, Dial(addr, |s.nodes[n].hosts|));
      forall c | 0 <= c < |s.conns| ensures ConnGrows(cfg, s'.nodes, s.conns[c], s'.conns[c]) { ConnFacts(cfg, s, c); }
      InvFrom(cfg, s, s');
    }
  }

  lemma OpenInv(cfg: Config, s: State, c: nat)
    requires cfg.Valid() && Inv(cfg, s) && Enabled(cfg, s, Opens(c))
    ensures Inv(cfg, Open'(cfg, s, c)) && Progress(cfg, s, Open'(cfg, s, c))
  {
    var k, s' := s.conns[c], Open'(cfg, s, c);
    OpenCore(cfg, s, c);
    Do1(cfg, k.dialer, s.conns[c := k.(dialEnd := Open)],
        Welcome(s.nodes[k.dialer], Sock(c, Dialer), k.target.ip));
    forall x | 0 <= x < |s.conns| ensures ConnGrows(cfg, s'.nodes, s.conns[x], s'.conns[x]) { ConnFacts(cfg, s, x); }
    InvFrom(cfg, s, s');
  }

  lemma RedialInv(cfg: Config, s: State, c: nat)
    requires cfg.Valid() && Inv(cfg, s) && Enabled(cfg, s, Closes(c))
    ensures Inv(cfg, Reopen(cfg, s, c)) && Progress(cfg, s, Reopen(cfg, s, c))
  {
    var s' := Reopen(cfg, s, c);
    RedialCore(cfg, s, c);
    forall x | 0 <= x < |s.conns| ensures ConnGrows(cfg, s'.nodes, s.conns[x], s'.conns[x]) { ConnFacts(cfg, s, x); }
    InvFrom(cfg, s, s');
  }

  // ---------- an incoming ID=

  lemma IncomingInv(cfg: Config, s: State, c: nat, published: seq<string>)
    requires cfg.Valid() && Inv(cfg, s) && Enabled(cfg, s, Receives(Sock(c, Acceptor), published))
    requires s.conns[c].acceptEnd.Waiting?
    ensures Inv(cfg, Receive(cfg, s, Sock(c, Acceptor), published)) && Progress(cfg, s, Receive(cfg, s, Sock(c, Acceptor), published))
  {
    ConnFacts(cfg, s, c);
    var v, i := Decide(cfg, s, c);
    match v {
      case Accept =>
        AcceptState(cfg, s, c, published);
        AcceptInv(cfg, s, c);
      case Replace =>
        ReplaceState(cfg, s, c, i, published);
        ReplaceInv(cfg, s, c, i);
      case Refuse =>
        RefuseState(cfg, s, c, i, published);
        RefuseInv(cfg, s, c);
    }
  }

  lemma AcceptInv(cfg: Config, s: State, c: nat)
    requires cfg.Valid() && Inv(cfg, s) && Knocks(cfg, s, c) && s.conns[c].dialEnd.Open?
    requires var hosts := s.nodes[s.conns[c].acceptor].hosts; Find(hosts, cfg.addrs[s.conns[c].dialer]) == |hosts|
    ensures Inv(cfg, Registered(cfg, s, c)) && Progress(cfg, s, Registered(cfg, s, c))
  {
    ConnFacts(cfg, s, c);
    AcceptCore(cfg, s, c);
    InvFromFlows(cfg, s, Registered(cfg, s, c));
  }

  lemma ReplaceInv(cfg: Config, s: State, c: nat, i: nat)
    requires cfg.Valid() && Inv(cfg, s) && Knocks(cfg, s, c) && s.conns[c].dialEnd.Open?
    requires cfg.ids[s.conns[c].dialer] > cfg.ids[s.conns[c].acceptor]
    requires var hosts := s.nodes[s.conns[c].acceptor].hosts; 1 <= i == Find(hosts, cfg.addrs[s.conns[c].dialer]) < |hosts|
    requires Yields(s, c, i)
    ensures Inv(cfg, Replaced(cfg, s, c, i)) && Progress(cfg, s, Replaced(cfg, s, c, i))
  {
    ConnFacts(cfg, s, c);
    ReplaceCore(cfg, s, c, i);
    InvFromFlows(cfg, s, Replaced(cfg, s, c, i));
  }

  lemma RefuseInv(cfg: Config, s: State, c: nat)
    requires cfg.Valid() && Inv(cfg, s) && Knocks(cfg, s, c)
    requires cfg.ids[s.conns[c].dialer] < cfg.ids[s.conns[c].acceptor]
    requires Knows(s.nodes[s.conns[c].acceptor], cfg.addrs[s.conns[c].dialer])
    ensures Inv(cfg, Refused'(s, c)) && Progress(cfg, s, Refused'(s, c))
  {
    ConnFacts(cfg, s, c);
    RefuseCore(cfg, s, c);
    InvFromFlows(cfg, s, Refused'(s, c));
  }

  /** No line other than a first one was handled. */
  lemma InvFromFlows(cfg: Config, s: State, s': State)
    requires cfg.Valid() && Inv(cfg, s) && Core(cfg, s') && |s'.conns| == |s.conns|
    requires forall n :: 0 <= n < |s.nodes| ==> Grows(s.nodes[n], s'.nodes[n]) && NoneReadied(s.nodes[n], s'.nodes[n])
    requires forall c :: 0 <= c < |s.conns| ==> FirstLine(s.conns[c], s'.conns[c])
    ensures Inv(cfg, s') && Progress(cfg, s, s')
  {
    forall x | 0 <= x < |s.conns| ensures ConnGrows(cfg, s'.nodes, s.conns[x], s'.conns[x]) {
      ConnFacts(cfg, s, x);
      assert FirstLine(s.conns[x], s'.conns[x]);
    }
    InvFrom(cfg, s, s');
  }

  ghost predicate FirstLine(k: Conn, k': Conn) {
    && k'.dialer == k.dialer && k'.acceptor == k.acceptor
    && k'.up.sent == k.up.sent && k.down.sent <= k'.down.sent && k'.down.got == k.down.got
    && (k'.up.got == k.up.got || (k'.up.got == 1 && k.up.got == 0 < |k.up.sent|))
  }

  // ---------- lines of an owned end

  lemma TakeConn(cfg: Config, nodes: seq<Node>, k: Conn, side: Side)
    requires cfg.Valid() && |nodes| == |cfg.addrs| && Sound(cfg, k) && Inflow(k, side).got < |Inflow(k, side).sent|
    requires var line := Inflow(k, side).sent[Inflow(k, side).got];
      var n := Local(k, side);
      n < |nodes| && line.HostAt? ==> line.addr == cfg.addrs[n] || Knows(nodes[n], line.addr)
    ensures ConnGrows(cfg, nodes, k, Handled(k, side))
  {
  }

  lemma HandshakeInv(cfg: Config, s: State, sock: Sock, published: seq<string>)
    requires cfg.Valid() && Inv(cfg, s) && Attends(s, sock) && Enabled(cfg, s, Receives(sock, published))
    requires Inflow(s.conns[sock.conn], sock.side).got < 2
    ensures Inv(cfg, Receive(cfg, s, sock, published)) && Progress(cfg, s, Receive(cfg, s, sock, published))
  {
    LineFacts(cfg, s, sock);
    if Inflow(s.conns[sock.conn], sock.side).got == 0 { IdInv(cfg, s, sock, published); } else { YouInv(cfg, s, sock, published); }
  }

  lemma IdInv(cfg: Config, s: State, sock: Sock, published: seq<string>)
    requires cfg.Valid() && Inv(cfg, s) && Attends(s, sock) && Enabled(cfg, s, Receives(sock, published))
    requires sock.side.Dialer? && s.conns[sock.conn].down.got == 0
    ensures Inv(cfg, Receive(cfg, s, sock, published)) && Progress(cfg, s, Receive(cfg, s, sock, published))
  {
    var s' := Receive(cfg, s, sock, published);
    var k := s.conns[sock.conn];
    LineFacts(cfg, s, sock);
    IdCore(cfg, s, sock.conn, published);
    Do1(cfg, k.dialer, s.conns[sock.conn := Handled(k, Dialer)], Send(sock, [Connected]));
    forall x | 0 <= x < |s.conns| ensures ConnGrows(cfg, s'.nodes, s.conns[x], s'.conns[x]) { ConnFacts(cfg, s, x); }
    InvFrom(cfg, s, s');
  }

  lemma YouInv(cfg: Config, s: State, sock: Sock, published: seq<string>)
    requires cfg.Valid() && Inv(cfg, s) && Attends(s, sock) && Enabled(cfg, s, Receives(sock, published))
    requires Inflow(s.conns[sock.conn], sock.side).got == 1
    ensures Inv(cfg, Receive(cfg, s, sock, published)) && Progress(cfg, s, Receive(cfg, s, sock, published))
  {
    var s' := Receive(cfg, s, sock, published);
    LineFacts(cfg, s, sock);
    YouCore(cfg, s, sock, published);
    forall x | 0 <= x < |s.conns| ensures ConnGrows(cfg, s'.nodes, s.conns[x], s'.conns[x]) { ConnFacts(cfg, s, x); }
    InvFrom(cfg, s, s');
  }

  lemma SignalInv(cfg: Config, s: State, sock: Sock, published: seq<string>)
    requires cfg.Valid() && Inv(cfg, s) && Attends(s, sock) && Enabled(cfg, s, Receives(sock, published))
    requires Inflow(s.conns[sock.conn], sock.side).got >= 3 && NextLine(s, sock).Signal?
    ensures Inv(cfg, Receive(cfg, s, sock, published)) && Progress(cfg, s, Receive(cfg, s, sock, published))
  {
    var s' := Taken(s, sock);
    LineFacts(cfg, s, sock);
    TakeCore(cfg, s, sock);
    assert Receive(cfg, s, sock, published) == s';
    TakeConns(cfg, s, sock, s.nodes);
    InvFrom(cfg, s, s');
  }

  lemma TakeConns(cfg: Config, s: State, sock: Sock, nodes: seq<Node>)
    requires cfg.Valid() && Core(cfg, s) && Attends(s, sock) && |nodes| == |cfg.addrs|
    requires var n := Local(s.conns[sock.conn], sock.side);
      var line := NextLine(s, sock);
      line.HostAt? ==> line.addr == cfg.addrs[n] || Knows(nodes[n], line.addr)
    ensures var conns' := Taken(s, sock).conns;
      forall x {:trigger ConnGrows(cfg, nodes, s.conns[x], conns'[x])} ::
        0 <= x < |s.conns| ==> ConnGrows(cfg, nodes, s.conns[x], conns'[x])
  {
    var conns' := Taken(s, sock).conns;
    forall x | 0 <= x < |s.conns| ensures ConnGrows(cfg, nodes, s.conns[x], conns'[x]) {
      ConnFacts(cfg, s, x);
      if x == sock.conn { TakeConn(cfg, nodes, s.conns[x], sock.side); }
    }
  }

  /** Host=: the line is taken, and its address is dialled unless known. */
  lemma HostState(cfg: Config, s: State, sock: Sock, published: seq<string>)
    requires cfg.Valid() && Core(cfg, s) && Attends(s, sock) && Enabled(cfg, s, Receives(sock, published))
    requires Inflow(s.conns[sock.conn], sock.side).got >= 3 && NextLine(s, sock).HostAt?
    ensures var n := Local(s.conns[sock.conn], sock.side);
      Receive(cfg, s, sock, published)
      == Apply(cfg, Taken(s, sock), n, AddHost(s.nodes[n], NextLine(s, sock).addr, |s.conns|))
  {
    LineFacts(cfg, s, sock);
  }

  lemma HostInv(cfg: Config, s: State, sock: Sock, published: seq<string>)
    requires cfg.Valid() && Inv(cfg, s) && Attends(s, sock) && Enabled(cfg, s, Receives(sock, published))
    requires Inflow(s.conns[sock.conn], sock.side).got >= 3 && NextLine(s, sock).HostAt?
    ensures Inv(cfg, Receive(cfg, s, sock, published)) && Progress(cfg, s, Receive(cfg, s, sock, published))
  {
    HostState(cfg, s, sock, published);
    HostNamed(cfg, s, sock);
    TakeCore(cfg, s, sock);
    if HasHost(s.nodes[Local(s.conns[sock.conn], sock.side)].hosts, NextLine(s, sock).addr) {
      KnownHostInv(cfg, s, sock);
    } else {
      NewHostInv(cfg, s, sock);
    }
  }

  lemma KnownHostInv(cfg: Config, s: State, sock: Sock)
    requires cfg.Valid() && Inv(cfg, s) && Attends(s, sock) && Core(cfg, Taken(s, sock))
    requires Inflow(s.conns[sock.conn], sock.side).got >= 3 && NextLine(s, sock).HostAt?
    requires HasHost(s.nodes[Local(s.conns[sock.conn], sock.side)].hosts, NextLine(s, sock).addr)
    ensures var n := Local(s.conns[sock.conn], sock.side);
      var s' := Apply(cfg, Taken(s, sock), n, AddHost(s.nodes[n], NextLine(s, sock).addr, |s.conns|));
      Inv(cfg, s') && Progress(cfg, s, s')
  {
    var n, addr := Local(s.conns[sock.conn], sock.side), NextLine(s, sock).addr;
    HostNamed(cfg, s, sock);
    assert Apply(cfg, Taken(s, sock), n, Outcome(s.nodes[n], [])) == Taken(s, sock);
    var i := Find(s.nodes[n].hosts, addr);
    assert i == 0 || Knows(s.nodes[n], addr);
    TakeConns(cfg, s, sock, s.nodes);
    InvFrom(cfg, s, Taken(s, sock));
  }

  lemma NewHostInv(cfg: Config, s: State, sock: Sock)
    requires cfg.Valid() && Inv(cfg, s) && Attends(s, sock) && Core(cfg, Taken(s, sock))
    requires Inflow(s.conns[sock.conn], sock.side).got >= 3 && NextLine(s, sock).HostAt?
    requires !HasHost(s.nodes[Local(s.conns[sock.conn], sock.side)].hosts, NextLine(s, sock).addr)
    ensures var n := Local(s.conns[sock.conn], sock.side);
      var s' := Apply(cfg, Taken(s, sock), n, AddHost(s.nodes[n], NextLine(s, sock).addr, |s.conns|));
      Inv(cfg, s') && Progress(cfg, s, s')
  {
    var s1 := Taken(s, sock);
    var n, addr := Local(s.conns[sock.conn], sock.side), NextLine(s, sock).addr;
    var s' := Apply(cfg, s1, n, AddHost(s.nodes[n], addr, |s.conns|));
    HostNamed(cfg, s, sock);
    DialCore(cfg, s1, n, addr);
    Do1(cfg, n, s1.conns, Dial(addr, |s.nodes[n].hosts|));
    assert s'.nodes[n].hosts[|s.nodes[n].hosts|].addr == addr;
    TakeConns(cfg, s, sock, s'.nodes);
    InvFrom(cfg, s, s');
  }

  /** Whoever handles a Host= line knows its own address, and is not asked to dial an alias of it. */
  lemma HostNamed(cfg: Config, s: State, sock: Sock)
    requires cfg.Valid() && Core(cfg, s) && Attends(s, sock)
    requires Inflow(s.conns[sock.conn], sock.side).got >= 3 && NextLine(s, sock).HostAt?
    ensures var n := Local(s.conns[sock.conn], sock.side);
      var addr := NextLine(s, sock).addr;
      && Named(cfg, n, s.nodes[n]) && addr in cfg.addrs
      && (addr == cfg.addrs[n] || addr != cfg.Alias(n))
      && (addr == s.nodes[n].hosts[0].addr <==> addr == cfg.addrs[n])
      && (addr == cfg.addrs[n] ==> HasHost(s.nodes[n].hosts, addr))
  {
    LineFacts(cfg, s, sock);
    ConnFacts(cfg, s, sock.conn);
    var n := Local(s.conns[sock.conn], sock.side);
    var addr := NextLine(s, sock).addr;
    var m :| 0 <= m < |cfg.addrs| && cfg.addrs[m] == addr;
    if addr == cfg.addrs[n] { assert s.nodes[n].hosts[0].addr == addr; }
  }

  // ---------- broadcasts

  lemma SendsInv(cfg: Config, s: State, n: nat, effects: seq<Effect>)
    requires cfg.Valid() && Inv(cfg, s) && n < |s.nodes| && ToReady(cfg, s.nodes[n].hosts, effects)
    ensures Inv(cfg, Apply(cfg, s, n, Outcome(s.nodes[n], effects))) && Progress(cfg, s, Apply(cfg, s, n, Outcome(s.nodes[n], effects)))
  {
    var s' := Apply(cfg, s, n, Outcome(s.nodes[n], effects));
    SendsCore(cfg, s, n, effects);
    assert s' == s.(conns := DoAll(cfg, n, s.conns, effects));
    forall x | 0 <= x < |s.conns| ensures ConnGrows(cfg, s'.nodes, s.conns[x], s'.conns[x]) {
      ConnFacts(cfg, s, x);
      assert SentMore(cfg, s.conns[x], s'.conns[x]);
    }
    InvFrom(cfg, s, s');
  }

  /** A broadcast writes to ready remote entries only, and to each of them. */
  lemma BroadcastFacts(cfg: Config, hosts: seq<Host>, i: nat, lines: seq<Line>)
    requires forall line :: line in lines ==> Payload(cfg, line)
    requires 1 <= i
    ensures ToReady(cfg, hosts, BroadcastFrom(hosts, i, lines))
    ensures forall j :: i <= j < |hosts| && hosts[j].ready && hosts[j].sock.Some? ==>
              Send(hosts[j].sock.value, lines) in BroadcastFrom(hosts, i, lines)
    decreases |hosts| - i
  {
    if i < |hosts| {
      BroadcastFacts(cfg, hosts, i + 1, lines);
      var first := if hosts[i].ready then SendTo(hosts[i], lines) else [];
      forall e | e in BroadcastFrom(hosts, i, lines) ensures ReadySend(cfg, hosts, e) {
        assert e in first || e in BroadcastFrom(hosts, i + 1, lines);
      }
    }
  }

  lemma BroadcastAllFacts(cfg: Config, hosts: seq<Host>, texts: seq<string>)
    ensures ToReady(cfg, hosts, BroadcastAll(hosts, texts))
  {
    if texts != [] {
      BroadcastFacts(cfg, hosts, 1, [Signal(texts[0])]);
      BroadcastAllFacts(cfg, hosts, texts[1..]);
      var first := Broadcast(hosts, [Signal(texts[0])]);
      forall e | e in BroadcastAll(hosts, texts) ensures ReadySend(cfg, hosts, e) {
        assert e in first || e in BroadcastAll(hosts, texts[1..]);
      }
    }
  }

  lemma HostLinesFacts(cfg: Config, hosts: seq<Host>, i: nat)
    requires forall j :: 0 <= j < |hosts| && hosts[j].ready ==> hosts[j].addr in cfg.addrs
    ensures forall line :: line in HostLines(hosts, i) ==> Payload(cfg, line)
    ensures forall j :: i <= j < |hosts| && hosts[j].ready ==> HostAt(hosts[j].addr) in HostLines(hosts, i)
    decreases |hosts| - i
  {
    if i < |hosts| {
      HostLinesFacts(cfg, hosts, i + 1);
      var first := if hosts[i].ready then [HostAt(hosts[i].addr)] else [];
      forall line | line in HostLines(hosts, i) ensures Payload(cfg, line) {
        assert line in first || line in HostLines(hosts, i + 1);
      }
    }
  }

  /** A ready entry names a node. */
  lemma ReadyAddr(cfg: Config, s: State, n: nat, j: nat)
    requires cfg.Valid() && Core(cfg, s) && n < |s.nodes| && j < |s.nodes[n].hosts| && s.nodes[n].hosts[j].ready
    ensures s.nodes[n].hosts[j].addr in cfg.addrs
  {
    assert NodeOk(cfg, n, s.nodes[n]);
    if j > 0 {
      EntryFacts(cfg, s, n, j);
      ConnFacts(cfg, s, s.nodes[n].hosts[j].sock.value.conn);
    }
  }

  // ---------- CONNECTED

  /** The host is ready and the broadcasts of on_open and broadcast_hosts go out. */
  lemma ConnectedInv(cfg: Config, s: State, sock: Sock, published: seq<string>)
    requires cfg.Valid() && Inv(cfg, s) && Attends(s, sock) && Enabled(cfg, s, Receives(sock, published))
    requires Inflow(s.conns[sock.conn], sock.side).got == 2
    ensures Inv(cfg, Receive(cfg, s, sock, published)) && Progress(cfg, s, Receive(cfg, s, sock, published))
  {
    var s1 := MarkReady(s, sock);
    var n := Local(s.conns[sock.conn], sock.side);
    var hosts := s1.nodes[n].hosts;
    var lines := HostLines(hosts, 0);
    var effects := BroadcastAll(hosts, published) + Broadcast(hosts, lines);
    var s' := s1.(conns := DoAll(cfg, n, s1.conns, effects));
    LineFacts(cfg, s, sock);
    ReadyCore(cfg, s, sock);
    assert Receive(cfg, s, sock, published) == s';
    forall j | 0 <= j < |hosts| && hosts[j].ready ensures hosts[j].addr in cfg.addrs { ReadyAddr(cfg, s1, n, j); }
    HostLinesFacts(cfg, hosts, 0);
    BroadcastFacts(cfg, hosts, 1, lines);
    BroadcastAllFacts(cfg, hosts, published);
    SendsCore(cfg, s1, n, effects);
    ConnectedProgress(cfg, s, sock, s');
    HeardKept(cfg, s, s');
    ConnectedTold(cfg, s, s1, s', n, lines);
  }

  lemma ConnectedProgress(cfg: Config, s: State, sock: Sock, s': State)
    requires cfg.Valid() && Core(cfg, s) && Attends(s, sock) && Inflow(s.conns[sock.conn], sock.side).got == 2
    requires s'.nodes == MarkReady(s, sock).nodes && |s'.conns| == |s.conns|
    requires forall c :: 0 <= c < |s.conns| ==> SentMore(cfg, MarkReady(s, sock).conns[c], s'.conns[c])
    ensures Progress(cfg, s, s')
  {
    var s1 := MarkReady(s, sock);
    LineFacts(cfg, s, sock);
    forall x | 0 <= x < |s.conns| ensures ConnGrows(cfg, s'.nodes, s.conns[x], s'.conns[x]) {
      ConnFacts(cfg, s, x);
      assert SentMore(cfg, s1.conns[x], s'.conns[x]);
    }
  }

  /** Node n just sent every ready entry the addresses of all; the others changed nothing. */
  lemma ConnectedTold(cfg: Config, s: State, s1: State, s': State, n: nat, lines: seq<Line>)
    requires cfg.Valid() && Core(cfg, s1) && Told(s) && n < |s.nodes| == |s1.nodes| == |cfg.addrs|
    requires Progress(cfg, s, s') && s'.nodes == s1.nodes
    requires forall m :: 0 <= m < |s.nodes| && m != n ==> s1.nodes[m] == s.nodes[m]
    requires forall j :: 0 <= j < |s1.nodes[n].hosts| && s1.nodes[n].hosts[j].ready ==> HostAt(s1.nodes[n].hosts[j].addr) in lines
    requires forall j :: 1 <= j < |s1.nodes[n].hosts| && s1.nodes[n].hosts[j].ready && s1.nodes[n].hosts[j].sock.Some? ==>
               Delivered(s'.conns, Send(s1.nodes[n].hosts[j].sock.value, lines))
    ensures Told(s')
  {
    forall m, i, j | 0 <= m < |s'.nodes| && 1 <= i < |s'.nodes[m].hosts| && 1 <= j < |s'.nodes[m].hosts|
      ensures ToldOk(s'.conns, s'.nodes[m].hosts[i], s'.nodes[m].hosts[j])
    {
      var h, h' := s'.nodes[m].hosts[i], s'.nodes[m].hosts[j];
      if h.ready && h'.ready {
        assert EntryOk(cfg, s1.conns, m, i, s1.nodes[m].hosts[i]);
        if m == n {
          assert Delivered(s'.conns, Send(h.sock.value, lines));
        } else {
          assert ToldOk(s.conns, s.nodes[m].hosts[i], s.nodes[m].hosts[j]);
          var c := h.sock.value.conn;
          assert ConnGrows(cfg, s'.nodes, s.conns[c], s'.conns[c]);
          var sent := Outflow(s.conns[c], h.sock.value.side).sent;
          var x :| 0 <= x < |sent| && sent[x] == HostAt(h'.addr);
          assert Outflow(s'.conns[c], h.sock.value.side).sent[x] == HostAt(h'.addr);
        }
      }
    }
  }

  // ---------- every event, every run

  lemma ReceiveInv(cfg: Config, s: State, sock: Sock, published: seq<string>)
    requires cfg.Valid() && Inv(cfg, s) && Enabled(cfg, s, Receives(sock, published))
    ensures Inv(cfg, Receive(cfg, s, sock, published)) && Progress(cfg, s, Receive(cfg, s, sock, published))
  {
    var k := s.conns[sock.conn];
    if sock.side.Acceptor? && k.acceptEnd.Waiting? {
      IncomingInv(cfg, s, sock.conn, published);
    } else {
      assert Attends(s, sock);
      LineFacts(cfg, s, sock);
      var got := Inflow(k, sock.side).got;
      if got < 2 { HandshakeInv(cfg, s, sock, published); }
      else if got == 2 { ConnectedInv(cfg, s, sock, published); }
      else if NextLine(s, sock).Signal? { SignalInv(cfg, s, sock, published); }
      else { HostInv(cfg, s, sock, published); }
    }
  }

  lemma StepInv(cfg: Config, s: State, e: Event)
    requires cfg.Valid() && Inv(cfg, s)
    ensures Inv(cfg, Step(cfg, s, e)) && Progress(cfg, s, Step(cfg, s, e))
  {
    if !Enabled(cfg, s, e) {
      ProgressSame(cfg, s);
    } else {
      match e
      case UserAdds(n, addr) => DialInv(cfg, s, n, addr);
      case Opens(c) => OpenInv(cfg, s, c);
      case Receives(sock, published) => ReceiveInv(cfg, s, sock, published);
      case Closes(c) => RedialInv(cfg, s, c);
      case Broadcasts(n, text) =>
        BroadcastFacts(cfg, s.nodes[n].hosts, 1, [Signal(text)]);
        SendsInv(cfg, s, n, Broadcast(s.nodes[n].hosts, [Signal(text)]));
      case Writes(n, i, text) =>
        assert NodeOk(cfg, n, s.nodes[n]);
        SendsInv(cfg, s, n, SendTo(s.nodes[n].hosts[i], [Signal(text)]));
    }
  }

  /** The invariant holds after every run. */
  lemma {:induction false} RunInv(cfg: Config, events: seq<Event>)
    requires cfg.Valid()
    ensures Inv(cfg, Run(cfg, events))
  {
    if events == [] {
      InitCore(cfg);
    } else {
      RunInv(cfg, events[..|events| - 1]);
      StepInv(cfg, Run(cfg, events[..|events| - 1]), events[|events| - 1]);
    }
  }
}
