/** Every event of the mesh keeps the invariant. */
module MeshCore {
  import opened Common
  import opened MeshSpec
  import opened MeshNet
  import opened MeshInv

  // ---------- effects

  lemma Do1(cfg: Config, n: nat, conns: seq<Conn>, e: Effect)
    ensures DoAll(cfg, n, conns, [e]) == Do(cfg, n, conns, e)
  {
    assert DoAll(cfg, n, Do(cfg, n, conns, e), []) == Do(cfg, n, conns, e);
  }

  lemma DoThen(cfg: Config, n: nat, conns: seq<Conn>, es: seq<Effect>, fs: seq<Effect>)
    ensures DoAll(cfg, n, conns, es + fs) == DoAll(cfg, n, DoAll(cfg, n, conns, es), fs)
    decreases |es|
  {
    if es == [] {
      assert es + fs == fs;
    } else {
      assert (es + fs)[0] == es[0] && (es + fs)[1..] == es[1..] + fs;
      DoThen(cfg, n, Do(cfg, n, conns, es[0]), es[1..], fs);
    }
  }

  // ---------- a new dial

  function Entered(me: Node, h: Host): Node {
    me.(hosts := me.hosts + [h])
  }

  lemma DialCore(cfg: Config, s: State, n: nat, addr: Addr)
    requires cfg.Valid() && Core(cfg, s)
    requires n < |s.nodes| && !HasHost(s.nodes[n].hosts, addr) && addr != cfg.addrs[n] && addr != cfg.Alias(n)
    ensures Core(cfg, Apply(cfg, s, n, AddHost(s.nodes[n], addr, |s.conns|)))
  {
    var me := s.nodes[n];
    var me' := Entered(me, Host(addr, 0, false, false, Some(Sock(|s.conns|, Dialer))));
    var k0 := NewConn(cfg, n, addr, |me.hosts|);
    var s' := State(s.nodes[n := me'], s.conns + [k0]);
    Do1(cfg, n, s.conns, Dial(addr, |me.hosts|));
    assert NodeOk(cfg, n, me) && NodeOk(cfg, n, me');
    forall m | 0 <= m < |s.nodes| ensures NodeEvolves(cfg, m, s.nodes[m], s'.nodes[m], {}) {}
    PairsDial(cfg, s, s'.conns, n, k0);
    CoreFrom(cfg, s, s', {});
  }

  // ---------- the handshake

  lemma OpenCore(cfg: Config, s: State, c: nat)
    requires cfg.Valid() && Core(cfg, s) && Enabled(cfg, s, Opens(c))
    ensures Core(cfg, Open'(cfg, s, c))
  {
    var k := s.conns[c];
    var n := k.dialer;
    var me := s.nodes[n];
    ConnFacts(cfg, s, c);
    EntryFacts(cfg, s, n, k.dialHost);
    var w := Welcome(me, Sock(c, Dialer), k.target.ip);
    var k' := k.(dialEnd := Open, up := k.up.(sent := w.lines));
    Do1(cfg, n, s.conns[c := k.(dialEnd := Open)], w);
    assert k.up.sent + w.lines == w.lines;
    assert Open'(cfg, s, c) == Put(s, n, me, c, k');
    CorePut(cfg, s, n, me, k.dialHost, c, Dialer, k');
  }

  /** This end is read by a host of a node, and a line is waiting. */
  ghost predicate Attends(s: State, sock: Sock) {
    && sock.conn < |s.conns|
    && var k := s.conns[sock.conn];
    && (if sock.side.Dialer? then k.dialEnd.Open? else k.acceptEnd.Attached?)
    && Local(k, sock.side) < |s.nodes|
    && HostOf(k, sock.side) < |s.nodes[Local(k, sock.side)].hosts|
    && Inflow(k, sock.side).got < |Inflow(k, sock.side).sent|
  }

  function NextLine(s: State, sock: Sock): Line
    requires sock.conn < |s.conns|
    requires Inflow(s.conns[sock.conn], sock.side).got < |Inflow(s.conns[sock.conn], sock.side).sent|
  {
    var flow := Inflow(s.conns[sock.conn], sock.side);
    flow.sent[flow.got]
  }

  /** Which line comes next, and what its reader looks like. */
  lemma LineFacts(cfg: Config, s: State, sock: Sock)
    requires cfg.Valid() && Core(cfg, s) && Attends(s, sock)
    ensures var k := s.conns[sock.conn];
      var n, i, got := Local(k, sock.side), HostOf(k, sock.side), Inflow(k, sock.side).got;
      && k.acceptor < |cfg.ids| && 1 <= i < |s.nodes[n].hosts| && s.nodes[n].hosts[i].sock == Some(sock)
      && (got == 0 ==> sock.side.Dialer?
                       && NextLine(s, sock) == Id(cfg.ids[k.acceptor], s.nodes[n].hosts[i].addr.port))
      && (got == 1 ==> NextLine(s, sock) == You(cfg.addrs[n].ip))
      && (got == 2 ==> NextLine(s, sock) == Connected)
      && (got >= 3 <==> s.nodes[n].hosts[i].ready)
      && (got >= 3 ==> Payload(cfg, NextLine(s, sock)))
  {
    var k := s.conns[sock.conn];
    ConnFacts(cfg, s, sock.conn);
    EntryFacts(cfg, s, Local(k, sock.side), HostOf(k, sock.side));
  }

  function SetHost(me: Node, i: nat, h: Host): Node
    requires i < |me.hosts|
  {
    me.(hosts := me.hosts[i := h])
  }

  lemma IdSound(cfg: Config, k: Conn)
    requires cfg.Valid() && Sound(cfg, k) && k.dialEnd.Open? && k.down.got == 0 < |k.down.sent|
    ensures Sound(cfg, AddSent(Handled(k, Dialer), Dialer, [Connected]))
  {
  }

  /** ID= at the dialler: the entry learns the id, CONNECTED is answered. */
  lemma IdCore(cfg: Config, s: State, c: nat, published: seq<string>)
    requires cfg.Valid() && Core(cfg, s) && Attends(s, Sock(c, Dialer)) && s.conns[c].down.got == 0
    requires Enabled(cfg, s, Receives(Sock(c, Dialer), published))
    ensures Core(cfg, Receive(cfg, s, Sock(c, Dialer), published))
  {
    var sock, k := Sock(c, Dialer), s.conns[c];
    var n, i := k.dialer, k.dialHost;
    var me := s.nodes[n];
    LineFacts(cfg, s, sock);
    var h := me.hosts[i];
    var h' := h.(id := cfg.ids[k.acceptor], addr := Addr(h.addr.ip, h.addr.port));
    var me' := SetHost(me, i, h');
    var k' := AddSent(Handled(k, Dialer), Dialer, [Connected]);
    Do1(cfg, n, s.conns[c := Handled(k, Dialer)], Send(sock, [Connected]));
    assert Receive(cfg, s, sock, published) == Put(s, n, me', c, k');
    EntryFacts(cfg, s, n, i);
    ConnFacts(cfg, s, c);
    IdSound(cfg, k);
    CorePut(cfg, s, n, me', i, c, Dialer, k');
  }

  lemma TakenSound(cfg: Config, k: Conn, side: Side)
    requires cfg.Valid() && Sound(cfg, k)
    requires 1 <= Inflow(k, side).got < |Inflow(k, side).sent|
    requires side.Dialer? || k.acceptEnd.Attached?
    ensures Sound(cfg, Handled(k, side))
  {
  }

  /** YOU= at either end: the loopback entry takes the canonical address. */
  lemma YouCore(cfg: Config, s: State, sock: Sock, published: seq<string>)
    requires cfg.Valid() && Core(cfg, s) && Attends(s, sock) && Inflow(s.conns[sock.conn], sock.side).got == 1
    requires Enabled(cfg, s, Receives(sock, published))
    ensures Core(cfg, Receive(cfg, s, sock, published))
  {
    var c, k := sock.conn, s.conns[sock.conn];
    var n, i := Local(k, sock.side), HostOf(k, sock.side);
    var me := s.nodes[n];
    LineFacts(cfg, s, sock);
    EntryFacts(cfg, s, n, i);
    var me' := SetHost(me, 0, me.hosts[0].(addr := cfg.addrs[n], ready := true));
    var k' := Handled(k, sock.side);
    assert Receive(cfg, s, sock, published) == Put(s, n, me', c, k');
    ConnFacts(cfg, s, c);
    TakenSound(cfg, k, sock.side);
    forall j | 1 <= j < |me.hosts| ensures me.hosts[j].addr != cfg.addrs[n] {
      assert EntryOk(cfg, s.conns, n, j, me.hosts[j]);
    }
    assert NodeOk(cfg, n, me');
    CorePut(cfg, s, n, me', i, c, sock.side, k');
  }

  /** The line is taken and its host becomes ready. */
  function MarkReady(s: State, sock: Sock): State
    requires Attends(s, sock)
  {
    var k := s.conns[sock.conn];
    var n, i := Local(k, sock.side), HostOf(k, sock.side);
    Put(s, n, SetHost(s.nodes[n], i, s.nodes[n].hosts[i].(ready := true)), sock.conn, Handled(k, sock.side))
  }

  /** CONNECTED at either end, before the broadcasts it causes. */
  lemma ReadyCore(cfg: Config, s: State, sock: Sock)
    requires cfg.Valid() && Core(cfg, s) && Attends(s, sock) && Inflow(s.conns[sock.conn], sock.side).got >= 2
    ensures Core(cfg, MarkReady(s, sock))
  {
    var c, k := sock.conn, s.conns[sock.conn];
    var n, i := Local(k, sock.side), HostOf(k, sock.side);
    var me := s.nodes[n];
    LineFacts(cfg, s, sock);
    EntryFacts(cfg, s, n, i);
    ConnFacts(cfg, s, c);
    var me' := SetHost(me, i, me.hosts[i].(ready := true));
    var k' := Handled(k, sock.side);
    TakenSound(cfg, k, sock.side);
    CorePut(cfg, s, n, me', i, c, sock.side, k');
  }

  /** A line after the handshake is taken from the queue: its host is ready already. */
  lemma TakeCore(cfg: Config, s: State, sock: Sock)
    requires cfg.Valid() && Core(cfg, s) && Attends(s, sock) && Inflow(s.conns[sock.conn], sock.side).got >= 3
    ensures Core(cfg, Taken(s, sock))
  {
    var k := s.conns[sock.conn];
    var n, i := Local(k, sock.side), HostOf(k, sock.side);
    LineFacts(cfg, s, sock);
    ReadyCore(cfg, s, sock);
    var hosts := s.nodes[n].hosts;
    assert hosts[i].(ready := true) == hosts[i] && hosts[i := hosts[i]] == hosts;
    assert MarkReady(s, sock) == Taken(s, sock);
  }

  function Taken(s: State, sock: Sock): State
    requires sock.conn < |s.conns|
  {
    s.(conns := s.conns[sock.conn := Handled(s.conns[sock.conn], sock.side)])
  }

  // ---------- gossip and signalling

  /** A connection after more payload went out on its ready ends. */
  ghost predicate SentMore(cfg: Config, k: Conn, k': Conn) {
    && k' == k.(up := k.up.(sent := k'.up.sent), down := k.down.(sent := k'.down.sent))
    && k.up.sent <= k'.up.sent && k.down.sent <= k'.down.sent
    && (k'.up.sent != k.up.sent ==> k.dialEnd.Open? && k.down.got >= 3)
    && (k'.down.sent != k.down.sent ==> k.acceptEnd.Attached? && k.up.got >= 3)
    && (forall x :: |k.up.sent| <= x < |k'.up.sent| ==> Payload(cfg, k'.up.sent[x]))
    && (forall x :: |k.down.sent| <= x < |k'.down.sent| ==> Payload(cfg, k'.down.sent[x]))
  }

  lemma SentMoreSound(cfg: Config, k: Conn, k': Conn)
    requires cfg.Valid() && Sound(cfg, k) && SentMore(cfg, k, k')
    ensures Sound(cfg, k')
  {
  }

  lemma SentMoreTrans(cfg: Config, k: Conn, k1: Conn, k2: Conn)
    requires SentMore(cfg, k, k1) && SentMore(cfg, k1, k2)
    ensures SentMore(cfg, k, k2)
  {
    forall x | |k.up.sent| <= x < |k2.up.sent| ensures Payload(cfg, k2.up.sent[x]) {
      if x < |k1.up.sent| { assert k2.up.sent[x] == k1.up.sent[x]; }
    }
    forall x | |k.down.sent| <= x < |k2.down.sent| ensures Payload(cfg, k2.down.sent[x]) {
      if x < |k1.down.sent| { assert k2.down.sent[x] == k1.down.sent[x]; }
    }
  }

  /** Effects that only send payload to ready hosts. */
  ghost predicate ToReady(cfg: Config, hosts: seq<Host>, effects: seq<Effect>) {
    forall e :: e in effects ==> ReadySend(cfg, hosts, e)
  }

  ghost predicate ReadySend(cfg: Config, hosts: seq<Host>, e: Effect) {
    && e.Send? && (forall line :: line in e.lines ==> Payload(cfg, line))
    && exists i :: 1 <= i < |hosts| && hosts[i].ready && hosts[i].sock == Some(e.sock)
  }

  lemma SentMoreLinked(cfg: Config, nodes: seq<Node>, c: nat, k: Conn, k': Conn)
    requires |nodes| == |cfg.addrs| && Linked(cfg, nodes, c, k) && SentMore(cfg, k, k')
    ensures Linked(cfg, nodes, c, k')
  {
  }

  lemma SentMoreEntry(cfg: Config, conns: seq<Conn>, n: nat, i: nat, h: Host, c: nat, k': Conn)
    requires cfg.Valid() && n < |cfg.ids| && c < |conns| && EntryOk(cfg, conns, n, i, h) && SentMore(cfg, conns[c], k')
    ensures EntryOk(cfg, conns[c := k'], n, i, h)
  {
  }

  /** Entry i is the ready one that e is sent on: its connection may carry payload. */
  lemma OneSendPut(cfg: Config, s: State, n: nat, i: nat, e: Effect)
    requires cfg.Valid() && Core(cfg, s) && n < |s.nodes| && ReadySend(cfg, s.nodes[n].hosts, e)
    requires 1 <= i < |s.nodes[n].hosts| && s.nodes[n].hosts[i].ready && s.nodes[n].hosts[i].sock == Some(e.sock)
    ensures e.sock.conn < |s.conns|
    ensures var k := s.conns[e.sock.conn];
      var k' := AddSent(k, e.sock.side, e.lines);
      && SentMore(cfg, k, k')
      && Do(cfg, n, s.conns, e) == s.conns[e.sock.conn := k']
      && PutOk(cfg, s, n, s.nodes[n], i, e.sock.conn, e.sock.side, k')
  {
    EntryFacts(cfg, s, n, i);
    ConnFacts(cfg, s, e.sock.conn);
  }

  lemma OneSendCore(cfg: Config, s: State, n: nat, e: Effect)
    requires cfg.Valid() && Core(cfg, s) && n < |s.nodes| && ReadySend(cfg, s.nodes[n].hosts, e)
    ensures e.sock.conn < |s.conns|
    ensures var k := s.conns[e.sock.conn];
      && SentMore(cfg, k, AddSent(k, e.sock.side, e.lines))
      && Do(cfg, n, s.conns, e) == s.conns[e.sock.conn := AddSent(k, e.sock.side, e.lines)]
    ensures Core(cfg, s.(conns := Do(cfg, n, s.conns, e)))
  {
    var i :| 1 <= i < |s.nodes[n].hosts| && s.nodes[n].hosts[i].ready && s.nodes[n].hosts[i].sock == Some(e.sock);
    var c, me := e.sock.conn, s.nodes[n];
    OneSendPut(cfg, s, n, i, e);
    var k' := AddSent(s.conns[c], e.sock.side, e.lines);
    PutMore(cfg, s, n, i, c, e.sock.side, k');
    assert s.(conns := Do(cfg, n, s.conns, e)) == Put(s, n, me, c, k') by { assert s.nodes[n := me] == s.nodes; }
  }

  lemma PutMore(cfg: Config, s: State, n: nat, i: nat, c: nat, side: Side, k': Conn)
    requires cfg.Valid() && Core(cfg, s) && n < |s.nodes| && 1 <= i < |s.nodes[n].hosts| && c < |s.conns|
    requires SentMore(cfg, s.conns[c], k') && PutOk(cfg, s, n, s.nodes[n], i, c, side, k')
    ensures Core(cfg, Put(s, n, s.nodes[n], c, k'))
  {
    EntryFacts(cfg, s, n, i);
    ConnFacts(cfg, s, c);
    SentMoreSound(cfg, s.conns[c], k');
    assert s.nodes[n := s.nodes[n]] == s.nodes;
    SentMoreLinked(cfg, s.nodes, c, s.conns[c], k');
    SentMoreEntry(cfg, s.conns, n, i, s.nodes[n].hosts[i], c, k');
    CorePut(cfg, s, n, s.nodes[n], i, c, side, k');
  }

  /** Everything e writes is in the queue of its socket. */
  ghost predicate Delivered(conns: seq<Conn>, e: Effect) {
    && e.Send? && e.sock.conn < |conns|
    && forall line :: line in e.lines ==> line in Outflow(conns[e.sock.conn], e.sock.side).sent
  }

  lemma DeliveredKept(cfg: Config, conns: seq<Conn>, conns': seq<Conn>, e: Effect)
    requires Delivered(conns, e) && |conns'| == |conns|
    requires SentMore(cfg, conns[e.sock.conn], conns'[e.sock.conn])
    ensures Delivered(conns', e)
  {
    forall line | line in e.lines ensures line in Outflow(conns'[e.sock.conn], e.sock.side).sent {
      var sent := Outflow(conns[e.sock.conn], e.sock.side).sent;
      var x :| 0 <= x < |sent| && sent[x] == line;
      assert Outflow(conns'[e.sock.conn], e.sock.side).sent[x] == line;
    }
  }

  lemma SendsCore(cfg: Config, s: State, n: nat, effects: seq<Effect>)
    requires cfg.Valid() && Core(cfg, s) && n < |s.nodes| && ToReady(cfg, s.nodes[n].hosts, effects)
    ensures var conns' := DoAll(cfg, n, s.conns, effects);
      && |conns'| == |s.conns|
      && (forall c :: 0 <= c < |s.conns| ==> SentMore(cfg, s.conns[c], conns'[c]))
      && (forall e :: e in effects ==> Delivered(conns', e))
      && Core(cfg, s.(conns := conns'))
    decreases |effects|
  {
    if effects == [] {
    } else {
      var e := effects[0];
      var s1 := s.(conns := Do(cfg, n, s.conns, e));
      assert ReadySend(cfg, s.nodes[n].hosts, e);
      OneSendCore(cfg, s, n, e);
      assert forall f :: f in effects[1..] ==> f in effects;
      SendsCore(cfg, s1, n, effects[1..]);
      var conns' := DoAll(cfg, n, s.conns, effects);
      forall c | 0 <= c < |s.conns| ensures SentMore(cfg, s.conns[c], conns'[c]) {
        SentMoreTrans(cfg, s.conns[c], s1.conns[c], conns'[c]);
      }
      assert Delivered(s1.conns, e);
      DeliveredKept(cfg, s1.conns, conns', e);
    }
  }
}
