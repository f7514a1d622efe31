/** The invariant of the mesh, and what a step has to show to keep it. */
module MeshInv {
  import opened Common
  import opened MeshSpec
  import opened MeshNet

  // ---------- one node

  ghost predicate NodeOk(cfg: Config, n: nat, me: Node)
    requires cfg.Valid() && n < |cfg.ids|
  {
    && me.id == cfg.ids[n] && me.port == cfg.addrs[n].port
    && |me.hosts| > 0
    && me.hosts[0].sock.None? && me.hosts[0].server
    && (me.hosts[0].addr == cfg.addrs[n] || (me.hosts[0].addr == cfg.Alias(n) && !me.hosts[0].ready))
    && (forall i, j :: 0 <= i < j < |me.hosts| ==> me.hosts[i].addr != me.hosts[j].addr)
  }

  /** Node n has learnt its own address. */
  ghost predicate Named(cfg: Config, n: nat, me: Node)
    requires n < |cfg.addrs|
  {
    |me.hosts| > 0 && me.hosts[0].addr == cfg.addrs[n]
  }

  /** A remote entry of the table has this address. */
  ghost predicate Knows(me: Node, addr: Addr) {
    exists i :: 1 <= i < |me.hosts| && me.hosts[i].addr == addr
  }

  /** A remote entry holds a live end of a connection to its address. */
  ghost predicate EntryOk(cfg: Config, conns: seq<Conn>, n: nat, i: nat, h: Host)
    requires cfg.Valid() && n < |cfg.ids|
  {
    && h.addr != cfg.addrs[n] && h.addr != cfg.Alias(n)
    && h.sock.Some? && h.sock.value.conn < |conns|
    && var k := conns[h.sock.value.conn];
    && (h.server <==> h.sock.value.side.Acceptor?)
    && (h.ready <==> Inflow(k, h.sock.value.side).got >= 3)
    && match h.sock.value.side
       case Dialer => k.dialer == n && k.target == h.addr && k.dialHost == i && !k.dialEnd.Gone?
       case Acceptor => k.acceptor == n && k.dialer < |cfg.addrs| && cfg.addrs[k.dialer] == h.addr
                        && k.acceptEnd == Attached(i)
  }

  // ---------- one connection

  ghost predicate Payload(cfg: Config, line: Line) {
    line.Signal? || (line.HostAt? && line.addr in cfg.addrs)
  }

  /** What m may have sent to n on one connection: the handshake, then gossip and signalling. */
  ghost predicate Script(cfg: Config, sent: seq<Line>, m: nat, n: nat)
    requires cfg.Valid()
  {
    && (sent != [] ==> m < |cfg.ids| && n < |cfg.ids|)
    && (|sent| > 0 ==> sent[0] == Id(cfg.ids[m], cfg.addrs[m].port))
    && (|sent| > 1 ==> sent[1] == You(cfg.addrs[n].ip))
    && (|sent| > 2 ==> sent[2] == Connected)
    && (forall x :: 3 <= x < |sent| ==> Payload(cfg, sent[x]))
  }

  /** How far the two directions of a connection may have got relative to each other. */
  ghost predicate Phase(k: Conn) {
    && k.up.got <= |k.up.sent| && k.down.got <= |k.down.sent|
    && (k.dialEnd.Unopened? ==> k.up.sent == [])
    && (k.dialEnd.Open? ==> |k.up.sent| >= 2)
    && (|k.up.sent| >= 3 <==> k.down.got >= 1)
    && (|k.up.sent| > 3 ==> k.down.got >= 3)
    && (k.acceptEnd.Waiting? ==> k.up.got == 0)
    && (k.acceptEnd.Attached? ==> k.up.got >= 1 && |k.down.sent| >= 3 && k.dialEnd.Open?)
    && (!k.acceptEnd.Attached? ==> k.down.sent == [] && k.up.got <= 1)
    && (|k.down.sent| > 3 ==> k.up.got >= 3)
  }

  /** The lower id loses: its dial may be refused or given up, never one of the higher id. */
  ghost predicate Sound(cfg: Config, k: Conn)
    requires cfg.Valid()
  {
    && k.dialer < |cfg.ids| && k.acceptor == cfg.NodeAt(k.target) && k.acceptor != k.dialer
    && Phase(k)
    && Script(cfg, k.up.sent, k.dialer, k.acceptor)
    && Script(cfg, k.down.sent, k.acceptor, k.dialer)
    && (k.acceptEnd.Refused? || k.dialEnd.Gone? ==>
          k.acceptor < |cfg.ids| && cfg.ids[k.dialer] < cfg.ids[k.acceptor])
  }

  /** The entries at both ends of a connection. */
  ghost predicate Linked(cfg: Config, nodes: seq<Node>, c: nat, k: Conn)
    requires |nodes| == |cfg.addrs|
  {
    && k.dialer < |nodes| && 1 <= k.dialHost < |nodes[k.dialer].hosts|
    && var h := nodes[k.dialer].hosts[k.dialHost];
    && h.addr == k.target
    && (!k.dialEnd.Gone? ==> h.sock == Some(Sock(c, Dialer)))
    && (k.acceptEnd.Refused? ==> k.acceptor < |nodes| && Knows(nodes[k.acceptor], cfg.addrs[k.dialer]))
    && (k.dialEnd.Gone? && !k.acceptEnd.Refused? ==> h.server)
    && (k.up.got >= 2 ==> k.acceptor < |nodes| && Named(cfg, k.acceptor, nodes[k.acceptor]))
    && (k.down.got >= 2 ==> Named(cfg, k.dialer, nodes[k.dialer]))
    && (k.acceptEnd.Attached? ==>
          && k.acceptor < |nodes| && 1 <= k.acceptEnd.host < |nodes[k.acceptor].hosts|
          && nodes[k.acceptor].hosts[k.acceptEnd.host].sock == Some(Sock(c, Acceptor)))
  }

  /** When one of two opposite dials is accepted, it is the one of the higher id. */
  ghost predicate PairOk(cfg: Config, k: Conn, k': Conn) {
    k.acceptEnd.Attached? && k'.dialer == k.acceptor && k'.acceptor == k.dialer
      && k.dialer < |cfg.ids| && k.acceptor < |cfg.ids|
    ==> cfg.ids[k.dialer] > cfg.ids[k.acceptor]
  }

  ghost predicate Core(cfg: Config, s: State)
    requires cfg.Valid()
  {
    && |s.nodes| == |cfg.ids|
    && (forall n {:trigger NodeOk(cfg, n, s.nodes[n])} :: 0 <= n < |s.nodes| ==> NodeOk(cfg, n, s.nodes[n]))
    && (forall n, i {:trigger EntryOk(cfg, s.conns, n, i, s.nodes[n].hosts[i])} ::
          0 <= n < |s.nodes| && 1 <= i < |s.nodes[n].hosts| ==> EntryOk(cfg, s.conns, n, i, s.nodes[n].hosts[i]))
    && (forall c {:trigger Sound(cfg, s.conns[c])} :: 0 <= c < |s.conns| ==> Sound(cfg, s.conns[c]))
    && (forall c {:trigger Linked(cfg, s.nodes, c, s.conns[c])} :: 0 <= c < |s.conns| ==> Linked(cfg, s.nodes, c, s.conns[c]))
    && (forall c, c' {:trigger PairOk(cfg, s.conns[c], s.conns[c'])} ::
          0 <= c < |s.conns| && 0 <= c' < |s.conns| ==> PairOk(cfg, s.conns[c], s.conns[c']))
  }

  lemma InitCore(cfg: Config)
    requires cfg.Valid()
    ensures Core(cfg, Init(cfg))
  {
  }

  /** The facts of Core about one connection and one entry. */
  lemma ConnFacts(cfg: Config, s: State, c: nat)
    requires cfg.Valid() && Core(cfg, s) && c < |s.conns|
    ensures Sound(cfg, s.conns[c]) && Linked(cfg, s.nodes, c, s.conns[c])
  {
  }

  lemma EntryFacts(cfg: Config, s: State, n: nat, i: nat)
    requires cfg.Valid() && Core(cfg, s) && n < |s.nodes| && 1 <= i < |s.nodes[n].hosts|
    ensures NodeOk(cfg, n, s.nodes[n]) && EntryOk(cfg, s.conns, n, i, s.nodes[n].hosts[i])
  {
  }

  // ---------- what a step leaves alone

  /** Entries never move, disappear or change address. */
  ghost predicate Grows(me: Node, me': Node) {
    && |me.hosts| <= |me'.hosts|
    && forall i :: 1 <= i < |me.hosts| ==> me'.hosts[i].addr == me.hosts[i].addr
  }

  lemma KnowsKept(me: Node, me': Node, addr: Addr)
    requires Grows(me, me') && Knows(me, addr)
    ensures Knows(me', addr)
  {
    var i :| 1 <= i < |me.hosts| && me.hosts[i].addr == addr;
    assert me'.hosts[i].addr == addr;
  }

  /** An entry keeps its socket unless it held a connection of cs, and a server entry stays one. */
  ghost predicate Succeeds(h: Host, h': Host, cs: set<nat>) {
    && h'.addr == h.addr && (h.server ==> h'.server)
    && (h'.sock == h.sock || (h.sock.Some? && h.sock.value.conn in cs))
  }

  ghost predicate NodeEvolves(cfg: Config, n: nat, me: Node, me': Node, cs: set<nat>)
    requires n < |cfg.addrs|
  {
    && Grows(me, me')
    && (Named(cfg, n, me) ==> Named(cfg, n, me'))
    && (forall i :: 1 <= i < |me.hosts| ==> Succeeds(me.hosts[i], me'.hosts[i], cs))
  }

  /** Connections outside cs are untouched; only entries that held a connection of cs may change socket. */
  ghost predicate Evolves(cfg: Config, s: State, s': State, cs: set<nat>)
    requires |s.nodes| == |cfg.addrs|
  {
    && |s'.nodes| == |s.nodes| && |s.conns| <= |s'.conns|
    && (forall c :: 0 <= c < |s.conns| && c !in cs ==> s'.conns[c] == s.conns[c])
    && (forall m {:trigger NodeEvolves(cfg, m, s.nodes[m], s'.nodes[m], cs)} ::
          0 <= m < |s.nodes| ==> NodeEvolves(cfg, m, s.nodes[m], s'.nodes[m], cs))
  }

  lemma LinkKept(cfg: Config, s: State, s': State, cs: set<nat>, c: nat)
    requires |s.nodes| == |cfg.addrs| && c < |s.conns| && Linked(cfg, s.nodes, c, s.conns[c])
    requires Evolves(cfg, s, s', cs) && c !in cs
    ensures Linked(cfg, s'.nodes, c, s'.conns[c])
  {
    var k := s.conns[c];
    assert NodeEvolves(cfg, k.dialer, s.nodes[k.dialer], s'.nodes[k.dialer], cs);
    if k.acceptor < |s.nodes| {
      assert NodeEvolves(cfg, k.acceptor, s.nodes[k.acceptor], s'.nodes[k.acceptor], cs);
      if k.acceptEnd.Refused? { KnowsKept(s.nodes[k.acceptor], s'.nodes[k.acceptor], cfg.addrs[k.dialer]); }
    }
  }

  /** The entries a step may have changed, or whose connection it may have changed. */
  ghost predicate Moved(s: State, s': State, cs: set<nat>, m: nat, i: nat)
    requires m < |s'.nodes| == |s.nodes| && i < |s'.nodes[m].hosts|
  {
    || i >= |s.nodes[m].hosts|
    || s'.nodes[m].hosts[i] != s.nodes[m].hosts[i]
    || (s.nodes[m].hosts[i].sock.Some? && s.nodes[m].hosts[i].sock.value.conn in cs)
  }

  /** The invariant after a step, from the parts that changed. */
  lemma CoreFrom(cfg: Config, s: State, s': State, cs: set<nat>)
    requires cfg.Valid() && Core(cfg, s) && Evolves(cfg, s, s', cs)
    requires forall m {:trigger NodeOk(cfg, m, s'.nodes[m])} ::
               0 <= m < |s'.nodes| && s'.nodes[m] != s.nodes[m] ==> NodeOk(cfg, m, s'.nodes[m])
    requires forall c {:trigger Sound(cfg, s'.conns[c])} {:trigger Linked(cfg, s'.nodes, c, s'.conns[c])} ::
               0 <= c < |s'.conns| && (c in cs || c >= |s.conns|) ==>
               Sound(cfg, s'.conns[c]) && Linked(cfg, s'.nodes, c, s'.conns[c])
    requires forall m, i {:trigger EntryOk(cfg, s'.conns, m, i, s'.nodes[m].hosts[i])} ::
               0 <= m < |s'.nodes| && 1 <= i < |s'.nodes[m].hosts| && Moved(s, s', cs, m, i)
               ==> EntryOk(cfg, s'.conns, m, i, s'.nodes[m].hosts[i])
    requires forall c, c' {:trigger PairOk(cfg, s'.conns[c], s'.conns[c'])} ::
               0 <= c < |s'.conns| && 0 <= c' < |s'.conns| ==> PairOk(cfg, s'.conns[c], s'.conns[c'])
    ensures Core(cfg, s')
  {
    forall c | 0 <= c < |s'.conns| ensures Sound(cfg, s'.conns[c]) && Linked(cfg, s'.nodes, c, s'.conns[c]) {
      if c < |s.conns| && c !in cs { LinkKept(cfg, s, s', cs, c); }
    }
    forall m, i | 0 <= m < |s'.nodes| && 1 <= i < |s'.nodes[m].hosts|
      ensures EntryOk(cfg, s'.conns, m, i, s'.nodes[m].hosts[i])
    {
      if !Moved(s, s', cs, m, i) { assert EntryOk(cfg, s.conns, m, i, s.nodes[m].hosts[i]); }
    }
  }

  // ---------- pairs of connections

  ghost predicate SameEnds(k: Conn, k': Conn) {
    k'.dialer == k.dialer && k'.acceptor == k.acceptor && (k'.acceptEnd.Attached? <==> k.acceptEnd.Attached?)
  }

  lemma PairsKept(cfg: Config, ks: seq<Conn>, ks': seq<Conn>)
    requires forall c, c' {:trigger PairOk(cfg, ks[c], ks[c'])} :: 0 <= c < |ks| && 0 <= c' < |ks| ==> PairOk(cfg, ks[c], ks[c'])
    requires |ks'| == |ks| && forall c :: 0 <= c < |ks| ==> SameEnds(ks[c], ks'[c])
    ensures forall c, c' {:trigger PairOk(cfg, ks'[c], ks'[c'])} :: 0 <= c < |ks'| && 0 <= c' < |ks'| ==> PairOk(cfg, ks'[c], ks'[c'])
  {
    forall c, c' | 0 <= c < |ks'| && 0 <= c' < |ks'| ensures PairOk(cfg, ks'[c], ks'[c']) {
      assert PairOk(cfg, ks[c], ks[c']) && SameEnds(ks[c], ks'[c]) && SameEnds(ks[c'], ks'[c']);
    }
  }

  /** Connection c has just been accepted. */
  lemma PairsAccept(cfg: Config, ks: seq<Conn>, ks': seq<Conn>, c: nat)
    requires forall x, y {:trigger PairOk(cfg, ks[x], ks[y])} :: 0 <= x < |ks| && 0 <= y < |ks| ==> PairOk(cfg, ks[x], ks[y])
    requires |ks'| == |ks| && c < |ks| && forall x :: 0 <= x < |ks| && x != c ==> SameEnds(ks[x], ks'[x])
    requires ks'[c].dialer == ks[c].dialer && ks'[c].acceptor == ks[c].acceptor
    requires forall x {:trigger PairOk(cfg, ks'[c], ks'[x])} :: 0 <= x < |ks| ==> PairOk(cfg, ks'[c], ks'[x])
    ensures forall x, y {:trigger PairOk(cfg, ks'[x], ks'[y])} :: 0 <= x < |ks'| && 0 <= y < |ks'| ==> PairOk(cfg, ks'[x], ks'[y])
  {
    forall x, y | 0 <= x < |ks'| && 0 <= y < |ks'| ensures PairOk(cfg, ks'[x], ks'[y]) {
      if x != c {
        assert PairOk(cfg, ks[x], ks[y]) && SameEnds(ks[x], ks'[x]);
        assert y != c ==> SameEnds(ks[y], ks'[y]);
      }
    }
  }

  /** A new dial k0 by n: nothing n accepted comes from the node it dials. */
  lemma PairsDial(cfg: Config, s: State, ks': seq<Conn>, n: nat, k0: Conn)
    requires cfg.Valid() && Core(cfg, s) && n < |s.nodes|
    requires |ks'| == |s.conns| + 1 && ks'[|s.conns|] == k0
    requires forall c :: 0 <= c < |s.conns| ==> SameEnds(s.conns[c], ks'[c])
    requires k0.dialer == n && k0.acceptEnd.Waiting? && k0.acceptor == cfg.NodeAt(k0.target)
    requires forall i :: 1 <= i < |s.nodes[n].hosts| && s.nodes[n].hosts[i].addr == k0.target ==> !s.nodes[n].hosts[i].server
    ensures forall c, c' {:trigger PairOk(cfg, ks'[c], ks'[c'])} :: 0 <= c < |ks'| && 0 <= c' < |ks'| ==> PairOk(cfg, ks'[c], ks'[c'])
  {
    forall c, c' | 0 <= c < |ks'| && 0 <= c' < |ks'| ensures PairOk(cfg, ks'[c], ks'[c']) {
      assert c < |s.conns| ==> SameEnds(s.conns[c], ks'[c]);
      if c < |s.conns| && c' < |s.conns| {
        assert PairOk(cfg, s.conns[c], s.conns[c']) && SameEnds(s.conns[c'], ks'[c']);
      } else if c < |s.conns| && s.conns[c].acceptEnd.Attached? && s.conns[c].acceptor == n {
        ConnFacts(cfg, s, c);
        EntryFacts(cfg, s, n, s.conns[c].acceptEnd.host);
      }
    }
  }

  // ---------- a step of one node on its end of one connection

  function Put(s: State, n: nat, me: Node, c: nat, k: Conn): State
    requires n < |s.nodes| && c < |s.conns|
  {
    State(s.nodes[n := me], s.conns[c := k])
  }

  function Other(side: Side): Side {
    if side.Dialer? then Acceptor else Dialer
  }

  /** The other end's entry does not notice. */
  lemma EntryKept(cfg: Config, conns: seq<Conn>, m: nat, i: nat, h: Host, c: nat, side: Side, k: Conn)
    requires cfg.Valid() && m < |cfg.ids| && c < |conns| && EntryOk(cfg, conns, m, i, h)
    requires k == conns[c].(dialEnd := k.dialEnd, up := k.up, down := k.down)
    requires k.dialEnd.Gone? <==> conns[c].dialEnd.Gone?
    requires Inflow(k, Other(side)).got == Inflow(conns[c], Other(side)).got
    requires h.sock != Some(Sock(c, side))
    ensures EntryOk(cfg, conns[c := k], m, i, h)
  {
  }

  /** No two entries of one node hold the same socket. */
  lemma SocksDiffer(cfg: Config, s: State, n: nat, i: nat, j: nat)
    requires cfg.Valid() && Core(cfg, s) && n < |s.nodes|
    requires 1 <= i < |s.nodes[n].hosts| && 1 <= j < |s.nodes[n].hosts|
    requires s.nodes[n].hosts[i].sock == s.nodes[n].hosts[j].sock
    ensures i == j
  {
    EntryFacts(cfg, s, n, i);
    EntryFacts(cfg, s, n, j);
  }

  /** n changes hosts[i], which holds this end of c, and perhaps the loopback entry. */
  ghost predicate PutOk(cfg: Config, s: State, n: nat, me: Node, i: nat, c: nat, side: Side, k: Conn)
    requires cfg.Valid() && n < |s.nodes| == |cfg.ids| && c < |s.conns|
  {
    && n == Local(s.conns[c], side)
    && k == s.conns[c].(dialEnd := k.dialEnd, up := k.up, down := k.down)
    && (k.dialEnd.Gone? <==> s.conns[c].dialEnd.Gone?)
    && Inflow(k, Other(side)).got == Inflow(s.conns[c], Other(side)).got
    && |me.hosts| == |s.nodes[n].hosts| && 1 <= i < |me.hosts|
    && s.nodes[n].hosts[i].sock == Some(Sock(c, side))
    && Succeeds(s.nodes[n].hosts[i], me.hosts[i], {})
    && (forall j :: 1 <= j < |me.hosts| && j != i ==> me.hosts[j] == s.nodes[n].hosts[j])
    && (Named(cfg, n, s.nodes[n]) ==> Named(cfg, n, me))
  }

  /** The invariant after a step of n on its end of c that creates and drops nothing. */
  lemma CorePut(cfg: Config, s: State, n: nat, me: Node, i: nat, c: nat, side: Side, k: Conn)
    requires cfg.Valid() && Core(cfg, s) && n < |s.nodes| && c < |s.conns| && PutOk(cfg, s, n, me, i, c, side, k)
    requires NodeOk(cfg, n, me)
    requires Sound(cfg, k)
    requires Linked(cfg, s.nodes[n := me], c, k)
    requires EntryOk(cfg, s.conns[c := k], n, i, me.hosts[i])
    ensures Core(cfg, Put(s, n, me, c, k))
  {
    var s' := Put(s, n, me, c, k);
    forall m | 0 <= m < |s.nodes| ensures NodeEvolves(cfg, m, s.nodes[m], s'.nodes[m], {c}) {}
    forall m, j | 0 <= m < |s'.nodes| && 1 <= j < |s'.nodes[m].hosts| && Moved(s, s', {c}, m, j)
      ensures EntryOk(cfg, s'.conns, m, j, s'.nodes[m].hosts[j])
    {
      PutEntry(cfg, s, n, me, i, c, side, k, m, j);
    }
    forall x | 0 <= x < |s.conns| ensures SameEnds(s.conns[x], s'.conns[x]) {}
    PairsKept(cfg, s.conns, s'.conns);
    CoreFrom(cfg, s, s', {c});
  }

  lemma PutEntry(cfg: Config, s: State, n: nat, me: Node, i: nat, c: nat, side: Side, k: Conn, m: nat, j: nat)
    requires cfg.Valid() && Core(cfg, s) && n < |s.nodes| && c < |s.conns| && PutOk(cfg, s, n, me, i, c, side, k)
    requires EntryOk(cfg, s.conns[c := k], n, i, me.hosts[i])
    requires m < |s.nodes| && 1 <= j < |Put(s, n, me, c, k).nodes[m].hosts|
    ensures EntryOk(cfg, s.conns[c := k], m, j, Put(s, n, me, c, k).nodes[m].hosts[j])
  {
    if m != n || j != i {
      var h := s.nodes[m].hosts[j];
      EntryFacts(cfg, s, m, j);
      if m == n && h.sock == Some(Sock(c, side)) { SocksDiffer(cfg, s, n, i, j); }
      EntryKept(cfg, s.conns, m, j, h, c, side, k);
    }
  }
}
