/** What the mesh guarantees after every run, whatever the interleaving. */
module MeshTheorems {
  import opened Common
  import opened MeshSpec
  import opened MeshNet
  import opened MeshInv
  import opened MeshGossip

  // ---------- the host table

  /** hosts[0] is the local host, addresses are distinct, and no entry is the node itself. */
  lemma {:induction false} HostTable(cfg: Config, events: seq<Event>, n: nat)
    requires cfg.Valid() && n < |cfg.ids|
    ensures var s := Run(cfg, events);
      && |s.nodes| == |cfg.ids|
      && var hosts := s.nodes[n].hosts;
      && |hosts| > 0 && hosts[0].sock == None
      && (hosts[0].addr == cfg.addrs[n] || (hosts[0].addr == cfg.Alias(n) && !hosts[0].ready))
      && (forall i, j :: 0 <= i < j < |hosts| ==> hosts[i].addr != hosts[j].addr)
      && (forall i :: 1 <= i < |hosts| ==> hosts[i].addr != cfg.addrs[n] && hosts[i].addr != cfg.Alias(n))
  {
    var s := Run(cfg, events);
    RunInv(cfg, events);
    assert NodeOk(cfg, n, s.nodes[n]);
    forall i | 1 <= i < |s.nodes[n].hosts|
      ensures s.nodes[n].hosts[i].addr != cfg.addrs[n] && s.nodes[n].hosts[i].addr != cfg.Alias(n)
    {
      EntryFacts(cfg, s, n, i);
    }
  }

  /** A connection both ends of which are owned by a host. */
  predicate Live(k: Conn) {
    k.dialEnd.Open? && k.acceptEnd.Attached?
  }

  /** Entries and live connections of s are still there in s', in the same places. */
  ghost predicate Lasts(s: State, s': State) {
    && |s'.nodes| == |s.nodes| && |s.conns| <= |s'.conns|
    && (forall n {:trigger s'.nodes[n]} :: 0 <= n < |s.nodes| ==> Grows(s.nodes[n], s'.nodes[n]))
    && (forall c {:trigger s'.conns[c]} :: 0 <= c < |s.conns| && Live(s.conns[c]) ==>
          && s'.conns[c].dialEnd == Open && s'.conns[c].acceptEnd == s.conns[c].acceptEnd
          && s.conns[c].up.sent <= s'.conns[c].up.sent && s.conns[c].down.sent <= s'.conns[c].down.sent)
  }

  lemma StepLasts(cfg: Config, s: State, s': State)
    requires cfg.Valid() && Inv(cfg, s) && Inv(cfg, s') && Progress(cfg, s, s')
    ensures Lasts(s, s')
  {
    forall n | 0 <= n < |s.nodes| ensures Grows(s.nodes[n], s'.nodes[n]) {}
    forall c | 0 <= c < |s.conns| && Live(s.conns[c])
      ensures var k, k' := s.conns[c], s'.conns[c];
        && k'.dialEnd == Open && k'.acceptEnd == k.acceptEnd
        && k.up.sent <= k'.up.sent && k.down.sent <= k'.down.sent
    {
      var k, k' := s.conns[c], s'.conns[c];
      assert ConnGrows(cfg, s'.nodes, k, k');
      ConnFacts(cfg, s, c);
      ConnFacts(cfg, s', c);
      assert k'.acceptEnd.Attached?;
      EntryFacts(cfg, s, k.acceptor, k.acceptEnd.host);
      EntryFacts(cfg, s', k.acceptor, k'.acceptEnd.host);
      assert Grows(s.nodes[k.acceptor], s'.nodes[k.acceptor]);
    }
  }

  /** Nothing a run has built is undone by going on: no entry disappears, no live connection closes. */
  lemma {:induction false} NothingUndone(cfg: Config, events: seq<Event>, more: seq<Event>)
    requires cfg.Valid()
    ensures Lasts(Run(cfg, events), Run(cfg, events + more))
  {
    if more == [] {
      assert events + more == events;
    } else {
      var last := |more| - 1;
      var s := Run(cfg, events + more[..last]);
      NothingUndone(cfg, events, more[..last]);
      RunInv(cfg, events + more[..last]);
      assert events + more == events + more[..last] + [more[last]];
      OneMore(cfg, events + more[..last], more[last]);
      LastsTrans(Run(cfg, events), s, Run(cfg, events + more));
    }
  }

  lemma {:induction false} OneMore(cfg: Config, events: seq<Event>, e: Event)
    requires cfg.Valid() && Inv(cfg, Run(cfg, events))
    ensures Lasts(Run(cfg, events), Run(cfg, events + [e]))
  {
    var s := Run(cfg, events);
    assert (events + [e])[..|events|] == events;
    StepInv(cfg, s, e);
    StepLasts(cfg, s, Step(cfg, s, e));
  }

  lemma LastsTrans(a: State, b: State, c: State)
    requires Lasts(a, b) && Lasts(b, c)
    ensures Lasts(a, c)
  {
    forall n | 0 <= n < |a.nodes| ensures Grows(a.nodes[n], c.nodes[n]) {
      assert Grows(a.nodes[n], b.nodes[n]) && Grows(b.nodes[n], c.nodes[n]);
    }
    forall k | 0 <= k < |a.conns| && Live(a.conns[k])
      ensures c.conns[k].dialEnd == Open && c.conns[k].acceptEnd == a.conns[k].acceptEnd
              && a.conns[k].up.sent <= c.conns[k].up.sent && a.conns[k].down.sent <= c.conns[k].down.sent
    {
      assert Live(b.conns[k]);
    }
  }

  // ---------- simultaneous open

  /** The two entries that the nodes of connection c have for each other hold its two ends. */
  ghost predicate Agreed(cfg: Config, s: State, c: nat)
    requires cfg.Valid() && |s.nodes| == |cfg.ids| && c < |s.conns|
  {
    var k := s.conns[c];
    && k.dialer < |s.nodes| && k.acceptor < |s.nodes| && Live(k)
    && k.dialHost < |s.nodes[k.dialer].hosts| && k.acceptEnd.host < |s.nodes[k.acceptor].hosts|
    && var h, h' := s.nodes[k.dialer].hosts[k.dialHost], s.nodes[k.acceptor].hosts[k.acceptEnd.host];
    && h.addr == cfg.addrs[k.acceptor] && h.sock == Some(Sock(c, Dialer)) && !h.server
    && h'.addr == cfg.addrs[k.dialer] && h'.sock == Some(Sock(c, Acceptor)) && h'.server
  }

  /**
   The tie-break never closes a connection dialled by the higher id, at either end; once its ID= has
   been handled, both nodes use that connection.
   */
  lemma {:induction false} HigherIdWins(cfg: Config, events: seq<Event>, c: nat)
    requires cfg.Valid() && c < |Run(cfg, events).conns|
    ensures var s := Run(cfg, events);
      var k := s.conns[c];
      && |s.nodes| == |cfg.ids| && k.dialer < |cfg.ids|
      && (k.dialEnd.Gone? || k.acceptEnd.Refused? ==>
            k.acceptor < |cfg.ids| && cfg.ids[k.dialer] < cfg.ids[k.acceptor])
      && (k.acceptEnd.Attached? ==> Agreed(cfg, s, c))
      && (k.acceptor < |cfg.ids| && cfg.ids[k.dialer] > cfg.ids[k.acceptor] && !k.acceptEnd.Waiting?
          ==> Agreed(cfg, s, c))
  {
    var s := Run(cfg, events);
    RunInv(cfg, events);
    ConnFacts(cfg, s, c);
    if s.conns[c].acceptEnd.Attached? { AcceptedAgreed(cfg, s, c); }
  }

  lemma AcceptedAgreed(cfg: Config, s: State, c: nat)
    requires cfg.Valid() && Core(cfg, s) && c < |s.conns| && s.conns[c].acceptEnd.Attached?
    ensures Agreed(cfg, s, c)
  {
    var k := s.conns[c];
    ConnFacts(cfg, s, c);
    EntryFacts(cfg, s, k.dialer, k.dialHost);
    EntryFacts(cfg, s, k.acceptor, k.acceptEnd.host);
  }

  ghost predicate SamePair(k: Conn, k': Conn) {
    || (k.dialer == k'.dialer && k.acceptor == k'.acceptor)
    || (k.dialer == k'.acceptor && k.acceptor == k'.dialer)
  }

  /** Two nodes never have two live connections. */
  lemma {:induction false} OneLiveConnection(cfg: Config, events: seq<Event>, c: nat, c': nat)
    requires cfg.Valid() && c < |Run(cfg, events).conns| && c' < |Run(cfg, events).conns|
    requires var s := Run(cfg, events);
      Live(s.conns[c]) && Live(s.conns[c']) && SamePair(s.conns[c], s.conns[c'])
    ensures c == c'
  {
    RunInv(cfg, events);
    OneLiveAt(cfg, Run(cfg, events), c, c');
  }

  lemma OneLiveAt(cfg: Config, s: State, c: nat, c': nat)
    requires cfg.Valid() && Core(cfg, s) && c < |s.conns| && c' < |s.conns|
    requires Live(s.conns[c]) && Live(s.conns[c']) && SamePair(s.conns[c], s.conns[c'])
    ensures c == c'
  {
    AcceptedAgreed(cfg, s, c);
    AcceptedAgreed(cfg, s, c');
    assert PairOk(cfg, s.conns[c], s.conns[c']) && PairOk(cfg, s.conns[c'], s.conns[c]);
    assert NodeOk(cfg, s.conns[c].dialer, s.nodes[s.conns[c].dialer]);
  }

  // ---------- the handshake gate

  /**
   Every gossip or signalling line ever sent travels on a live connection, behind the sender's own
   CONNECTED; when it reaches the head of its queue the receiver is ready, so it is never dropped.
   */
  lemma {:induction false} GateLosesNothing(cfg: Config, events: seq<Event>, c: nat, side: Side, x: nat)
    requires cfg.Valid() && c < |Run(cfg, events).conns|
    requires x < |Inflow(Run(cfg, events).conns[c], side).sent|
    requires var line := Inflow(Run(cfg, events).conns[c], side).sent[x]; line.HostAt? || line.Signal?
    ensures var s := Run(cfg, events);
      var k := s.conns[c];
      var n, i := Local(k, side), HostOf(k, side);
      && Live(k) && x >= 3 && Inflow(k, side).sent[2] == Connected
      && n < |s.nodes| && 1 <= i < |s.nodes[n].hosts| && s.nodes[n].hosts[i].sock == Some(Sock(c, side))
      && (x == Inflow(k, side).got ==> s.nodes[n].hosts[i].ready && Enabled(cfg, s, Receives(Sock(c, side), [])))
      && (x < Inflow(k, side).got ==> s.nodes[n].hosts[i].ready)
  {
    RunInv(cfg, events);
    GateAt(cfg, Run(cfg, events), c, side, x);
  }

  lemma GateAt(cfg: Config, s: State, c: nat, side: Side, x: nat)
    requires cfg.Valid() && Core(cfg, s) && c < |s.conns| && x < |Inflow(s.conns[c], side).sent|
    requires var line := Inflow(s.conns[c], side).sent[x]; line.HostAt? || line.Signal?
    ensures var k := s.conns[c];
      var n, i := Local(k, side), HostOf(k, side);
      && Live(k) && x >= 3 && Inflow(k, side).sent[2] == Connected
      && n < |s.nodes| && 1 <= i < |s.nodes[n].hosts| && s.nodes[n].hosts[i].sock == Some(Sock(c, side))
      && (x <= Inflow(k, side).got ==> s.nodes[n].hosts[i].ready)
      && (x == Inflow(k, side).got ==> Enabled(cfg, s, Receives(Sock(c, side), [])))
  {
    ConnFacts(cfg, s, c);
    GateConn(cfg, s.conns[c], side, x);
    EntryFacts(cfg, s, Local(s.conns[c], side), HostOf(s.conns[c], side));
  }

  /** Payload means that both ends have finished their handshakes. */
  lemma GateConn(cfg: Config, k: Conn, side: Side, x: nat)
    requires cfg.Valid() && Sound(cfg, k) && x < |Inflow(k, side).sent|
    requires var line := Inflow(k, side).sent[x]; line.HostAt? || line.Signal?
    ensures x >= 3 && Inflow(k, side).sent[2] == Connected
    ensures k.dialEnd.Open? && k.acceptEnd.Attached?
  {
  }

  // ---------- no self-dial

  /** Although every node is told its own address again and again, nobody ever dials itself. */
  lemma {:induction false} NoSelfDial(cfg: Config, events: seq<Event>, c: nat)
    requires cfg.Valid() && c < |Run(cfg, events).conns|
    ensures var k := Run(cfg, events).conns[c];
      && k.dialer < |cfg.ids| && k.acceptor != k.dialer
      && k.target != cfg.addrs[k.dialer] && k.target != cfg.Alias(k.dialer)
  {
    var s := Run(cfg, events);
    RunInv(cfg, events);
    ConnFacts(cfg, s, c);
    EntryFacts(cfg, s, s.conns[c].dialer, s.conns[c].dialHost);
  }

  // ---------- gossip closure

  /** A Host= line for this address is still on its way from n to the peer of its entry i. */
  ghost predicate InFlight(s: State, n: nat, i: nat, addr: Addr)
    requires n < |s.nodes| && i < |s.nodes[n].hosts|
  {
    var h := s.nodes[n].hosts[i];
    && h.sock.Some? && h.sock.value.conn < |s.conns|
    && var flow := Outflow(s.conns[h.sock.value.conn], h.sock.value.side);
    && flow.got <= |flow.sent| && HostAt(addr) in flow.sent[flow.got..]
  }

  /** Whenever X and Y are both ready at n, X knows Y's address or is about to be told it. */
  lemma {:induction false} GossipClosure(cfg: Config, events: seq<Event>, n: nat, i: nat, j: nat)
    requires cfg.Valid() && n < |cfg.ids| == |Run(cfg, events).nodes|
    requires var hosts := Run(cfg, events).nodes[n].hosts;
      && 1 <= i < |hosts| && 1 <= j < |hosts| && i != j && hosts[i].ready && hosts[j].ready
    ensures var s := Run(cfg, events);
      var x := cfg.NodeAt(s.nodes[n].hosts[i].addr);
      && x < |s.nodes|
      && (Knows(s.nodes[x], s.nodes[n].hosts[j].addr) || InFlight(s, n, i, s.nodes[n].hosts[j].addr))
  {
    RunInv(cfg, events);
    Closure(cfg, Run(cfg, events), n, i, j);
  }

  lemma Closure(cfg: Config, s: State, n: nat, i: nat, j: nat)
    requires cfg.Valid() && Inv(cfg, s) && n < |s.nodes|
    requires var hosts := s.nodes[n].hosts;
      && 1 <= i < |hosts| && 1 <= j < |hosts| && i != j && hosts[i].ready && hosts[j].ready
    ensures var x := cfg.NodeAt(s.nodes[n].hosts[i].addr);
      && x < |s.nodes|
      && (Knows(s.nodes[x], s.nodes[n].hosts[j].addr) || InFlight(s, n, i, s.nodes[n].hosts[j].addr))
  {
    var h, addr := s.nodes[n].hosts[i], s.nodes[n].hosts[j].addr;
    PeerOf(cfg, s, n, i);
    var k, other := s.conns[h.sock.value.conn], Other(h.sock.value.side);
    var x := Local(k, other);
    assert ToldOk(s.conns, h, s.nodes[n].hosts[j]);
    var flow := Inflow(k, other);
    assert HostAt(addr) in flow.sent;
    var at :| 0 <= at < |flow.sent| && flow.sent[at] == HostAt(addr);
    if at < flow.got {
      assert HeardOk(cfg, s.nodes, x, flow);
      assert addr != cfg.addrs[x] by { assert NodeOk(cfg, n, s.nodes[n]); }
    } else {
      assert flow.sent[flow.got..][at - flow.got] == HostAt(addr);
    }
  }

  /** The node at the other end of an entry's connection is the one the entry names. */
  lemma PeerOf(cfg: Config, s: State, n: nat, i: nat)
    requires cfg.Valid() && Core(cfg, s) && n < |s.nodes| && 1 <= i < |s.nodes[n].hosts| && s.nodes[n].hosts[i].ready
    ensures var h := s.nodes[n].hosts[i];
      && h.sock.Some? && h.sock.value.conn < |s.conns|
      && var k, other := s.conns[h.sock.value.conn], Other(h.sock.value.side);
      var x := Local(k, other);
      && x < |s.nodes| && cfg.addrs[x] == h.addr && cfg.NodeAt(h.addr) == x
      && Outflow(k, h.sock.value.side) == Inflow(k, other)
  {
    EntryFacts(cfg, s, n, i);
    ConnFacts(cfg, s, s.nodes[n].hosts[i].sock.value.conn);
  }

  // ---------- quiescence

  /** No socket has anything left to do. */
  ghost predicate Quiescent(cfg: Config, s: State) {
    forall e: Event :: e.Opens? || e.Receives? || e.Closes? ==> !Enabled(cfg, s, e)
  }

  lemma Settled(cfg: Config, s: State, n: nat, i: nat)
    requires cfg.Valid() && Inv(cfg, s) && Quiescent(cfg, s)
    requires n < |s.nodes| && 1 <= i < |s.nodes[n].hosts| && s.nodes[n].hosts[i].addr in cfg.addrs
    ensures s.nodes[n].hosts[i].ready
    ensures var h := s.nodes[n].hosts[i];
      && h.sock.Some? && h.sock.value.conn < |s.conns|
      && var k := s.conns[h.sock.value.conn];
      && Live(k) && k.up.got == |k.up.sent| && k.down.got == |k.down.sent|
  {
    var h := s.nodes[n].hosts[i];
    EntryFacts(cfg, s, n, i);
    var c := h.sock.value.conn;
    var k := s.conns[c];
    ConnFacts(cfg, s, c);
    assert k.acceptor < |s.nodes|;
    assert !Enabled(cfg, s, Opens(c)) && !Enabled(cfg, s, Closes(c));
    assert !Enabled(cfg, s, Receives(Sock(c, Acceptor), []));
    assert !Enabled(cfg, s, Receives(Sock(c, Dialer), []));
  }

  /** In a settled mesh, knowing is mutual. */
  lemma Mutual(cfg: Config, s: State, n: nat, i: nat)
    requires cfg.Valid() && Inv(cfg, s) && Quiescent(cfg, s)
    requires n < |s.nodes| && 1 <= i < |s.nodes[n].hosts| && s.nodes[n].hosts[i].addr in cfg.addrs
    ensures var m := cfg.NodeAt(s.nodes[n].hosts[i].addr);
      m < |s.nodes| && Knows(s.nodes[m], cfg.addrs[n])
  {
    var h := s.nodes[n].hosts[i];
    Settled(cfg, s, n, i);
    EntryFacts(cfg, s, n, i);
    var c, side := h.sock.value.conn, h.sock.value.side;
    var k := s.conns[c];
    ConnFacts(cfg, s, c);
    var m := Local(k, Other(side));
    var j := HostOf(k, Other(side));
    assert cfg.addrs[m] == h.addr;
    EntryFacts(cfg, s, m, j);
    assert s.nodes[m].hosts[j].addr == cfg.addrs[n];
  }

  /** Each node of the path has the next one in its table. */
  ghost predicate Path(cfg: Config, s: State, path: seq<nat>)
    requires |s.nodes| == |cfg.addrs|
  {
    && |path| > 0 && (forall t :: 0 <= t < |path| ==> path[t] < |s.nodes|)
    && (forall t :: 0 <= t < |path| - 1 ==> Knows(s.nodes[path[t]], cfg.addrs[path[t + 1]]))
  }

  lemma {:induction false} PathClosed(cfg: Config, s: State, path: seq<nat>)
    requires cfg.Valid() && Inv(cfg, s) && Quiescent(cfg, s) && Path(cfg, s, path)
    ensures path[0] == path[|path| - 1] || Knows(s.nodes[path[0]], cfg.addrs[path[|path| - 1]])
  {
    if |path| > 1 {
      var x, b, y := path[0], path[1], path[|path| - 1];
      var rest := path[1..];
      forall t | 0 <= t < |rest| - 1 ensures Knows(s.nodes[rest[t]], cfg.addrs[rest[t + 1]]) {
        assert Knows(s.nodes[path[t + 1]], cfg.addrs[path[t + 1 + 1]]);
      }
      PathClosed(cfg, s, rest);
      assert Knows(s.nodes[path[0]], cfg.addrs[path[0 + 1]]);
      var i0 :| 1 <= i0 < |s.nodes[x].hosts| && s.nodes[x].hosts[i0].addr == cfg.addrs[b];
      Mutual(cfg, s, x, i0);
      if x != y && b != y {
        var i :| 1 <= i < |s.nodes[b].hosts| && s.nodes[b].hosts[i].addr == cfg.addrs[x];
        var j :| 1 <= j < |s.nodes[b].hosts| && s.nodes[b].hosts[j].addr == cfg.addrs[y];
        Settled(cfg, s, b, i);
        Settled(cfg, s, b, j);
        Closure(cfg, s, b, i, j);
        EntryFacts(cfg, s, b, i);
      }
    }
  }

  /**
   When nothing is left to do, every entry that names a node is ready, every queue of its connection is
   empty, and every connected component of the "knows" relation is a clique.
   */
  lemma {:induction false} SettledMeshIsClique(cfg: Config, events: seq<Event>, path: seq<nat>)
    requires cfg.Valid() && Quiescent(cfg, Run(cfg, events))
    requires |Run(cfg, events).nodes| == |cfg.addrs| && Path(cfg, Run(cfg, events), path)
    ensures var s := Run(cfg, events);
      && (forall n, i :: 0 <= n < |s.nodes| && 1 <= i < |s.nodes[n].hosts| && s.nodes[n].hosts[i].addr in cfg.addrs
            ==> s.nodes[n].hosts[i].ready)
      && (path[0] == path[|path| - 1]
          || (Knows(s.nodes[path[0]], cfg.addrs[path[|path| - 1]])
              && Knows(s.nodes[path[|path| - 1]], cfg.addrs[path[0]])))
  {
    var s := Run(cfg, events);
    RunInv(cfg, events);
    forall n, i | 0 <= n < |s.nodes| && 1 <= i < |s.nodes[n].hosts| && s.nodes[n].hosts[i].addr in cfg.addrs
      ensures s.nodes[n].hosts[i].ready
    {
      Settled(cfg, s, n, i);
    }
    PathClosed(cfg, s, path);
    var x, y := path[0], path[|path| - 1];
    if x != y {
      var i :| 1 <= i < |s.nodes[x].hosts| && s.nodes[x].hosts[i].addr == cfg.addrs[y];
      Mutual(cfg, s, x, i);
    }
  }
}
