/** Incoming connections, the tie-break between opposite dials, and the repeated dial keep the invariant. */
module MeshIncoming {
  import opened Common
  import opened MeshSpec
  import opened MeshNet
  import opened MeshInv
  import opened MeshCore

  /** The end still read by handle_incoming_connection has its first line. */
  ghost predicate Knocks(cfg: Config, s: State, c: nat) {
    && c < |s.conns|
    && var k := s.conns[c];
    k.acceptEnd.Waiting? && k.up.got < |k.up.sent| && k.acceptor < |s.nodes| && k.dialer < |cfg.ids|
  }

  // ---------- which branch is taken

  /** If the dialler gave its own dial up, the acceptor has dialled it. */
  lemma GivenUp(cfg: Config, s: State, c: nat) returns (i: nat)
    requires cfg.Valid() && Core(cfg, s) && Knocks(cfg, s, c) && s.conns[c].dialEnd.Gone?
    ensures var k := s.conns[c];
      && cfg.ids[k.dialer] < cfg.ids[k.acceptor]
      && 1 <= i < |s.nodes[k.acceptor].hosts|
      && s.nodes[k.acceptor].hosts[i].addr == cfg.addrs[k.dialer]
      && !s.nodes[k.acceptor].hosts[i].server
  {
    var k := s.conns[c];
    ConnFacts(cfg, s, c);
    EntryFacts(cfg, s, k.dialer, k.dialHost);
    var c' := s.nodes[k.dialer].hosts[k.dialHost].sock.value.conn;
    ConnFacts(cfg, s, c');
    i := s.conns[c'].dialHost;
    EntryFacts(cfg, s, k.acceptor, i);
  }

  /** An entry that accepted a connection never sees a second live dial from the same node. */
  lemma ServerSettled(cfg: Config, s: State, c: nat, i: nat)
    requires cfg.Valid() && Core(cfg, s) && Knocks(cfg, s, c)
    requires var hosts := s.nodes[s.conns[c].acceptor].hosts;
      1 <= i < |hosts| && hosts[i].addr == cfg.addrs[s.conns[c].dialer]
    ensures !s.nodes[s.conns[c].acceptor].hosts[i].server
  {
    var k := s.conns[c];
    var h := s.nodes[k.acceptor].hosts[i];
    EntryFacts(cfg, s, k.acceptor, i);
    ConnFacts(cfg, s, c);
    if h.server {
      var c0 := h.sock.value.conn;
      ConnFacts(cfg, s, c0);
      EntryFacts(cfg, s, k.dialer, k.dialHost);
      assert false;
    }
  }

  datatype Verdict = Accept | Replace | Refuse

  /** The branch handle_incoming_connection takes, and what it finds there. */
  lemma Decide(cfg: Config, s: State, c: nat) returns (v: Verdict, i: nat)
    requires cfg.Valid() && Core(cfg, s) && Knocks(cfg, s, c)
    ensures var k := s.conns[c];
      var me := s.nodes[k.acceptor];
      && i == Find(me.hosts, cfg.addrs[k.dialer]) && i >= 1
      && (v.Accept? <==> i == |me.hosts|)
      && (v.Accept? || v.Replace? ==> k.dialEnd.Open?)
      && (!v.Accept? ==>
            && !me.hosts[i].server && me.hosts[i].sock.Some? && me.hosts[i].sock.value.side.Dialer?
            && (v.Replace? <==> cfg.ids[k.dialer] > cfg.ids[k.acceptor])
            && (v.Refuse? <==> cfg.ids[k.dialer] < cfg.ids[k.acceptor]))
      && (v.Replace? ==> Yields(s, c, i))
  {
    var k := s.conns[c];
    var me := s.nodes[k.acceptor];
    ConnFacts(cfg, s, c);
    assert NodeOk(cfg, k.acceptor, me);
    i := Find(me.hosts, cfg.addrs[k.dialer]);
    assert i >= 1;
    if i == |me.hosts| {
      v := Accept;
      if k.dialEnd.Gone? { var j := GivenUp(cfg, s, c); assert false; }
    } else {
      ServerSettled(cfg, s, c, i);
      EntryFacts(cfg, s, k.acceptor, i);
      v := if cfg.ids[k.dialer] > cfg.ids[k.acceptor] then Replace else Refuse;
      if v.Replace? {
        if k.dialEnd.Gone? { var j := GivenUp(cfg, s, c); assert false; }
        var c2 := me.hosts[i].sock.value.conn;
        ConnFacts(cfg, s, c2);
        assert PairOk(cfg, s.conns[c2], s.conns[c]);
      }
    }
  }

  /** Entry i of the acceptor of c holds a dial that nobody has accepted. */
  ghost predicate Yields(s: State, c: nat, i: nat)
    requires c < |s.conns| && s.conns[c].acceptor < |s.nodes| && i < |s.nodes[s.conns[c].acceptor].hosts|
  {
    var h := s.nodes[s.conns[c].acceptor].hosts[i];
    && h.sock.Some? && h.sock.value.side.Dialer? && !h.ready
    && h.sock.value.conn < |s.conns| && h.sock.value.conn != c
    && !s.conns[h.sock.value.conn].acceptEnd.Attached?
  }

  // ---------- what acceptance does

  /** The accepted end of c now feeds hosts[i]; its welcome and CONNECTED are on the way. */
  function Accepted(cfg: Config, k: Conn, i: nat): Conn
    requires cfg.Valid() && k.acceptor < |cfg.ids| && k.dialer < |cfg.ids|
  {
    k.(acceptEnd := Attached(i), up := k.up.(got := k.up.got + 1),
       down := k.down.(sent := k.down.sent + Greeting(cfg, k)))
  }

  function Greeting(cfg: Config, k: Conn): seq<Line>
    requires cfg.Valid() && k.acceptor < |cfg.ids| && k.dialer < |cfg.ids|
  {
    [Id(cfg.ids[k.acceptor], cfg.addrs[k.acceptor].port), You(cfg.addrs[k.dialer].ip), Connected]
  }

  lemma AcceptEffects(cfg: Config, k: Conn, me: Node, conns: seq<Conn>, c: nat, i: nat)
    requires cfg.Valid() && k.acceptor < |cfg.ids| && k.dialer < |cfg.ids| && NodeOk(cfg, k.acceptor, me)
    requires c < |conns| && conns[c] == Handled(k, Acceptor) && k.acceptEnd.Waiting?
    ensures var a := Sock(c, Acceptor);
      DoAll(cfg, k.acceptor, conns, [Attach(a, i), Welcome(me, a, cfg.addrs[k.dialer].ip), Send(a, [Connected])])
      == conns[c := Accepted(cfg, k, i)]
  {
    var n := k.acceptor;
    var a := Sock(c, Acceptor);
    var e0, e1, e2 := Attach(a, i), Welcome(me, a, cfg.addrs[k.dialer].ip), Send(a, [Connected]);
    var conns1 := Do(cfg, n, conns, e0);
    var conns2 := Do(cfg, n, conns1, e1);
    Do1(cfg, n, conns2, e2);
    assert [e0, e1, e2][1..] == [e1, e2] && [e1, e2][1..] == [e2];
    assert DoAll(cfg, n, conns1, [e1, e2]) == DoAll(cfg, n, conns2, [e2]);
    assert k.down.sent + e1.lines + e2.lines == k.down.sent + Greeting(cfg, k);
  }

  lemma AcceptedSound(cfg: Config, k: Conn, i: nat)
    requires cfg.Valid() && Sound(cfg, k) && k.dialEnd.Open? && k.acceptEnd.Waiting? && k.up.got < |k.up.sent|
    ensures Sound(cfg, Accepted(cfg, k, i))
  {
  }

  // ---------- an unknown peer is accepted

  lemma AcceptState(cfg: Config, s: State, c: nat, published: seq<string>)
    requires cfg.Valid() && Core(cfg, s) && Enabled(cfg, s, Receives(Sock(c, Acceptor), published)) && Knocks(cfg, s, c)
    requires var hosts := s.nodes[s.conns[c].acceptor].hosts; Find(hosts, cfg.addrs[s.conns[c].dialer]) == |hosts|
    ensures Receive(cfg, s, Sock(c, Acceptor), published) == Registered(cfg, s, c)
  {
    var k := s.conns[c];
    ConnFacts(cfg, s, c);
    assert NodeOk(cfg, k.acceptor, s.nodes[k.acceptor]);
    AcceptEffects(cfg, k, s.nodes[k.acceptor], s.conns[c := Handled(k, Acceptor)], c, |s.nodes[k.acceptor].hosts|);
  }

  /** The state after node k.acceptor made a new server entry for connection c. */
  function Registered(cfg: Config, s: State, c: nat): State
    requires cfg.Valid() && |s.nodes| == |cfg.ids|
    requires c < |s.conns| && s.conns[c].acceptor < |cfg.ids| && s.conns[c].dialer < |cfg.ids|
  {
    var k := s.conns[c];
    var me := s.nodes[k.acceptor];
    Put(s, k.acceptor, Entered(me, Host(cfg.addrs[k.dialer], 0, false, true, Some(Sock(c, Acceptor)))),
        c, Accepted(cfg, k, |me.hosts|))
  }

  lemma AcceptCore(cfg: Config, s: State, c: nat)
    requires cfg.Valid() && Core(cfg, s) && Knocks(cfg, s, c) && s.conns[c].dialEnd.Open?
    requires var hosts := s.nodes[s.conns[c].acceptor].hosts; Find(hosts, cfg.addrs[s.conns[c].dialer]) == |hosts|
    ensures Core(cfg, Registered(cfg, s, c))
  {
    var s' := Registered(cfg, s, c);
    ConnFacts(cfg, s, c);
    AcceptedSound(cfg, s.conns[c], |s.nodes[s.conns[c].acceptor].hosts|);
    AcceptLinks(cfg, s, c);
    AcceptPairs(cfg, s, c);
    CoreFrom(cfg, s, s', {c});
  }

  lemma AcceptLinks(cfg: Config, s: State, c: nat)
    requires cfg.Valid() && Core(cfg, s) && Knocks(cfg, s, c) && s.conns[c].dialEnd.Open?
    requires var hosts := s.nodes[s.conns[c].acceptor].hosts; Find(hosts, cfg.addrs[s.conns[c].dialer]) == |hosts|
    ensures var s' := Registered(cfg, s, c);
      && Evolves(cfg, s, s', {c})
      && NodeOk(cfg, s.conns[c].acceptor, s'.nodes[s.conns[c].acceptor])
      && Linked(cfg, s'.nodes, c, s'.conns[c])
      && (forall m, i :: 0 <= m < |s'.nodes| && 1 <= i < |s'.nodes[m].hosts| && Moved(s, s', {c}, m, i)
            ==> EntryOk(cfg, s'.conns, m, i, s'.nodes[m].hosts[i]))
  {
    var k := s.conns[c];
    var s' := Registered(cfg, s, c);
    ConnFacts(cfg, s, c);
    assert NodeOk(cfg, k.acceptor, s.nodes[k.acceptor]);
    forall m | 0 <= m < |s.nodes| ensures NodeEvolves(cfg, m, s.nodes[m], s'.nodes[m], {c}) {}
    forall m, i | 0 <= m < |s'.nodes| && 1 <= i < |s'.nodes[m].hosts| && Moved(s, s', {c}, m, i)
      ensures EntryOk(cfg, s'.conns, m, i, s'.nodes[m].hosts[i])
    {
      AcceptEntry(cfg, s, c, m, i);
    }
  }

  lemma AcceptEntry(cfg: Config, s: State, c: nat, m: nat, i: nat)
    requires cfg.Valid() && Core(cfg, s) && Knocks(cfg, s, c)
    requires m < |s.nodes| && 1 <= i < |Registered(cfg, s, c).nodes[m].hosts|
    ensures EntryOk(cfg, Registered(cfg, s, c).conns, m, i, Registered(cfg, s, c).nodes[m].hosts[i])
  {
    ConnFacts(cfg, s, c);
    assert NodeOk(cfg, m, s.nodes[m]);
    if i < |s.nodes[m].hosts| { EntryFacts(cfg, s, m, i); }
  }

  lemma AcceptPairs(cfg: Config, s: State, c: nat)
    requires cfg.Valid() && Core(cfg, s) && Knocks(cfg, s, c)
    requires var hosts := s.nodes[s.conns[c].acceptor].hosts; Find(hosts, cfg.addrs[s.conns[c].dialer]) == |hosts|
    ensures var ks := Registered(cfg, s, c).conns;
      forall x, y {:trigger PairOk(cfg, ks[x], ks[y])} :: 0 <= x < |ks| && 0 <= y < |ks| ==> PairOk(cfg, ks[x], ks[y])
  {
    var s' := Registered(cfg, s, c);
    forall x | 0 <= x < |s.conns| ensures PairOk(cfg, s'.conns[c], s'.conns[x]) {
      ConnFacts(cfg, s, x);
      ConnFacts(cfg, s, c);
    }
    PairsAccept(cfg, s.conns, s'.conns, c);
  }

  // ---------- the peer's dial takes the place of our own

  function Replaced(cfg: Config, s: State, c: nat, i: nat): State
    requires cfg.Valid() && |s.nodes| == |cfg.ids|
    requires c < |s.conns| && s.conns[c].acceptor < |cfg.ids| && s.conns[c].dialer < |cfg.ids|
    requires i < |s.nodes[s.conns[c].acceptor].hosts| && Yields(s, c, i)
  {
    var k := s.conns[c];
    var me := s.nodes[k.acceptor];
    var h := me.hosts[i];
    var c2 := h.sock.value.conn;
    State(s.nodes[k.acceptor := SetHost(me, i, h.(server := true, sock := Some(Sock(c, Acceptor))))],
          s.conns[c2 := s.conns[c2].(dialEnd := Gone)][c := Accepted(cfg, k, i)])
  }

  lemma ReplaceState(cfg: Config, s: State, c: nat, i: nat, published: seq<string>)
    requires cfg.Valid() && Core(cfg, s) && Enabled(cfg, s, Receives(Sock(c, Acceptor), published)) && Knocks(cfg, s, c)
    requires cfg.ids[s.conns[c].dialer] > cfg.ids[s.conns[c].acceptor]
    requires var hosts := s.nodes[s.conns[c].acceptor].hosts; i == Find(hosts, cfg.addrs[s.conns[c].dialer]) < |hosts|
    requires Yields(s, c, i)
    ensures Receive(cfg, s, Sock(c, Acceptor), published) == Replaced(cfg, s, c, i)
  {
    var k := s.conns[c];
    var n := k.acceptor;
    var a := Sock(c, Acceptor);
    ConnFacts(cfg, s, c);
    assert NodeOk(cfg, n, s.nodes[n]);
    var me := s.nodes[n];
    var d2 := me.hosts[i].sock.value;
    var rest := [Attach(a, i), Welcome(me, a, cfg.addrs[k.dialer].ip), Send(a, [Connected])];
    assert Incoming(me, a, cfg.addrs[k.dialer].ip, cfg.ids[k.dialer], cfg.addrs[k.dialer].port).effects
           == [Close(d2)] + rest;
    var conns := s.conns[c := Handled(k, Acceptor)];
    var conns1 := Do(cfg, n, conns, Close(d2));
    Do1(cfg, n, conns, Close(d2));
    DoThen(cfg, n, conns, [Close(d2)], rest);
    AcceptEffects(cfg, k, me, conns1, c, i);
    assert conns1[c := Accepted(cfg, k, i)] == Replaced(cfg, s, c, i).conns;
  }

  lemma ReplaceCore(cfg: Config, s: State, c: nat, i: nat)
    requires cfg.Valid() && Core(cfg, s) && Knocks(cfg, s, c) && s.conns[c].dialEnd.Open?
    requires cfg.ids[s.conns[c].dialer] > cfg.ids[s.conns[c].acceptor]
    requires var hosts := s.nodes[s.conns[c].acceptor].hosts; 1 <= i == Find(hosts, cfg.addrs[s.conns[c].dialer]) < |hosts|
    requires Yields(s, c, i)
    ensures Core(cfg, Replaced(cfg, s, c, i))
  {
    var s' := Replaced(cfg, s, c, i);
    ReplaceLinks(cfg, s, c, i);
    ReplaceEntries(cfg, s, c, i);
    forall x | 0 <= x < |s.conns| ensures PairOk(cfg, s'.conns[c], s'.conns[x]) {}
    PairsAccept(cfg, s.conns, s'.conns, c);
    CoreFrom(cfg, s, s', {c, s.nodes[s.conns[c].acceptor].hosts[i].sock.value.conn});
  }

  lemma ReplaceLinks(cfg: Config, s: State, c: nat, i: nat)
    requires cfg.Valid() && Core(cfg, s) && Knocks(cfg, s, c) && s.conns[c].dialEnd.Open?
    requires cfg.ids[s.conns[c].dialer] > cfg.ids[s.conns[c].acceptor]
    requires var hosts := s.nodes[s.conns[c].acceptor].hosts; 1 <= i == Find(hosts, cfg.addrs[s.conns[c].dialer]) < |hosts|
    requires Yields(s, c, i)
    ensures var s' := Replaced(cfg, s, c, i);
      var c2 := s.nodes[s.conns[c].acceptor].hosts[i].sock.value.conn;
      && NodeOk(cfg, s.conns[c].acceptor, s'.nodes[s.conns[c].acceptor])
      && (forall x :: x == c || x == c2 ==> Sound(cfg, s'.conns[x]) && Linked(cfg, s'.nodes, x, s'.conns[x]))
  {
    var n := s.conns[c].acceptor;
    ConnFacts(cfg, s, c);
    ConnFacts(cfg, s, s.nodes[n].hosts[i].sock.value.conn);
    EntryFacts(cfg, s, n, i);
    AcceptedSound(cfg, s.conns[c], i);
  }

  lemma ReplaceEntries(cfg: Config, s: State, c: nat, i: nat)
    requires cfg.Valid() && Core(cfg, s) && Knocks(cfg, s, c)
    requires var hosts := s.nodes[s.conns[c].acceptor].hosts; 1 <= i == Find(hosts, cfg.addrs[s.conns[c].dialer]) < |hosts|
    requires Yields(s, c, i)
    ensures var s' := Replaced(cfg, s, c, i);
      var c2 := s.nodes[s.conns[c].acceptor].hosts[i].sock.value.conn;
      && Evolves(cfg, s, s', {c, c2})
      && (forall m, j :: 0 <= m < |s'.nodes| && 1 <= j < |s'.nodes[m].hosts| && Moved(s, s', {c, c2}, m, j)
            ==> EntryOk(cfg, s'.conns, m, j, s'.nodes[m].hosts[j]))
  {
    var s' := Replaced(cfg, s, c, i);
    var c2 := s.nodes[s.conns[c].acceptor].hosts[i].sock.value.conn;
    forall m | 0 <= m < |s.nodes| ensures NodeEvolves(cfg, m, s.nodes[m], s'.nodes[m], {c, c2}) {}
    forall m, j | 0 <= m < |s'.nodes| && 1 <= j < |s'.nodes[m].hosts| && Moved(s, s', {c, c2}, m, j)
      ensures EntryOk(cfg, s'.conns, m, j, s'.nodes[m].hosts[j])
    {
      ReplaceEntry(cfg, s, c, i, m, j);
    }
  }

  lemma ReplaceEntry(cfg: Config, s: State, c: nat, i: nat, m: nat, j: nat)
    requires cfg.Valid() && Core(cfg, s) && Knocks(cfg, s, c)
    requires var hosts := s.nodes[s.conns[c].acceptor].hosts; 1 <= i == Find(hosts, cfg.addrs[s.conns[c].dialer]) < |hosts|
    requires Yields(s, c, i) && m < |s.nodes| && 1 <= j < |s.nodes[m].hosts|
    ensures var s' := Replaced(cfg, s, c, i); EntryOk(cfg, s'.conns, m, j, s'.nodes[m].hosts[j])
  {
    var n := s.conns[c].acceptor;
    ConnFacts(cfg, s, c);
    EntryFacts(cfg, s, n, i);
    EntryFacts(cfg, s, m, j);
    if m == n && j != i { SocksDiffer'(cfg, s, n, i, j); }
  }

  lemma SocksDiffer'(cfg: Config, s: State, n: nat, i: nat, j: nat)
    requires cfg.Valid() && Core(cfg, s) && n < |s.nodes|
    requires 1 <= i < |s.nodes[n].hosts| && 1 <= j < |s.nodes[n].hosts| && i != j
    ensures s.nodes[n].hosts[i].sock != s.nodes[n].hosts[j].sock
  {
    if s.nodes[n].hosts[i].sock == s.nodes[n].hosts[j].sock { SocksDiffer(cfg, s, n, i, j); }
  }

  // ---------- the peer's dial is refused

  function Refused'(s: State, c: nat): State
    requires c < |s.conns|
  {
    s.(conns := s.conns[c := Handled(s.conns[c], Acceptor).(acceptEnd := Refused)])
  }

  lemma RefuseCore(cfg: Config, s: State, c: nat)
    requires cfg.Valid() && Core(cfg, s) && Knocks(cfg, s, c)
    requires cfg.ids[s.conns[c].dialer] < cfg.ids[s.conns[c].acceptor]
    requires Knows(s.nodes[s.conns[c].acceptor], cfg.addrs[s.conns[c].dialer])
    ensures Core(cfg, Refused'(s, c))
  {
    var s' := Refused'(s, c);
    ConnFacts(cfg, s, c);
    forall m | 0 <= m < |s.nodes| ensures NodeEvolves(cfg, m, s.nodes[m], s'.nodes[m], {c}) {}
    forall m, i | 0 <= m < |s'.nodes| && 1 <= i < |s'.nodes[m].hosts| && Moved(s, s', {c}, m, i)
      ensures EntryOk(cfg, s'.conns, m, i, s'.nodes[m].hosts[i])
    {
      assert EntryOk(cfg, s.conns, m, i, s.nodes[m].hosts[i]);
    }
    forall x | 0 <= x < |s.conns| ensures SameEnds(s.conns[x], s'.conns[x]) {}
    PairsKept(cfg, s.conns, s'.conns);
    CoreFrom(cfg, s, s', {c});
  }

  lemma RefuseState(cfg: Config, s: State, c: nat, i: nat, published: seq<string>)
    requires cfg.Valid() && Core(cfg, s) && Enabled(cfg, s, Receives(Sock(c, Acceptor), published)) && Knocks(cfg, s, c)
    requires cfg.ids[s.conns[c].dialer] < cfg.ids[s.conns[c].acceptor]
    requires var hosts := s.nodes[s.conns[c].acceptor].hosts; i == Find(hosts, cfg.addrs[s.conns[c].dialer]) < |hosts|
    requires !s.nodes[s.conns[c].acceptor].hosts[i].server
    ensures Receive(cfg, s, Sock(c, Acceptor), published) == Refused'(s, c)
  {
    var k := s.conns[c];
    ConnFacts(cfg, s, c);
    assert NodeOk(cfg, k.acceptor, s.nodes[k.acceptor]);
    Do1(cfg, k.acceptor, s.conns[c := Handled(k, Acceptor)], Close(Sock(c, Acceptor)));
  }

  // ---------- a refused dial is repeated

  function Redialled(cfg: Config, s: State, c: nat): State
    requires Enabled(cfg, s, Closes(c))
  {
    var k := s.conns[c];
    var me := s.nodes[k.dialer];
    var h := me.hosts[k.dialHost];
    State(s.nodes[k.dialer := SetHost(me, k.dialHost, h.(ready := false, sock := Some(Sock(|s.conns|, Dialer))))],
          s.conns[c := k.(dialEnd := Gone)] + [NewConn(cfg, k.dialer, h.addr, k.dialHost)])
  }

  lemma RedialCore(cfg: Config, s: State, c: nat)
    requires cfg.Valid() && Core(cfg, s) && Enabled(cfg, s, Closes(c))
    ensures Reopen(cfg, s, c) == Redialled(cfg, s, c)
    ensures Core(cfg, Reopen(cfg, s, c))
  {
    var k := s.conns[c];
    var e := Dial(s.nodes[k.dialer].hosts[k.dialHost].addr, k.dialHost);
    var conns := s.conns[c := k.(dialEnd := Gone)];
    assert [Withdraw(k.dialHost), e][1..] == [e];
    Do1(cfg, k.dialer, conns, e);
    assert DoAll(cfg, k.dialer, conns, [Withdraw(k.dialHost), e]) == DoAll(cfg, k.dialer, conns, [e]);
    RedialledCore(cfg, s, c);
  }

  lemma RedialledCore(cfg: Config, s: State, c: nat)
    requires cfg.Valid() && Core(cfg, s) && Enabled(cfg, s, Closes(c))
    ensures Core(cfg, Redialled(cfg, s, c))
  {
    RedialLinks(cfg, s, c);
    RedialPairs(cfg, s, c);
    CoreFrom(cfg, s, Redialled(cfg, s, c), {c});
  }

  lemma RedialPairs(cfg: Config, s: State, c: nat)
    requires cfg.Valid() && Core(cfg, s) && Enabled(cfg, s, Closes(c))
    ensures var s' := Redialled(cfg, s, c);
      && Evolves(cfg, s, s', {c}) && NodeOk(cfg, s.conns[c].dialer, s'.nodes[s.conns[c].dialer])
      && (forall x, y {:trigger PairOk(cfg, s'.conns[x], s'.conns[y])} ::
            0 <= x < |s'.conns| && 0 <= y < |s'.conns| ==> PairOk(cfg, s'.conns[x], s'.conns[y]))
  {
    var s' := Redialled(cfg, s, c);
    var k := s.conns[c];
    ConnFacts(cfg, s, c);
    EntryFacts(cfg, s, k.dialer, k.dialHost);
    forall m | 0 <= m < |s.nodes| ensures NodeEvolves(cfg, m, s.nodes[m], s'.nodes[m], {c}) {}
    forall x | 0 <= x < |s.conns| ensures SameEnds(s.conns[x], s'.conns[x]) {}
    PairsDial(cfg, s, s'.conns, k.dialer, NewConn(cfg, k.dialer, k.target, k.dialHost));
  }

  lemma RedialLinks(cfg: Config, s: State, c: nat)
    requires cfg.Valid() && Core(cfg, s) && Enabled(cfg, s, Closes(c))
    ensures var s' := Redialled(cfg, s, c);
      && (forall x :: x == c || x == |s.conns| ==> Sound(cfg, s'.conns[x]) && Linked(cfg, s'.nodes, x, s'.conns[x]))
      && (forall m, i :: 0 <= m < |s'.nodes| && 1 <= i < |s'.nodes[m].hosts| && Moved(s, s', {c}, m, i)
            ==> EntryOk(cfg, s'.conns, m, i, s'.nodes[m].hosts[i]))
  {
    var s' := Redialled(cfg, s, c);
    ConnFacts(cfg, s, c);
    EntryFacts(cfg, s, s.conns[c].dialer, s.conns[c].dialHost);
    forall m, i | 0 <= m < |s'.nodes| && 1 <= i < |s'.nodes[m].hosts| && Moved(s, s', {c}, m, i)
      ensures EntryOk(cfg, s'.conns, m, i, s'.nodes[m].hosts[i])
    {
      RedialEntry(cfg, s, c, m, i);
    }
  }

  lemma RedialEntry(cfg: Config, s: State, c: nat, m: nat, i: nat)
    requires cfg.Valid() && Core(cfg, s) && Enabled(cfg, s, Closes(c))
    requires m < |s.nodes| && 1 <= i < |Redialled(cfg, s, c).nodes[m].hosts|
    ensures EntryOk(cfg, Redialled(cfg, s, c).conns, m, i, Redialled(cfg, s, c).nodes[m].hosts[i])
  {
    ConnFacts(cfg, s, c);
    EntryFacts(cfg, s, s.conns[c].dialer, s.conns[c].dialHost);
    EntryFacts(cfg, s, m, i);
  }
}
