/**
 From every state a run can reach, the mesh can come to rest by opening connections and handling lines
 alone: each such event lowers a weight, and where none is left no refused dial is left to repeat either.
 */
module MeshRest {
  import opened Common
  import opened MeshSpec
  import opened MeshNet
  import opened MeshInv
  import opened MeshCore
  import opened MeshIncoming
  import opened MeshGossip
  import T = MeshTheorems

  // ---------- the weight

  function Capped(got: nat): nat {
    if got < 3 then got else 3
  }

  /** How much of its handshake a connection has before it. */
  function HandshakeLeft(k: Conn): nat {
    (if k.up.sent == [] then 1 else 0) + (3 - Capped(k.up.got)) + (3 - Capped(k.down.got))
  }

  function FlowLeft(f: Flow): nat {
    if f.got <= |f.sent| then |f.sent| - f.got else 0
  }

  function LinesLeft(k: Conn): nat {
    FlowLeft(k.up) + FlowLeft(k.down)
  }

  function Sum(conns: seq<Conn>, weight: Conn -> nat): nat {
    if conns == [] then 0 else weight(conns[0]) + Sum(conns[1..], weight)
  }

  /** How many nodes, from node m on, have an address that is not in this table. */
  ghost function Strangers(cfg: Config, me: Node, m: nat): nat
    decreases |cfg.addrs| - m
  {
    if m >= |cfg.addrs| then 0 else (if Knows(me, cfg.addrs[m]) then 0 else 1) + Strangers(cfg, me, m + 1)
  }

  ghost function AllStrangers(cfg: Config, nodes: seq<Node>): nat {
    if nodes == [] then 0 else Strangers(cfg, nodes[0], 0) + AllStrangers(cfg, nodes[1..])
  }

  lemma {:induction false} SumLess(a: seq<Conn>, b: seq<Conn>, weight: Conn -> nat, c: nat)
    requires |a| == |b| && forall x :: 0 <= x < |a| ==> weight(b[x]) <= weight(a[x])
    ensures Sum(b, weight) <= Sum(a, weight)
    ensures c < |a| && weight(b[c]) < weight(a[c]) ==> Sum(b, weight) < Sum(a, weight)
    decreases |a|
  {
    if a != [] {
      forall x | 0 <= x < |a| - 1 ensures weight(b[1..][x]) <= weight(a[1..][x]) {
        assert b[1..][x] == b[x + 1] && a[1..][x] == a[x + 1];
      }
      SumLess(a[1..], b[1..], weight, if c > 0 then c - 1 else |a|);
    }
  }

  lemma {:induction false} StrangersLess(cfg: Config, me: Node, me': Node, m: nat, x: nat)
    requires Grows(me, me')
    ensures Strangers(cfg, me', m) <= Strangers(cfg, me, m)
    ensures m <= x < |cfg.addrs| && !Knows(me, cfg.addrs[x]) && Knows(me', cfg.addrs[x]) ==>
      Strangers(cfg, me', m) < Strangers(cfg, me, m)
    decreases |cfg.addrs| - m
  {
    if m < |cfg.addrs| {
      StrangersLess(cfg, me, me', m + 1, x);
      if Knows(me, cfg.addrs[m]) { KnowsKept(me, me', cfg.addrs[m]); }
    }
  }

  lemma {:induction false} AllStrangersLess(cfg: Config, nodes: seq<Node>, nodes': seq<Node>, n: nat, x: nat)
    requires |nodes| == |nodes'| && forall k :: 0 <= k < |nodes| ==> Grows(nodes[k], nodes'[k])
    ensures AllStrangers(cfg, nodes') <= AllStrangers(cfg, nodes)
    ensures n < |nodes| && x < |cfg.addrs| && !Knows(nodes[n], cfg.addrs[x]) && Knows(nodes'[n], cfg.addrs[x]) ==>
      AllStrangers(cfg, nodes') < AllStrangers(cfg, nodes)
    decreases |nodes|
  {
    if nodes != [] {
      StrangersLess(cfg, nodes[0], nodes'[0], 0, x);
      forall k | 0 <= k < |nodes| - 1 ensures Grows(nodes[1..][k], nodes'[1..][k]) {
        assert nodes[1..][k] == nodes[k + 1] && nodes'[1..][k] == nodes'[k + 1];
      }
      AllStrangersLess(cfg, nodes[1..], nodes'[1..], if n > 0 then n - 1 else |nodes|, x);
    }
  }

  // ---------- what the events do to it

  /** Less to get to know, or no more of that and less handshake, or no more of either and fewer lines. */
  ghost predicate Lighter(cfg: Config, s: State, s': State) {
    var a, b, c := AllStrangers(cfg, s.nodes), Sum(s.conns, HandshakeLeft), Sum(s.conns, LinesLeft);
    var a', b', c' := AllStrangers(cfg, s'.nodes), Sum(s'.conns, HandshakeLeft), Sum(s'.conns, LinesLeft);
    a' < a || (a' == a && (b' < b || (b' == b && c' < c)))
  }

  /** Without a new connection, progress never adds to what there is to know or to shake hands on. */
  lemma NoHeavier(cfg: Config, s: State, s': State, c: nat)
    requires |s.nodes| == |cfg.addrs| && Progress(cfg, s, s') && |s'.conns| == |s.conns|
    ensures AllStrangers(cfg, s'.nodes) <= AllStrangers(cfg, s.nodes)
    ensures Sum(s'.conns, HandshakeLeft) <= Sum(s.conns, HandshakeLeft)
    ensures c < |s.conns| && HandshakeLeft(s'.conns[c]) < HandshakeLeft(s.conns[c]) ==> Lighter(cfg, s, s')
  {
    forall n | 0 <= n < |s.nodes| ensures Grows(s.nodes[n], s'.nodes[n]) {}
    AllStrangersLess(cfg, s.nodes, s'.nodes, 0, |cfg.addrs|);
    forall x | 0 <= x < |s.conns| ensures HandshakeLeft(s'.conns[x]) <= HandshakeLeft(s.conns[x]) {
      assert ConnGrows(cfg, s'.nodes, s.conns[x], s'.conns[x]);
    }
    SumLess(s.conns, s'.conns, HandshakeLeft, c);
  }

  predicate NoDial(effects: seq<Effect>) {
    forall e :: e in effects ==> !e.Dial?
  }

  /** Handlers do not touch what has been got; only a dial makes a connection. */
  lemma {:induction false} DoAllGots(cfg: Config, n: nat, conns: seq<Conn>, effects: seq<Effect>)
    ensures var r := DoAll(cfg, n, conns, effects);
      && |r| >= |conns|
      && (forall x :: 0 <= x < |conns| ==> r[x].up.got == conns[x].up.got && r[x].down.got == conns[x].down.got)
      && (NoDial(effects) ==> |r| == |conns|)
    decreases |effects|
  {
    if effects != [] {
      DoAllGots(cfg, n, Do(cfg, n, conns, effects[0]), effects[1..]);
      assert effects[0] in effects && forall e :: e in effects[1..] ==> e in effects;
    }
  }

  lemma {:induction false} BroadcastNoDial(hosts: seq<Host>, i: nat, lines: seq<Line>)
    ensures NoDial(BroadcastFrom(hosts, i, lines))
    decreases |hosts| - i
  {
    if i < |hosts| { BroadcastNoDial(hosts, i + 1, lines); }
  }

  lemma {:induction false} BroadcastAllNoDial(hosts: seq<Host>, texts: seq<string>)
    ensures NoDial(BroadcastAll(hosts, texts))
    decreases |texts|
  {
    if texts != [] {
      BroadcastNoDial(hosts, 1, [Signal(texts[0])]);
      BroadcastAllNoDial(hosts, texts[1..]);
    }
  }

  lemma ReceiveNoDial(me: Node, i: nat, line: Line, next: nat, published: seq<string>)
    requires i < |me.hosts| && !line.HostAt?
    ensures NoDial(OnReceive(me, i, line, next, published).effects)
  {
    if line.Connected? {
      var hosts := me.hosts[i := me.hosts[i].(ready := true)];
      BroadcastAllNoDial(hosts, published);
      BroadcastNoDial(hosts, 1, HostLines(hosts, 0));
    }
  }

  /** A line of the handshake is got, and no connection is made. */
  lemma HandshakeGot(cfg: Config, s: State, sock: Sock, published: seq<string>)
    requires cfg.Valid() && Core(cfg, s) && Enabled(cfg, s, Receives(sock, published))
    requires Inflow(s.conns[sock.conn], sock.side).got < 3
    ensures var s' := Receive(cfg, s, sock, published);
      && |s'.conns| == |s.conns|
      && HandshakeLeft(s'.conns[sock.conn]) < HandshakeLeft(s.conns[sock.conn])
  {
    var k := s.conns[sock.conn];
    var n := Local(k, sock.side);
    var line := Inflow(k, sock.side).sent[Inflow(k, sock.side).got];
    ConnFacts(cfg, s, sock.conn);
    HandshakeLine(cfg, k, sock.side);
    if sock.side.Acceptor? && k.acceptEnd.Waiting? {
      EffectsGot(cfg, s, sock, n, Incoming(s.nodes[n], sock, cfg.addrs[k.dialer].ip, line.id, line.port).effects);
    } else {
      ReceiveNoDial(s.nodes[n], HostOf(k, sock.side), line, |s.conns|, published);
      EffectsGot(cfg, s, sock, n, OnReceive(s.nodes[n], HostOf(k, sock.side), line, |s.conns|, published).effects);
    }
  }

  /** The first three lines are no gossip, and the very first is ID=. */
  lemma HandshakeLine(cfg: Config, k: Conn, side: Side)
    requires cfg.Valid() && Sound(cfg, k) && Inflow(k, side).got < |Inflow(k, side).sent| && Inflow(k, side).got < 3
    ensures var line := Inflow(k, side).sent[Inflow(k, side).got];
      !line.HostAt? && (side.Acceptor? && k.acceptEnd.Waiting? ==> line.Id?)
  {
  }

  lemma EffectsGot(cfg: Config, s: State, sock: Sock, n: nat, effects: seq<Effect>)
    requires sock.conn < |s.conns| && NoDial(effects) && Inflow(s.conns[sock.conn], sock.side).got < 3
    ensures var r := DoAll(cfg, n, s.conns[sock.conn := Handled(s.conns[sock.conn], sock.side)], effects);
      |r| == |s.conns| && HandshakeLeft(r[sock.conn]) < HandshakeLeft(s.conns[sock.conn])
  {
    var conns := s.conns[sock.conn := Handled(s.conns[sock.conn], sock.side)];
    DoAllGots(cfg, n, conns, effects);
    SentKept(cfg, n, conns, effects, sock.conn);
  }

  /** What was sent stays sent. */
  lemma {:induction false} SentKept(cfg: Config, n: nat, conns: seq<Conn>, effects: seq<Effect>, c: nat)
    requires c < |conns|
    ensures c < |DoAll(cfg, n, conns, effects)| && conns[c].up.sent <= DoAll(cfg, n, conns, effects)[c].up.sent
    decreases |effects|
  {
    if effects != [] { SentKept(cfg, n, Do(cfg, n, conns, effects[0]), effects[1..], c); }
  }

  lemma OpenLowers(cfg: Config, s: State, c: nat)
    requires cfg.Valid() && Inv(cfg, s) && Enabled(cfg, s, Opens(c))
    ensures Lighter(cfg, s, Open'(cfg, s, c))
  {
    var k := s.conns[c];
    var w := Welcome(s.nodes[k.dialer], Sock(c, Dialer), k.target.ip);
    StepInv(cfg, s, Opens(c));
    Do1(cfg, k.dialer, s.conns[c := k.(dialEnd := Open)], w);
    ConnFacts(cfg, s, c);
    NoHeavier(cfg, s, Open'(cfg, s, c), c);
  }

  /** A gossip or signalling line that brings nothing new is just taken from its queue. */
  lemma TakenLowers(cfg: Config, s: State, sock: Sock)
    requires cfg.Valid() && Core(cfg, s) && Attends(s, sock) && Progress(cfg, s, Taken(s, sock))
    ensures Lighter(cfg, s, Taken(s, sock))
  {
    var s' := Taken(s, sock);
    NoHeavier(cfg, s, s', sock.conn);
    SumLess(s.conns, s'.conns, LinesLeft, sock.conn);
  }

  /** A Host= line with a new address makes its reader know one node more. */
  lemma NewHostLowers(cfg: Config, s: State, sock: Sock, s': State)
    requires cfg.Valid() && Core(cfg, s) && Attends(s, sock) && Progress(cfg, s, s')
    requires Inflow(s.conns[sock.conn], sock.side).got >= 3 && NextLine(s, sock).HostAt?
    requires var n, addr := Local(s.conns[sock.conn], sock.side), NextLine(s, sock).addr;
      !HasHost(s.nodes[n].hosts, addr) && Knows(s'.nodes[n], addr)
    ensures Lighter(cfg, s, s')
  {
    var n, addr := Local(s.conns[sock.conn], sock.side), NextLine(s, sock).addr;
    HostNamed(cfg, s, sock);
    var x :| 0 <= x < |cfg.addrs| && cfg.addrs[x] == addr;
    forall k | 0 <= k < |s.nodes| ensures Grows(s.nodes[k], s'.nodes[k]) {}
    assert !Knows(s.nodes[n], addr);
    AllStrangersLess(cfg, s.nodes, s'.nodes, n, x);
  }

  lemma PayloadLowers(cfg: Config, s: State, sock: Sock, published: seq<string>)
    requires cfg.Valid() && Inv(cfg, s) && Attends(s, sock) && Enabled(cfg, s, Receives(sock, published))
    requires Inflow(s.conns[sock.conn], sock.side).got >= 3
    ensures Lighter(cfg, s, Receive(cfg, s, sock, published))
  {
    var s' := Receive(cfg, s, sock, published);
    var n := Local(s.conns[sock.conn], sock.side);
    StepInv(cfg, s, Receives(sock, published));
    LineFacts(cfg, s, sock);
    var line := NextLine(s, sock);
    if line.Signal? {
      assert s' == Taken(s, sock);
      TakenLowers(cfg, s, sock);
    } else {
      HostState(cfg, s, sock, published);
      var o := AddHost(s.nodes[n], line.addr, |s.conns|);
      if HasHost(s.nodes[n].hosts, line.addr) {
        assert Apply(cfg, Taken(s, sock), n, Outcome(s.nodes[n], [])) == Taken(s, sock);
        TakenLowers(cfg, s, sock);
      } else {
        assert s'.nodes[n].hosts[|s.nodes[n].hosts|].addr == line.addr;
        NewHostLowers(cfg, s, sock, s');
      }
    }
  }

  /** Opening a connection and handling a line, whichever comes next, lowers the weight. */
  lemma SocketLowers(cfg: Config, s: State, e: Event)
    requires cfg.Valid() && Inv(cfg, s) && Enabled(cfg, s, e) && (e.Opens? || e.Receives?)
    ensures Lighter(cfg, s, Step(cfg, s, e))
  {
    if e.Opens? {
      OpenLowers(cfg, s, e.conn);
    } else if Inflow(s.conns[e.sock.conn], e.sock.side).got < 3 {
      StepInv(cfg, s, e);
      HandshakeGot(cfg, s, e.sock, e.published);
      NoHeavier(cfg, s, Step(cfg, s, e), e.sock.conn);
    } else {
      ConnFacts(cfg, s, e.sock.conn);
      assert Attends(s, e.sock);
      PayloadLowers(cfg, s, e.sock, e.published);
    }
  }

  // ---------- no refused dial is left over

  /** Entry j of the node that refused c, for the node it refused, holds a dial of its own. */
  lemma RivalDials(cfg: Config, s: State, c: nat, j: nat)
    requires cfg.Valid() && Core(cfg, s) && Enabled(cfg, s, Closes(c)) && s.conns[c].acceptor < |s.nodes|
    requires var hosts := s.nodes[s.conns[c].acceptor].hosts;
      1 <= j < |hosts| && hosts[j].addr == cfg.addrs[s.conns[c].dialer]
    ensures var h := s.nodes[s.conns[c].acceptor].hosts[j];
      h.sock.Some? && h.sock.value.side.Dialer? && h.sock.value.conn < |s.conns|
  {
    var k := s.conns[c];
    EntryFacts(cfg, s, k.acceptor, j);
    ConnFacts(cfg, s, c);
    EntryFacts(cfg, s, k.dialer, k.dialHost);
    ConnFacts(cfg, s, s.nodes[k.acceptor].hosts[j].sock.value.conn);
  }

  /** While the refused node still holds its dial c, it has not accepted a dial of the node that refused. */
  lemma RivalPending(cfg: Config, s: State, c: nat, r: nat)
    requires cfg.Valid() && Core(cfg, s) && Enabled(cfg, s, Closes(c)) && r < |s.conns|
    requires s.conns[r].dialer == s.conns[c].acceptor && s.conns[r].acceptor == s.conns[c].dialer
    ensures s.conns[r].acceptEnd.Waiting?
  {
    var k := s.conns[c];
    ConnFacts(cfg, s, c);
    ConnFacts(cfg, s, r);
    EntryFacts(cfg, s, k.dialer, k.dialHost);
    if s.conns[r].acceptEnd.Attached? { EntryFacts(cfg, s, k.dialer, s.conns[r].acceptEnd.host); }
  }

  /** The node that refused c has dialled the refused one, and that dial is still to be opened or handled. */
  lemma RefusedHasRival(cfg: Config, s: State, c: nat) returns (e: Event)
    requires cfg.Valid() && Inv(cfg, s) && Enabled(cfg, s, Closes(c))
    ensures (e.Opens? || e.Receives?) && Enabled(cfg, s, e)
  {
    var k := s.conns[c];
    ConnFacts(cfg, s, c);
    var j :| 1 <= j < |s.nodes[k.acceptor].hosts| && s.nodes[k.acceptor].hosts[j].addr == cfg.addrs[k.dialer];
    RivalDials(cfg, s, c, j);
    EntryFacts(cfg, s, k.acceptor, j);
    var r := s.nodes[k.acceptor].hosts[j].sock.value.conn;
    ConnFacts(cfg, s, r);
    RivalPending(cfg, s, c, r);
    e := if s.conns[r].dialEnd.Unopened? then Opens(r) else Receives(Sock(r, Acceptor), []);
  }

  /** The events of sockets that repeat no dial. */
  predicate OnlySockets(events: seq<Event>) {
    forall e :: e in events ==> e.Opens? || e.Receives?
  }

  /** A run from any state, first event first. */
  function Continue(cfg: Config, s: State, events: seq<Event>): State
    decreases |events|
  {
    if events == [] then s else Continue(cfg, Step(cfg, s, events[0]), events[1..])
  }

  lemma {:induction false} RunContinues(cfg: Config, events: seq<Event>, more: seq<Event>)
    requires cfg.Valid()
    ensures Run(cfg, events + more) == Continue(cfg, Run(cfg, events), more)
    decreases |more|
  {
    if more == [] {
      assert events + more == events;
    } else {
      var e := more[0];
      assert (events + [e])[..|events|] == events;
      assert events + more == events + [e] + more[1..];
      RunContinues(cfg, events + [e], more[1..]);
    }
  }

  lemma {:induction false} Settle(cfg: Config, s: State) returns (more: seq<Event>)
    requires cfg.Valid() && Inv(cfg, s)
    ensures OnlySockets(more) && T.Quiescent(cfg, Continue(cfg, s, more))
    decreases AllStrangers(cfg, s.nodes), Sum(s.conns, HandshakeLeft), Sum(s.conns, LinesLeft)
  {
    if T.Quiescent(cfg, s) {
      more := [];
    } else {
      var e := NextEvent(cfg, s);
      var rest := Settle(cfg, Step(cfg, s, e));
      more := [e] + rest;
      assert more[1..] == rest;
    }
  }

  lemma NextEvent(cfg: Config, s: State) returns (e: Event)
    requires cfg.Valid() && Inv(cfg, s) && !T.Quiescent(cfg, s)
    ensures (e.Opens? || e.Receives?) && Inv(cfg, Step(cfg, s, e)) && Lighter(cfg, s, Step(cfg, s, e))
  {
    e :| (e.Opens? || e.Receives? || e.Closes?) && Enabled(cfg, s, e);
    if e.Closes? { e := RefusedHasRival(cfg, s, e.conn); }
    SocketLowers(cfg, s, e);
    StepInv(cfg, s, e);
  }

  /**
   Every run can be continued, by nothing but connections opening and lines being handled, to a state in
   which nothing is left to do; what the run had built is still there.
   */
  lemma {:induction false} EveryRunCanSettle(cfg: Config, events: seq<Event>)
    requires cfg.Valid()
    ensures exists more :: OnlySockets(more) && T.Quiescent(cfg, Run(cfg, events + more))
                           && T.Lasts(Run(cfg, events), Run(cfg, events + more))
  {
    RunInv(cfg, events);
    var more := Settle(cfg, Run(cfg, events));
    RunContinues(cfg, events, more);
    T.NothingUndone(cfg, events, more);
  }
}
