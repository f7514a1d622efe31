/**
 The loss of a connection as the mesh and the channel registry see it together: on_close has the channels
 of that host withdrawn before it dials again, and nothing else a mesh does withdraws a channel.
 */
module HostLoss {
  import opened Common
  import M = MeshSpec
  import N = MeshNet
  import H = MeshHandlers
  import D = DirectorySpec

  /** What the effects of a mesh handler mean for the registry of its node; hosts are named by their entry. */
  function Perform(d: D.Dir, effects: seq<M.Effect>, left: map<string, nat>): D.Dir
    decreases |effects|
  {
    if effects == [] then d
    else Perform(if effects[0].Withdraw? then D.OnLoss(d, effects[0].host, left) else d, effects[1..], left)
  }

  /** After the loss of host i no channel has it for its publisher, and every other channel is as it was. */
  lemma LostHostWithdrawn(me: M.Node, i: nat, next: nat, d: D.Dir, left: map<string, nat>)
    requires i < |me.hosts|
    ensures var d' := Perform(d, M.OnClose(me, i, next).effects, left);
      && i !in d'.ready && (forall h :: h != i ==> (h in d'.ready <==> h in d.ready))
      && d'.me == d.me && d'.locals == d.locals && |d'.channels| == |d.channels|
      && forall k :: 0 <= k < |d.channels| ==>
           var c, c' := d.channels[k], d'.channels[k];
           if c.publisher == Some(i) then
             c'.publisher == None && c'.offered == 0 && c'.subs <= c.subs && c'.name == c.name && c'.server == c.server
           else c' == c
  {
    var dial := M.Dial(me.hosts[i].addr, i);
    assert M.OnClose(me, i, next).effects[1..] == [dial] && [dial][1..] == [];
    var lost := D.OnLoss(d, i, left);
    assert Perform(lost, [dial], left) == Perform(lost, [], left);
  }

  /** Before the dial that follows, the registry is already rid of the host. */
  lemma WithdrawnBeforeDialled(me: M.Node, i: nat, next: nat, d: D.Dir, left: map<string, nat>, k: nat)
    requires i < |me.hosts| && k < |M.OnClose(me, i, next).effects| && M.OnClose(me, i, next).effects[k].Dial?
    ensures forall c :: c in Perform(d, M.OnClose(me, i, next).effects[..k], left).channels ==> c.publisher != Some(i)
  {
    var es := M.OnClose(me, i, next).effects;
    assert es[..k] == [es[0]] && es[..k][1..] == [];
    var lost := D.OnLoss(d, i, left);
    assert Perform(d, es[..k], left) == Perform(lost, [], left) == lost;
    forall c | c in lost.channels ensures c.publisher != Some(i) {
      var x :| 0 <= x < |lost.channels| && lost.channels[x] == c;
    }
  }

  // ---------- every event of every run

  /** The node an enabled event runs a handler at, and what the handler does. */
  function HandlerOf(cfg: N.Config, s: N.State, e: N.Event): (nat, M.Outcome)
    requires N.Enabled(cfg, s, e)
  {
    match e
    case UserAdds(n, addr) => (n, M.AddHost(s.nodes[n], addr, |s.conns|))
    case Opens(c) =>
      var k := s.conns[c];
      (k.dialer, M.Outcome(s.nodes[k.dialer], [M.Welcome(s.nodes[k.dialer], M.Sock(c, M.Dialer), k.target.ip)]))
    case Receives(sock, published) =>
      var k := s.conns[sock.conn];
      var n, flow := N.Local(k, sock.side), N.Inflow(k, sock.side);
      var line := flow.sent[flow.got];
      (n, if sock.side.Acceptor? && k.acceptEnd.Waiting? then
            if line.Id? then M.Incoming(s.nodes[n], sock, cfg.addrs[k.dialer].ip, line.id, line.port)
            else M.Outcome(s.nodes[n], [])
          else M.OnReceive(s.nodes[n], N.HostOf(k, sock.side), line, |s.conns|, published))
    case Closes(c) => (s.conns[c].dialer, M.OnClose(s.nodes[s.conns[c].dialer], s.conns[c].dialHost, |s.conns|))
    case Broadcasts(n, text) => (n, M.Outcome(s.nodes[n], M.Broadcast(s.nodes[n].hosts, [M.Signal(text)])))
    case Writes(n, i, text) => (n, M.Outcome(s.nodes[n], M.SendTo(s.nodes[n].hosts[i], [M.Signal(text)])))
  }

  /** A step of the mesh leaves its node as the handler says; the other nodes do not notice. */
  lemma StepIsHandler(cfg: N.Config, s: N.State, e: N.Event)
    requires N.Enabled(cfg, s, e)
    ensures var r := HandlerOf(cfg, s, e);
      r.0 < |s.nodes| && N.Step(cfg, s, e).nodes == s.nodes[r.0 := r.1.node]
  {
  }


  lemma {:induction false} NoneWithdrawn(effects: seq<M.Effect>)
    requires forall e :: e in effects ==> !e.Withdraw?
    ensures H.Withdrawn(effects) == []
    decreases |effects|
  {
    if effects != [] {
      assert effects[0] in effects && forall e :: e in effects[1..] ==> e in effects;
      NoneWithdrawn(effects[1..]);
    }
  }

  lemma {:induction false} BroadcastWithdrawsNone(hosts: seq<M.Host>, i: nat, lines: seq<M.Line>)
    ensures forall e :: e in M.BroadcastFrom(hosts, i, lines) ==> !e.Withdraw?
    decreases |hosts| - i
  {
    if i < |hosts| { BroadcastWithdrawsNone(hosts, i + 1, lines); }
  }

  lemma {:induction false} BroadcastAllWithdrawsNone(hosts: seq<M.Host>, texts: seq<string>)
    ensures forall e :: e in M.BroadcastAll(hosts, texts) ==> !e.Withdraw?
    decreases |texts|
  {
    if texts != [] {
      BroadcastWithdrawsNone(hosts, 1, [M.Signal(texts[0])]);
      BroadcastAllWithdrawsNone(hosts, texts[1..]);
    }
  }

  lemma ReceiveWithdrawsNone(me: M.Node, i: nat, line: M.Line, next: nat, published: seq<string>)
    requires i < |me.hosts|
    ensures forall e :: e in M.OnReceive(me, i, line, next, published).effects ==> !e.Withdraw?
  {
    if line.Connected? {
      var hosts := me.hosts[i := me.hosts[i].(ready := true)];
      BroadcastAllWithdrawsNone(hosts, published);
      BroadcastWithdrawsNone(hosts, 1, M.HostLines(hosts, 0));
    }
  }

  /**
   In every run, an event withdraws channels only if a connection is lost, and then exactly once those of
   the host whose connection it was.
   */
  lemma {:induction false} OnlyLossWithdraws(cfg: N.Config, events: seq<N.Event>, e: N.Event)
    requires cfg.Valid() && N.Enabled(cfg, N.Run(cfg, events), e)
    ensures var s := N.Run(cfg, events);
      H.Withdrawn(HandlerOf(cfg, s, e).1.effects) == if e.Closes? then [s.conns[e.conn].dialHost] else []
  {
    EventWithdraws(cfg, N.Run(cfg, events), e);
  }

  lemma EventWithdraws(cfg: N.Config, s: N.State, e: N.Event)
    requires N.Enabled(cfg, s, e)
    ensures H.Withdrawn(HandlerOf(cfg, s, e).1.effects) == if e.Closes? then [s.conns[e.conn].dialHost] else []
  {
    var es := HandlerOf(cfg, s, e).1.effects;
    match e
    case Closes(c) => H.LossHandled(s.nodes[s.conns[c].dialer], s.conns[c].dialHost, |s.conns|);
    case Broadcasts(n, text) =>
      BroadcastWithdrawsNone(s.nodes[n].hosts, 1, [M.Signal(text)]);
      NoneWithdrawn(es);
    case Receives(sock, published) =>
      var k := s.conns[sock.conn];
      var n, flow := N.Local(k, sock.side), N.Inflow(k, sock.side);
      if !(sock.side.Acceptor? && k.acceptEnd.Waiting?) {
        ReceiveWithdrawsNone(s.nodes[n], N.HostOf(k, sock.side), flow.sent[flow.got], |s.conns|, published);
      }
      NoneWithdrawn(es);
    case _ => NoneWithdrawn(es);
  }
}
