/** The lines of the mesh as text: every handshake and gossip line of every run survives the wire. */
module MeshWire {
  import opened MeshSpec
  import opened MeshNet
  import opened MeshInv
  import opened MeshGossip
  import W = Wire

  function Text(line: Line): W.Message
    requires !line.Signal?
  {
    match line
    case Id(id, port) => W.Id(id, port)
    case You(ip) => W.You(ip)
    case Connected => W.Connected
    case HostAt(addr) => W.HostAt(addr.ip, addr.port)
  }

  /** What the receiver takes a line to say, if it is one of the mesh. */
  function Read(text: string): seq<Line> {
    match W.Hear(text)
    case Handled(Id(id, port)) => [Id(id, port)]
    case Handled(You(ip)) => [You(ip)]
    case Handled(Connected) => [Connected]
    case Handled(HostAt(ip, port)) => [HostAt(Addr(ip, port))]
    case _ => []
  }

  lemma LineSurvives(line: Line)
    requires !line.Signal?
    ensures Read(W.Print(Text(line))) == [line] <==> (line.HostAt? ==> ':' !in line.addr.ip)
  {
    W.WireRoundTrip(Text(line));
  }

  /** In a mesh whose addresses hold no ':' every handshake and gossip line is read as it was sent. */
  lemma {:induction false} EveryLineSurvives(cfg: Config, events: seq<Event>, c: nat, side: Side, x: nat)
    requires cfg.Valid() && forall a :: a in cfg.addrs ==> ':' !in a.ip
    requires c < |Run(cfg, events).conns| && x < |Inflow(Run(cfg, events).conns[c], side).sent|
    requires !Inflow(Run(cfg, events).conns[c], side).sent[x].Signal?
    ensures var line := Inflow(Run(cfg, events).conns[c], side).sent[x];
      Read(W.Print(Text(line))) == [line]
  {
    var s := Run(cfg, events);
    RunInv(cfg, events);
    ConnFacts(cfg, s, c);
    GossipPlain(cfg, s.conns[c], side, x);
    LineSurvives(Inflow(s.conns[c], side).sent[x]);
  }

  lemma GossipPlain(cfg: Config, k: Conn, side: Side, x: nat)
    requires cfg.Valid() && Sound(cfg, k) && x < |Inflow(k, side).sent|
    ensures var line := Inflow(k, side).sent[x]; line.HostAt? ==> line.addr in cfg.addrs
  {
  }
}
