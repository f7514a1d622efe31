/** The messages of the directory as text: what is in flight is heard as it was sent. */
module DirectoryWire {
  import opened Common
  import opened DirectorySpec
  import opened DirectoryNet
  import X = OfferExchange
  import O = OfferOrigin
  import W = Wire
  import M = MeshSpec

  /** Distinct nodes are at distinct addresses. */
  predicate Apart(places: seq<M.Addr>) {
    forall a, b :: 0 <= a < b < |places| ==> places[a] != places[b]
  }

  /** The message names a publisher that has an address. */
  predicate Printable(m: Message, places: seq<M.Addr>) {
    m.Publish? ==> m.owner.Some? && m.owner.value < |places| && m.kind in "PSAN"
  }

  /** How a host prints a message, given where the nodes are. */
  function Text(m: Message, places: seq<M.Addr>): W.Message
    requires Printable(m, places)
  {
    match m
    case Hello => W.Connected
    case Publish(kind, name, owner) => W.Publish(kind, name, places[owner.value].ip, places[owner.value].port)
    case Unpublish(kind, name) => W.Unpublish(kind, name)
    case ConnectTcp(name) => W.ConnectTcp(name)
    case OfferTcp(name, port) => W.OfferTcp(name, port)
    case ConnectShm(name) => W.ConnectShm(name)
  }

  /** get_host */
  function HostAt(places: seq<M.Addr>, place: M.Addr): (r: Option<nat>)
    ensures r.Some? ==> r.value < |places| && places[r.value] == place
    ensures r.None? ==> place !in places
  {
    if places == [] then None
    else if places[0] == place then Some(0)
    else
      var rest := HostAt(places[1..], place);
      if rest.Some? then Some(rest.value + 1) else None
  }

  /** The message of the directory a receiver takes a text for, if it is one. */
  function Read(text: string, places: seq<M.Addr>): seq<Message> {
    Taken(W.Hear(text), places)
  }

  function Taken(heard: W.Heard, places: seq<M.Addr>): seq<Message> {
    match heard
    case Handled(Connected) => [Hello]
    case Handled(Publish(kind, name, ip, port)) => [Publish(kind, name, HostAt(places, M.Addr(ip, port)))]
    case Handled(Unpublish(kind, name)) => [Unpublish(kind, name)]
    case Handled(ConnectTcp(name)) => [ConnectTcp(name)]
    case Handled(OfferTcp(name, port)) => [OfferTcp(name, port)]
    case Handled(ConnectShm(name)) => [ConnectShm(name)]
    case _ => []
  }

  /** Only what was printed is taken for the message. */
  lemma TakenBack(m: Message, places: seq<M.Addr>, heard: W.Heard)
    requires Apart(places) && Printable(m, places)
    ensures Taken(heard, places) == [m] <==> heard == W.Handled(Text(m, places))
  {
    if m.Publish? { OwnerBack(places, m.owner.value); }
  }

  /** A message is read as sent exactly when what is printed is plain. */
  lemma {:induction false} MessageSurvives(m: Message, places: seq<M.Addr>)
    requires Apart(places) && Printable(m, places)
    ensures Read(W.Print(Text(m, places)), places) == [m] <==> W.Plain(Text(m, places))
  {
    W.WireRoundTrip(Text(m, places));
    TakenBack(m, places, W.Hear(W.Print(Text(m, places))));
  }

  lemma OwnerBack(places: seq<M.Addr>, i: nat)
    requires Apart(places) && i < |places|
    ensures HostAt(places, places[i]) == Some(i)
  {
    assert HostAt(places, places[i]).Some?;
  }

  // ---------- names

  predicate PlainName(name: string) {
    '|' !in name
  }

  predicate PlainMessage(m: Message) {
    m.Hello? || PlainName(m.name)
  }

  predicate PlainDir(d: Dir) {
    forall i :: 0 <= i < |d.channels| ==> PlainName(d.channels[i].name)
  }

  predicate PlainEffects(es: seq<Effect>) {
    forall e :: e in es && !e.Dial? ==> PlainMessage(e.msg)
  }

  predicate PlainLink(l: Link) {
    forall m :: m in X.Queue(l) ==> PlainMessage(m)
  }

  predicate PlainState(s: State)
    requires Shaped(s)
  {
    && (forall n {:trigger s.dirs[n]} :: 0 <= n < |s.dirs| ==> PlainDir(s.dirs[n]))
    && (forall x, y {:trigger s.links[x][y]} :: 0 <= x < |s.dirs| && 0 <= y < |s.dirs| ==> PlainLink(s.links[x][y]))
  }

  lemma SetPlain(d: Dir, name: string, c: Channel)
    requires PlainDir(d) && PlainName(name) && c.name == name
    ensures PlainDir(d.(channels := Set(d.channels, name, c)))
  {
  }

  lemma SetPublisherPlain(d: Dir, name: string, p: Option<nat>, left: map<string, nat>)
    requires PlainDir(d) && PlainName(name)
    ensures var t := SetPublisher(d.me, d.locals, Get(d.channels, name), p, left);
      PlainEffects(t.effects) && t.channel.name == name && PlainDir(d.(channels := Set(d.channels, name, t.channel)))
  {
    SetPlain(d, name, SetPublisher(d.me, d.locals, Get(d.channels, name), p, left).channel);
  }

  lemma {:induction false} AnnouncePlain(d: Dir, i: nat)
    requires PlainDir(d)
    ensures PlainEffects(Announce(d.me, d.channels, i))
    decreases |d.channels| - i
  {
    if i < |d.channels| { AnnouncePlain(d, i + 1); }
  }

  lemma StatedPlain(d: Dir, name: string, left: map<string, nat>)
    requires PlainDir(d) && PlainName(name)
    ensures var o := PublishHere(d, name, left); PlainDir(o.dir) && PlainEffects(o.effects)
    ensures var o := UnpublishHere(d, name, left); PlainDir(o.dir) && PlainEffects(o.effects)
  {
    SetPublisherPlain(d, name, Some(d.me), left);
    SetPublisherPlain(d, name, None, left);
  }

  lemma SubscribePlain(d: Dir, name: string)
    requires PlainDir(d) && PlainName(name)
    ensures var o := Subscribe(d, name); PlainDir(o.dir) && PlainEffects(o.effects)
  {
    var c := Get(d.channels, name);
    SetPlain(d, name, c.(subs := c.subs + 1));
  }

  lemma StatementPlain(d: Dir, h: nat, kind: char, name: string, owner: Option<nat>, left: map<string, nat>)
    requires PlainDir(d) && PlainName(name)
    ensures var o := ApplyPublish(d, h, kind, name, owner, left); PlainDir(o.dir) && PlainEffects(o.effects)
    ensures var o := ApplyUnpublish(d, name, left); PlainDir(o.dir) && PlainEffects(o.effects)
  {
    SetPublisherPlain(d, name, Some(h), left);
    SetPublisherPlain(d, name, owner, left);
    SetPublisherPlain(d, name, None, left);
    SetPlain(d, name, Get(d.channels, name));
  }

  lemma OfferPlain(d: Dir, h: nat, name: string, port: int)
    requires PlainDir(d) && PlainName(name)
    ensures var o := MakeOffer(d, h, name, port); PlainDir(o.dir) && PlainEffects(o.effects)
    ensures var o := AnswerOffer(d, name, port); PlainDir(o.dir) && PlainEffects(o.effects)
  {
    var c := Get(d.channels, name);
    SetPlain(d, name, if c.server.Some? then c else c.(server := Some(port)));
    SetPlain(d, name, c.(offered := port));
  }

  lemma MessagePlain(d: Dir, h: nat, m: Message, left: map<string, nat>, port: int)
    requires PlainDir(d) && PlainMessage(m)
    ensures var o := OnMessage(d, h, m, left, port); PlainDir(o.dir) && PlainEffects(o.effects)
  {
    match m
    case Hello => AnnouncePlain(d, 0);
    case Publish(kind, name, owner) => StatementPlain(d, h, kind, name, owner, left);
    case Unpublish(_, name) => StatementPlain(d, h, 'N', name, None, left);
    case ConnectTcp(name) => OfferPlain(d, h, name, port);
    case OfferTcp(name, p) => OfferPlain(d, h, name, p);
    case ConnectShm(_) =>
  }

  lemma ApplyPlain(s: State, n: nat, o: Outcome)
    requires Shaped(s) && PlainState(s) && n < |s.dirs| && PlainDir(o.dir) && PlainEffects(o.effects)
    ensures Shaped(Apply(s, n, o)) && PlainState(Apply(s, n, o))
  {
    var s' := Apply(s, n, o);
    forall x, y | 0 <= x < |s.dirs| && 0 <= y < |s.dirs| ensures PlainLink(s'.links[x][y]) {
      assert PlainLink(s.links[x][y]);
      if x == n { PostedPlain(o.effects, o.dir.ready, y); }
    }
  }

  lemma PostedPlain(es: seq<Effect>, ready: set<nat>, q: nat)
    requires PlainEffects(es)
    ensures forall m :: m in Posted(es, ready, q) ==> PlainMessage(m)
  {
    O.PostedFrom(es, ready, q);
    forall m | m in Posted(es, ready, q) ensures PlainMessage(m) {
      var e := if To(q, m) in es then To(q, m) else ToReady(m);
      assert e in es && !e.Dial? && e.msg == m;
    }
  }

  predicate PlainEvent(e: Event) {
    e.Publishes? || e.Unpublishes? || e.Subscribes? ==> PlainName(e.name)
  }

  lemma DeliverPlain(s: State, x: nat, n: nat, left: map<string, nat>, port: int)
    requires Shaped(s) && PlainState(s) && Enabled(s, Delivers(x, n, left, port))
    ensures Shaped(Deliver(s, x, n, left, port)) && PlainState(Deliver(s, x, n, left, port))
  {
    var q := s.links[x][n].queue;
    var s1 := s.(links := SetLink(s.links, x, n, Up(q[1..])));
    assert PlainLink(s.links[x][n]) && q[0] in X.Queue(s.links[x][n]);
    MessagePlain(s.dirs[n], x, q[0], left, port);
    forall u, v | 0 <= u < |s.dirs| && 0 <= v < |s.dirs| ensures PlainLink(s1.links[u][v]) {
      assert PlainLink(s.links[u][v]);
    }
    ApplyPlain(s1, n, OnMessage(s.dirs[n], x, q[0], left, port));
  }

  lemma LossPlain(s: State, e: Event)
    requires Shaped(s) && PlainState(s) && e.LinkLoss? && Enabled(s, e)
    ensures Shaped(Step(s, e)) && PlainState(Step(s, e))
  {
    var s' := Step(s, e);
    StepShaped(s, e);
    forall n | 0 <= n < |s.dirs| ensures PlainDir(s'.dirs[n]) {
      assert PlainDir(s.dirs[n]);
      X.LossDirs(s, e, n);
    }
    forall x, y | 0 <= x < |s.dirs| && 0 <= y < |s.dirs| ensures PlainLink(s'.links[x][y]) {
      assert PlainLink(s.links[x][y]);
      X.LossLinks(s, e, x, y);
    }
  }

  lemma LinkUpPlain(s: State, e: Event)
    requires Shaped(s) && PlainState(s) && e.LinkUp? && Enabled(s, e)
    ensures Shaped(Step(s, e)) && PlainState(Step(s, e))
  {
    var s' := Step(s, e);
    forall x, y | 0 <= x < |s.dirs| && 0 <= y < |s.dirs| ensures PlainLink(s'.links[x][y]) {
      assert PlainLink(s.links[x][y]);
    }
  }

  lemma StepPlain(s: State, e: Event)
    requires Shaped(s) && PlainState(s) && PlainEvent(e)
    ensures Shaped(Step(s, e)) && PlainState(Step(s, e))
  {
    if Enabled(s, e) {
      match e
      case LinkUp(_, _) => LinkUpPlain(s, e);
      case LinkLoss(_, _, _, _) => LossPlain(s, e);
      case Delivers(x, n, left, port) => DeliverPlain(s, x, n, left, port);
      case Publishes(n, name, left) =>
        StatedPlain(s.dirs[n], name, left);
        ApplyPlain(s, n, PublishHere(s.dirs[n], name, left));
      case Unpublishes(n, name, left) =>
        StatedPlain(s.dirs[n], name, left);
        ApplyPlain(s, n, UnpublishHere(s.dirs[n], name, left));
      case Subscribes(n, name) =>
        SubscribePlain(s.dirs[n], name);
        ApplyPlain(s, n, Subscribe(s.dirs[n], name));
    }
  }

  lemma {:induction false} RunPlain(locals: seq<set<nat>>, events: seq<Event>)
    requires forall e :: e in events ==> PlainEvent(e)
    ensures PlainState(Run(locals, events))
    decreases |events|
  {
    if events != [] {
      var last := |events| - 1;
      assert events[last] in events && forall e :: e in events[..last] ==> e in events;
      RunPlain(locals, events[..last]);
      StepPlain(Run(locals, events[..last]), events[last]);
    }
  }

  /**
   When no user names a channel with a '|' and no node's ip holds a ':', every message in flight after
   every run, losses included, is read as it was sent; a request for SHM never is.
   */
  lemma {:induction false} EveryMessageSurvives(locals: seq<set<nat>>, events: seq<Event>, places: seq<M.Addr>,
                                               x: nat, y: nat, m: Message)
    requires |places| == |locals| && Apart(places) && forall i :: 0 <= i < |places| ==> ':' !in places[i].ip
    requires forall e :: e in events ==> PlainEvent(e)
    requires x < |locals| && y < |locals|
    requires Run(locals, events).links[x][y].Up? && m in Run(locals, events).links[x][y].queue
    ensures Printable(m, places)
    ensures Read(W.Print(Text(m, places)), places) == [m] <==> !m.ConnectShm?
  {
    X.InFlightSound(locals, events, x, y, m);
    RunPlain(locals, events);
    FlightPlain(Run(locals, events), x, y, m);
    MessageSurvives(m, places);
  }

  lemma FlightPlain(s: State, x: nat, y: nat, m: Message)
    requires Shaped(s) && PlainState(s) && x < |s.dirs| && y < |s.dirs| && m in X.Queue(s.links[x][y])
    ensures PlainMessage(m)
  {
    assert PlainLink(s.links[x][y]);
  }
}
