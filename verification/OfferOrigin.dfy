/**
 Where an offered port comes from: when only node p ever publishes a channel, every connection a
 subscription dials for it goes to p, on the port of p's own server for that channel.
 */
module OfferOrigin {
  import opened Common
  import opened DirectorySpec
  import opened DirectoryNet
  import A = DirectoryAgreement
  import X = OfferExchange

  function ServerOf(d: Dir, ch: string): Option<int> {
    Get(d.channels, ch).server
  }

  // ---------- the invariant

  /** A request for ch goes to p, an offer of ch comes from p and names p's server. */
  predicate MsgFine(m: Message, x: nat, y: nat, p: nat, ch: string, server: Option<int>) {
    && (m.OfferTcp? && m.name == ch ==> x == p && server == Some(m.port))
    && (m == ConnectTcp(ch) ==> y == p)
  }

  /** An offered port that a node has noted is that of p's server. */
  predicate NoteFine(c: Channel, server: Option<int>) {
    c.offered != 0 ==> server == Some(c.offered)
  }

  predicate LinkFine(l: Link, x: nat, y: nat, p: nat, ch: string, server: Option<int>) {
    forall m :: m in X.Queue(l) ==> MsgFine(m, x, y, p, ch, server)
  }

  predicate Fine(s: State, p: nat, ch: string)
    requires Shaped(s) && p < |s.dirs|
  {
    var server := ServerOf(s.dirs[p], ch);
    && (server.Some? ==> X.InRange(server.value))
    && (forall x, y {:trigger s.links[x][y]} :: 0 <= x < |s.dirs| && 0 <= y < |s.dirs| ==> LinkFine(s.links[x][y], x, y, p, ch, server))
    && (forall n {:trigger s.dirs[n]} :: 0 <= n < |s.dirs| ==> NoteFine(Get(s.dirs[n].channels, ch), server))
  }

  ghost predicate Inv(s: State, p: nat, ch: string)
    requires Shaped(s) && p < |s.dirs|
  {
    A.Inv(s, p, ch) && Fine(s, p, ch)
  }

  // ---------- one outcome

  /** What node n may do to its peers, given p's server afterwards. */
  predicate EffectFine(e: Effect, n: nat, p: nat, ch: string, server: Option<int>) {
    match e
    case ToReady(m) => !m.OfferTcp? && !m.ConnectTcp?
    case To(h, m) => MsgFine(m, n, h, p, ch, server)
    case Dial(name, h, port, _) => name == ch ==> h == p && server == Some(port)
  }

  predicate EffectsFine(es: seq<Effect>, n: nat, p: nat, ch: string, server: Option<int>) {
    forall e :: e in es ==> EffectFine(e, n, p, ch, server)
  }

  /** p's server after an outcome at n. */
  function ServerAfter(s: State, n: nat, o: Outcome, p: nat, ch: string): Option<int>
    requires n < |s.dirs| && p < |s.dirs|
  {
    if n == p then ServerOf(o.dir, ch) else ServerOf(s.dirs[p], ch)
  }

  /** A server, once bound, stays where it is. */
  predicate Stays(before: Option<int>, after: Option<int>) {
    (before.Some? ==> after == before) && (after.Some? ==> before.Some? || X.InRange(after.value))
  }

  predicate OutcomeFine(s: State, n: nat, o: Outcome, p: nat, ch: string)
    requires n < |s.dirs| && p < |s.dirs|
  {
    var server := ServerAfter(s, n, o, p, ch);
    && Stays(ServerOf(s.dirs[p], ch), server)
    && EffectsFine(o.effects, n, p, ch, server)
    && NoteFine(Get(o.dir.channels, ch), server)
  }

  lemma {:induction false} PostedFrom(es: seq<Effect>, ready: set<nat>, q: nat)
    ensures forall m :: m in Posted(es, ready, q) ==> To(q, m) in es || ToReady(m) in es
    decreases |es|
  {
    if es != [] {
      PostedFrom(es[1..], ready, q);
      assert forall e :: e in es[1..] ==> e in es;
      assert forall m :: m in Posted1(es[0], ready, q) ==> es[0] == To(q, m) || es[0] == ToReady(m);
    }
  }

  lemma PostedFine(es: seq<Effect>, ready: set<nat>, n: nat, q: nat, p: nat, ch: string, server: Option<int>)
    requires EffectsFine(es, n, p, ch, server)
    ensures forall m :: m in Posted(es, ready, q) ==> MsgFine(m, n, q, p, ch, server)
  {
    PostedFrom(es, ready, q);
    forall m | m in Posted(es, ready, q) ensures MsgFine(m, n, q, p, ch, server) {
      if To(q, m) in es {
        assert EffectFine(To(q, m), n, p, ch, server);
      } else {
        assert EffectFine(ToReady(m), n, p, ch, server);
      }
    }
  }

  lemma LinkGrows(l: Link, l': Link, msgs: seq<Message>, x: nat, y: nat, p: nat, ch: string,
                  server: Option<int>, server': Option<int>)
    requires LinkFine(l, x, y, p, ch, server) && Stays(server, server') && X.Queue(l') <= X.Queue(l) + msgs
    requires forall m :: m in msgs ==> MsgFine(m, x, y, p, ch, server')
    ensures LinkFine(l', x, y, p, ch, server')
  {
    forall m | m in X.Queue(l') ensures MsgFine(m, x, y, p, ch, server') {
      assert m in X.Queue(l) || m in msgs;
      if m in X.Queue(l) { assert MsgFine(m, x, y, p, ch, server); }
    }
  }

  lemma ApplyFine(s: State, n: nat, o: Outcome, p: nat, ch: string)
    requires Shaped(s) && p < |s.dirs| && n < |s.dirs| && Fine(s, p, ch) && OutcomeFine(s, n, o, p, ch)
    ensures Fine(Apply(s, n, o), p, ch)
  {
    var s' := Apply(s, n, o);
    var server := ServerAfter(s, n, o, p, ch);
    forall x, y | 0 <= x < |s.dirs| && 0 <= y < |s.dirs| ensures LinkFine(s'.links[x][y], x, y, p, ch, server) {
      var msgs := if x == n then Posted(o.effects, o.dir.ready, y) else [];
      PostedFine(o.effects, o.dir.ready, n, y, p, ch, server);
      LinkGrows(s.links[x][y], s'.links[x][y], msgs, x, y, p, ch, ServerOf(s.dirs[p], ch), server);
    }
    assert forall k :: 0 <= k < |s.dirs| && k != n ==> s'.dirs[k] == s.dirs[k];
  }

  // ---------- the handlers

  /** Get and Set of different names do not interfere. */
  lemma GetSet(channels: seq<Channel>, name: string, c: Channel, ch: string)
    requires c.name == name
    ensures Get(Set(channels, name, c), ch) == if ch == name then c else Get(channels, ch)
  {
    var i, k := Find(channels, name), Find(channels, ch);
    var chs' := Set(channels, name, c);
    A.FindIs(chs', ch, if ch == name then i else if k < |channels| then k else |chs'|);
  }

  /** What n may make of the channel ch: publisher and noted port are right. */
  predicate ChanFine(c: Channel, p: nat, ch: string, server: Option<int>) {
    c.name == ch ==> (c.publisher == None || c.publisher == Some(p)) && NoteFine(c, server)
  }

  lemma ConnectFine(me: nat, locals: set<nat>, c: Channel, p: nat, ch: string, server: Option<int>)
    requires ChanFine(c, p, ch, server)
    ensures EffectsFine(Connect(me, locals, c), me, p, ch, server)
    ensures EffectsFine(ConnectByTcp(c), me, p, ch, server)
  {
  }

  lemma SetPublisherFine(me: nat, locals: set<nat>, c: Channel, pub: Option<nat>, left: map<string, nat>,
                         p: nat, ch: string, server: Option<int>)
    requires c.name == ch && pub.Some? ==> pub.value == p
    ensures var t := SetPublisher(me, locals, c, pub, left);
      && EffectsFine(t.effects, me, p, ch, server)
      && t.channel.name == c.name && t.channel.server == c.server && t.channel.offered == 0
  {
    var c2 := SetPublisher(me, locals, c, pub, left).channel;
    ConnectFine(me, locals, c2, p, ch, server);
  }

  /** An outcome that sets one channel and leaves its server. */
  lemma SetFine(s: State, n: nat, name: string, c: Channel, es: seq<Effect>, p: nat, ch: string)
    requires p < |s.dirs| && n < |s.dirs| && Shaped(s) && Fine(s, p, ch)
    requires c.name == name && c.server == Get(s.dirs[n].channels, name).server
    requires name == ch ==> NoteFine(c, ServerOf(s.dirs[p], ch))
    requires EffectsFine(es, n, p, ch, ServerOf(s.dirs[p], ch))
    ensures OutcomeFine(s, n, Outcome(s.dirs[n].(channels := Set(s.dirs[n].channels, name, c)), es), p, ch)
  {
    GetSet(s.dirs[n].channels, name, c, ch);
    assert NoteFine(Get(s.dirs[n].channels, ch), ServerOf(s.dirs[p], ch));
  }

  lemma IdleFine(s: State, n: nat, p: nat, ch: string)
    requires p < |s.dirs| && n < |s.dirs| && Shaped(s) && Fine(s, p, ch)
    ensures OutcomeFine(s, n, Outcome(s.dirs[n], []), p, ch)
  {
  }

  /** setPublisher on one channel, and then perhaps a broadcast. */
  lemma PublisherFine(s: State, n: nat, name: string, pub: Option<nat>, left: map<string, nat>, last: seq<Effect>, p: nat, ch: string)
    requires p < |s.dirs| && n < |s.dirs| && Shaped(s) && Fine(s, p, ch) && s.dirs[n].me == n
    requires name == ch && pub.Some? ==> pub.value == p
    requires EffectsFine(last, n, p, ch, ServerOf(s.dirs[p], ch))
    ensures var d := s.dirs[n];
      var t := SetPublisher(d.me, d.locals, Get(d.channels, name), pub, left);
      OutcomeFine(s, n, Outcome(d.(channels := Set(d.channels, name, t.channel)), t.effects + last), p, ch)
  {
    var d := s.dirs[n];
    var t := SetPublisher(d.me, d.locals, Get(d.channels, name), pub, left);
    SetPublisherFine(d.me, d.locals, Get(d.channels, name), pub, left, p, ch, ServerOf(s.dirs[p], ch));
    SetFine(s, n, name, t.channel, t.effects + last, p, ch);
  }

  lemma HeardFine(s: State, n: nat, name: string, pub: Option<nat>, left: map<string, nat>, p: nat, ch: string)
    requires p < |s.dirs| && n < |s.dirs| && Shaped(s) && Fine(s, p, ch) && s.dirs[n].me == n
    requires name == ch && pub.Some? ==> pub.value == p
    ensures var d := s.dirs[n];
      var t := SetPublisher(d.me, d.locals, Get(d.channels, name), pub, left);
      OutcomeFine(s, n, Outcome(d.(channels := Set(d.channels, name, t.channel)), t.effects), p, ch)
  {
    var t := SetPublisher(n, s.dirs[n].locals, Get(s.dirs[n].channels, name), pub, left);
    assert t.effects + [] == t.effects;
    PublisherFine(s, n, name, pub, left, [], p, ch);
  }

  /** The channel ch of node n, as the agreement invariant has it. */
  lemma OwnChan(s: State, n: nat, name: string, p: nat, ch: string)
    requires p < |s.dirs| && n < |s.dirs| && Shaped(s) && Inv(s, p, ch)
    ensures s.dirs[n].me == n && ChanFine(Get(s.dirs[n].channels, name), p, ch, ServerOf(s.dirs[p], ch))
  {
    assert A.DirOk(p, ch, n, s.dirs[n]);
    A.PubSet(s.dirs[n].channels, ch, Get(s.dirs[n].channels, ch), ch);
    assert NoteFine(Get(s.dirs[n].channels, ch), ServerOf(s.dirs[p], ch));
  }

  lemma SubscribeFine(s: State, n: nat, name: string, p: nat, ch: string)
    requires p < |s.dirs| && n < |s.dirs| && Shaped(s) && Inv(s, p, ch)
    ensures OutcomeFine(s, n, Subscribe(s.dirs[n], name), p, ch)
  {
    var c := Get(s.dirs[n].channels, name);
    OwnChan(s, n, name, p, ch);
    ConnectingFine(s, n, name, c.(subs := c.subs + 1), Subscribe(s.dirs[n], name), p, ch);
  }

  lemma ConnectingFine(s: State, n: nat, name: string, c: Channel, o: Outcome, p: nat, ch: string)
    requires p < |s.dirs| && n < |s.dirs| && Shaped(s) && Fine(s, p, ch) && c.name == name
    requires c.server == Get(s.dirs[n].channels, name).server && ChanFine(c, p, ch, ServerOf(s.dirs[p], ch))
    requires o.dir == s.dirs[n].(channels := Set(s.dirs[n].channels, name, c)) && o.effects == Connect(n, s.dirs[n].locals, c)
    ensures OutcomeFine(s, n, o, p, ch)
  {
    ConnectFine(n, s.dirs[n].locals, c, p, ch, ServerOf(s.dirs[p], ch));
    SetFine(s, n, name, c, o.effects, p, ch);
  }

  /** A request for ch has reached p, or it is for another channel. */
  lemma OfferFine(s: State, n: nat, h: nat, name: string, port: int, p: nat, ch: string)
    requires p < |s.dirs| && n < |s.dirs| && Shaped(s) && Inv(s, p, ch) && X.InRange(port)
    requires name == ch ==> n == p
    ensures OutcomeFine(s, n, MakeOffer(s.dirs[n], h, name, port), p, ch)
  {
    var d := s.dirs[n];
    if Has(d.channels, name) {
      var c := Get(d.channels, name);
      var c' := if c.server.Some? then c else c.(server := Some(port));
      GetSet(d.channels, name, c', ch);
      assert NoteFine(Get(d.channels, ch), ServerOf(s.dirs[p], ch));
    } else {
      IdleFine(s, n, p, ch);
    }
  }

  lemma AnswerFine(s: State, n: nat, name: string, port: int, p: nat, ch: string)
    requires p < |s.dirs| && n < |s.dirs| && Shaped(s) && Inv(s, p, ch)
    requires name == ch ==> ServerOf(s.dirs[p], ch) == Some(port)
    ensures OutcomeFine(s, n, AnswerOffer(s.dirs[n], name, port), p, ch)
  {
    var d := s.dirs[n];
    if Has(d.channels, name) {
      var c := Get(d.channels, name).(offered := port);
      OwnChan(s, n, name, p, ch);
      ConnectFine(n, d.locals, c, p, ch, ServerOf(s.dirs[p], ch));
      SetFine(s, n, name, c, ConnectByTcp(c), p, ch);
    } else {
      IdleFine(s, n, p, ch);
    }
  }

  lemma {:induction false} AnnounceFine(me: nat, channels: seq<Channel>, i: nat, p: nat, ch: string, server: Option<int>)
    ensures EffectsFine(Announce(me, channels, i), me, p, ch, server)
    decreases |channels| - i
  {
    if i < |channels| { AnnounceFine(me, channels, i + 1, p, ch, server); }
  }

  /** A message at the head of the queue from x to n. */
  lemma MessageFine(s: State, x: nat, n: nat, left: map<string, nat>, port: int, p: nat, ch: string)
    requires p < |s.dirs| && Shaped(s) && Inv(s, p, ch) && Enabled(s, Delivers(x, n, left, port))
    ensures OutcomeFine(s, n, OnMessage(s.dirs[n], x, s.links[x][n].queue[0], left, port), p, ch)
  {
    var m := s.links[x][n].queue[0];
    assert m in X.Queue(s.links[x][n]) && LinkFine(s.links[x][n], x, n, p, ch, ServerOf(s.dirs[p], ch));
    assert A.LinkAt(s, p, ch, x, n);
    if m.Hello? { HelloFine(s, x, n, left, port, p, ch); }
    else if x !in s.dirs[n].ready { IdleFine(s, n, p, ch); }
    else { HandledFine(s, x, n, m, left, port, p, ch); }
  }

  lemma HelloFine(s: State, x: nat, n: nat, left: map<string, nat>, port: int, p: nat, ch: string)
    requires p < |s.dirs| && n < |s.dirs| && Shaped(s) && Inv(s, p, ch)
    ensures OutcomeFine(s, n, OnMessage(s.dirs[n], x, Hello, left, port), p, ch)
  {
    OwnChan(s, n, ch, p, ch);
    AnnounceFine(n, s.dirs[n].channels, 0, p, ch, ServerOf(s.dirs[p], ch));
    assert NoteFine(Get(s.dirs[n].channels, ch), ServerOf(s.dirs[p], ch));
  }

  lemma HandledFine(s: State, x: nat, n: nat, m: Message, left: map<string, nat>, port: int, p: nat, ch: string)
    requires p < |s.dirs| && n < |s.dirs| && Shaped(s) && Inv(s, p, ch) && X.InRange(port)
    requires x in s.dirs[n].ready && !m.Hello? && MsgFine(m, x, n, p, ch, ServerOf(s.dirs[p], ch))
    requires A.Concerns(m, ch) ==> x == p && (m.Publish? ==> m.kind == 'P')
    ensures OutcomeFine(s, n, OnMessage(s.dirs[n], x, m, left, port), p, ch)
  {
    match m
    case Publish(kind, name, owner) => StatementFine(s, x, n, kind, name, owner, left, p, ch);
    case Unpublish(_, name) => UnstatedFine(s, n, name, left, p, ch);
    case ConnectTcp(name) => OfferFine(s, n, x, name, port, p, ch);
    case OfferTcp(name, q) => AnswerFine(s, n, name, q, p, ch);
    case ConnectShm(_) => IdleFine(s, n, p, ch);
  }

  lemma UnstatedFine(s: State, n: nat, name: string, left: map<string, nat>, p: nat, ch: string)
    requires p < |s.dirs| && n < |s.dirs| && Shaped(s) && Inv(s, p, ch)
    ensures OutcomeFine(s, n, ApplyUnpublish(s.dirs[n], name, left), p, ch)
  {
    OwnChan(s, n, name, p, ch);
    if Has(s.dirs[n].channels, name) { HeardFine(s, n, name, None, left, p, ch); } else { IdleFine(s, n, p, ch); }
  }

  lemma StatementFine(s: State, x: nat, n: nat, kind: char, name: string, owner: Option<nat>, left: map<string, nat>, p: nat, ch: string)
    requires p < |s.dirs| && n < |s.dirs| && Shaped(s) && Inv(s, p, ch)
    requires name == ch ==> x == p && kind == 'P'
    ensures OutcomeFine(s, n, ApplyPublish(s.dirs[n], x, kind, name, owner, left), p, ch)
  {
    OwnChan(s, n, name, p, ch);
    if kind == 'P' {
      HeardFine(s, n, name, Some(x), left, p, ch);
    } else if (kind == 'A' || kind == 'S') && Get(s.dirs[n].channels, name).publisher.None? {
      HeardFine(s, n, name, owner, left, p, ch);
    } else {
      SetFine(s, n, name, Get(s.dirs[n].channels, name), [], p, ch);
    }
  }

  lemma StatedFine(s: State, e: Event, p: nat, ch: string)
    requires e.Publishes? || e.Unpublishes?
    requires p < |s.dirs| && Shaped(s) && Inv(s, p, ch) && Enabled(s, e) && A.SoleOwner(e, p, ch)
    ensures OutcomeFine(s, e.node, if e.Publishes? then PublishHere(s.dirs[e.node], e.name, e.left)
                                   else UnpublishHere(s.dirs[e.node], e.name, e.left), p, ch)
  {
    var n, name, d := e.node, e.name, s.dirs[e.node];
    OwnChan(s, n, name, p, ch);
    var pub := if e.Publishes? then Some(n) else None;
    var c := SetPublisher(d.me, d.locals, Get(d.channels, name), pub, e.left).channel;
    var last := [ToReady(if e.Publishes? then Publish(Kind(n, c), name, c.publisher) else Unpublish(Kind(n, c), name))];
    PublisherFine(s, n, name, pub, e.left, last, p, ch);
    IdleFine(s, n, p, ch);
  }

  // ---------- every run

  /** What an event makes a node do; losing or gaining a link does nothing but change the link. */
  function OutcomeOf(s: State, e: Event): Outcome
    requires Shaped(s) && Enabled(s, e) && !e.LinkUp? && !e.LinkLoss?
  {
    var d := s.dirs[e.node];
    match e
    case Publishes(n, name, left) => PublishHere(d, name, left)
    case Unpublishes(n, name, left) => UnpublishHere(d, name, left)
    case Subscribes(n, name) => Subscribe(d, name)
    case Delivers(x, n, left, port) => OnMessage(d, x, s.links[x][n].queue[0], left, port)
  }

  lemma EventFine(s: State, e: Event, p: nat, ch: string)
    requires p < |s.dirs| && Shaped(s) && Inv(s, p, ch) && A.SoleOwner(e, p, ch)
    requires Enabled(s, e) && !e.LinkUp? && !e.LinkLoss?
    ensures OutcomeFine(s, e.node, OutcomeOf(s, e), p, ch)
  {
    if e.Subscribes? { SubscribeFine(s, e.node, e.name, p, ch); }
    else if e.Delivers? { MessageFine(s, e.from, e.node, e.left, e.port, p, ch); }
    else { StatedFine(s, e, p, ch); }
  }

  lemma DeliverFine(s: State, x: nat, n: nat, left: map<string, nat>, port: int, p: nat, ch: string)
    requires p < |s.dirs| && Shaped(s) && Inv(s, p, ch) && Enabled(s, Delivers(x, n, left, port))
    ensures Fine(Deliver(s, x, n, left, port), p, ch)
  {
    var o := OnMessage(s.dirs[n], x, s.links[x][n].queue[0], left, port);
    var s1 := s.(links := SetLink(s.links, x, n, Up(s.links[x][n].queue[1..])));
    MessageFine(s, x, n, left, port, p, ch);
    forall u, v | 0 <= u < |s.dirs| && 0 <= v < |s.dirs|
      ensures LinkFine(s1.links[u][v], u, v, p, ch, ServerOf(s.dirs[p], ch))
    {
      assert LinkFine(s.links[u][v], u, v, p, ch, ServerOf(s.dirs[p], ch));
    }
    ApplyFine(s1, n, o, p, ch);
  }

  lemma CloseGet(d: Dir, h: nat, left: map<string, nat>, ch: string)
    ensures SameServer(d, OnLoss(d, h, left), ch)
  {
    A.FindIs(CloseAll(d, h, left), ch, Find(d.channels, ch));
  }

  lemma LossFine(s: State, e: Event, p: nat, ch: string)
    requires p < |s.dirs| && Shaped(s) && Fine(s, p, ch) && e.LinkLoss? && Enabled(s, e)
    ensures Shaped(Step(s, e)) && Fine(Step(s, e), p, ch)
  {
    var s' := Step(s, e);
    StepShaped(s, e);
    LossGet(s, e, p, ch);
    forall x, y | 0 <= x < |s.dirs| && 0 <= y < |s.dirs|
      ensures LinkFine(s'.links[x][y], x, y, p, ch, ServerOf(s'.dirs[p], ch))
    {
      LossLink(s, e, x, y);
      assert LinkFine(s.links[x][y], x, y, p, ch, ServerOf(s.dirs[p], ch));
    }
    forall n | 0 <= n < |s.dirs| ensures NoteFine(Get(s'.dirs[n].channels, ch), ServerOf(s'.dirs[p], ch)) {
      LossGet(s, e, n, ch);
      assert NoteFine(Get(s.dirs[n].channels, ch), ServerOf(s.dirs[p], ch));
    }
  }

  lemma LossLink(s: State, e: Event, x: nat, y: nat)
    requires Shaped(s) && e.LinkLoss? && Enabled(s, e) && x < |s.dirs| && y < |s.dirs|
    ensures Shaped(Step(s, e)) && |Step(s, e).dirs| == |s.dirs|
    ensures Step(s, e).links[x][y] == s.links[x][y] || Step(s, e).links[x][y] == Down
  {
  }

  lemma LossGet(s: State, e: Event, n: nat, ch: string)
    requires n < |s.dirs| && Shaped(s) && e.LinkLoss? && Enabled(s, e)
    ensures |Step(s, e).dirs| == |s.dirs| && SameServer(s.dirs[n], Step(s, e).dirs[n], ch)
  {
    if n == e.a { CloseGet(s.dirs[n], e.b, e.leftA, ch); }
    else if n == e.b { CloseGet(s.dirs[n], e.a, e.leftB, ch); }
  }

  /** The server is as it was, and a noted port is the old one or none. */
  predicate SameServer(d: Dir, d': Dir, ch: string) {
    var c, c' := Get(d.channels, ch), Get(d'.channels, ch);
    c'.server == c.server && (c'.offered == c.offered || c'.offered == 0)
  }

  lemma LinkUpFine(s: State, e: Event, p: nat, ch: string)
    requires p < |s.dirs| && Shaped(s) && Fine(s, p, ch) && e.LinkUp? && Enabled(s, e)
    ensures Shaped(Step(s, e)) && Fine(Step(s, e), p, ch)
  {
    var s' := Step(s, e);
    var server := ServerOf(s.dirs[p], ch);
    forall x, y | 0 <= x < |s.dirs| && 0 <= y < |s.dirs| ensures LinkFine(s'.links[x][y], x, y, p, ch, server) {
      assert LinkFine(s.links[x][y], x, y, p, ch, server);
    }
  }

  lemma StepInv(s: State, e: Event, p: nat, ch: string)
    requires p < |s.dirs| && Shaped(s) && Inv(s, p, ch) && A.SoleOwner(e, p, ch)
    ensures Shaped(Step(s, e)) && |Step(s, e).dirs| == |s.dirs| && Inv(Step(s, e), p, ch)
  {
    A.StepInv(s, e, p, ch);
    if Enabled(s, e) {
      if e.LinkUp? { LinkUpFine(s, e, p, ch); }
      else if e.LinkLoss? { LossFine(s, e, p, ch); }
      else if e.Delivers? { DeliverFine(s, e.from, e.node, e.left, e.port, p, ch); }
      else {
        EventFine(s, e, p, ch);
        ApplyFine(s, e.node, OutcomeOf(s, e), p, ch);
      }
    }
  }

  lemma {:induction false} RunInv(locals: seq<set<nat>>, events: seq<Event>, p: nat, ch: string)
    requires p < |locals| && forall e :: e in events ==> A.SoleOwner(e, p, ch)
    ensures Inv(Run(locals, events), p, ch)
    decreases |events|
  {
    if events == [] {
      A.InitInv(locals, p, ch);
    } else {
      var last := |events| - 1;
      assert events[last] in events && forall e :: e in events[..last] ==> e in events;
      var s := Run(locals, events[..last]);
      RunInv(locals, events[..last], p, ch);
      StepInv(s, events[last], p, ch);
    }
  }

  /**
   When only p publishes ch, after every run, with or without losses, whatever any node does next: a
   subscription to ch is connected to p, on the port of p's own server for ch.
   */
  lemma {:induction false} SubscriptionsReachPublisher(locals: seq<set<nat>>, events: seq<Event>, e: Event,
                                                           p: nat, ch: string, dial: Effect)
    requires p < |locals| && A.SoleOwner(e, p, ch) && forall f :: f in events ==> A.SoleOwner(f, p, ch)
    requires Enabled(Run(locals, events), e) && !e.LinkUp? && !e.LinkLoss?
    requires dial in OutcomeOf(Run(locals, events), e).effects && dial.Dial? && dial.name == ch
    ensures dial.host == p && FIRST_PORT <= dial.port <= LAST_PORT
    ensures ServerOf(Step(Run(locals, events), e).dirs[p], ch) == Some(dial.port)
  {
    RunInv(locals, events, p, ch);
    DialFine(Run(locals, events), e, p, ch, dial);
  }

  lemma DialFine(s: State, e: Event, p: nat, ch: string, dial: Effect)
    requires p < |s.dirs| && Shaped(s) && Inv(s, p, ch) && A.SoleOwner(e, p, ch)
    requires Enabled(s, e) && !e.LinkUp? && !e.LinkLoss?
    requires dial in OutcomeOf(s, e).effects && dial.Dial? && dial.name == ch
    ensures Shaped(Step(s, e)) && |Step(s, e).dirs| == |s.dirs|
    ensures dial.host == p && X.InRange(dial.port) && ServerOf(Step(s, e).dirs[p], ch) == Some(dial.port)
  {
    EventFine(s, e, p, ch);
    OutcomeStep(s, e);
    OutcomeDial(s, e.node, OutcomeOf(s, e), p, ch, dial);
  }

  lemma OutcomeStep(s: State, e: Event)
    requires Shaped(s) && Enabled(s, e) && !e.LinkUp? && !e.LinkLoss?
    ensures Shaped(Step(s, e)) && Step(s, e).dirs == s.dirs[e.node := OutcomeOf(s, e).dir]
  {
    StepShaped(s, e);
  }

  lemma OutcomeDial(s: State, n: nat, o: Outcome, p: nat, ch: string, dial: Effect)
    requires p < |s.dirs| && n < |s.dirs| && Shaped(s) && Fine(s, p, ch) && OutcomeFine(s, n, o, p, ch)
    requires dial in o.effects && dial.Dial? && dial.name == ch
    ensures dial.host == p && X.InRange(dial.port) && ServerAfter(s, n, o, p, ch) == Some(dial.port)
  {
    assert EffectFine(dial, n, p, ch, ServerAfter(s, n, o, p, ch));
  }

  /**
   Once the messages between a subscriber and the one publisher of its channel have been handled, the
   subscriber holds that publisher's port.
   */
  lemma {:induction false} DrainedSubscriberKnowsPort(locals: seq<set<nat>>, events: seq<Event>, n: nat, i: nat, p: nat)
    requires n < |locals| && p < |locals| && n != p && i < |Run(locals, events).dirs[n].channels|
    requires var ch := Run(locals, events).dirs[n].channels[i].name;
      forall e :: e in events ==> A.SoleOwner(e, p, ch)
    requires X.Wanted(Run(locals, events).dirs[n], Run(locals, events).dirs[n].channels[i])
    requires var s := Run(locals, events);
      X.Queue(s.links[n][p]) == [] && X.Queue(s.links[p][n]) == []
    ensures var s := Run(locals, events);
      var c := s.dirs[n].channels[i];
      c.publisher == Some(p) && c.offered != 0 && ServerOf(s.dirs[p], c.name) == Some(c.offered)
  {
    var s := Run(locals, events);
    var c := s.dirs[n].channels[i];
    RunInv(locals, events, p, c.name);
    X.NoSubscriptionForgotten(locals, events, n, i);
    NotedAt(s, n, i, p);
  }

  lemma NotedAt(s: State, n: nat, i: nat, p: nat)
    requires p < |s.dirs| && n < |s.dirs| && Shaped(s) && i < |s.dirs[n].channels| && Inv(s, p, s.dirs[n].channels[i].name)
    ensures ChanFine(s.dirs[n].channels[i], p, s.dirs[n].channels[i].name, ServerOf(s.dirs[p], s.dirs[n].channels[i].name))
  {
    var ch := s.dirs[n].channels[i].name;
    OwnChan(s, n, ch, p, ch);
    assert A.DirOk(p, ch, n, s.dirs[n]);
    A.FindIs(s.dirs[n].channels, ch, i);
  }
}
