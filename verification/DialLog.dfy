/**
 What a node has dialled so far. A subscription whose port is known has been connected to it: the log of
 every run holds the dial, to the publisher, on that port, with all subscriptions counted.
 */
module DialLog {
  import opened Common
  import opened DirectorySpec
  import opened DirectoryNet
  import A = DirectoryAgreement
  import X = OfferExchange
  import O = OfferOrigin
  import H = DirectoryHandlers

  /** The event runs a handler at node n. */
  predicate RunsAt(s: State, e: Event, n: nat)
    requires Shaped(s)
  {
    Enabled(s, e) && !e.LinkUp? && !e.LinkLoss? && e.node == n
  }

  /** All the effects node n has had in a run, in order. */
  function Log(locals: seq<set<nat>>, events: seq<Event>, n: nat): seq<Effect> {
    if events == [] then []
    else
      var before, e := events[..|events| - 1], events[|events| - 1];
      var s := Run(locals, before);
      Log(locals, before, n) + if RunsAt(s, e, n) then O.OutcomeOf(s, e).effects else []
  }

  /** A wanted channel with a known port has been dialled, as it stands. */
  predicate Dialled(d: Dir, c: Channel, log: seq<Effect>) {
    X.Wanted(d, c) && c.offered != 0 ==> Dial(c.name, c.publisher.value, c.offered, c.subs) in log
  }

  /** As far as dialling goes, c' is c. */
  predicate SameCall(c: Channel, c': Channel) {
    c'.name == c.name && c'.publisher == c.publisher && c'.offered == c.offered && c'.subs == c.subs
  }

  /** A handler leaves a channel as it was, or dials it if that is what it needs now. */
  ghost predicate Attended(d: Dir, o: Outcome) {
    && o.dir.me == d.me && o.dir.locals == d.locals
    && forall ch: string :: SameCall(Get(d.channels, ch), Get(o.dir.channels, ch))
                            || Dialled(o.dir, Get(o.dir.channels, ch), o.effects)
  }

  // ---------- the handlers

  lemma OnlyAttended(d: Dir, o: Outcome, name: string, c: Channel)
    requires H.OnlyChannel(d, o.dir, name, c)
    requires SameCall(Get(d.channels, name), c) || Dialled(o.dir, c, o.effects)
    ensures Attended(d, o)
  {
    forall ch: string
      ensures SameCall(Get(d.channels, ch), Get(o.dir.channels, ch)) || Dialled(o.dir, Get(o.dir.channels, ch), o.effects)
    {
      if ch != name { assert Get(o.dir.channels, ch) == Get(d.channels, ch); }
    }
  }

  lemma SubscribeAttended(d: Dir, name: string)
    ensures Attended(d, Subscribe(d, name))
  {
    H.SubscriptionConnects(d, name);
    OnlyAttended(d, Subscribe(d, name), name, Get(Subscribe(d, name).dir.channels, name));
  }

  lemma StatedAttended(d: Dir, name: string, left: map<string, nat>)
    ensures Attended(d, PublishHere(d, name, left)) && Attended(d, UnpublishHere(d, name, left))
  {
    if Get(d.channels, name).publisher != Some(d.me) {
      H.PublishSaid(d, name, left);
      OnlyAttended(d, PublishHere(d, name, left), name, Get(PublishHere(d, name, left).dir.channels, name));
    }
    if Has(d.channels, name) {
      H.UnpublishSaid(d, name, left);
      OnlyAttended(d, UnpublishHere(d, name, left), name, Get(UnpublishHere(d, name, left).dir.channels, name));
    }
  }

  lemma MessageAttended(d: Dir, h: nat, m: Message, left: map<string, nat>, port: int)
    requires m.OfferTcp? ==> m.port != 0
    ensures Attended(d, OnMessage(d, h, m, left, port))
  {
    var o := OnMessage(d, h, m, left, port);
    if m.Hello? || m.ConnectShm? {
    } else if h !in d.ready {
      H.GateClosed(d, h, m, left, port);
    } else if (m.Unpublish? || m.ConnectTcp? || m.OfferTcp?) && !Has(d.channels, m.name) {
      H.UnknownIgnored(d, h, m, left, port);
    } else {
      KnownAttended(d, h, m, left, port);
      OnlyAttended(d, o, m.name, Get(o.dir.channels, m.name));
    }
  }

  lemma KnownAttended(d: Dir, h: nat, m: Message, left: map<string, nat>, port: int)
    requires h in d.ready && !m.Hello? && !m.ConnectShm? && (m.OfferTcp? ==> m.port != 0)
    requires m.Publish? || Has(d.channels, m.name)
    ensures var o := OnMessage(d, h, m, left, port);
      var c, c' := Get(d.channels, m.name), Get(o.dir.channels, m.name);
      H.OnlyChannel(d, o.dir, m.name, c') && (SameCall(c, c') || Dialled(o.dir, c', o.effects))
  {
    match m
    case Publish(kind, name, owner) =>
      if kind == 'P' { H.StatementHeard(d, h, name, owner, left, port); }
      else if kind == 'A' || kind == 'S' { H.HearsayHeard(d, h, kind, name, owner, left, port); }
      else { H.OtherStatementHeard(d, h, kind, name, owner, left, port); }
    case Unpublish(kind, name) => H.WithdrawalHeard(d, h, kind, name, left, port);
    case ConnectTcp(name) => H.RequestAnswered(d, h, name, left, port);
    case OfferTcp(name, offer) =>
      H.SetOnly(d, name, Get(d.channels, name).(offered := offer));
      if Get(d.channels, name).publisher.Some? { H.OfferConnects(d, h, name, offer, left, port); }
  }

  lemma EventAttended(s: State, e: Event)
    requires Shaped(s) && X.Inv(s) && Enabled(s, e) && !e.LinkUp? && !e.LinkLoss?
    ensures Attended(s.dirs[e.node], O.OutcomeOf(s, e))
  {
    match e
    case Publishes(n, name, left) => StatedAttended(s.dirs[n], name, left);
    case Unpublishes(n, name, left) => StatedAttended(s.dirs[n], name, left);
    case Subscribes(n, name) => SubscribeAttended(s.dirs[n], name);
    case Delivers(x, n, left, port) =>
      assert X.LinkAt(s, x, n) && s.links[x][n].queue[0] in X.Queue(s.links[x][n]);
      MessageAttended(s.dirs[n], x, s.links[x][n].queue[0], left, port);
  }

  // ---------- every run

  ghost predicate AllDialled(d: Dir, log: seq<Effect>) {
    forall ch: string :: Dialled(d, Get(d.channels, ch), log)
  }

  lemma AttendedDialled(d: Dir, o: Outcome, log: seq<Effect>)
    requires AllDialled(d, log) && Attended(d, o)
    ensures AllDialled(o.dir, log + o.effects)
  {
    forall ch: string ensures Dialled(o.dir, Get(o.dir.channels, ch), log + o.effects) {
      assert Dialled(d, Get(d.channels, ch), log);
    }
  }

  lemma LossDialled(d: Dir, h: nat, left: map<string, nat>, log: seq<Effect>)
    requires AllDialled(d, log)
    ensures AllDialled(OnLoss(d, h, left), log)
  {
    forall ch: string ensures Dialled(OnLoss(d, h, left), Get(OnLoss(d, h, left).channels, ch), log) {
      assert Dialled(d, Get(d.channels, ch), log);
      A.FindIs(CloseAll(d, h, left), ch, Find(d.channels, ch));
    }
  }

  lemma StepDialled(s: State, e: Event, n: nat, log: seq<Effect>)
    requires Shaped(s) && X.Inv(s) && n < |s.dirs| && AllDialled(s.dirs[n], log)
    ensures Shaped(Step(s, e)) && |Step(s, e).dirs| == |s.dirs|
    ensures AllDialled(Step(s, e).dirs[n], log + if RunsAt(s, e, n) then O.OutcomeOf(s, e).effects else [])
  {
    StepShaped(s, e);
    if RunsAt(s, e, n) {
      EventAttended(s, e);
      O.OutcomeStep(s, e);
      AttendedDialled(s.dirs[n], O.OutcomeOf(s, e), log);
    } else {
      assert log + [] == log;
      if Enabled(s, e) {
        if e.LinkLoss? {
          X.LossDirs(s, e, n);
          if n == e.a { LossDialled(s.dirs[n], e.b, e.leftA, log); } else if n == e.b { LossDialled(s.dirs[n], e.a, e.leftB, log); }
        } else if !e.LinkUp? {
          O.OutcomeStep(s, e);
        }
      }
    }
  }

  lemma {:induction false} RunDialled(locals: seq<set<nat>>, events: seq<Event>, n: nat)
    requires n < |locals|
    ensures AllDialled(Run(locals, events).dirs[n], Log(locals, events, n))
    decreases |events|
  {
    if events != [] {
      var before, e := events[..|events| - 1], events[|events| - 1];
      RunDialled(locals, before, n);
      X.RunInv(locals, before);
      StepDialled(Run(locals, before), e, n, Log(locals, before, n));
    }
  }

  /**
   In every run, losses included: a channel with subscriptions here and a publisher elsewhere, reached by
   TCP, whose port is known, has been dialled at that publisher, on that port, with as many subscriptions
   as it has now.
   */
  lemma {:induction false} KnownPortWasDialled(locals: seq<set<nat>>, events: seq<Event>, n: nat, i: nat)
    requires n < |locals| && i < |Run(locals, events).dirs[n].channels|
    requires var d := Run(locals, events).dirs[n]; X.Wanted(d, d.channels[i]) && d.channels[i].offered != 0
    ensures var c := Run(locals, events).dirs[n].channels[i];
      Dial(c.name, c.publisher.value, c.offered, c.subs) in Log(locals, events, n)
  {
    X.RunInv(locals, events);
    RunDialled(locals, events, n);
    Registered(Run(locals, events), n, i);
  }

  lemma Registered(s: State, n: nat, i: nat)
    requires Shaped(s) && X.Inv(s) && n < |s.dirs| && i < |s.dirs[n].channels|
    ensures Get(s.dirs[n].channels, s.dirs[n].channels[i].name) == s.dirs[n].channels[i]
  {
    assert s.dirs[n].me == n;
    A.FindIs(s.dirs[n].channels, s.dirs[n].channels[i].name, i);
  }

  /**
   In every run, losses included: when the next message handled is an offer of a channel wanted there, its
   subscriptions dial the publisher on the port offered, once, all of them, and nothing else happens.
   */
  lemma {:induction false} OfferIsDialled(locals: seq<set<nat>>, events: seq<Event>, e: Event, i: nat)
    requires e.Delivers? && Enabled(Run(locals, events), e) && i < |Run(locals, events).dirs[e.node].channels|
    requires var s := Run(locals, events);
      var m, d := s.links[e.from][e.node].queue[0], s.dirs[e.node];
      m.OfferTcp? && m.name == d.channels[i].name && X.Wanted(d, d.channels[i])
    ensures var s := Run(locals, events);
      var m, c := s.links[e.from][e.node].queue[0], s.dirs[e.node].channels[i];
      O.OutcomeOf(s, e).effects == [Dial(c.name, c.publisher.value, m.port, c.subs)]
  {
    X.RunInv(locals, events);
    OfferDials(Run(locals, events), e, i);
  }

  lemma OfferDials(s: State, e: Event, i: nat)
    requires Shaped(s) && X.Inv(s) && e.Delivers? && Enabled(s, e) && i < |s.dirs[e.node].channels|
    requires var m, d := s.links[e.from][e.node].queue[0], s.dirs[e.node];
      m.OfferTcp? && m.name == d.channels[i].name && X.Wanted(d, d.channels[i])
    ensures var m, c := s.links[e.from][e.node].queue[0], s.dirs[e.node].channels[i];
      O.OutcomeOf(s, e).effects == [Dial(c.name, c.publisher.value, m.port, c.subs)]
  {
    var m := s.links[e.from][e.node].queue[0];
    X.HeadFacts(s, e.from, e.node, e.left, e.port);
    Registered(s, e.node, i);
    A.FindIs(s.dirs[e.node].channels, m.name, i);
    H.OfferConnects(s.dirs[e.node], e.from, m.name, m.port, e.left, e.port);
  }

  /** In every run nobody asks a publisher on the same host, or itself, for a port by TCP. */
  lemma {:induction false} RequestsGoAbroad(locals: seq<set<nat>>, events: seq<Event>, e: Event, h: nat, name: string)
    requires Enabled(Run(locals, events), e) && !e.LinkUp? && !e.LinkLoss?
    requires To(h, ConnectTcp(name)) in O.OutcomeOf(Run(locals, events), e).effects
    ensures h != e.node && h !in Run(locals, events).dirs[e.node].locals
  {
    X.RunInv(locals, events);
    EventAbroad(Run(locals, events), e, h, name);
  }

  /** Requests by TCP go to hosts that are neither this one nor local. */
  predicate Abroad(d: Dir, es: seq<Effect>) {
    forall k :: 0 <= k < |es| && es[k].To? && es[k].msg.ConnectTcp? ==> es[k].host != d.me && es[k].host !in d.locals
  }

  lemma EventAbroad(s: State, e: Event, h: nat, name: string)
    requires Shaped(s) && X.Inv(s) && Enabled(s, e) && !e.LinkUp? && !e.LinkLoss?
    requires To(h, ConnectTcp(name)) in O.OutcomeOf(s, e).effects
    ensures h != e.node && h !in s.dirs[e.node].locals
  {
    var d := s.dirs[e.node];
    assert d.me == e.node;
    match e
    case Publishes(n, name, left) =>
      if Get(d.channels, name).publisher != Some(d.me) { H.PublishSaid(d, name, left); }
    case Unpublishes(n, name, left) =>
      if Has(d.channels, name) { H.UnpublishSaid(d, name, left); }
    case Subscribes(n, name) => H.SubscriptionConnects(d, name);
    case Delivers(x, n, left, port) =>
      assert X.LinkAt(s, x, n) && s.links[x][n].queue[0] in X.Queue(s.links[x][n]);
      MessageAbroad(d, x, s.links[x][n].queue[0], left, port);
      var es := O.OutcomeOf(s, e).effects;
      var k :| 0 <= k < |es| && es[k] == To(h, ConnectTcp(name));
  }

  lemma MessageAbroad(d: Dir, h: nat, m: Message, left: map<string, nat>, port: int)
    requires m.OfferTcp? ==> m.port != 0
    ensures Abroad(d, OnMessage(d, h, m, left, port).effects)
  {
    if m.Hello? { AnnounceAbroad(d, 0); }
    else if h in d.ready {
      match m
      case Publish(kind, name, owner) =>
        if kind == 'P' { H.StatementHeard(d, h, name, owner, left, port); }
        else if kind == 'A' || kind == 'S' { H.HearsayHeard(d, h, kind, name, owner, left, port); }
        else { H.OtherStatementHeard(d, h, kind, name, owner, left, port); }
      case Unpublish(kind, name) => if Has(d.channels, name) { H.WithdrawalHeard(d, h, kind, name, left, port); }
      case ConnectTcp(name) => if Has(d.channels, name) { H.RequestAnswered(d, h, name, left, port); }
      case OfferTcp(name, offer) =>
        if Has(d.channels, name) && Get(d.channels, name).publisher.Some? { H.OfferConnects(d, h, name, offer, left, port); }
      case ConnectShm(_) =>
    }
  }

  lemma {:induction false} AnnounceAbroad(d: Dir, i: nat)
    ensures Abroad(d, Announce(d.me, d.channels, i))
    decreases |d.channels| - i
  {
    if i < |d.channels| { AnnounceAbroad(d, i + 1); }
  }
}
