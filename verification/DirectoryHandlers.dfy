/**
 What the handlers of the channel registry do and send, said for every registry and every message,
 whether a run can get there or not.
 */
module DirectoryHandlers {
  import opened Common
  import opened DirectorySpec
  import A = DirectoryAgreement
  import O = OfferOrigin

  /** The registry with the named channel changed to c, and everything else as it was. */
  ghost predicate OnlyChannel(d: Dir, d': Dir, name: string, c: Channel) {
    && d'.me == d.me && d'.ready == d.ready && d'.locals == d.locals
    && c.name == name && Has(d'.channels, name) && Get(d'.channels, name) == c
    && forall other: string :: other != name ==>
         Get(d'.channels, other) == Get(d.channels, other) && (Has(d'.channels, other) <==> Has(d.channels, other))
  }

  lemma SetOnly(d: Dir, name: string, c: Channel)
    requires c.name == name
    ensures OnlyChannel(d, d.(channels := Set(d.channels, name, c)), name, c)
  {
    forall other: string
      ensures Get(Set(d.channels, name, c), other) == if other == name then c else Get(d.channels, other)
    {
      O.GetSet(d.channels, name, c, other);
    }
    forall other: string | other != name ensures Has(Set(d.channels, name, c), other) <==> Has(d.channels, other) {
      SetHas(d.channels, name, c, other);
    }
    SetHas(d.channels, name, c, name);
  }

  lemma SetHas(channels: seq<Channel>, name: string, c: Channel, other: string)
    requires c.name == name
    ensures Has(Set(channels, name, c), other) <==> other == name || Has(channels, other)
  {
    var i, k := Find(channels, name), Find(channels, other);
    var chs := Set(channels, name, c);
    A.FindIs(chs, other, if other == name then i else if k < |channels| then k else |chs|);
  }

  // ---------- what a channel is said to be

  /** P: published here. S: subscribed, and not published here. A: published elsewhere, unsubscribed. N: neither. */
  lemma KindMeans(me: nat, c: Channel)
    ensures Kind(me, c) == 'P' <==> c.publisher == Some(me)
    ensures Kind(me, c) == 'S' <==> c.publisher != Some(me) && c.subs > 0
    ensures Kind(me, c) == 'A' <==> c.publisher.Some? && c.publisher != Some(me) && c.subs == 0
    ensures Kind(me, c) == 'N' <==> c.publisher.None? && c.subs == 0
  {
  }

  // ---------- asking for a port and connecting to it

  /** What a channel sends out to get its subscriptions connected, given its publisher and its port. */
  predicate Connects(me: nat, locals: set<nat>, c: Channel, effects: seq<Effect>) {
    match c.publisher
    case None => effects == []
    case Some(p) =>
      if p == me || c.subs == 0 then effects == []
      else if p in locals then effects == [To(p, ConnectShm(c.name))]
      else if c.offered == 0 then effects == [To(p, ConnectTcp(c.name))]
      else effects == [Dial(c.name, p, c.offered, c.subs)]
  }

  /** A new subscription is counted, and all subscriptions connect or ask for the port. */
  lemma SubscriptionConnects(d: Dir, name: string)
    ensures var o := Subscribe(d, name);
      var c := Get(d.channels, name);
      var c' := Channel(name, c.publisher, c.offered, c.subs + 1, c.server);
      OnlyChannel(d, o.dir, name, c') && Connects(d.me, d.locals, c', o.effects)
  {
    var c := Get(d.channels, name);
    SetOnly(d, name, c.(subs := c.subs + 1));
  }

  /** An offer for a known channel with a publisher is noted, and all its subscriptions dial the port at once. */
  lemma OfferConnects(d: Dir, h: nat, name: string, offer: int, left: map<string, nat>, port: int)
    requires h in d.ready && Has(d.channels, name) && Get(d.channels, name).publisher.Some? && offer != 0
    ensures var o := OnMessage(d, h, OfferTcp(name, offer), left, port);
      var c := Get(d.channels, name);
      && OnlyChannel(d, o.dir, name, Channel(name, c.publisher, offer, c.subs, c.server))
      && o.effects == [Dial(name, c.publisher.value, offer, c.subs)]
  {
    SetOnly(d, name, Get(d.channels, name).(offered := offer));
  }

  /** A request for a known channel is answered with its server's port; the server is made once. */
  lemma RequestAnswered(d: Dir, h: nat, name: string, left: map<string, nat>, port: int)
    requires h in d.ready && Has(d.channels, name)
    ensures var o := OnMessage(d, h, ConnectTcp(name), left, port);
      var c := Get(d.channels, name);
      var server := if c.server.Some? then c.server.value else port;
      && OnlyChannel(d, o.dir, name, Channel(name, c.publisher, c.offered, c.subs, Some(server)))
      && o.effects == [To(h, OfferTcp(name, server))]
  {
    var c := Get(d.channels, name);
    SetOnly(d, name, if c.server.Some? then c else c.(server := Some(port)));
  }

  /** Withdrawals, requests and offers for an unknown channel do nothing and create nothing. */
  lemma UnknownIgnored(d: Dir, h: nat, m: Message, left: map<string, nat>, port: int)
    requires (m.Unpublish? || m.ConnectTcp? || m.OfferTcp?) && !Has(d.channels, m.name)
    ensures OnMessage(d, h, m, left, port) == Outcome(d, [])
  {
  }

  /** Before its CONNECTED nothing else from a host is heard. */
  lemma GateClosed(d: Dir, h: nat, m: Message, left: map<string, nat>, port: int)
    requires h !in d.ready && !m.Hello?
    ensures OnMessage(d, h, m, left, port) == Outcome(d, [])
  {
  }

  // ---------- who publishes

  /** The subscriptions that are left when the publisher of a channel becomes p. */
  function Remaining(c: Channel, p: Option<nat>, left: map<string, nat>): nat {
    if c.publisher.None? || c.publisher == p then c.subs
    else if c.name in left && left[c.name] <= c.subs then left[c.name] else 0
  }

  /**
   The publisher is p, the port known so far is forgotten, the subscriptions stay unless they were
   connected to another publisher, and those that stay ask the new one.
   */
  predicate Republished(me: nat, locals: set<nat>, c: Channel, p: Option<nat>, left: map<string, nat>,
                        c': Channel, effects: seq<Effect>) {
    && c' == Channel(c.name, p, 0, Remaining(c, p, left), c.server)
    && Connects(me, locals, c', effects)
  }

  lemma PublisherSet(me: nat, locals: set<nat>, c: Channel, p: Option<nat>, left: map<string, nat>)
    ensures var t := SetPublisher(me, locals, c, p, left); Republished(me, locals, c, p, left, t.channel, t.effects)
  {
  }

  /** A 'P' statement makes its sender the publisher, whoever was. */
  lemma StatementHeard(d: Dir, h: nat, name: string, owner: Option<nat>, left: map<string, nat>, port: int)
    requires h in d.ready
    ensures var o := OnMessage(d, h, Publish('P', name, owner), left, port);
      var c' := Get(o.dir.channels, name);
      OnlyChannel(d, o.dir, name, c') && Republished(d.me, d.locals, Get(d.channels, name), Some(h), left, c', o.effects)
  {
    var t := SetPublisher(d.me, d.locals, Get(d.channels, name), Some(h), left);
    PublisherSet(d.me, d.locals, Get(d.channels, name), Some(h), left);
    SetOnly(d, name, t.channel);
  }

  /** An 'A' or 'S' statement fills a gap with the host it names, and never displaces a publisher. */
  lemma HearsayHeard(d: Dir, h: nat, kind: char, name: string, owner: Option<nat>, left: map<string, nat>, port: int)
    requires h in d.ready && (kind == 'A' || kind == 'S')
    ensures var o := OnMessage(d, h, Publish(kind, name, owner), left, port);
      var c, c' := Get(d.channels, name), Get(o.dir.channels, name);
      && OnlyChannel(d, o.dir, name, c')
      && if c.publisher.Some? then c' == c && o.effects == [] else Republished(d.me, d.locals, c, owner, left, c', o.effects)
  {
    var c := Get(d.channels, name);
    var t := SetPublisher(d.me, d.locals, c, owner, left);
    PublisherSet(d.me, d.locals, c, owner, left);
    SetOnly(d, name, t.channel);
    SetOnly(d, name, c);
  }

  /** A statement of another kind only makes the channel known. */
  lemma OtherStatementHeard(d: Dir, h: nat, kind: char, name: string, owner: Option<nat>, left: map<string, nat>, port: int)
    requires h in d.ready && kind !in "PAS"
    ensures var o := OnMessage(d, h, Publish(kind, name, owner), left, port);
      OnlyChannel(d, o.dir, name, Get(d.channels, name)) && o.effects == []
  {
    SetOnly(d, name, Get(d.channels, name));
  }

  /** UNPUBLISH leaves a known channel without a publisher, whoever sends it. */
  lemma WithdrawalHeard(d: Dir, h: nat, kind: char, name: string, left: map<string, nat>, port: int)
    requires h in d.ready && Has(d.channels, name)
    ensures var o := OnMessage(d, h, Unpublish(kind, name), left, port);
      var c := Get(d.channels, name);
      && OnlyChannel(d, o.dir, name, Channel(name, None, 0, Remaining(c, None, left), c.server))
      && o.effects == []
  {
    var c := Get(d.channels, name);
    PublisherSet(d.me, d.locals, c, None, left);
    SetOnly(d, name, SetPublisher(d.me, d.locals, c, None, left).channel);
  }

  // ---------- publishing here

  /** The first publish makes this node the publisher and says so once, and says nothing else. */
  lemma PublishSaid(d: Dir, name: string, left: map<string, nat>)
    requires Get(d.channels, name).publisher != Some(d.me)
    ensures var o := PublishHere(d, name, left);
      var c := Get(d.channels, name);
      && OnlyChannel(d, o.dir, name, Channel(name, Some(d.me), 0, Remaining(c, Some(d.me), left), c.server))
      && o.effects == [ToReady(Publish('P', name, Some(d.me)))]
  {
    var c := Get(d.channels, name);
    var t := SetPublisher(d.me, d.locals, c, Some(d.me), left);
    PublisherSet(d.me, d.locals, c, Some(d.me), left);
    SetOnly(d, name, t.channel);
    assert t.effects == [];
  }

  /** Publishing again changes nothing and says nothing. */
  lemma PublishOnce(d: Dir, name: string, left: map<string, nat>, left2: map<string, nat>)
    ensures var o := PublishHere(d, name, left); PublishHere(o.dir, name, left2) == Outcome(o.dir, [])
  {
    if Get(d.channels, name).publisher != Some(d.me) { PublishSaid(d, name, left); }
  }

  /** Unpublishing says so once: with 'S' exactly when a subscription is left, and with 'N' otherwise. */
  lemma UnpublishSaid(d: Dir, name: string, left: map<string, nat>)
    requires Has(d.channels, name)
    ensures var o := UnpublishHere(d, name, left);
      var c := Get(d.channels, name);
      var subs := Remaining(c, None, left);
      && OnlyChannel(d, o.dir, name, Channel(name, None, 0, subs, c.server))
      && o.effects == [ToReady(Unpublish(if subs > 0 then 'S' else 'N', name))]
  {
    var c := Get(d.channels, name);
    PublisherSet(d.me, d.locals, c, None, left);
    var t := SetPublisher(d.me, d.locals, c, None, left);
    SetOnly(d, name, t.channel);
    assert t.effects == [];
  }

  /** CONNECTED opens the gate, and each channel published here is announced to all that are ready. */
  lemma ConnectedHeard(d: Dir, h: nat, left: map<string, nat>, port: int)
    ensures var o := OnMessage(d, h, Hello, left, port);
      && o.dir == Dir(d.me, d.channels, d.ready + {h}, d.locals)
      && |o.effects| == Published(d, |d.channels|)
      && forall k :: 0 <= k < |d.channels| && d.channels[k].publisher == Some(d.me) ==>
           Published(d, k) < |o.effects| && o.effects[Published(d, k)] == ToReady(Publish('P', d.channels[k].name, Some(d.me)))
  {
    AnnouncedAll(d, 0);
    assert Published(d, 0) == 0;
  }

  /** How many of the first k channels are published here. */
  function Published(d: Dir, k: nat): nat
    requires k <= |d.channels|
  {
    if k == 0 then 0 else Published(d, k - 1) + if d.channels[k - 1].publisher == Some(d.me) then 1 else 0
  }

  lemma {:induction false} PublishedMonotone(d: Dir, j: nat, k: nat)
    requires j <= k <= |d.channels|
    ensures Published(d, j) <= Published(d, k)
    decreases k
  {
    if j < k { PublishedMonotone(d, j, k - 1); }
  }

  lemma {:induction false} AnnouncedAll(d: Dir, i: nat)
    requires i <= |d.channels|
    ensures var es := Announce(d.me, d.channels, i);
      && |es| == Published(d, |d.channels|) - Published(d, i)
      && forall k :: i <= k < |d.channels| && d.channels[k].publisher == Some(d.me) ==>
           && 0 <= Published(d, k) - Published(d, i) < |es|
           && es[Published(d, k) - Published(d, i)] == ToReady(Publish('P', d.channels[k].name, Some(d.me)))
    decreases |d.channels| - i
  {
    if i < |d.channels| {
      AnnouncedAll(d, i + 1);
      assert Published(d, i + 1) == Published(d, i) + if d.channels[i].publisher == Some(d.me) then 1 else 0;
      PublishedMonotone(d, i + 1, |d.channels|);
    }
  }
}
