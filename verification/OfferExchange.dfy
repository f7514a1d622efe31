/**
 The CONNECT_TCP / OFFER_TCP exchange: no subscription is forgotten, whoever publishes, re-announces or
 takes a channel over, and whichever links are lost and come up again.
 */
module OfferExchange {
  import opened Common
  import opened DirectorySpec
  import opened DirectoryNet
  import A = DirectoryAgreement

  function Queue(l: Link): seq<Message> {
    if l.Up? then l.queue else []
  }

  predicate OfferIn(queue: seq<Message>, name: string) {
    exists m :: m in queue && m.OfferTcp? && m.name == name
  }

  /** A local subscription to a channel whose publisher p is another host, reached by TCP. */
  predicate Wanted(d: Dir, c: Channel) {
    c.subs > 0 && c.publisher.Some? && c.publisher != Some(d.me) && c.publisher.value !in d.locals
  }

  /** The port is known, or asked for, or on its way; `there` leads to the publisher, `back` from it. */
  predicate Served(c: Channel, there: seq<Message>, back: seq<Message>) {
    c.offered != 0 || ConnectTcp(c.name) in there || OfferIn(back, c.name)
  }

  predicate InRange(port: int) {
    FIRST_PORT <= port <= LAST_PORT
  }

  // ---------- the invariant

  predicate MsgOk(m: Message, sender: Dir) {
    && (m.Publish? ==> m.kind == 'P' && m.owner == Some(sender.me) && Has(sender.channels, m.name))
    && (m.Unpublish? ==> m.kind == 'S' || m.kind == 'N')
    && (m.OfferTcp? ==> InRange(m.port))
  }

  predicate LinkOk(x: nat, y: nat, l: Link, l': Link, ready: bool, sender: Dir) {
    && (l.Up? <==> l'.Up?) && (x == y ==> l.Down?)
    && A.GateOk(l, ready)
    && (forall m :: m in Queue(l) ==> MsgOk(m, sender))
  }

  predicate LinkAt(s: State, x: nat, y: nat)
    requires Shaped(s) && x < |s.dirs| && y < |s.dirs|
  {
    LinkOk(x, y, s.links[x][y], s.links[y][x], x in s.dirs[y].ready, s.dirs[x])
  }

  predicate ChanOk(s: State, d: Dir, n: nat, c: Channel)
    requires Shaped(s) && n < |s.dirs|
  {
    && (c.server.Some? ==> InRange(c.server.value))
    && (c.publisher.Some? && c.publisher.value != n ==>
          var p := c.publisher.value;
          && p < |s.dirs| && s.links[n][p].Up? && Has(s.dirs[p].channels, c.name)
          && (Wanted(d, c) ==> Served(c, Queue(s.links[n][p]), Queue(s.links[p][n]))))
  }

  predicate ChanAt(s: State, n: nat, i: nat)
    requires Shaped(s) && n < |s.dirs| && i < |s.dirs[n].channels|
  {
    ChanOk(s, s.dirs[n], n, s.dirs[n].channels[i])
  }

  ghost predicate Inv(s: State)
    requires Shaped(s)
  {
    && (forall n {:trigger s.dirs[n].me} :: 0 <= n < |s.dirs| ==> s.dirs[n].me == n && A.Unique(s.dirs[n].channels))
    && (forall x, y {:trigger LinkAt(s, x, y)} :: 0 <= x < |s.dirs| && 0 <= y < |s.dirs| ==> LinkAt(s, x, y))
    && (forall n, i {:trigger ChanAt(s, n, i)} ::
          0 <= n < |s.dirs| && 0 <= i < |s.dirs[n].channels| ==> ChanAt(s, n, i))
  }

  lemma InitInv(locals: seq<set<nat>>)
    ensures Inv(Init(locals))
  {
  }

  // ---------- one channel changed by a handler

  /** The registry grew at most at the end, and changed at most at the entry of `name`. */
  predicate Changed(channels: seq<Channel>, channels': seq<Channel>, name: string) {
    && |channels| <= |channels'|
    && (forall i :: 0 <= i < |channels'| && i != Find(channels, name) ==> i < |channels| && channels'[i] == channels[i])
    && (forall i :: 0 <= i < |channels'| && i == Find(channels, name) ==> channels'[i].name == name)
  }

  lemma ChangedHas(channels: seq<Channel>, channels': seq<Channel>, name: string, other: string)
    requires Changed(channels, channels', name) && Has(channels, other)
    ensures Has(channels', other)
  {
    var i := Find(channels, other);
    assert channels'[i].name == other;
    if Find(channels', other) == |channels'| { assert false; }
  }

  lemma SetChanged(channels: seq<Channel>, name: string, c: Channel)
    requires c.name == name
    ensures Changed(channels, Set(channels, name, c), name) && Has(Set(channels, name, c), name)
  {
    A.FindIs(Set(channels, name, c), name, Find(channels, name));
  }

  /** A new channel value is fine if what it needs has just been asked for. */
  predicate TurnOk(d: Dir, n: nat, c: Channel, es: seq<Effect>) {
    && (c.server.Some? ==> InRange(c.server.value))
    && (Wanted(d, c) && c.offered == 0 ==> To(c.publisher.value, ConnectTcp(c.name)) in es)
  }

  lemma SetPublisherTurn(d: Dir, c: Channel, p: Option<nat>, left: map<string, nat>)
    requires c.server.Some? ==> InRange(c.server.value)
    ensures var t := SetPublisher(d.me, d.locals, c, p, left);
      && TurnOk(d, d.me, t.channel, t.effects) && t.channel.publisher == p && t.channel.name == c.name
      && (forall e :: e in t.effects ==> e.Dial? || (e.To? && (e.msg.ConnectTcp? || e.msg.ConnectShm?)))
  {
  }

  lemma {:induction false} PostedHas(es: seq<Effect>, ready: set<nat>, q: nat, m: Message)
    requires To(q, m) in es || (q in ready && ToReady(m) in es)
    ensures m in Posted(es, ready, q)
    decreases |es|
  {
    if es[0] != To(q, m) && !(q in ready && es[0] == ToReady(m)) {
      PostedHas(es[1..], ready, q, m);
    }
  }

  lemma {:induction false} PostedOnly(es: seq<Effect>, ready: set<nat>, q: nat)
    ensures forall m :: m in Posted(es, ready, q) ==> exists e :: e in es && !e.Dial? && e.msg == m
    decreases |es|
  {
    if es != [] {
      PostedOnly(es[1..], ready, q);
      forall m | m in Posted(es, ready, q) ensures exists e :: e in es && !e.Dial? && e.msg == m {
        if m in Posted1(es[0], ready, q) {
          assert es[0] in es && es[0].msg == m;
        } else {
          assert m in Posted(es[1..], ready, q);
          var e :| e in es[1..] && !e.Dial? && e.msg == m;
          assert e in es;
        }
      }
    }
  }

  // ---------- a step of node n: the queue `taken` lost its head, n changed channel `name` and posted effects

  /** Everything a handler outcome must satisfy; checked per handler below. */
  ghost predicate OutcomeOk(s: State, n: nat, o: Outcome, name: string)
    requires Shaped(s) && n < |s.dirs|
  {
    && s.dirs[n].me == n && o.dir.me == n && o.dir.locals == s.dirs[n].locals && A.Unique(o.dir.channels)
    && Changed(s.dirs[n].channels, o.dir.channels, name)
    && (forall e :: e in o.effects && !e.Dial? ==> MsgOk(e.msg, o.dir) && !e.msg.Hello?)
    && (forall i {:trigger o.dir.channels[i]} :: 0 <= i < |o.dir.channels| && i == Find(s.dirs[n].channels, name) ==>
          PartnerOk(s, n, o.dir.channels[i]))
  }

  /** The publisher of a channel is reachable and knows the channel. */
  predicate PartnerOk(s: State, n: nat, c: Channel)
    requires Shaped(s) && n < |s.dirs|
  {
    c.publisher.Some? && c.publisher.value != n ==>
      var p := c.publisher.value;
      p < |s.dirs| && s.links[n][p].Up? && Has(s.dirs[p].channels, c.name)
  }

  lemma LinkPosted(s: State, n: nat, o: Outcome, name: string, x: nat, y: nat)
    requires Shaped(s) && n < |s.dirs| && OutcomeOk(s, n, o, name) && x < |s.dirs| && y < |s.dirs|
    requires LinkAt(s, x, y) && o.dir.ready == s.dirs[n].ready
    ensures LinkAt(Apply(s, n, o), x, y)
  {
    var s' := Apply(s, n, o);
    var l := s.links[x][y];
    if x == n {
      var msgs := Posted(o.effects, o.dir.ready, y);
      PostedOnly(o.effects, o.dir.ready, y);
      A.GateExtend(l, x in s.dirs[y].ready, msgs);
      forall m | m in Queue(s'.links[x][y]) ensures MsgOk(m, o.dir) {
        if m in Queue(l) && m.Publish? {
          ChangedHas(s.dirs[n].channels, o.dir.channels, name, m.name);
        }
      }
    }
  }

  // ---------- channels that the step did not change, or only their server

  /** As far as being served goes, c' is c. */
  predicate SameNeed(c: Channel, c': Channel) {
    c'.(server := None) == c.(server := None)
  }

  /** Up links stay up; what is known stays known. */
  ghost predicate Keeps(s: State, s': State)
    requires Shaped(s) && Shaped(s')
  {
    && |s'.dirs| == |s.dirs|
    && (forall x, y {:trigger s'.links[x][y]} :: 0 <= x < |s.dirs| && 0 <= y < |s.dirs| ==>
          (s.links[x][y].Up? ==> s'.links[x][y].Up?))
    && (forall x, name {:trigger Has(s'.dirs[x].channels, name)} :: 0 <= x < |s.dirs| && Has(s.dirs[x].channels, name) ==>
          Has(s'.dirs[x].channels, name))
  }

  lemma ChanKept(s: State, s': State, m: nat, c: Channel, c': Channel)
    requires Shaped(s) && Shaped(s') && m < |s.dirs| && Keeps(s, s')
    requires ChanOk(s, s.dirs[m], m, c) && SameNeed(c, c') && (c'.server.Some? ==> InRange(c'.server.value))
    requires s'.dirs[m].me == s.dirs[m].me && s'.dirs[m].locals == s.dirs[m].locals
    requires c.publisher.Some? && c.publisher.value != m && Wanted(s.dirs[m], c) ==>
               var p := c.publisher.value;
               Served(c, Queue(s'.links[m][p]), Queue(s'.links[p][m]))
    ensures ChanOk(s', s'.dirs[m], m, c')
  {
  }

  lemma ServedMore(c: Channel, there: seq<Message>, back: seq<Message>, there': seq<Message>, back': seq<Message>)
    requires Served(c, there, back) && there <= there' && back <= back'
    ensures Served(c, there', back')
  {
    if ConnectTcp(c.name) in there {
      var i :| 0 <= i < |there| && there[i] == ConnectTcp(c.name);
      assert there'[i] == ConnectTcp(c.name);
    } else if OfferIn(back, c.name) {
      var m :| m in back && m.OfferTcp? && m.name == c.name;
      var i :| 0 <= i < |back| && back[i] == m;
      assert back'[i] == m;
    }
  }

  // ---------- publish, unpublish, subscribe

  lemma ApplyKeeps(s: State, n: nat, o: Outcome, name: string)
    requires Shaped(s) && n < |s.dirs| && Changed(s.dirs[n].channels, o.dir.channels, name)
    ensures Shaped(Apply(s, n, o)) && Keeps(s, Apply(s, n, o))
  {
    var s' := Apply(s, n, o);
    forall x, other | 0 <= x < |s.dirs| && Has(s.dirs[x].channels, other) ensures Has(s'.dirs[x].channels, other) {
      if x == n { ChangedHas(s.dirs[n].channels, o.dir.channels, name, other); }
    }
  }

  /** The changed channel of n asked for what it needs. */
  lemma ChanAsked(s: State, n: nat, o: Outcome, name: string, i: nat)
    requires Shaped(s) && n < |s.dirs| && OutcomeOk(s, n, o, name) && i < |o.dir.channels|
    requires i == Find(s.dirs[n].channels, name) && TurnOk(o.dir, n, o.dir.channels[i], o.effects)
    ensures ChanAt(Apply(s, n, o), n, i)
  {
    var s' := Apply(s, n, o);
    var c := o.dir.channels[i];
    ApplyKeeps(s, n, o, name);
    if c.publisher.Some? && c.publisher.value != n && Wanted(o.dir, c) && c.offered == 0 {
      PostedHas(o.effects, o.dir.ready, c.publisher.value, ConnectTcp(c.name));
      assert ConnectTcp(c.name) in Queue(s'.links[n][c.publisher.value]);
    }
  }

  lemma ChanIdle(s: State, n: nat, o: Outcome, name: string, m: nat, i: nat)
    requires Shaped(s) && n < |s.dirs| && OutcomeOk(s, n, o, name) && m < |s.dirs| && i < |s.dirs[m].channels|
    requires ChanAt(s, m, i) && (m == n ==> i != Find(s.dirs[n].channels, name))
    requires s.dirs[n].me == n
    ensures i < |Apply(s, n, o).dirs[m].channels| && ChanAt(Apply(s, n, o), m, i)
  {
    var s' := Apply(s, n, o);
    var c := s.dirs[m].channels[i];
    ApplyKeeps(s, n, o, name);
    if c.publisher.Some? && c.publisher.value != m && Wanted(s.dirs[m], c) {
      var p := c.publisher.value;
      ServedMore(c, Queue(s.links[m][p]), Queue(s.links[p][m]), Queue(s'.links[m][p]), Queue(s'.links[p][m]));
    }
    ChanKept(s, s', m, c, c);
  }

  lemma LocalInv(s: State, n: nat, o: Outcome, name: string)
    requires Shaped(s) && n < |s.dirs| && Inv(s) && OutcomeOk(s, n, o, name) && o.dir.ready == s.dirs[n].ready
    requires forall i {:trigger o.dir.channels[i]} :: 0 <= i < |o.dir.channels| && i == Find(s.dirs[n].channels, name) ==>
               TurnOk(o.dir, n, o.dir.channels[i], o.effects)
    ensures Shaped(Apply(s, n, o)) && Inv(Apply(s, n, o))
  {
    var s' := Apply(s, n, o);
    forall x, y | 0 <= x < |s.dirs| && 0 <= y < |s.dirs| ensures LinkAt(s', x, y) {
      assert LinkAt(s, x, y);
      LinkPosted(s, n, o, name, x, y);
    }
    assert s.dirs[n].me == n && s'.dirs[n] == o.dir;
    assert forall m :: 0 <= m < |s.dirs| && m != n ==> s'.dirs[m] == s.dirs[m];
    forall m, i | 0 <= m < |s.dirs| && 0 <= i < |s'.dirs[m].channels| ensures ChanAt(s', m, i) {
      if m == n && i == Find(s.dirs[n].channels, name) {
        ChanAsked(s, n, o, name, i);
      } else {
        assert ChanAt(s, m, i);
        ChanIdle(s, n, o, name, m, i);
      }
    }
  }

  /** A channel whose publisher can be reached and whose server port, if any, is a proper one. */
  predicate GoodChan(s: State, n: nat, c: Channel)
    requires Shaped(s) && n < |s.dirs|
  {
    PartnerOk(s, n, c) && (c.server.Some? ==> InRange(c.server.value))
  }

  /** What holds of the registered channel `name` holds of Get, which may be new. */
  lemma GetOk(s: State, n: nat, name: string)
    requires Shaped(s) && n < |s.dirs| && Inv(s)
    ensures GoodChan(s, n, Get(s.dirs[n].channels, name))
  {
    var i := Find(s.dirs[n].channels, name);
    if i < |s.dirs[n].channels| { assert ChanAt(s, n, i); }
  }

  /** An outcome that updates the channel `name` to c. */
  lemma SetOutcome(s: State, n: nat, name: string, c: Channel, es: seq<Effect>)
    requires Shaped(s) && n < |s.dirs| && s.dirs[n].me == n && A.Unique(s.dirs[n].channels)
    requires c.name == name && PartnerOk(s, n, c)
    requires forall e :: e in es && !e.Dial? ==>
               !e.msg.Hello? && (e.msg.Publish? ==> e.msg.kind == 'P' && e.msg.owner == Some(n) && e.msg.name == name)
               && (e.msg.Unpublish? ==> e.msg.kind == 'S' || e.msg.kind == 'N')
               && (e.msg.OfferTcp? ==> InRange(e.msg.port))
    ensures var o := Outcome(s.dirs[n].(channels := Set(s.dirs[n].channels, name, c)), es);
      OutcomeOk(s, n, o, name) && o.dir.channels[Find(s.dirs[n].channels, name)] == c
  {
    SetChanged(s.dirs[n].channels, name, c);
    A.UniqueSet(s.dirs[n].channels, name, c);
  }

  /** An outcome that changes nothing, for a channel that is not registered or is in order. */
  lemma IdleOutcome(s: State, n: nat, name: string)
    requires Shaped(s) && n < |s.dirs| && s.dirs[n].me == n && A.Unique(s.dirs[n].channels)
    requires PartnerOk(s, n, Get(s.dirs[n].channels, name))
    ensures OutcomeOk(s, n, Outcome(s.dirs[n], []), name)
  {
  }

  /** What a handler leaves in the channel it changed: asked for, or as needy as before. */
  predicate Minded(d: Dir, n: nat, o: Outcome, name: string) {
    forall i {:trigger o.dir.channels[i]} :: 0 <= i < |o.dir.channels| && i == Find(d.channels, name) ==>
      || TurnOk(o.dir, n, o.dir.channels[i], o.effects)
      || (i < |d.channels| && SameNeed(d.channels[i], o.dir.channels[i])
          && (o.dir.channels[i].server.Some? ==> InRange(o.dir.channels[i].server.value)))
  }

  /** setPublisher on the channel `name`, followed perhaps by a broadcast of its own statement. */
  lemma PublisherOutcome(s: State, n: nat, name: string, p: Option<nat>, left: map<string, nat>, last: seq<Effect>)
    requires Shaped(s) && n < |s.dirs| && s.dirs[n].me == n && A.Unique(s.dirs[n].channels)
    requires GoodChan(s, n, Get(s.dirs[n].channels, name))
    requires p.Some? && p.value != n ==> p.value < |s.dirs| && s.links[n][p.value].Up? && Has(s.dirs[p.value].channels, name)
    requires forall e :: e in last ==>
               e.ToReady? && ((e.msg.Publish? && e.msg.kind == 'P' && e.msg.owner == Some(n) && e.msg.name == name)
                                || (e.msg.Unpublish? && (e.msg.kind == 'S' || e.msg.kind == 'N')))
    ensures var d := s.dirs[n];
      var t := SetPublisher(d.me, d.locals, Get(d.channels, name), p, left);
      var o := Outcome(d.(channels := Set(d.channels, name, t.channel)), t.effects + last);
      && OutcomeOk(s, n, o, name)
      && o.dir.channels[Find(d.channels, name)] == t.channel && TurnOk(o.dir, n, t.channel, o.effects)
  {
    var d := s.dirs[n];
    var c := Get(d.channels, name);
    var t := SetPublisher(d.me, d.locals, c, p, left);
    SetPublisherTurn(d, c, p, left);
    SetOutcome(s, n, name, t.channel, t.effects + last);
  }

  lemma ConnectTurn(d: Dir, c: Channel)
    ensures Wanted(d, c) && c.offered == 0 ==> To(c.publisher.value, ConnectTcp(c.name)) in Connect(d.me, d.locals, c)
    ensures forall e :: e in Connect(d.me, d.locals, c) ==> e.Dial? || (e.To? && (e.msg.ConnectTcp? || e.msg.ConnectShm?))
  {
  }

  /** A channel that has just been made to connect has asked for what it needs. */
  lemma ConnectOutcome(s: State, n: nat, name: string, c: Channel, o: Outcome)
    requires Shaped(s) && n < |s.dirs| && s.dirs[n].me == n && A.Unique(s.dirs[n].channels)
    requires c.name == name && GoodChan(s, n, c)
    requires o.dir == s.dirs[n].(channels := Set(s.dirs[n].channels, name, c))
    requires o.effects == Connect(n, s.dirs[n].locals, c)
    ensures OutcomeOk(s, n, o, name)
    ensures TurnOk(o.dir, n, o.dir.channels[Find(s.dirs[n].channels, name)], o.effects)
  {
    ConnectTurn(s.dirs[n], c);
    SetOutcome(s, n, name, c, o.effects);
  }

  /** The channel a node has changed by its own doing has asked for what it needs. */
  predicate Asked(d: Dir, n: nat, o: Outcome, name: string) {
    forall i {:trigger o.dir.channels[i]} :: 0 <= i < |o.dir.channels| && i == Find(d.channels, name) ==>
      TurnOk(o.dir, n, o.dir.channels[i], o.effects)
  }

  lemma LocalOutcome(s: State, e: Event) returns (o: Outcome)
    requires e.Publishes? || e.Unpublishes? || e.Subscribes?
    requires Shaped(s) && Inv(s) && Enabled(s, e)
    ensures Step(s, e) == Apply(s, e.node, o) && OutcomeOk(s, e.node, o, e.name) && o.dir.ready == s.dirs[e.node].ready
    ensures Asked(s.dirs[e.node], e.node, o, e.name)
  {
    var n, name := e.node, e.name;
    var d := s.dirs[n];
    assert d.me == n;
    GetOk(s, n, name);
    if e.Subscribes? {
      o := Subscribe(d, name);
      var c := Get(d.channels, name);
      ConnectOutcome(s, n, name, c.(subs := c.subs + 1), o);
    } else if e.Publishes? {
      o := PublishHere(d, name, e.left);
      PublishOutcome(s, n, name, e.left);
    } else {
      o := UnpublishHere(d, name, e.left);
      UnpublishOutcome(s, n, name, e.left);
    }
  }

  lemma PublishOutcome(s: State, n: nat, name: string, left: map<string, nat>)
    requires Shaped(s) && n < |s.dirs| && s.dirs[n].me == n && A.Unique(s.dirs[n].channels)
    requires GoodChan(s, n, Get(s.dirs[n].channels, name))
    ensures var o := PublishHere(s.dirs[n], name, left);
      OutcomeOk(s, n, o, name) && Asked(s.dirs[n], n, o, name)
  {
    var d := s.dirs[n];
    var t := SetPublisher(n, d.locals, Get(d.channels, name), Some(n), left);
    PublisherOutcome(s, n, name, Some(n), left, [ToReady(Publish(Kind(n, t.channel), name, t.channel.publisher))]);
    IdleOutcome(s, n, name);
  }

  lemma UnpublishOutcome(s: State, n: nat, name: string, left: map<string, nat>)
    requires Shaped(s) && n < |s.dirs| && s.dirs[n].me == n && A.Unique(s.dirs[n].channels)
    requires GoodChan(s, n, Get(s.dirs[n].channels, name))
    ensures var o := UnpublishHere(s.dirs[n], name, left);
      OutcomeOk(s, n, o, name) && Asked(s.dirs[n], n, o, name)
  {
    var d := s.dirs[n];
    var t := SetPublisher(n, d.locals, Get(d.channels, name), None, left);
    PublisherOutcome(s, n, name, None, left, [ToReady(Unpublish(Kind(n, t.channel), name))]);
    IdleOutcome(s, n, name);
  }

  // ---------- a message is handled

  /** The queue from x to n has lost its head, and x is ready at n if that head was CONNECTED. */
  function Popped(s: State, x: nat, n: nat): State
    requires Shaped(s) && x < |s.dirs| && n < |s.dirs| && s.links[x][n].Up? && s.links[x][n].queue != []
  {
    var q := s.links[x][n].queue;
    var d := s.dirs[n];
    State(s.dirs[n := if q[0].Hello? then d.(ready := d.ready + {x}) else d], SetLink(s.links, x, n, Up(q[1..])))
  }

  lemma PoppedLink(s: State, x: nat, n: nat, u: nat, v: nat)
    requires Shaped(s) && Inv(s) && x < |s.dirs| && n < |s.dirs| && s.links[x][n].Up? && s.links[x][n].queue != []
    requires u < |s.dirs| && v < |s.dirs|
    ensures Shaped(Popped(s, x, n)) && LinkAt(Popped(s, x, n), u, v)
  {
    var q := s.links[x][n].queue;
    assert LinkAt(s, u, v) && LinkAt(s, x, n);
    assert forall m :: m in q[1..] ==> m in q;
    assert q[0] in q;
  }

  /** The name a message is about; CONNECTED and CONNECT_SHM change no channel. */
  function Topic(m: Message): string {
    if m.Hello? then "" else m.name
  }

  lemma HelloOutcome(s: State, x: nat, n: nat, left: map<string, nat>, port: int)
    requires Shaped(s) && Inv(s) && Enabled(s, Delivers(x, n, left, port)) && s.links[x][n].queue[0].Hello?
    ensures var o := OnMessage(s.dirs[n], x, Hello, left, port);
      && Deliver(s, x, n, left, port) == Apply(Popped(s, x, n), n, o)
      && o.dir == Popped(s, x, n).dirs[n]
      && (forall e :: e in o.effects && !e.Dial? ==> MsgOk(e.msg, o.dir) && !e.msg.Hello?)
  {
    var d := s.dirs[n];
    assert d.me == n;
    AnnounceOk(n, d.channels, 0, d);
    var o := OnMessage(d, x, Hello, left, port);
    assert Deliver(s, x, n, left, port).dirs == Apply(Popped(s, x, n), n, o).dirs;
  }

  lemma {:induction false} AnnounceOk(me: nat, channels: seq<Channel>, i: nat, d: Dir)
    requires d.channels == channels && A.Unique(channels)
    ensures forall e :: e in Announce(me, channels, i) ==>
              e.ToReady? && e.msg.Publish? && e.msg.kind == 'P' && e.msg.owner == Some(me) && Has(channels, e.msg.name)
    decreases |channels| - i
  {
    if i < |channels| {
      AnnounceOk(me, channels, i + 1, d);
      A.FindIs(channels, channels[i].name, i);
    }
  }

  lemma OfferOutcome(s: State, n: nat, h: nat, name: string, port: int)
    requires Shaped(s) && n < |s.dirs| && s.dirs[n].me == n && A.Unique(s.dirs[n].channels) && InRange(port)
    requires GoodChan(s, n, Get(s.dirs[n].channels, name))
    ensures var o := MakeOffer(s.dirs[n], h, name, port);
      OutcomeOk(s, n, o, name) && Minded(s.dirs[n], n, o, name)
  {
    var c := Get(s.dirs[n].channels, name);
    var c' := if c.server.Some? then c else c.(server := Some(port));
    SetOutcome(s, n, name, c', [To(h, OfferTcp(name, c'.server.value))]);
    IdleOutcome(s, n, name);
  }

  lemma AnswerOutcome(s: State, n: nat, name: string, port: int)
    requires Shaped(s) && n < |s.dirs| && s.dirs[n].me == n && A.Unique(s.dirs[n].channels) && InRange(port)
    requires GoodChan(s, n, Get(s.dirs[n].channels, name))
    ensures var o := AnswerOffer(s.dirs[n], name, port);
      OutcomeOk(s, n, o, name) && Minded(s.dirs[n], n, o, name)
  {
    var c := Get(s.dirs[n].channels, name).(offered := port);
    SetOutcome(s, n, name, c, ConnectByTcp(c));
    IdleOutcome(s, n, name);
  }

  /** The gate is open for a signalling message at the head of a queue, and what the handler needs is there. */
  lemma HeadFacts(s: State, x: nat, n: nat, left: map<string, nat>, port: int)
    requires Shaped(s) && Inv(s) && Enabled(s, Delivers(x, n, left, port)) && !s.links[x][n].queue[0].Hello?
    ensures var m := s.links[x][n].queue[0];
      var s1 := Popped(s, x, n);
      && x in s.dirs[n].ready && x != n && s1.dirs == s.dirs && s.dirs[n].me == n && A.Unique(s.dirs[n].channels)
      && Shaped(s1) && s1.links[n][x].Up? && MsgOk(m, s.dirs[x]) && InRange(port)
      && Deliver(s, x, n, left, port) == Apply(s1, n, OnMessage(s.dirs[n], x, m, left, port))
      && (forall c :: PartnerOk(s, n, c) ==> PartnerOk(s1, n, c))
  {
    assert LinkAt(s, x, n) && LinkAt(s, n, x);
    assert s.links[x][n].queue[0] in Queue(s.links[x][n]);
    assert s.dirs[n].me == n;
  }

  lemma HandlerOutcome(s: State, x: nat, n: nat, left: map<string, nat>, port: int)
    requires Shaped(s) && Inv(s) && Enabled(s, Delivers(x, n, left, port)) && !s.links[x][n].queue[0].Hello?
    ensures var m := s.links[x][n].queue[0];
      var o := OnMessage(s.dirs[n], x, m, left, port);
      && Shaped(Popped(s, x, n)) && o.dir.ready == s.dirs[n].ready
      && OutcomeOk(Popped(s, x, n), n, o, Topic(m)) && Minded(s.dirs[n], n, o, Topic(m))
  {
    var d := s.dirs[n];
    var m := s.links[x][n].queue[0];
    var s1 := Popped(s, x, n);
    HeadFacts(s, x, n, left, port);
    GetOk(s, n, Topic(m));
    HandlerCases(s1, x, n, m, left, port);
  }

  /** setPublisher as a received statement asks for it. */
  lemma HeardPublisher(s: State, n: nat, name: string, p: Option<nat>, left: map<string, nat>)
    requires Shaped(s) && n < |s.dirs| && s.dirs[n].me == n && A.Unique(s.dirs[n].channels)
    requires GoodChan(s, n, Get(s.dirs[n].channels, name))
    requires p.Some? && p.value != n ==> p.value < |s.dirs| && s.links[n][p.value].Up? && Has(s.dirs[p.value].channels, name)
    ensures var d := s.dirs[n];
      var t := SetPublisher(d.me, d.locals, Get(d.channels, name), p, left);
      var o := Outcome(d.(channels := Set(d.channels, name, t.channel)), t.effects);
      OutcomeOk(s, n, o, name) && Minded(d, n, o, name)
  {
    var t := SetPublisher(n, s.dirs[n].locals, Get(s.dirs[n].channels, name), p, left);
    assert t.effects + [] == t.effects;
    PublisherOutcome(s, n, name, p, left, []);
  }

  lemma HandlerCases(s: State, x: nat, n: nat, m: Message, left: map<string, nat>, port: int)
    requires Shaped(s) && n < |s.dirs| && s.dirs[n].me == n && A.Unique(s.dirs[n].channels) && InRange(port)
    requires x < |s.dirs| && x != n && x in s.dirs[n].ready && s.links[n][x].Up? && MsgOk(m, s.dirs[x]) && !m.Hello?
    requires GoodChan(s, n, Get(s.dirs[n].channels, m.name))
    ensures var o := OnMessage(s.dirs[n], x, m, left, port);
      o.dir.ready == s.dirs[n].ready && OutcomeOk(s, n, o, m.name) && Minded(s.dirs[n], n, o, m.name)
  {
    match m
    case Publish(kind, name, owner) => HeardPublisher(s, n, name, Some(x), left);
    case Unpublish(_, name) =>
      HeardPublisher(s, n, name, None, left);
      IdleOutcome(s, n, name);
    case ConnectTcp(name) => OfferOutcome(s, n, x, name, port);
    case OfferTcp(name, p) => AnswerOutcome(s, n, name, p);
    case ConnectShm(name) => IdleOutcome(s, n, name);
  }

  // ---------- being served survives the delivery

  /** What the queue from u to v becomes when the head of x to n is handled. */
  lemma QueueAfter(s: State, x: nat, n: nat, o: Outcome, u: nat, v: nat)
    requires Shaped(s) && x < |s.dirs| && n < |s.dirs| && x != n && s.links[x][n].Up? && s.links[x][n].queue != []
    requires u < |s.dirs| && v < |s.dirs|
    ensures var s' := Apply(Popped(s, x, n), n, o);
      && Queue(s'.links[u][v])
         == (if u == x && v == n then s.links[x][n].queue[1..]
             else if u == n && s.links[u][v].Up? then Queue(s.links[u][v]) + Posted(o.effects, o.dir.ready, v)
             else Queue(s.links[u][v]))
      && (s.links[u][v].Up? ==> s'.links[u][v].Up?)
  {
  }

  /** A request that was under way has become an offer under way, or is still there. */
  lemma StillServed(s: State, x: nat, n: nat, left: map<string, nat>, port: int, u: nat, i: nat)
    requires Shaped(s) && Inv(s) && Enabled(s, Delivers(x, n, left, port)) && !s.links[x][n].queue[0].Hello?
    requires u < |s.dirs| && i < |s.dirs[u].channels| && Wanted(s.dirs[u], s.dirs[u].channels[i])
    requires u == n ==> i != Find(s.dirs[n].channels, Topic(s.links[x][n].queue[0])) || !s.links[x][n].queue[0].OfferTcp?
    ensures var c := s.dirs[u].channels[i];
      var p := c.publisher.value;
      var s' := Deliver(s, x, n, left, port);
      && p < |s.dirs| && s.dirs[u].me == u && p != u
      && Served(c, Queue(s'.links[u][p]), Queue(s'.links[p][u]))
  {
    var c := s.dirs[u].channels[i];
    var p := c.publisher.value;
    var m := s.links[x][n].queue[0];
    var o := OnMessage(s.dirs[n], x, m, left, port);
    var s' := Deliver(s, x, n, left, port);
    assert s.dirs[u].me == u && ChanAt(s, u, i);
    HeadFacts(s, x, n, left, port);
    QueueAfter(s, x, n, o, u, p);
    QueueAfter(s, x, n, o, p, u);
    if c.offered != 0 {
    } else if ConnectTcp(c.name) in Queue(s.links[u][p]) {
      if ConnectTcp(c.name) !in Queue(s'.links[u][p]) {
        assert u == x && p == n && m == ConnectTcp(c.name);
        var answer := o.effects[0];
        assert o.effects == [answer] && answer.To? && answer.host == u && answer.msg.OfferTcp? && answer.msg.name == c.name;
        PostedHas(o.effects, o.dir.ready, u, answer.msg);
        assert s.links[p][u].Up?;
        assert answer.msg in Queue(s'.links[p][u]);
      }
    } else {
      var offer :| offer in Queue(s.links[p][u]) && offer.OfferTcp? && offer.name == c.name;
      A.FindIs(s.dirs[u].channels, c.name, i);
      assert offer in Queue(s'.links[p][u]);
    }
  }

  lemma DeliverChan(s: State, x: nat, n: nat, left: map<string, nat>, port: int, u: nat, i: nat)
    requires Shaped(s) && Inv(s) && Enabled(s, Delivers(x, n, left, port)) && !s.links[x][n].queue[0].Hello?
    requires u < |s.dirs| && i < |Deliver(s, x, n, left, port).dirs[u].channels|
    ensures ChanAt(Deliver(s, x, n, left, port), u, i)
  {
    var m := s.links[x][n].queue[0];
    var o := OnMessage(s.dirs[n], x, m, left, port);
    HeadFacts(s, x, n, left, port);
    HandlerOutcome(s, x, n, left, port);
    if u == n && i == Find(s.dirs[n].channels, Topic(m)) && (m.OfferTcp? || TurnOk(o.dir, n, o.dir.channels[i], o.effects)) {
      if m.OfferTcp? { AnswerTurn(s.dirs[n], m.name, m.port, i); }
      ChanAsked(Popped(s, x, n), n, o, Topic(m), i);
    } else {
      DeliverKept(s, x, n, left, port, u, i);
    }
  }

  lemma AnswerTurn(d: Dir, name: string, port: int, i: nat)
    requires i < |AnswerOffer(d, name, port).dir.channels| && i == Find(d.channels, name) && InRange(port)
    requires Get(d.channels, name).server.Some? ==> InRange(Get(d.channels, name).server.value)
    ensures var o := AnswerOffer(d, name, port); TurnOk(o.dir, d.me, o.dir.channels[i], o.effects)
  {
  }

  /** A channel the delivery did not make ask for anything is served as before. */
  lemma DeliverKept(s: State, x: nat, n: nat, left: map<string, nat>, port: int, u: nat, i: nat)
    requires Shaped(s) && Inv(s) && Enabled(s, Delivers(x, n, left, port)) && !s.links[x][n].queue[0].Hello?
    requires u < |s.dirs| && i < |Deliver(s, x, n, left, port).dirs[u].channels|
    requires var m := s.links[x][n].queue[0];
      var o := OnMessage(s.dirs[n], x, m, left, port);
      u == n && i == Find(s.dirs[n].channels, Topic(m)) ==>
        !m.OfferTcp? && !TurnOk(o.dir, n, o.dir.channels[i], o.effects)
    ensures ChanAt(Deliver(s, x, n, left, port), u, i)
  {
    DeliverSame(s, x, n, left, port, u, i);
    DeliverKeeps(s, x, n, left, port);
    var s' := Deliver(s, x, n, left, port);
    var c := s.dirs[u].channels[i];
    assert ChanAt(s, u, i);
    if Wanted(s.dirs[u], c) { StillServed(s, x, n, left, port, u, i); }
    ChanKept(s, s', u, c, s'.dirs[u].channels[i]);
  }

  lemma DeliverKeeps(s: State, x: nat, n: nat, left: map<string, nat>, port: int)
    requires Shaped(s) && Inv(s) && Enabled(s, Delivers(x, n, left, port)) && !s.links[x][n].queue[0].Hello?
    ensures Shaped(Deliver(s, x, n, left, port)) && Keeps(s, Deliver(s, x, n, left, port))
  {
    var m := s.links[x][n].queue[0];
    var s1 := Popped(s, x, n);
    HeadFacts(s, x, n, left, port);
    HandlerOutcome(s, x, n, left, port);
    ApplyKeeps(s1, n, OnMessage(s.dirs[n], x, m, left, port), Topic(m));
    assert Keeps(s1, Deliver(s, x, n, left, port));
  }

  /** Such a channel was there, and needs what it needed. */
  lemma DeliverSame(s: State, x: nat, n: nat, left: map<string, nat>, port: int, u: nat, i: nat)
    requires Shaped(s) && Inv(s) && Enabled(s, Delivers(x, n, left, port)) && !s.links[x][n].queue[0].Hello?
    requires u < |s.dirs| && i < |Deliver(s, x, n, left, port).dirs[u].channels|
    requires var m := s.links[x][n].queue[0];
      var o := OnMessage(s.dirs[n], x, m, left, port);
      u == n && i == Find(s.dirs[n].channels, Topic(m)) ==>
        !m.OfferTcp? && !TurnOk(o.dir, n, o.dir.channels[i], o.effects)
    ensures var d, d' := s.dirs[u], Deliver(s, x, n, left, port).dirs[u];
      && d.me == u && d'.me == u && d'.locals == d.locals
      && i < |d.channels| && SameNeed(d.channels[i], d'.channels[i])
      && (d'.channels[i].server.Some? ==> InRange(d'.channels[i].server.value))
  {
    HeadFacts(s, x, n, left, port);
    HandlerOutcome(s, x, n, left, port);
    assert s.dirs[u].me == u;
    assert u != n ==> Deliver(s, x, n, left, port).dirs[u] == s.dirs[u];
    if i < |s.dirs[u].channels| { assert ChanAt(s, u, i); }
  }

  lemma DeliverInv(s: State, x: nat, n: nat, left: map<string, nat>, port: int)
    requires Shaped(s) && Inv(s) && Enabled(s, Delivers(x, n, left, port)) && !s.links[x][n].queue[0].Hello?
    ensures Shaped(Deliver(s, x, n, left, port)) && Inv(Deliver(s, x, n, left, port))
  {
    var o := OnMessage(s.dirs[n], x, s.links[x][n].queue[0], left, port);
    var s1 := Popped(s, x, n);
    var s' := Deliver(s, x, n, left, port);
    HeadFacts(s, x, n, left, port);
    HandlerOutcome(s, x, n, left, port);
    forall u, v | 0 <= u < |s.dirs| && 0 <= v < |s.dirs| ensures LinkAt(s', u, v) {
      PoppedLink(s, x, n, u, v);
      LinkPosted(s1, n, o, Topic(s.links[x][n].queue[0]), u, v);
    }
    forall u, i | 0 <= u < |s.dirs| && 0 <= i < |s'.dirs[u].channels| ensures ChanAt(s', u, i) {
      DeliverChan(s, x, n, left, port, u, i);
    }
    assert forall u :: 0 <= u < |s.dirs| && u != n ==> s'.dirs[u] == s.dirs[u];
  }

  lemma HelloInv(s: State, x: nat, n: nat, left: map<string, nat>, port: int)
    requires Shaped(s) && Inv(s) && Enabled(s, Delivers(x, n, left, port)) && s.links[x][n].queue[0].Hello?
    ensures Shaped(Deliver(s, x, n, left, port)) && Inv(Deliver(s, x, n, left, port))
  {
    var o := OnMessage(s.dirs[n], x, Hello, left, port);
    var s1 := Popped(s, x, n);
    var s' := Deliver(s, x, n, left, port);
    HelloOutcome(s, x, n, left, port);
    assert LinkAt(s, x, n) && s.dirs[n].me == n;
    assert OutcomeOk(s1, n, o, "") by { HelloPartner(s, x, n); }
    forall u, v | 0 <= u < |s.dirs| && 0 <= v < |s.dirs| ensures LinkAt(s', u, v) {
      PoppedLink(s, x, n, u, v);
      LinkPosted(s1, n, o, "", u, v);
    }
    forall u, i | 0 <= u < |s.dirs| && 0 <= i < |s'.dirs[u].channels| ensures ChanAt(s', u, i) {
      HelloChan(s, x, n, left, port, u, i);
    }
    assert forall u :: 0 <= u < |s.dirs| ==> s'.dirs[u].channels == s.dirs[u].channels && s'.dirs[u].me == s.dirs[u].me;
  }

  lemma HelloPartner(s: State, x: nat, n: nat)
    requires Shaped(s) && Inv(s) && x < |s.dirs| && n < |s.dirs| && s.links[x][n].Up? && s.links[x][n].queue != []
    ensures Shaped(Popped(s, x, n))
    ensures forall i :: 0 <= i < |s.dirs[n].channels| ==> PartnerOk(Popped(s, x, n), n, s.dirs[n].channels[i])
  {
    forall i | 0 <= i < |s.dirs[n].channels| ensures PartnerOk(Popped(s, x, n), n, s.dirs[n].channels[i]) {
      assert ChanAt(s, n, i);
    }
  }

  lemma HelloChan(s: State, x: nat, n: nat, left: map<string, nat>, port: int, u: nat, i: nat)
    requires Shaped(s) && Inv(s) && Enabled(s, Delivers(x, n, left, port)) && s.links[x][n].queue[0].Hello?
    requires u < |s.dirs| && i < |s.dirs[u].channels|
    ensures i < |Deliver(s, x, n, left, port).dirs[u].channels| && ChanAt(Deliver(s, x, n, left, port), u, i)
  {
    var s' := Deliver(s, x, n, left, port);
    HelloOutcome(s, x, n, left, port);
    HelloKeeps(s, x, n, left, port);
    assert ChanAt(s, u, i) && s.dirs[u].me == u;
    var c := s.dirs[u].channels[i];
    if c.publisher.Some? && c.publisher.value != u && Wanted(s.dirs[u], c) { HelloServed(s, x, n, left, port, u, c); }
    ChanKept(s, s', u, c, c);
  }

  lemma HelloKeeps(s: State, x: nat, n: nat, left: map<string, nat>, port: int)
    requires Shaped(s) && Inv(s) && Enabled(s, Delivers(x, n, left, port)) && s.links[x][n].queue[0].Hello?
    ensures Shaped(Deliver(s, x, n, left, port)) && Keeps(s, Deliver(s, x, n, left, port))
  {
    var o := OnMessage(s.dirs[n], x, Hello, left, port);
    HelloOutcome(s, x, n, left, port);
    assert LinkAt(s, x, n);
    forall a, b | 0 <= a < |s.dirs| && 0 <= b < |s.dirs| && s.links[a][b].Up?
      ensures Deliver(s, x, n, left, port).links[a][b].Up?
    {
      QueueAfter(s, x, n, o, a, b);
    }
  }

  lemma HelloServed(s: State, x: nat, n: nat, left: map<string, nat>, port: int, u: nat, c: Channel)
    requires Shaped(s) && Inv(s) && Enabled(s, Delivers(x, n, left, port)) && s.links[x][n].queue[0].Hello?
    requires u < |s.dirs| && c.publisher.Some? && c.publisher.value < |s.dirs|
    requires Served(c, Queue(s.links[u][c.publisher.value]), Queue(s.links[c.publisher.value][u]))
    ensures var p, s' := c.publisher.value, Deliver(s, x, n, left, port);
      Served(c, Queue(s'.links[u][p]), Queue(s'.links[p][u]))
  {
    var o := OnMessage(s.dirs[n], x, Hello, left, port);
    var p, s' := c.publisher.value, Deliver(s, x, n, left, port);
    HelloOutcome(s, x, n, left, port);
    assert LinkAt(s, x, n);
    QueueAfter(s, x, n, o, u, p);
    QueueAfter(s, x, n, o, p, u);
    HeadGone(s.links[u][p], s.links[p][u], c, Queue(s'.links[u][p]), Queue(s'.links[p][u]));
  }

  /** Losing a CONNECTED at the head and gaining messages at the end serves as well as before. */
  lemma HeadGone(l: Link, l': Link, c: Channel, there: seq<Message>, back: seq<Message>)
    requires Served(c, Queue(l), Queue(l'))
    requires Queue(l) <= there || (Queue(l) != [] && Queue(l)[0] == Hello && Queue(l)[1..] <= there)
    requires Queue(l') <= back || (Queue(l') != [] && Queue(l')[0] == Hello && Queue(l')[1..] <= back)
    ensures Served(c, there, back)
  {
    var a := if Queue(l) <= there then Queue(l) else Queue(l)[1..];
    var b := if Queue(l') <= back then Queue(l') else Queue(l')[1..];
    assert Served(c, a, b) by {
      if OfferIn(Queue(l'), c.name) {
        var m :| m in Queue(l') && m.OfferTcp? && m.name == c.name;
        assert m in b;
      }
    }
    ServedMore(c, a, b, there, back);
  }

  lemma LinkUpInv(s: State, a: nat, b: nat)
    requires Shaped(s) && Inv(s) && Enabled(s, LinkUp(a, b))
    ensures Shaped(Step(s, LinkUp(a, b))) && Inv(Step(s, LinkUp(a, b)))
  {
    var s' := Step(s, LinkUp(a, b));
    forall n | 0 <= n < |s.dirs| ensures s'.dirs[n].me == n && A.Unique(s'.dirs[n].channels) {
      assert s.dirs[n].me == n;
    }
    forall x, y | 0 <= x < |s.dirs| && 0 <= y < |s.dirs| ensures LinkAt(s', x, y) { assert LinkAt(s, x, y); }
    forall u, i | 0 <= u < |s.dirs| && 0 <= i < |s'.dirs[u].channels| ensures ChanAt(s', u, i) {
      LinkUpChan(s, a, b, u, i);
    }
  }

  /** A channel with a publisher elsewhere has its link up already. */
  lemma LinkUpChan(s: State, a: nat, b: nat, u: nat, i: nat)
    requires Shaped(s) && Inv(s) && Enabled(s, LinkUp(a, b)) && u < |s.dirs| && i < |s.dirs[u].channels|
    ensures Shaped(Step(s, LinkUp(a, b))) && Step(s, LinkUp(a, b)).dirs == s.dirs && ChanAt(Step(s, LinkUp(a, b)), u, i)
  {
    assert ChanAt(s, u, i) && s.dirs[u].me == u;
    var c := s.dirs[u].channels[i];
    if c.publisher.Some? && c.publisher.value != u { assert LinkAt(s, u, c.publisher.value); }
  }

  // ---------- a link is lost

  lemma LossHas(d: Dir, h: nat, left: map<string, nat>, name: string)
    requires Has(d.channels, name)
    ensures Has(OnLoss(d, h, left).channels, name)
  {
    A.FindIs(CloseAll(d, h, left), name, Find(d.channels, name));
  }

  /** What the loss of a link makes of node n: nothing, or what on_close does. */
  lemma LossDirs(s: State, e: Event, n: nat)
    requires Shaped(s) && e.LinkLoss? && Enabled(s, e) && n < |s.dirs|
    ensures Shaped(Step(s, e)) && |Step(s, e).dirs| == |s.dirs|
    ensures Step(s, e).dirs[n]
            == if n == e.a then OnLoss(s.dirs[n], e.b, e.leftA)
               else if n == e.b then OnLoss(s.dirs[n], e.a, e.leftB) else s.dirs[n]
  {
    StepShaped(s, e);
  }

  lemma LossLinks(s: State, e: Event, x: nat, y: nat)
    requires Shaped(s) && e.LinkLoss? && Enabled(s, e) && x < |s.dirs| && y < |s.dirs|
    ensures Shaped(Step(s, e)) && |Step(s, e).dirs| == |s.dirs|
    ensures Step(s, e).links[x][y] == if (x == e.a && y == e.b) || (x == e.b && y == e.a) then Down else s.links[x][y]
  {
    StepShaped(s, e);
  }

  /** Registries never shrink, also when a link is lost. */
  lemma LossKeepsHas(s: State, e: Event, n: nat, name: string)
    requires Shaped(s) && e.LinkLoss? && Enabled(s, e) && n < |s.dirs| && Has(s.dirs[n].channels, name)
    ensures Shaped(Step(s, e)) && |Step(s, e).dirs| == |s.dirs| && Has(Step(s, e).dirs[n].channels, name)
  {
    LossDirs(s, e, n);
    if n == e.a { LossHas(s.dirs[n], e.b, e.leftA, name); }
    else if n == e.b { LossHas(s.dirs[n], e.a, e.leftB, name); }
  }

  lemma LossLinkAt(s: State, e: Event, x: nat, y: nat)
    requires Shaped(s) && Inv(s) && e.LinkLoss? && Enabled(s, e) && x < |s.dirs| && y < |s.dirs|
    ensures Shaped(Step(s, e)) && |Step(s, e).dirs| == |s.dirs| && LinkAt(Step(s, e), x, y)
  {
    var s' := Step(s, e);
    LossLinks(s, e, x, y);
    LossLinks(s, e, y, x);
    LossDirs(s, e, x);
    LossDirs(s, e, y);
    assert LinkAt(s, x, y);
    forall m | m in Queue(s'.links[x][y]) ensures MsgOk(m, s'.dirs[x]) {
      assert m in Queue(s.links[x][y]) && MsgOk(m, s.dirs[x]);
      if m.Publish? { LossKeepsHas(s, e, x, m.name); }
    }
  }

  /** A channel keeps its publisher only if the link to it is not the lost one. */
  lemma LossChanAt(s: State, e: Event, u: nat, i: nat)
    requires Shaped(s) && Inv(s) && e.LinkLoss? && Enabled(s, e) && u < |s.dirs| && i < |s.dirs[u].channels|
    ensures Shaped(Step(s, e)) && |Step(s, e).dirs| == |s.dirs| && i < |Step(s, e).dirs[u].channels|
    ensures ChanAt(Step(s, e), u, i)
  {
    var s' := Step(s, e);
    LossDirs(s, e, u);
    assert ChanAt(s, u, i) && s.dirs[u].me == u;
    var c, c' := s.dirs[u].channels[i], s'.dirs[u].channels[i];
    if c'.publisher.Some? && c'.publisher.value != u {
      var p := c'.publisher.value;
      assert c' == c;
      LossLinks(s, e, u, p);
      LossLinks(s, e, p, u);
      LossKeepsHas(s, e, p, c.name);
    }
  }

  lemma LossInv(s: State, e: Event)
    requires Shaped(s) && Inv(s) && e.LinkLoss? && Enabled(s, e)
    ensures Shaped(Step(s, e)) && |Step(s, e).dirs| == |s.dirs| && Inv(Step(s, e))
  {
    var s' := Step(s, e);
    StepShaped(s, e);
    forall n | 0 <= n < |s.dirs| ensures s'.dirs[n].me == n && A.Unique(s'.dirs[n].channels) {
      assert s.dirs[n].me == n;
      LossDirs(s, e, n);
      if n == e.a { A.LossUnique(s.dirs[n], e.b, e.leftA); } else if n == e.b { A.LossUnique(s.dirs[n], e.a, e.leftB); }
    }
    forall x, y | 0 <= x < |s.dirs| && 0 <= y < |s.dirs| ensures LinkAt(s', x, y) { LossLinkAt(s, e, x, y); }
    forall u, i | 0 <= u < |s.dirs| && 0 <= i < |s'.dirs[u].channels| ensures ChanAt(s', u, i) {
      LossDirs(s, e, u);
      LossChanAt(s, e, u, i);
    }
  }

  // ---------- every run

  lemma StepInv(s: State, e: Event)
    requires Shaped(s) && Inv(s)
    ensures Shaped(Step(s, e)) && |Step(s, e).dirs| == |s.dirs| && Inv(Step(s, e))
  {
    StepShaped(s, e);
    if Enabled(s, e) {
      if e.LinkUp? {
        LinkUpInv(s, e.a, e.b);
      } else if e.LinkLoss? {
        LossInv(s, e);
      } else if e.Delivers? {
        if s.links[e.from][e.node].queue[0].Hello? { HelloInv(s, e.from, e.node, e.left, e.port); }
        else { DeliverInv(s, e.from, e.node, e.left, e.port); }
      } else {
        var o := LocalOutcome(s, e);
        LocalInv(s, e.node, o, e.name);
      }
    }
  }

  lemma {:induction false} RunInv(locals: seq<set<nat>>, events: seq<Event>)
    ensures Inv(Run(locals, events))
    decreases |events|
  {
    if events == [] {
      InitInv(locals);
    } else {
      var last := |events| - 1;
      RunInv(locals, events[..last]);
      StepInv(Run(locals, events[..last]), events[last]);
    }
  }

  /**
   No subscription is forgotten: after every run, whatever links were lost and came up again, a channel
   with local subscriptions and a publisher elsewhere, reached by TCP, has its link up, and has an offered
   port, or a CONNECT_TCP is on its way to that publisher, or an OFFER_TCP is on its way back.
   */
  lemma {:induction false} NoSubscriptionForgotten(locals: seq<set<nat>>, events: seq<Event>, n: nat, i: nat)
    requires n < |locals|
    requires i < |Run(locals, events).dirs[n].channels|
    requires Wanted(Run(locals, events).dirs[n], Run(locals, events).dirs[n].channels[i])
    ensures var s := Run(locals, events);
      var c := s.dirs[n].channels[i];
      var p := c.publisher.value;
      && p < |s.dirs| && p != n && s.links[n][p].Up? && s.links[p][n].Up?
      && (c.offered != 0 || ConnectTcp(c.name) in s.links[n][p].queue || OfferIn(s.links[p][n].queue, c.name))
      && (s.links[n][p].queue == [] && s.links[p][n].queue == [] ==> c.offered != 0)
  {
    var s := Run(locals, events);
    RunInv(locals, events);
    assert ChanAt(s, n, i) && s.dirs[n].me == n;
    assert LinkAt(s, n, s.dirs[n].channels[i].publisher.value);
  }

  /**
   Every PUBLISH in flight is of type 'P' and names its sender, every UNPUBLISH says that the channel is
   at most subscribed to, and every offer is of a port of the configured range.
   */
  lemma {:induction false} InFlightSound(locals: seq<set<nat>>, events: seq<Event>, x: nat, y: nat, m: Message)
    requires x < |locals| && y < |locals|
    requires Run(locals, events).links[x][y].Up? && m in Run(locals, events).links[x][y].queue
    ensures m.Publish? ==> m.kind == 'P' && m.owner == Some(x) && Has(Run(locals, events).dirs[x].channels, m.name)
    ensures m.Unpublish? ==> m.kind == 'S' || m.kind == 'N'
    ensures m.OfferTcp? ==> FIRST_PORT <= m.port <= LAST_PORT
    ensures m == Run(locals, events).links[x][y].queue[0] && !m.Hello? ==> x in Run(locals, events).dirs[y].ready
  {
    RunInv(locals, events);
    assert LinkAt(Run(locals, events), x, y);
    assert m in Queue(Run(locals, events).links[x][y]);
  }
}
