/**
 The exchange ends: every message handled lowers the total weight of the messages in flight, so a
 network whose users have stopped publishing and subscribing drains after a bounded number of steps.
 */
module OfferTermination {
  import opened Common
  import opened DirectorySpec
  import opened DirectoryNet
  import A = DirectoryAgreement
  import X = OfferExchange

  /** A PUBLISH may cause a CONNECT_TCP, which may cause an OFFER_TCP, which causes nothing. */
  function Weight(m: Message, hello: nat): nat {
    match m
    case Hello => hello
    case Publish(_, _, _) => 3
    case ConnectTcp(_) => 2
    case OfferTcp(_, _) => 1
    case Unpublish(_, _) => 1
    case ConnectShm(_) => 1
  }

  function QueueWeight(queue: seq<Message>, hello: nat): nat {
    if queue == [] then 0 else Weight(queue[0], hello) + QueueWeight(queue[1..], hello)
  }

  function RowWeight(row: seq<Link>, hello: nat): nat {
    if row == [] then 0 else QueueWeight(X.Queue(row[0]), hello) + RowWeight(row[1..], hello)
  }

  function Total(links: seq<seq<Link>>, hello: nat): nat {
    if links == [] then 0 else RowWeight(links[0], hello) + Total(links[1..], hello)
  }

  // ---------- sums

  lemma {:induction false} QueueAppend(a: seq<Message>, b: seq<Message>, hello: nat)
    ensures QueueWeight(a + b, hello) == QueueWeight(a, hello) + QueueWeight(b, hello)
    decreases |a|
  {
    if a == [] {
      assert a + b == b;
    } else {
      assert (a + b)[0] == a[0] && (a + b)[1..] == a[1..] + b;
      QueueAppend(a[1..], b, hello);
    }
  }

  lemma {:induction false} RowUpdate(row: seq<Link>, i: nat, l: Link, hello: nat)
    requires i < |row|
    ensures RowWeight(row[i := l], hello) + QueueWeight(X.Queue(row[i]), hello)
            == RowWeight(row, hello) + QueueWeight(X.Queue(l), hello)
    decreases |row|
  {
    if i == 0 {
      assert row[i := l][1..] == row[1..];
    } else {
      assert row[i := l][1..] == row[1..][i - 1 := l];
      RowUpdate(row[1..], i - 1, l, hello);
    }
  }

  lemma {:induction false} TotalUpdate(links: seq<seq<Link>>, i: nat, row: seq<Link>, hello: nat)
    requires i < |links|
    ensures Total(links[i := row], hello) + RowWeight(links[i], hello) == Total(links, hello) + RowWeight(row, hello)
    decreases |links|
  {
    if i == 0 {
      assert links[i := row][1..] == links[1..];
    } else {
      assert links[i := row][1..] == links[1..][i - 1 := row];
      TotalUpdate(links[1..], i - 1, row, hello);
    }
  }

  /** What a list of effects weighs on the links to nodes from..to-1. */
  function Cost(effects: seq<Effect>, ready: set<nat>, from: nat, upto: nat, hello: nat): nat
    requires from <= upto
    decreases upto - from
  {
    if from == upto then 0
    else QueueWeight(Posted(effects, ready, from), hello) + Cost(effects, ready, from + 1, upto, hello)
  }

  /** The links to nodes from, from + 1, ... after a list of effects. */
  function RowAfter(row: seq<Link>, effects: seq<Effect>, ready: set<nat>, from: nat): seq<Link> {
    if row == [] then []
    else [Extend(row[0], Posted(effects, ready, from))] + RowAfter(row[1..], effects, ready, from + 1)
  }

  lemma {:induction false} RowAfterAt(row: seq<Link>, effects: seq<Effect>, ready: set<nat>, from: nat)
    ensures var r := RowAfter(row, effects, ready, from);
      |r| == |row| && forall q :: 0 <= q < |row| ==> r[q] == Extend(row[q], Posted(effects, ready, from + q))
    decreases |row|
  {
    if row != [] {
      RowAfterAt(row[1..], effects, ready, from + 1);
      var rest := RowAfter(row[1..], effects, ready, from + 1);
      forall q | 1 <= q < |row| ensures rest[q - 1] == Extend(row[q], Posted(effects, ready, from + q)) {
        assert rest[q - 1] == Extend(row[1..][q - 1], Posted(effects, ready, (from + 1) + (q - 1)));
      }
    }
  }

  lemma LinkPosted(l: Link, msgs: seq<Message>, hello: nat)
    ensures QueueWeight(X.Queue(Extend(l, msgs)), hello) <= QueueWeight(X.Queue(l), hello) + QueueWeight(msgs, hello)
  {
    if l.Up? { QueueAppend(l.queue, msgs, hello); }
  }

  lemma RowSplit(l: Link, rest: seq<Link>, hello: nat)
    ensures RowWeight([l] + rest, hello) == QueueWeight(X.Queue(l), hello) + RowWeight(rest, hello)
  {
    assert ([l] + rest)[1..] == rest;
  }

  lemma {:induction false} RowPosted(row: seq<Link>, effects: seq<Effect>, ready: set<nat>, from: nat, hello: nat)
    ensures RowWeight(RowAfter(row, effects, ready, from), hello)
            <= RowWeight(row, hello) + Cost(effects, ready, from, from + |row|, hello)
    decreases |row|
  {
    if row != [] {
      RowPosted(row[1..], effects, ready, from + 1, hello);
      LinkPosted(row[0], Posted(effects, ready, from), hello);
      RowSplit(Extend(row[0], Posted(effects, ready, from)), RowAfter(row[1..], effects, ready, from + 1), hello);
    }
  }

  // ---------- what the handlers post

  lemma {:induction false} CostNothing(effects: seq<Effect>, ready: set<nat>, from: nat, upto: nat, hello: nat)
    requires from <= upto && (effects == [] || (|effects| == 1 && effects[0].Dial?))
    ensures Cost(effects, ready, from, upto, hello) == 0
    decreases upto - from
  {
    if from < upto {
      CostNothing(effects, ready, from + 1, upto, hello);
      if effects != [] { assert effects[1..] == []; }
      assert Posted(effects, ready, from) == [];
    }
  }

  lemma One(m: Message, hello: nat)
    ensures QueueWeight([m], hello) == Weight(m, hello)
  {
    assert [m][1..] == [];
  }

  lemma {:induction false} CostOne(h: nat, m: Message, ready: set<nat>, from: nat, upto: nat, hello: nat)
    requires from <= upto
    ensures Cost([To(h, m)], ready, from, upto, hello) == (if from <= h < upto then Weight(m, hello) else 0)
    decreases upto - from
  {
    if from < upto {
      CostOne(h, m, ready, from + 1, upto, hello);
      assert [To(h, m)][1..] == [];
      assert Posted([To(h, m)], ready, from) == if h == from then [m] else [];
      One(m, hello);
    }
  }

  /** The handler of any message but CONNECTED posts less than it took. */
  lemma HandlerCost(d: Dir, h: nat, m: Message, left: map<string, nat>, port: int, count: nat, hello: nat)
    requires !m.Hello? && (m.OfferTcp? ==> m.port != 0)
    ensures var o := OnMessage(d, h, m, left, port);
      Cost(o.effects, o.dir.ready, 0, count, hello) < Weight(m, hello)
  {
    var o := OnMessage(d, h, m, left, port);
    HandlerShape(d, h, m, left, port);
    if |o.effects| == 1 && o.effects[0].To? {
      assert o.effects == [To(o.effects[0].host, o.effects[0].msg)];
      CostOne(o.effects[0].host, o.effects[0].msg, o.dir.ready, 0, count, hello);
    } else {
      CostNothing(o.effects, o.dir.ready, 0, count, hello);
    }
  }

  /** One answer at most, and a lighter one. */
  lemma HandlerShape(d: Dir, h: nat, m: Message, left: map<string, nat>, port: int)
    requires !m.Hello? && (m.OfferTcp? ==> m.port != 0)
    ensures var es := OnMessage(d, h, m, left, port).effects;
      || es == [] || (|es| == 1 && es[0].Dial?)
      || (|es| == 1 && es[0].To? && forall hello :: Weight(es[0].msg, hello) < Weight(m, hello))
  {
  }

  /** How many channels a node publishes. */
  function Own(me: nat, channels: seq<Channel>): nat {
    if channels == [] then 0 else (if channels[0].publisher == Some(me) then 1 else 0) + Own(me, channels[1..])
  }

  lemma {:induction false} OwnSuffix(me: nat, channels: seq<Channel>, i: nat)
    requires i < |channels|
    ensures Own(me, channels[i..]) == (if channels[i].publisher == Some(me) then 1 else 0) + Own(me, channels[i + 1..])
  {
    assert channels[i..][1..] == channels[i + 1..];
  }

  /** The announcement of one channel weighs three on each ready link, if it is made. */
  lemma {:induction false} AnnounceStep(me: nat, channels: seq<Channel>, i: nat, ready: set<nat>, q: nat, hello: nat)
    requires i < |channels|
    ensures QueueWeight(Posted(Announce(me, channels, i), ready, q), hello)
            <= (if channels[i].publisher == Some(me) then 3 else 0)
               + QueueWeight(Posted(Announce(me, channels, i + 1), ready, q), hello)
  {
    var rest := Announce(me, channels, i + 1);
    if channels[i].publisher == Some(me) {
      var e := ToReady(Publish(Kind(me, channels[i]), channels[i].name, channels[i].publisher));
      PostedCons(e, rest, ready, q);
      QueueAppend(Posted1(e, ready, q), Posted(rest, ready, q), hello);
      One(e.msg, hello);
    } else {
      assert [] + rest == rest;
    }
  }

  lemma {:induction false} PostedCons(e: Effect, rest: seq<Effect>, ready: set<nat>, q: nat)
    ensures Posted([e] + rest, ready, q) == Posted1(e, ready, q) + Posted(rest, ready, q)
  {
    assert ([e] + rest)[1..] == rest;
  }

  lemma {:induction false} AnnounceCost(me: nat, channels: seq<Channel>, i: nat, ready: set<nat>, q: nat, hello: nat)
    requires i <= |channels|
    ensures QueueWeight(Posted(Announce(me, channels, i), ready, q), hello) <= 3 * Own(me, channels[i..])
    decreases |channels| - i
  {
    if i < |channels| {
      AnnounceCost(me, channels, i + 1, ready, q, hello);
      AnnounceStep(me, channels, i, ready, q, hello);
      OwnSuffix(me, channels, i);
    }
  }

  /** k times a */
  function Times(a: nat, k: nat): nat {
    if k == 0 then 0 else a + Times(a, k - 1)
  }

  lemma {:induction false} CostBounded(effects: seq<Effect>, ready: set<nat>, from: nat, upto: nat, hello: nat, each: nat)
    requires from <= upto && forall q :: from <= q < upto ==> QueueWeight(Posted(effects, ready, q), hello) <= each
    ensures Cost(effects, ready, from, upto, hello) <= Times(each, upto - from)
    decreases upto - from
  {
    if from < upto { CostBounded(effects, ready, from + 1, upto, hello, each); }
  }

  lemma HelloCost(d: Dir, h: nat, left: map<string, nat>, port: int, count: nat, hello: nat)
    ensures var o := OnMessage(d, h, Hello, left, port);
      Cost(o.effects, o.dir.ready, 0, count, hello) <= Times(3 * Own(d.me, d.channels), count)
  {
    var o := OnMessage(d, h, Hello, left, port);
    forall q | 0 <= q < count ensures QueueWeight(Posted(o.effects, o.dir.ready, q), hello) <= 3 * Own(d.me, d.channels) {
      AnnounceCost(d.me, d.channels, 0, o.dir.ready, q, hello);
      assert d.channels[0..] == d.channels;
    }
    CostBounded(o.effects, o.dir.ready, 0, count, hello, 3 * Own(d.me, d.channels));
  }

  // ---------- one delivery

  lemma PostTotal(links: seq<seq<Link>>, n: nat, o: Outcome, count: nat, hello: nat)
    requires n < |links| && |links[n]| == count
    ensures Total(PostAll(links, n, o.dir.ready, o.effects), hello)
            <= Total(links, hello) + Cost(o.effects, o.dir.ready, 0, count, hello)
  {
    var row := links[n];
    RowPosted(row, o.effects, o.dir.ready, 0, hello);
    var row' := RowAfter(row, o.effects, o.dir.ready, 0);
    RowAfterAt(row, o.effects, o.dir.ready, 0);
    assert PostAll(links, n, o.dir.ready, o.effects)[n] == row';
    assert PostAll(links, n, o.dir.ready, o.effects) == links[n := row'];
    TotalUpdate(links, n, row', hello);
  }

  lemma DeliverTotal(s: State, x: nat, n: nat, left: map<string, nat>, port: int, hello: nat)
    requires Shaped(s) && Enabled(s, Delivers(x, n, left, port)) && x != n
    ensures var m := s.links[x][n].queue[0];
      var o := OnMessage(s.dirs[n], x, m, left, port);
      Total(Deliver(s, x, n, left, port).links, hello) + Weight(m, hello)
      <= Total(s.links, hello) + Cost(o.effects, o.dir.ready, 0, |s.dirs|, hello)
  {
    var q := s.links[x][n].queue;
    var o := OnMessage(s.dirs[n], x, q[0], left, port);
    var l' := Up(q[1..]);
    var links1 := SetLink(s.links, x, n, l');
    RowUpdate(s.links[x], n, l', hello);
    TotalUpdate(s.links, x, s.links[x][n := l'], hello);
    assert links1 == s.links[x := s.links[x][n := l']];
    assert QueueWeight(q, hello) == Weight(q[0], hello) + QueueWeight(q[1..], hello);
    PostTotal(links1, n, o, |s.dirs|, hello);
  }

  /** Nobody publishes more than b channels, and a CONNECTED outweighs all it can announce. */
  predicate Bounded(s: State, b: nat, hello: nat) {
    && hello > Times(3 * b, |s.dirs|)
    && forall n :: 0 <= n < |s.dirs| ==> Own(s.dirs[n].me, s.dirs[n].channels) <= b
  }

  lemma {:induction false} OwnUpdate(me: nat, channels: seq<Channel>, i: nat, c: Channel)
    requires i < |channels| && c.publisher != Some(me)
    ensures Own(me, channels[i := c]) <= Own(me, channels)
    decreases |channels|
  {
    if i == 0 {
      assert channels[i := c][1..] == channels[1..];
    } else {
      assert channels[i := c][1..] == channels[1..][i - 1 := c];
      OwnUpdate(me, channels[1..], i - 1, c);
    }
  }

  lemma {:induction false} OwnSame(me: nat, channels: seq<Channel>, i: nat, c: Channel)
    requires i < |channels| && c.publisher == channels[i].publisher
    ensures Own(me, channels[i := c]) == Own(me, channels)
    decreases |channels|
  {
    if i == 0 {
      assert channels[i := c][1..] == channels[1..];
    } else {
      assert channels[i := c][1..] == channels[1..][i - 1 := c];
      OwnSame(me, channels[1..], i - 1, c);
    }
  }

  lemma {:induction false} OwnAppend(me: nat, channels: seq<Channel>, c: Channel)
    requires c.publisher != Some(me)
    ensures Own(me, channels + [c]) == Own(me, channels)
    decreases |channels|
  {
    if channels == [] {
      assert [c][1..] == [] && [] + [c] == [c];
    } else {
      assert (channels + [c])[1..] == channels[1..] + [c];
      OwnAppend(me, channels[1..], c);
    }
  }

  lemma OwnSet(me: nat, channels: seq<Channel>, name: string, c: Channel)
    requires c.publisher != Some(me) || c.publisher == Get(channels, name).publisher
    ensures Own(me, Set(channels, name, c)) <= Own(me, channels)
  {
    var chs, i := Ensure(channels, name), Find(channels, name);
    if i == |channels| { OwnAppend(me, channels, NewChannel(name)); }
    if c.publisher != Some(me) { OwnUpdate(me, chs, i, c); } else { OwnSame(me, chs, i, c); }
  }

  /** No message from another node makes a node publish more. */
  lemma OwnKept(d: Dir, h: nat, m: Message, left: map<string, nat>, port: int)
    requires h != d.me && (m.Publish? ==> m.kind == 'P')
    ensures var d' := OnMessage(d, h, m, left, port).dir;
      d'.me == d.me && Own(d.me, d'.channels) <= Own(d.me, d.channels)
  {
    if !m.Hello? && h in d.ready && !m.ConnectShm? {
      var c := Get(d.channels, m.name);
      match m
      case Publish(_, name, _) => OwnSet(d.me, d.channels, name, SetPublisher(d.me, d.locals, c, Some(h), left).channel);
      case Unpublish(_, name) => OwnSet(d.me, d.channels, name, SetPublisher(d.me, d.locals, c, None, left).channel);
      case ConnectTcp(name) => OwnSet(d.me, d.channels, name, if c.server.Some? then c else c.(server := Some(port)));
      case OfferTcp(name, p) => OwnSet(d.me, d.channels, name, c.(offered := p));
    }
  }

  /** Every message handled lowers the total weight; only a message that is in flight can be handled. */
  lemma DeliveryLowers(s: State, x: nat, n: nat, left: map<string, nat>, port: int, b: nat, hello: nat)
    requires Shaped(s) && X.Inv(s) && Enabled(s, Delivers(x, n, left, port)) && Bounded(s, b, hello)
    ensures var s' := Deliver(s, x, n, left, port);
      Total(s'.links, hello) < Total(s.links, hello) && |s'.dirs| == |s.dirs| && Bounded(s', b, hello)
  {
    var m := s.links[x][n].queue[0];
    var d := s.dirs[n];
    assert X.LinkAt(s, x, n) && m in X.Queue(s.links[x][n]) && d.me == n;
    DeliverTotal(s, x, n, left, port, hello);
    OwnKept(d, x, m, left, port);
    if m.Hello? {
      HelloCost(d, x, left, port, |s.dirs|, hello);
      Grow(Own(n, d.channels), b, |s.dirs|);
    } else {
      HandlerCost(d, x, m, left, port, |s.dirs|, hello);
    }
  }

  lemma {:induction false} Grow(a: nat, b: nat, k: nat)
    requires a <= b
    ensures Times(3 * a, k) <= Times(3 * b, k)
    decreases k
  {
    if k > 0 { Grow(a, b, k - 1); }
  }

  /** Only deliveries, each of a message that is there. */
  predicate Draining(s: State, events: seq<Event>)
    requires Shaped(s)
  {
    forall k {:trigger events[k]} :: 0 <= k < |events| ==>
      events[k].Delivers? && Enabled(RunFrom(s, events[..k]), events[k])
  }

  lemma {:induction false} DrainBound(s: State, events: seq<Event>, b: nat, hello: nat)
    requires Shaped(s) && X.Inv(s) && Bounded(s, b, hello) && Draining(s, events)
    ensures var r := RunFrom(s, events);
      X.Inv(r) && Bounded(r, b, hello) && |events| + Total(r.links, hello) <= Total(s.links, hello)
    decreases |events|
  {
    if events != [] {
      var before, e := events[..|events| - 1], events[|events| - 1];
      forall k | 0 <= k < |before| ensures before[k].Delivers? && Enabled(RunFrom(s, before[..k]), before[k]) {
        assert before[..k] == events[..k] && before[k] == events[k];
      }
      DrainBound(s, before, b, hello);
      DeliveryLowers(RunFrom(s, before), e.from, e.node, e.left, e.port, b, hello);
      X.StepInv(RunFrom(s, before), e);
    }
  }

  /** The most channels any one node publishes. */
  function MostOwned(dirs: seq<Dir>): nat {
    if dirs == [] then 0
    else
      var rest := MostOwned(dirs[1..]);
      var first := Own(dirs[0].me, dirs[0].channels);
      if first > rest then first else rest
  }

  lemma {:induction false} MostOwnedBounds(dirs: seq<Dir>, n: nat)
    requires n < |dirs|
    ensures Own(dirs[n].me, dirs[n].channels) <= MostOwned(dirs)
    decreases |dirs|
  {
    if n > 0 { MostOwnedBounds(dirs[1..], n - 1); }
  }

  /** A CONNECTED of this weight outweighs all the announcements it can cause. */
  function HelloWeight(dirs: seq<Dir>): nat {
    Times(3 * MostOwned(dirs), |dirs|) + 1
  }

  /** What the messages in flight weigh then. */
  function Budget(s: State): nat {
    Total(s.links, HelloWeight(s.dirs))
  }

  /** The exchange terminates: after any run, no more than the budget can be delivered. */
  lemma {:induction false} ExchangeTerminates(locals: seq<set<nat>>, events: seq<Event>, drain: seq<Event>)
    requires Draining(Run(locals, events), drain)
    ensures |drain| <= Budget(Run(locals, events))
  {
    X.RunInv(locals, events);
    WithinBudget(Run(locals, events), drain);
  }

  lemma {:induction false} WithinBudget(s: State, drain: seq<Event>)
    requires Shaped(s) && X.Inv(s) && Draining(s, drain)
    ensures |drain| <= Budget(s)
  {
    MostOwnedBound(s);
    DrainBound(s, drain, MostOwned(s.dirs), HelloWeight(s.dirs));
  }

  lemma MostOwnedBound(s: State)
    ensures Bounded(s, MostOwned(s.dirs), HelloWeight(s.dirs))
  {
    forall n | 0 <= n < |s.dirs| ensures Own(s.dirs[n].me, s.dirs[n].channels) <= MostOwned(s.dirs) {
      MostOwnedBounds(s.dirs, n);
    }
  }
}
