/**
 Directory agreement: when only node p ever publishes or unpublishes a channel, every peer that p regards
 as ready will agree with p once the messages on their way to it have been handled.
 */
module DirectoryAgreement {
  import opened Common
  import opened DirectorySpec
  import opened DirectoryNet

  /** The recorded publisher of a channel; None also for a channel that is not registered. */
  function Pub(channels: seq<Channel>, ch: string): Option<nat> {
    var i := Find(channels, ch);
    if i < |channels| then channels[i].publisher else None
  }

  predicate Concerns(m: Message, ch: string) {
    (m.Publish? || m.Unpublish?) && m.name == ch
  }

  // ---------- replay: what a node will make of the messages in flight

  /** The view a node has of one peer and one channel: is the peer ready, who is the publisher. */
  datatype Rec = Rec(gate: bool, pub: Option<nat>)

  function RecOf(d: Dir, p: nat, ch: string): Rec {
    Rec(p in d.ready, Pub(d.channels, ch))
  }

  function RecStep(r: Rec, p: nat, ch: string, m: Message): Rec {
    if m.Hello? then r.(gate := true)
    else if !r.gate || !Concerns(m, ch) then r
    else r.(pub := if m.Publish? then Some(p) else None)
  }

  function Replay(r: Rec, p: nat, ch: string, msgs: seq<Message>): Rec
    decreases |msgs|
  {
    if msgs == [] then r else Replay(RecStep(r, p, ch, msgs[0]), p, ch, msgs[1..])
  }

  lemma {:induction false} ReplayAppend(r: Rec, p: nat, ch: string, a: seq<Message>, b: seq<Message>)
    ensures Replay(r, p, ch, a + b) == Replay(Replay(r, p, ch, a), p, ch, b)
    decreases |a|
  {
    if a == [] {
      assert a + b == b;
    } else {
      assert (a + b)[0] == a[0] && (a + b)[1..] == a[1..] + b;
      ReplayAppend(RecStep(r, p, ch, a[0]), p, ch, a[1..], b);
    }
  }

  /** Handling a list of messages from p, one handler run each. */
  function Drain(d: Dir, p: nat, msgs: seq<Message>, left: map<string, nat>, port: int): Dir
    decreases |msgs|
  {
    if msgs == [] then d else Drain(OnMessage(d, p, msgs[0], left, port).dir, p, msgs[1..], left, port)
  }

  predicate NoConcern(msgs: seq<Message>, ch: string) {
    forall m :: m in msgs ==> !Concerns(m, ch) && !m.Hello?
  }

  lemma {:induction false} ReplayIdle(r: Rec, p: nat, ch: string, msgs: seq<Message>)
    requires NoConcern(msgs, ch)
    ensures Replay(r, p, ch, msgs) == r
    decreases |msgs|
  {
    if msgs != [] {
      assert msgs[0] in msgs;
      assert NoConcern(msgs[1..], ch);
      ReplayIdle(r, p, ch, msgs[1..]);
    }
  }

  /** Only announcements: harmless to who agrees, decisive for who listens. */
  lemma {:induction false} ReplayAnnounced(r: Rec, p: nat, ch: string, msgs: seq<Message>)
    requires r.gate && forall m :: m in msgs ==> !m.Hello? && !m.Unpublish?
    ensures Replay(r, p, ch, msgs) == if exists m :: m in msgs && Concerns(m, ch) then r.(pub := Some(p)) else r
    decreases |msgs|
  {
    if msgs != [] {
      var m0, rest := msgs[0], msgs[1..];
      assert m0 in msgs;
      assert forall m :: m in rest ==> m in msgs;
      ReplayAnnounced(RecStep(r, p, ch, m0), p, ch, rest);
      assert (exists m :: m in msgs && Concerns(m, ch)) <==> (Concerns(m0, ch) || exists m :: m in rest && Concerns(m, ch)) by {
        assert forall m :: m in msgs ==> m == m0 || m in rest;
      }
    }
  }

  /** Once the queue has been replayed the gate is open. */
  lemma {:induction false} ReplayGate(r: Rec, p: nat, ch: string, msgs: seq<Message>)
    requires r.gate || (msgs != [] && msgs[0].Hello?)
    ensures Replay(r, p, ch, msgs).gate
    decreases |msgs|
  {
    if msgs != [] { ReplayGate(RecStep(r, p, ch, msgs[0]), p, ch, msgs[1..]); }
  }

  // ---------- what the handlers do to one channel's record

  lemma PubSet(channels: seq<Channel>, name: string, c: Channel, ch: string)
    requires c.name == name
    ensures Pub(Set(channels, name, c), ch) == if ch == name then c.publisher else Pub(channels, ch)
    ensures Get(channels, name).publisher == Pub(channels, name)
  {
    var i, k := Find(channels, name), Find(channels, ch);
    var chs' := Set(channels, name, c);
    FindIs(chs', ch, if ch == name then i else if k < |channels| then k else |chs'|);
  }

  lemma FindIs(channels: seq<Channel>, name: string, i: nat)
    requires i <= |channels|
    requires forall j :: 0 <= j < i ==> channels[j].name != name
    requires i < |channels| ==> channels[i].name == name
    ensures Find(channels, name) == i
  {
  }

  /** No effect says anything about who publishes ch. */
  predicate Quiet(effects: seq<Effect>, ch: string) {
    forall e :: e in effects && !e.Dial? ==> !Concerns(e.msg, ch) && !e.msg.Hello?
  }

  lemma {:induction false} PostedQuiet(effects: seq<Effect>, ready: set<nat>, q: nat, ch: string)
    requires Quiet(effects, ch)
    ensures NoConcern(Posted(effects, ready, q), ch)
    decreases |effects|
  {
    if effects != [] {
      assert effects[0] in effects;
      assert Quiet(effects[1..], ch);
      PostedQuiet(effects[1..], ready, q, ch);
    }
  }

  /** A handler's outcome: the new record of ch, everything else about the node, no announcement of ch. */
  predicate Turned(d: Dir, o: Outcome, ch: string, pub: Option<nat>) {
    && o.dir == d.(channels := o.dir.channels)
    && Pub(o.dir.channels, ch) == pub
    && Quiet(o.effects, ch)
  }

  lemma PublishRec(d: Dir, h: nat, kind: char, name: string, owner: Option<nat>, left: map<string, nat>, ch: string)
    requires name == ch ==> kind == 'P'
    ensures Turned(d, ApplyPublish(d, h, kind, name, owner, left), ch, if name == ch then Some(h) else Pub(d.channels, ch))
  {
    var o := ApplyPublish(d, h, kind, name, owner, left);
    PubSet(d.channels, name, o.dir.channels[Find(d.channels, name)], ch);
  }

  lemma UnpublishRec(d: Dir, name: string, left: map<string, nat>, ch: string)
    ensures Turned(d, ApplyUnpublish(d, name, left), ch, if name == ch then None else Pub(d.channels, ch))
  {
    PubSet(d.channels, name, SetPublisher(d.me, d.locals, Get(d.channels, name), None, left).channel, ch);
  }

  lemma OfferRec(d: Dir, h: nat, name: string, port: int, ch: string)
    ensures Turned(d, MakeOffer(d, h, name, port), ch, Pub(d.channels, ch))
  {
    var c := Get(d.channels, name);
    PubSet(d.channels, name, if c.server.Some? then c else c.(server := Some(port)), ch);
  }

  lemma AnswerRec(d: Dir, name: string, port: int, ch: string)
    ensures Turned(d, AnswerOffer(d, name, port), ch, Pub(d.channels, ch))
  {
    PubSet(d.channels, name, Get(d.channels, name).(offered := port), ch);
  }

  /** What a message does to the record. */
  lemma OnMessageRec(d: Dir, h: nat, m: Message, left: map<string, nat>, port: int, ch: string)
    requires Concerns(m, ch) && m.Publish? ==> m.kind == 'P'
    ensures var o := OnMessage(d, h, m, left, port);
      && o.dir.ready == (if m.Hello? then d.ready + {h} else d.ready)
      && o.dir.me == d.me && RecOf(o.dir, h, ch) == RecStep(RecOf(d, h, ch), h, ch, m)
      && (!m.Hello? ==> Quiet(o.effects, ch))
  {
    if !m.Hello? && h in d.ready {
      match m
      case Publish(kind, name, owner) => PublishRec(d, h, kind, name, owner, left, ch);
      case Unpublish(_, name) => UnpublishRec(d, name, left, ch);
      case ConnectTcp(name) => OfferRec(d, h, name, port, ch);
      case OfferTcp(name, p) => AnswerRec(d, name, p, ch);
      case ConnectShm(_) =>
    }
  }

  /** Replay is what handling the messages really does. */
  lemma {:induction false} DrainRec(d: Dir, p: nat, msgs: seq<Message>, left: map<string, nat>, port: int, ch: string)
    requires forall m :: m in msgs && Concerns(m, ch) && m.Publish? ==> m.kind == 'P'
    ensures RecOf(Drain(d, p, msgs, left, port), p, ch) == Replay(RecOf(d, p, ch), p, ch, msgs)
    decreases |msgs|
  {
    if msgs != [] {
      assert msgs[0] in msgs;
      assert forall m :: m in msgs[1..] ==> m in msgs;
      OnMessageRec(d, p, msgs[0], left, port, ch);
      DrainRec(OnMessage(d, p, msgs[0], left, port).dir, p, msgs[1..], left, port, ch);
    }
  }

  lemma CloseAllPub(d: Dir, h: nat, left: map<string, nat>, ch: string)
    ensures Pub(CloseAll(d, h, left), ch) == if Pub(d.channels, ch) == Some(h) then None else Pub(d.channels, ch)
  {
    FindIs(CloseAll(d, h, left), ch, Find(d.channels, ch));
  }

  predicate Unique(channels: seq<Channel>) {
    forall a, b :: 0 <= a < b < |channels| ==> channels[a].name != channels[b].name
  }

  predicate Mentions(msgs: seq<Message>, ch: string) {
    exists m :: m in msgs && Concerns(m, ch)
  }

  lemma MentionsAppend(a: seq<Message>, b: seq<Message>, ch: string)
    ensures Mentions(a + b, ch) <==> Mentions(a, ch) || Mentions(b, ch)
  {
    forall m | m in a || m in b ensures m in a + b {}
    assert forall m :: m in a + b <==> m in a || m in b;
  }

  /** The announcements of broadcast_published_channels: nothing but PUBLISH, of the channels this node publishes. */
  lemma {:induction false} Announced(me: nat, channels: seq<Channel>, i: nat, ready: set<nat>, q: nat, ch: string)
    requires i <= |channels| && Unique(channels)
    ensures var msgs := Posted(Announce(me, channels, i), ready, q);
      && (forall m :: m in msgs ==> m.Publish? && m.kind == 'P' && m.owner == Some(me))
      && (Mentions(msgs, ch) <==> q in ready && i <= Find(channels, ch) < |channels| && Pub(channels, ch) == Some(me))
    decreases |channels| - i
  {
    if i < |channels| {
      var c := channels[i];
      Announced(me, channels, i + 1, ready, q, ch);
      var rest := Announce(me, channels, i + 1);
      if c.publisher == Some(me) {
        var e := ToReady(Publish(Kind(me, c), c.name, c.publisher));
        assert Announce(me, channels, i) == [e] + rest;
        assert ([e] + rest)[0] == e && ([e] + rest)[1..] == rest;
        MentionsAppend(Posted1(e, ready, q), Posted(rest, ready, q), ch);
        if q in ready && c.name == ch { assert e.msg in Posted1(e, ready, q); }
      } else {
        assert Announce(me, channels, i) == rest;
      }
      if c.name == ch { FindIs(channels, ch, i); }
    }
  }

  // ---------- the invariant

  predicate GateOk(l: Link, ready: bool) {
    match l
    case Down => !ready
    case Up(queue) =>
      if ready then Hello !in queue
      else queue != [] && queue[0] == Hello && Hello !in queue[1..]
  }

  /** Messages about ch come from p, and its PUBLISH statements carry type 'P'. */
  predicate SenderOk(p: nat, ch: string, x: nat, l: Link) {
    l.Up? ==> forall m :: m in l.queue && Concerns(m, ch) ==> x == p && (m.Publish? ==> m.kind == 'P')
  }

  predicate DirOk(p: nat, ch: string, n: nat, d: Dir) {
    && d.me == n && Unique(d.channels)
    && (Pub(d.channels, ch) == None || Pub(d.channels, ch) == Some(p))
  }

  /** Peer q, reached over l: a ready one will agree with p, another one has heard nothing. */
  predicate ViewOk(p: nat, ch: string, dp: Dir, q: nat, dq: Dir, l: Link) {
    if q in dp.ready then
      l.Up? && Replay(RecOf(dq, p, ch), p, ch, l.queue).pub == Pub(dp.channels, ch)
    else
      Pub(dq.channels, ch) == None && (l.Up? ==> !Mentions(l.queue, ch))
  }

  /** The link l from x to y, where l' is the way back and `ready` says whether y regards x as ready. */
  predicate LinkOk(p: nat, ch: string, x: nat, y: nat, l: Link, l': Link, ready: bool) {
    && (l.Up? <==> l'.Up?) && (x == y ==> l.Down?)
    && GateOk(l, ready) && SenderOk(p, ch, x, l)
  }

  ghost predicate Inv(s: State, p: nat, ch: string)
    requires Shaped(s) && p < |s.dirs|
  {
    && (forall n {:trigger DirOk(p, ch, n, s.dirs[n])} :: 0 <= n < |s.dirs| ==> DirOk(p, ch, n, s.dirs[n]))
    && (forall x, y {:trigger LinkAt(s, p, ch, x, y)} ::
          0 <= x < |s.dirs| && 0 <= y < |s.dirs| ==> LinkAt(s, p, ch, x, y))
    && (forall q {:trigger ViewAt(s, p, ch, q)} :: 0 <= q < |s.dirs| && q != p ==> ViewAt(s, p, ch, q))
  }

  predicate LinkAt(s: State, p: nat, ch: string, x: nat, y: nat)
    requires Shaped(s) && x < |s.dirs| && y < |s.dirs|
  {
    LinkOk(p, ch, x, y, s.links[x][y], s.links[y][x], x in s.dirs[y].ready)
  }

  predicate ViewAt(s: State, p: nat, ch: string, q: nat)
    requires Shaped(s) && p < |s.dirs| && q < |s.dirs|
  {
    ViewOk(p, ch, s.dirs[p], q, s.dirs[q], s.links[p][q])
  }

  /** Only p publishes or unpublishes ch. */
  predicate SoleOwner(e: Event, p: nat, ch: string) {
    (e.Publishes? || e.Unpublishes?) && e.name == ch ==> e.node == p
  }

  lemma InitInv(locals: seq<set<nat>>, p: nat, ch: string)
    requires p < |locals|
    ensures Inv(Init(locals), p, ch)
  {
  }

  // ---------- messages on one link

  lemma GateExtend(l: Link, ready: bool, msgs: seq<Message>)
    requires GateOk(l, ready) && forall m :: m in msgs ==> !m.Hello?
    ensures GateOk(Extend(l, msgs), ready)
  {
    if l.Up? && !ready {
      assert (l.queue + msgs)[1..] == l.queue[1..] + msgs;
    }
  }

  lemma SenderExtend(p: nat, ch: string, x: nat, l: Link, msgs: seq<Message>)
    requires SenderOk(p, ch, x, l)
    requires forall m :: m in msgs && Concerns(m, ch) ==> x == p && (m.Publish? ==> m.kind == 'P')
    ensures SenderOk(p, ch, x, Extend(l, msgs))
  {
  }

  /** More messages that do not mention ch. */
  lemma ViewIdle(p: nat, ch: string, dp: Dir, q: nat, dq: Dir, l: Link, msgs: seq<Message>)
    requires ViewOk(p, ch, dp, q, dq, l) && NoConcern(msgs, ch)
    ensures ViewOk(p, ch, dp, q, dq, Extend(l, msgs))
  {
    if l.Up? {
      ReplayAppend(RecOf(dq, p, ch), p, ch, l.queue, msgs);
      ReplayIdle(Replay(RecOf(dq, p, ch), p, ch, l.queue), p, ch, msgs);
      MentionsAppend(l.queue, msgs, ch);
    }
  }

  // ---------- a handler that says nothing about ch

  /** Unique names survive an update through the registry. */
  lemma UniqueSet(channels: seq<Channel>, name: string, c: Channel)
    requires Unique(channels) && c.name == name
    ensures Unique(Set(channels, name, c))
  {
  }

  lemma QuietLink(s: State, n: nat, o: Outcome, p: nat, ch: string, x: nat, y: nat)
    requires Shaped(s) && p < |s.dirs| && n < |s.dirs| && Inv(s, p, ch) && x < |s.dirs| && y < |s.dirs|
    requires o.dir.ready == s.dirs[n].ready && Quiet(o.effects, ch)
    ensures LinkAt(Apply(s, n, o), p, ch, x, y)
  {
    assert LinkAt(s, p, ch, x, y);
    if x == n {
      var msgs := Posted(o.effects, o.dir.ready, y);
      PostedQuiet(o.effects, o.dir.ready, y, ch);
      GateExtend(s.links[x][y], x in s.dirs[y].ready, msgs);
      SenderExtend(p, ch, x, s.links[x][y], msgs);
    }
  }

  lemma QuietView(s: State, n: nat, o: Outcome, p: nat, ch: string, q: nat)
    requires Shaped(s) && p < |s.dirs| && n < |s.dirs| && Inv(s, p, ch) && q < |s.dirs| && q != p
    requires o.dir.ready == s.dirs[n].ready && Quiet(o.effects, ch)
    requires Pub(o.dir.channels, ch) == Pub(s.dirs[n].channels, ch)
    ensures ViewAt(Apply(s, n, o), p, ch, q)
  {
    assert ViewAt(s, p, ch, q);
    if p == n {
      PostedQuiet(o.effects, o.dir.ready, q, ch);
      ViewIdle(p, ch, s.dirs[p], q, s.dirs[q], s.links[p][q], Posted(o.effects, o.dir.ready, q));
    }
  }

  lemma QuietInv(s: State, n: nat, o: Outcome, p: nat, ch: string)
    requires Shaped(s) && p < |s.dirs| && n < |s.dirs| && Inv(s, p, ch)
    requires o.dir == s.dirs[n].(channels := o.dir.channels) && Unique(o.dir.channels)
    requires Pub(o.dir.channels, ch) == Pub(s.dirs[n].channels, ch) && Quiet(o.effects, ch)
    ensures Inv(Apply(s, n, o), p, ch)
  {
    var s' := Apply(s, n, o);
    assert DirOk(p, ch, n, s.dirs[n]);
    forall x, y | 0 <= x < |s.dirs| && 0 <= y < |s.dirs| ensures LinkAt(s', p, ch, x, y) {
      QuietLink(s, n, o, p, ch, x, y);
    }
    forall q | 0 <= q < |s.dirs| && q != p ensures ViewAt(s', p, ch, q) { QuietView(s, n, o, p, ch, q); }
    forall m | 0 <= m < |s.dirs| ensures DirOk(p, ch, m, s'.dirs[m]) { assert DirOk(p, ch, m, s.dirs[m]); }
  }

  lemma SetPublisherQuiet(me: nat, locals: set<nat>, c: Channel, pub: Option<nat>, left: map<string, nat>, ch: string)
    ensures Quiet(SetPublisher(me, locals, c, pub, left).effects, ch)
  {
  }

  // ---------- p speaks about ch

  /** p changes the publisher of ch, tells its ready peers with m, and otherwise says nothing about it. */
  lemma SpeakInv(s: State, o: Outcome, es: seq<Effect>, m: Message, p: nat, ch: string)
    requires Shaped(s) && p < |s.dirs| && Inv(s, p, ch)
    requires o.dir == s.dirs[p].(channels := o.dir.channels) && Unique(o.dir.channels)
    requires o.effects == es + [ToReady(m)] && Quiet(es, ch) && Concerns(m, ch)
    requires m.Publish? ==> m.kind == 'P'
    requires Pub(o.dir.channels, ch) == if m.Publish? then Some(p) else None
    ensures Inv(Apply(s, p, o), p, ch)
  {
    var s' := Apply(s, p, o);
    assert DirOk(p, ch, p, s.dirs[p]);
    forall x, y | 0 <= x < |s.dirs| && 0 <= y < |s.dirs| ensures LinkAt(s', p, ch, x, y) {
      SpeakLink(s, o, es, m, p, ch, x, y);
    }
    forall q | 0 <= q < |s.dirs| && q != p ensures ViewAt(s', p, ch, q) { SpeakView(s, o.dir, es, m, p, ch, q); }
    forall n | 0 <= n < |s.dirs| ensures DirOk(p, ch, n, s'.dirs[n]) { assert DirOk(p, ch, n, s.dirs[n]); }
  }

  lemma SpeakLink(s: State, o: Outcome, es: seq<Effect>, m: Message, p: nat, ch: string, x: nat, y: nat)
    requires Shaped(s) && p < |s.dirs| && Inv(s, p, ch) && x < |s.dirs| && y < |s.dirs|
    requires o.dir.ready == s.dirs[p].ready && o.effects == es + [ToReady(m)] && Quiet(es, ch) && Concerns(m, ch)
    requires m.Publish? ==> m.kind == 'P'
    ensures LinkAt(Apply(s, p, o), p, ch, x, y)
  {
    assert LinkAt(s, p, ch, x, y);
    if x == p {
      var msgs := Posted(o.effects, o.dir.ready, y);
      SpeakPosted(es, m, o.dir.ready, y, ch);
      GateExtend(s.links[x][y], x in s.dirs[y].ready, msgs);
      SenderExtend(p, ch, x, s.links[x][y], msgs);
    }
  }

  lemma PostedAppend(a: seq<Effect>, b: seq<Effect>, ready: set<nat>, q: nat)
    ensures Posted(a + b, ready, q) == Posted(a, ready, q) + Posted(b, ready, q)
    decreases |a|
  {
    if a == [] {
      assert a + b == b;
    } else {
      assert (a + b)[0] == a[0] && (a + b)[1..] == a[1..] + b;
      PostedAppend(a[1..], b, ready, q);
    }
  }

  lemma SpeakPosted(es: seq<Effect>, m: Message, ready: set<nat>, q: nat, ch: string)
    requires Quiet(es, ch) && Concerns(m, ch)
    ensures Posted(es + [ToReady(m)], ready, q) == Posted(es, ready, q) + if q in ready then [m] else []
    ensures NoConcern(Posted(es, ready, q), ch)
  {
    PostedAppend(es, [ToReady(m)], ready, q);
    PostedQuiet(es, ready, q, ch);
    assert [ToReady(m)][1..] == [];
    assert Posted([ToReady(m)], ready, q) == Posted1(ToReady(m), ready, q) + [];
  }

  lemma SpeakView(s: State, d: Dir, es: seq<Effect>, m: Message, p: nat, ch: string, q: nat)
    requires Shaped(s) && p < |s.dirs| && Inv(s, p, ch) && q < |s.dirs| && q != p
    requires d == s.dirs[p].(channels := d.channels) && Quiet(es, ch) && Concerns(m, ch)
    requires Pub(d.channels, ch) == if m.Publish? then Some(p) else None
    ensures ViewOk(p, ch, d, q, s.dirs[q], Extend(s.links[p][q], Posted(es + [ToReady(m)], d.ready, q)))
  {
    var l, dq := s.links[p][q], s.dirs[q];
    var msgs := Posted(es, d.ready, q);
    SpeakPosted(es, m, d.ready, q, ch);
    assert ViewAt(s, p, ch, q) && LinkAt(s, p, ch, p, q);
    if q in d.ready {
      var r := RecOf(dq, p, ch);
      ReplayGate(r, p, ch, l.queue);
      ReplayAppend(r, p, ch, l.queue, msgs + [m]);
      ReplayAppend(Replay(r, p, ch, l.queue), p, ch, msgs, [m]);
      ReplayIdle(Replay(r, p, ch, l.queue), p, ch, msgs);
      assert [m][1..] == [];
    } else if l.Up? {
      assert msgs + [] == msgs;
      MentionsAppend(l.queue, msgs, ch);
    }
  }

  // ---------- a message is handled

  /** Without a mention of ch, a replay can only open the gate. */
  lemma {:induction false} ReplayUnmentioned(r: Rec, p: nat, ch: string, msgs: seq<Message>)
    requires !Mentions(msgs, ch)
    ensures Replay(r, p, ch, msgs).pub == r.pub
    decreases |msgs|
  {
    if msgs != [] {
      assert msgs[0] in msgs;
      assert !Mentions(msgs[1..], ch) by { assert forall m :: m in msgs[1..] ==> m in msgs; }
      ReplayUnmentioned(RecStep(r, p, ch, msgs[0]), p, ch, msgs[1..]);
    }
  }

  /** The state a delivery from x to n leads to, link by link. */
  lemma DeliverLinks(s: State, x: nat, n: nat, left: map<string, nat>, port: int, u: nat, v: nat)
    requires Shaped(s) && Enabled(s, Delivers(x, n, left, port)) && x != n && u < |s.dirs| && v < |s.dirs|
    ensures var s' := Deliver(s, x, n, left, port);
      var o := OnMessage(s.dirs[n], x, s.links[x][n].queue[0], left, port);
      s'.links[u][v] == if u == x && v == n then Up(s.links[x][n].queue[1..])
                        else if u == n then Extend(s.links[n][v], Posted(o.effects, o.dir.ready, v))
                        else s.links[u][v]
  {
  }

  /** What handling the message posts: announcements of what n publishes if it was CONNECTED, else nothing of note. */
  lemma DeliverPosted(s: State, x: nat, n: nat, left: map<string, nat>, port: int, p: nat, ch: string, v: nat)
    requires Shaped(s) && p < |s.dirs| && Inv(s, p, ch) && Enabled(s, Delivers(x, n, left, port))
    ensures var m := s.links[x][n].queue[0];
      var o := OnMessage(s.dirs[n], x, m, left, port);
      var msgs := Posted(o.effects, o.dir.ready, v);
      && RecOf(o.dir, x, ch) == RecStep(RecOf(s.dirs[n], x, ch), x, ch, m)
      && o.dir.ready == (if m.Hello? then s.dirs[n].ready + {x} else s.dirs[n].ready)
      && (m.Hello? ==> forall k :: k in msgs ==> k.Publish? && k.kind == 'P')
      && (m.Hello? ==> (Mentions(msgs, ch) <==> v in o.dir.ready && Pub(s.dirs[n].channels, ch) == Some(n)))
      && (!m.Hello? ==> NoConcern(msgs, ch))
  {
    var m := s.links[x][n].queue[0];
    assert m in s.links[x][n].queue;
    assert LinkAt(s, p, ch, x, n) && DirOk(p, ch, n, s.dirs[n]);
    OnMessageRec(s.dirs[n], x, m, left, port, ch);
    var o := OnMessage(s.dirs[n], x, m, left, port);
    if m.Hello? {
      Announced(n, s.dirs[n].channels, 0, o.dir.ready, v, ch);
    } else {
      PostedQuiet(o.effects, o.dir.ready, v, ch);
    }
  }

  lemma DeliverLink(s: State, x: nat, n: nat, left: map<string, nat>, port: int, p: nat, ch: string, u: nat, v: nat)
    requires Shaped(s) && p < |s.dirs| && Inv(s, p, ch) && Enabled(s, Delivers(x, n, left, port)) && x != n
    requires u < |s.dirs| && v < |s.dirs|
    ensures var s' := Deliver(s, x, n, left, port);
      LinkAt(s', p, ch, u, v)
  {
    var o := OnMessage(s.dirs[n], x, s.links[x][n].queue[0], left, port);
    DeliverLinks(s, x, n, left, port, u, v);
    DeliverLinks(s, x, n, left, port, v, u);
    DeliverPosted(s, x, n, left, port, p, ch, v);
    assert LinkAt(s, p, ch, u, v) && DirOk(p, ch, n, s.dirs[n]);
    if u == x && v == n {
      assert forall m :: m in s.links[x][n].queue[1..] ==> m in s.links[x][n].queue;
      assert s.links[x][n].queue[0] in s.links[x][n].queue;
    } else if u == n {
      var msgs := Posted(o.effects, o.dir.ready, v);
      GateExtend(s.links[u][v], u in s.dirs[v].ready, msgs);
      assert n != p ==> !Mentions(msgs, ch);
      SenderExtend(p, ch, u, s.links[u][v], msgs);
    }
  }

  lemma DeliverView(s: State, x: nat, n: nat, left: map<string, nat>, port: int, p: nat, ch: string, q: nat)
    requires Shaped(s) && p < |s.dirs| && Inv(s, p, ch) && Enabled(s, Delivers(x, n, left, port)) && x != n
    requires q < |s.dirs| && q != p
    ensures ViewAt(Deliver(s, x, n, left, port), p, ch, q)
  {
    var m := s.links[x][n].queue[0];
    var o := OnMessage(s.dirs[n], x, m, left, port);
    var l := s.links[p][q];
    DeliverLinks(s, x, n, left, port, p, q);
    DeliverPosted(s, x, n, left, port, p, ch, q);
    assert ViewAt(s, p, ch, q) && LinkAt(s, p, ch, p, q);
    assert m in s.links[x][n].queue && LinkAt(s, p, ch, x, n) && DirOk(p, ch, n, s.dirs[n]);
    if x == p && n == q {
      if q !in s.dirs[p].ready {
        assert !Concerns(m, ch);
        assert forall k :: k in l.queue[1..] ==> k in l.queue;
      }
    } else if n == p {
      var r := RecOf(s.dirs[q], p, ch);
      var msgs := Posted(o.effects, o.dir.ready, q);
      assert Pub(o.dir.channels, ch) == Pub(s.dirs[p].channels, ch);
      if !m.Hello? {
        ViewIdle(p, ch, s.dirs[p], q, s.dirs[q], l, msgs);
      } else if q !in o.dir.ready {
        MentionsAppend(if l.Up? then l.queue else [], msgs, ch);
      } else {
        ReplayGate(r, p, ch, l.queue);
        ReplayAppend(r, p, ch, l.queue, msgs);
        ReplayAnnounced(Replay(r, p, ch, l.queue), p, ch, msgs);
        if q !in s.dirs[p].ready { ReplayUnmentioned(r, p, ch, l.queue); }
      }
    }
  }

  lemma DeliverUnique(d: Dir, h: nat, m: Message, left: map<string, nat>, port: int)
    requires Unique(d.channels)
    ensures Unique(OnMessage(d, h, m, left, port).dir.channels)
  {
    if !m.Hello? && h in d.ready && !m.ConnectShm? {
      var o := OnMessage(d, h, m, left, port);
      if o.dir.channels != d.channels {
        UniqueSet(d.channels, m.name, o.dir.channels[Find(d.channels, m.name)]);
      }
    }
  }

  lemma DeliverInv(s: State, x: nat, n: nat, left: map<string, nat>, port: int, p: nat, ch: string)
    requires Shaped(s) && p < |s.dirs| && Inv(s, p, ch) && Enabled(s, Delivers(x, n, left, port))
    ensures Shaped(Deliver(s, x, n, left, port)) && Inv(Deliver(s, x, n, left, port), p, ch)
  {
    var s' := Deliver(s, x, n, left, port);
    var m := s.links[x][n].queue[0];
    assert LinkAt(s, p, ch, x, n) && DirOk(p, ch, n, s.dirs[n]);
    DeliverUnique(s.dirs[n], x, m, left, port);
    DeliverMe(s.dirs[n], x, m, left, port);
    DeliverPosted(s, x, n, left, port, p, ch, 0);
    assert m in s.links[x][n].queue;
    forall u, v | 0 <= u < |s.dirs| && 0 <= v < |s.dirs| ensures LinkAt(s', p, ch, u, v) {
      DeliverLink(s, x, n, left, port, p, ch, u, v);
    }
    forall q | 0 <= q < |s.dirs| && q != p ensures ViewAt(s', p, ch, q) { DeliverView(s, x, n, left, port, p, ch, q); }
    forall k | 0 <= k < |s.dirs| ensures DirOk(p, ch, k, s'.dirs[k]) { assert DirOk(p, ch, k, s.dirs[k]); }
  }

  lemma DeliverMe(d: Dir, h: nat, m: Message, left: map<string, nat>, port: int)
    ensures OnMessage(d, h, m, left, port).dir.me == d.me
  {
  }

  // ---------- links come and go

  lemma LinkUpInv(s: State, a: nat, b: nat, p: nat, ch: string)
    requires Shaped(s) && p < |s.dirs| && Inv(s, p, ch) && Enabled(s, LinkUp(a, b))
    ensures Shaped(Step(s, LinkUp(a, b))) && Inv(Step(s, LinkUp(a, b)), p, ch)
  {
    var s' := Step(s, LinkUp(a, b));
    forall x, y | 0 <= x < |s.dirs| && 0 <= y < |s.dirs| ensures LinkAt(s', p, ch, x, y) {
      assert LinkAt(s, p, ch, x, y);
    }
    forall q | 0 <= q < |s.dirs| && q != p ensures ViewAt(s', p, ch, q) {
      assert ViewAt(s, p, ch, q) && LinkAt(s, p, ch, q, p);
    }
    forall k | 0 <= k < |s.dirs| ensures DirOk(p, ch, k, s'.dirs[k]) { assert DirOk(p, ch, k, s.dirs[k]); }
  }

  lemma LossUnique(d: Dir, h: nat, left: map<string, nat>)
    requires Unique(d.channels)
    ensures Unique(OnLoss(d, h, left).channels)
  {
  }

  /** What losing the link to h does to one node. */
  lemma LossDir(p: nat, ch: string, n: nat, d: Dir, h: nat, left: map<string, nat>)
    requires DirOk(p, ch, n, d)
    ensures var d' := OnLoss(d, h, left);
      && DirOk(p, ch, n, d') && d'.ready == d.ready - {h}
      && Pub(d'.channels, ch) == if h == p then None else Pub(d.channels, ch)
  {
    CloseAllPub(d, h, left, ch);
    LossUnique(d, h, left);
  }

  lemma LinkLossInv(s: State, e: Event, p: nat, ch: string)
    requires e.LinkLoss? && Shaped(s) && p < |s.dirs| && Inv(s, p, ch) && Enabled(s, e)
    ensures Shaped(Step(s, e)) && Inv(Step(s, e), p, ch)
  {
    var s' := Step(s, e);
    LossLost(s, e, p, ch);
    LostInv(s, s', e.a, e.b, p, ch);
  }

  lemma LossLost(s: State, e: Event, p: nat, ch: string)
    requires e.LinkLoss? && Shaped(s) && p < |s.dirs| && Inv(s, p, ch) && Enabled(s, e)
    ensures Shaped(Step(s, e)) && |Step(s, e).dirs| == |s.dirs| && Lost(s, Step(s, e), e.a, e.b, p, ch)
    ensures DirOk(p, ch, e.a, Step(s, e).dirs[e.a]) && DirOk(p, ch, e.b, Step(s, e).dirs[e.b])
  {
    StepShaped(s, e);
    assert DirOk(p, ch, e.a, s.dirs[e.a]) && DirOk(p, ch, e.b, s.dirs[e.b]);
    LossDir(p, ch, e.a, s.dirs[e.a], e.b, e.leftA);
    LossDir(p, ch, e.b, s.dirs[e.b], e.a, e.leftB);
  }

  /** s' is s without the link between a and b. */
  ghost predicate Lost(s: State, s': State, a: nat, b: nat, p: nat, ch: string)
    requires Shaped(s) && Shaped(s') && a < |s.dirs| && b < |s.dirs|
  {
    && s'.links == SetLink(SetLink(s.links, a, b, Down), b, a, Down)
    && |s'.dirs| == |s.dirs| && (forall n :: 0 <= n < |s.dirs| && n != a && n != b ==> s'.dirs[n] == s.dirs[n])
    && s'.dirs[a].ready == s.dirs[a].ready - {b} && s'.dirs[b].ready == s.dirs[b].ready - {a}
    && Pub(s'.dirs[a].channels, ch) == (if b == p then None else Pub(s.dirs[a].channels, ch))
    && Pub(s'.dirs[b].channels, ch) == (if a == p then None else Pub(s.dirs[b].channels, ch))
  }

  lemma LostLink(s: State, s': State, a: nat, b: nat, p: nat, ch: string, x: nat, y: nat)
    requires Shaped(s) && p < |s.dirs| && Inv(s, p, ch) && a < |s.dirs| && b < |s.dirs| && a != b
    requires Shaped(s') && Lost(s, s', a, b, p, ch) && x < |s.dirs| && y < |s.dirs|
    ensures LinkAt(s', p, ch, x, y)
  {
    assert LinkAt(s, p, ch, x, y);
  }

  lemma LostView(s: State, s': State, a: nat, b: nat, p: nat, ch: string, q: nat)
    requires Shaped(s) && p < |s.dirs| && Inv(s, p, ch) && a < |s.dirs| && b < |s.dirs| && a != b
    requires Shaped(s') && Lost(s, s', a, b, p, ch) && q < |s.dirs| && q != p
    ensures ViewAt(s', p, ch, q)
  {
    assert ViewAt(s, p, ch, q);
  }

  lemma LostInv(s: State, s': State, a: nat, b: nat, p: nat, ch: string)
    requires Shaped(s) && p < |s.dirs| && Inv(s, p, ch) && a < |s.dirs| && b < |s.dirs| && a != b
    requires Shaped(s') && Lost(s, s', a, b, p, ch)
    requires DirOk(p, ch, a, s'.dirs[a]) && DirOk(p, ch, b, s'.dirs[b])
    ensures Inv(s', p, ch)
  {
    forall x, y | 0 <= x < |s.dirs| && 0 <= y < |s.dirs| ensures LinkAt(s', p, ch, x, y) {
      LostLink(s, s', a, b, p, ch, x, y);
    }
    forall q | 0 <= q < |s.dirs| && q != p ensures ViewAt(s', p, ch, q) { LostView(s, s', a, b, p, ch, q); }
    forall k | 0 <= k < |s.dirs| ensures DirOk(p, ch, k, s'.dirs[k]) { assert DirOk(p, ch, k, s.dirs[k]); }
  }

  // ---------- every event, every run

  lemma LocalInv(s: State, e: Event, p: nat, ch: string)
    requires e.Publishes? || e.Unpublishes? || e.Subscribes?
    requires Shaped(s) && p < |s.dirs| && Inv(s, p, ch) && Enabled(s, e) && SoleOwner(e, p, ch)
    ensures Inv(Step(s, e), p, ch)
  {
    if e.Subscribes? { SubscribeInv(s, e.node, e.name, p, ch); } else { AnnounceInv(s, e, p, ch); }
  }

  lemma SubscribeInv(s: State, n: nat, name: string, p: nat, ch: string)
    requires Shaped(s) && p < |s.dirs| && Inv(s, p, ch) && n < |s.dirs|
    ensures Inv(Apply(s, n, Subscribe(s.dirs[n], name)), p, ch)
  {
    var d := s.dirs[n];
    var c := Get(d.channels, name);
    var c' := c.(subs := c.subs + 1);
    ConnectQuiet(d.me, d.locals, c', ch);
    SameSetInv(s, n, name, c', Subscribe(d, name), p, ch);
  }

  /** An update of a channel that leaves its publisher and says nothing about any. */
  lemma SameSetInv(s: State, n: nat, name: string, c: Channel, o: Outcome, p: nat, ch: string)
    requires Shaped(s) && p < |s.dirs| && Inv(s, p, ch) && n < |s.dirs|
    requires c.name == name && c.publisher == Get(s.dirs[n].channels, name).publisher
    requires o.dir == s.dirs[n].(channels := Set(s.dirs[n].channels, name, c)) && Quiet(o.effects, ch)
    ensures Inv(Apply(s, n, o), p, ch)
  {
    assert DirOk(p, ch, n, s.dirs[n]);
    PubSame(s.dirs[n].channels, name, c, ch);
    UniqueSet(s.dirs[n].channels, name, c);
    QuietInv(s, n, o, p, ch);
  }

  lemma PubSame(channels: seq<Channel>, name: string, c: Channel, ch: string)
    requires c.name == name && c.publisher == Get(channels, name).publisher && Unique(channels)
    ensures Pub(Set(channels, name, c), ch) == Pub(channels, ch)
  {
    PubSet(channels, name, c, ch);
    PubSet(channels, name, Get(channels, name), ch);
  }

  lemma ConnectQuiet(me: nat, locals: set<nat>, c: Channel, ch: string)
    ensures Quiet(Connect(me, locals, c), ch)
  {
  }

  lemma AnnounceInv(s: State, e: Event, p: nat, ch: string)
    requires e.Publishes? || e.Unpublishes?
    requires Shaped(s) && p < |s.dirs| && Inv(s, p, ch) && Enabled(s, e) && SoleOwner(e, p, ch)
    ensures Inv(Step(s, e), p, ch)
  {
    var n, name := e.node, e.name;
    var d := s.dirs[n];
    var c := Get(d.channels, name);
    assert DirOk(p, ch, n, d);
    PubSet(d.channels, name, c, ch);
    var pub := if e.Publishes? then Some(n) else None;
    var t := SetPublisher(d.me, d.locals, c, pub, e.left);
    var o := if e.Publishes? then PublishHere(d, name, e.left) else UnpublishHere(d, name, e.left);
    PubSet(d.channels, name, t.channel, ch);
    UniqueSet(d.channels, name, t.channel);
    SetPublisherQuiet(d.me, d.locals, c, pub, e.left, ch);
    if o == Outcome(d, []) || name != ch {
      QuietInv(s, n, o, p, ch);
    } else {
      var m := if e.Publishes? then Publish(Kind(d.me, t.channel), name, t.channel.publisher)
               else Unpublish(Kind(d.me, t.channel), name);
      SpeakInv(s, o, t.effects, m, p, ch);
    }
  }

  lemma StepInv(s: State, e: Event, p: nat, ch: string)
    requires Shaped(s) && p < |s.dirs| && Inv(s, p, ch) && SoleOwner(e, p, ch)
    ensures Shaped(Step(s, e)) && |Step(s, e).dirs| == |s.dirs| && Inv(Step(s, e), p, ch)
  {
    StepShaped(s, e);
    if Enabled(s, e) {
      if e.LinkUp? { LinkUpInv(s, e.a, e.b, p, ch); }
      else if e.LinkLoss? { LinkLossInv(s, e, p, ch); }
      else if e.Delivers? { DeliverInv(s, e.from, e.node, e.left, e.port, p, ch); }
      else { LocalInv(s, e, p, ch); }
    }
  }

  lemma {:induction false} RunInv(locals: seq<set<nat>>, events: seq<Event>, p: nat, ch: string)
    requires p < |locals| && forall e :: e in events ==> SoleOwner(e, p, ch)
    ensures Inv(Run(locals, events), p, ch)
    decreases |events|
  {
    if events == [] {
      InitInv(locals, p, ch);
    } else {
      var last := |events| - 1;
      assert events[last] in events && forall e :: e in events[..last] ==> e in events;
      var s := Run(locals, events[..last]);
      RunInv(locals, events[..last], p, ch);
      StepInv(s, events[last], p, ch);
    }
  }

  /**
   Directory agreement. Whatever was published, unpublished, subscribed, connected and lost, in any
   order: if p regards q as ready, handling what is in flight from p to q makes q's record of ch equal
   to p's. In particular an empty queue means that they agree now.
   */
  lemma {:induction false} PeersAgree(locals: seq<set<nat>>, events: seq<Event>, p: nat, q: nat, ch: string,
                                    left: map<string, nat>, port: int)
    requires p < |locals| && q < |locals| && p != q && forall e :: e in events ==> SoleOwner(e, p, ch)
    requires q in Run(locals, events).dirs[p].ready
    ensures var s := Run(locals, events);
      && s.links[p][q].Up?
      && Pub(Drain(s.dirs[q], p, s.links[p][q].queue, left, port).channels, ch) == Pub(s.dirs[p].channels, ch)
      && (s.links[p][q].queue == [] ==> Pub(s.dirs[q].channels, ch) == Pub(s.dirs[p].channels, ch))
  {
    var s := Run(locals, events);
    RunInv(locals, events, p, ch);
    assert ViewAt(s, p, ch, q) && LinkAt(s, p, ch, p, q);
    DrainRec(s.dirs[q], p, s.links[p][q].queue, left, port, ch);
  }

  /** Nobody invents a publisher: a node that p has not greeted, or has lost, records none. */
  lemma {:induction false} NoPhantomPublisher(locals: seq<set<nat>>, events: seq<Event>, p: nat, q: nat, ch: string)
    requires p < |locals| && q < |locals| && p != q && forall e :: e in events ==> SoleOwner(e, p, ch)
    ensures var s := Run(locals, events);
      && (Pub(s.dirs[q].channels, ch) == None || Pub(s.dirs[q].channels, ch) == Some(p))
      && (q !in s.dirs[p].ready ==> Pub(s.dirs[q].channels, ch) == None)
  {
    var s := Run(locals, events);
    RunInv(locals, events, p, ch);
    assert DirOk(p, ch, q, s.dirs[q]) && ViewAt(s, p, ch, q);
  }
}
