/**
 The channel registry and the Channel objects of src/channel.h and src/channel.cpp, updated in place as
 the source does. Every method is tied to the handler of DirectorySpec it implements: the new View() and
 the effects it returns. `left` says how many subscriptions disconnect() leaves.
 */
module DirectoryProcess {
  import opened Common
  import D = DirectorySpec
  import H = DirectoryHandlers

  class Channel {
    const name: string
    var publisher: Option<nat>
    var offeredPort: int
    var subscriptions: nat
    var server: Option<int>

    ghost function View(): D.Channel
      reads this
    {
      D.Channel(name, publisher, offeredPort, subscriptions, server)
    }

    constructor (name: string)
      ensures View() == D.NewChannel(name)
    {
      this.name := name;
      publisher, offeredPort, subscriptions, server := None, 0, 0, None;
    }

    /** getType */
    function Kind(me: nat): (k: char)
      reads this
      ensures k == D.Kind(me, View())
    {
      if publisher == Some(me) then 'P'
      else if subscriptions > 0 then 'S'
      else if publisher.Some? then 'A'
      else 'N'
    }

    /** connect_tcp */
    method ConnectTcp() returns (effects: seq<D.Effect>)
      ensures effects == D.ConnectByTcp(View())
    {
      effects := [];
      if publisher.Some? {
        if offeredPort == 0 {
          effects := [D.To(publisher.value, D.ConnectTcp(name))];
        } else {
          effects := [D.Dial(name, publisher.value, offeredPort, subscriptions)];
        }
      }
    }

    /** connect */
    method Connect(me: nat, locals: set<nat>) returns (effects: seq<D.Effect>)
      ensures effects == D.Connect(me, locals, View()) && H.Connects(me, locals, View(), effects)
    {
      if publisher.None? || subscriptions == 0 || publisher == Some(me) { return []; }
      if publisher.value in locals {
        effects := [D.To(publisher.value, D.ConnectShm(name))];
      } else {
        effects := ConnectTcp();
      }
    }

    /** setPublisher */
    method SetPublisher(me: nat, locals: set<nat>, p: Option<nat>, left: map<string, nat>) returns (effects: seq<D.Effect>)
      modifies this
      ensures D.Turn(View(), effects) == D.SetPublisher(me, locals, old(View()), p, left)
      ensures H.Republished(me, locals, old(View()), p, left, View(), effects)
    {
      if publisher.Some? && publisher != p {
        subscriptions := if name in left && left[name] <= subscriptions then left[name] else 0;
      }
      publisher := p;
      offeredPort := 0;
      effects := [];
      if subscriptions > 0 && publisher.Some? {
        effects := Connect(me, locals);
      }
    }

    /** offer_tcp; `port` is where a new server would bind. */
    method OfferTcp(h: nat, port: int) returns (effects: seq<D.Effect>)
      modifies this`server
      ensures View() == old(View()).(server := Some(if old(server).Some? then old(server).value else port))
      ensures effects == [D.To(h, D.OfferTcp(name, View().server.value))]
    {
      if server.None? { server := Some(port); }
      effects := [D.To(h, D.OfferTcp(name, server.value))];
    }

    /** on_offer_tcp */
    method OnOfferTcp(port: int) returns (effects: seq<D.Effect>)
      modifies this`offeredPort
      ensures View() == old(View()).(offered := port) && effects == D.ConnectByTcp(View())
      ensures publisher.Some? && port != 0 ==> effects == [D.Dial(name, publisher.value, port, subscriptions)]
    {
      offeredPort := port;
      effects := ConnectTcp();
    }
  }

  ghost function Views(channels: seq<Channel>): (r: seq<D.Channel>)
    reads channels
    ensures |r| == |channels|
    ensures forall i {:trigger r[i]} {:trigger channels[i]} :: 0 <= i < |channels| ==> r[i] == channels[i].View()
  {
    seq(|channels|, i requires 0 <= i < |channels| reads channels => channels[i].View())
  }

  /** Find is determined by what it promises. */
  lemma FindIs(channels: seq<D.Channel>, name: string, i: nat)
    requires i <= |channels|
    requires forall j :: 0 <= j < i ==> channels[j].name != name
    requires i < |channels| ==> channels[i].name == name
    ensures D.Find(channels, name) == i
  {
  }

  /** Looking a channel up, or setting it, once it is registered. */
  lemma Registered(channels: seq<D.Channel>, name: string)
    ensures var chs := D.Ensure(channels, name);
      D.Find(chs, name) == D.Find(channels, name) && D.Ensure(chs, name) == chs
  {
    FindIs(D.Ensure(channels, name), name, D.Find(channels, name));
  }

  /** The handlers that create a channel first do the same when it is already there. */
  lemma PublishRegistered(d: D.Dir, name: string, left: map<string, nat>)
    ensures D.PublishHere(d.(channels := D.Ensure(d.channels, name)), name, left) == D.PublishHere(d, name, left)
  {
    Registered(d.channels, name);
  }

  lemma SubscribeRegistered(d: D.Dir, name: string)
    ensures D.Subscribe(d.(channels := D.Ensure(d.channels, name)), name) == D.Subscribe(d, name)
  {
    Registered(d.channels, name);
  }

  lemma ApplyRegistered(d: D.Dir, h: nat, kind: char, name: string, owner: Option<nat>, left: map<string, nat>)
    ensures D.ApplyPublish(d.(channels := D.Ensure(d.channels, name)), h, kind, name, owner, left)
            == D.ApplyPublish(d, h, kind, name, owner, left)
  {
    Registered(d.channels, name);
  }

  lemma SubscribeAt(d: D.Dir, i: nat, name: string, c: D.Channel, d': D.Dir)
    requires i < |d.channels| && i == D.Find(d.channels, name)
    requires c == d.channels[i].(subs := d.channels[i].subs + 1) && d' == d.(channels := d.channels[i := c])
    ensures D.Subscribe(d, name) == D.Outcome(d', D.Connect(d'.me, d'.locals, c))
  {
  }

  class Registry {
    const me: nat
    const locals: set<nat>
    var channels: seq<Channel>
    var ready: set<nat>

    ghost predicate Valid()
      reads this
    {
      forall i, j :: 0 <= i < j < |channels| ==> channels[i] != channels[j]
    }

    ghost function View(): D.Dir
      reads this, channels
    {
      D.Dir(me, Views(channels), ready, locals)
    }

    constructor (me: nat, locals: set<nat>)
      ensures Valid() && View() == D.Dir(me, [], {}, locals)
    {
      this.me, this.locals := me, locals;
      channels, ready := [], {};
    }

    /** get_channel */
    method GetChannel(name: string) returns (c: Channel?, i: nat)
      ensures i == D.Find(View().channels, name)
      ensures c == null <==> i == |channels|
      ensures c != null ==> i < |channels| && c == channels[i]
    {
      c := null;
      var k := 0;
      while k < |channels|
        invariant 0 <= k <= |channels|
        invariant forall j :: 0 <= j < k ==> channels[j].View().name != name
      {
        if channels[k].name == name {
          c, i := channels[k], k;
          FindIs(View().channels, name, k);
          return;
        }
        k := k + 1;
      }
      i := |channels|;
      FindIs(View().channels, name, k);
    }

    /** channels.push_back(c) */
    method PushBack(c: Channel)
      requires Valid() && c !in channels
      modifies this`channels
      ensures Valid() && channels == old(channels) + [c] && Views(channels) == old(Views(channels)) + [c.View()]
    {
      channels := channels + [c];
    }

    /** A new channel registers itself. */
    method Create(name: string) returns (c: Channel)
      requires Valid()
      modifies this`channels
      ensures Valid() && fresh(c) && channels == old(channels) + [c]
      ensures Views(channels) == old(Views(channels)) + [D.NewChannel(name)]
    {
      c := new Channel(name);
      PushBack(c);
    }

    /** get_or_create_channel */
    method GetOrCreate(name: string) returns (c: Channel, i: nat)
      requires Valid()
      modifies this`channels
      ensures Valid() && old(channels) <= channels && fresh(channels[|old(channels)|..])
      ensures View().channels == D.Ensure(old(View().channels), name)
      ensures i == D.Find(old(View().channels), name) < |channels| && c == channels[i]
      ensures c in old(channels) || fresh(c)
    {
      var found, k := GetChannel(name);
      i := k;
      if found == null {
        c := Create(name);
      } else {
        c := found;
      }
    }

    /** setPublisher of the channel at i */
    method SetPublisher(c: Channel, i: nat, p: Option<nat>, left: map<string, nat>) returns (effects: seq<D.Effect>)
      requires Valid() && i < |channels| && c == channels[i]
      modifies c
      ensures Views(channels) == old(Views(channels))[i := c.View()]
      ensures D.Turn(c.View(), effects) == D.SetPublisher(me, locals, old(c.View()), p, left)
    {
      effects := c.SetPublisher(me, locals, p, left);
    }

    // ---------- the API

    /** publish() of the channel at i */
    method PublishChannel(c: Channel, i: nat, left: map<string, nat>) returns (effects: seq<D.Effect>)
      requires Valid() && i < |channels| && c == channels[i] && i == D.Find(View().channels, c.name)
      modifies c
      ensures D.Outcome(View(), effects) == D.PublishHere(old(View()), c.name, left)
    {
      effects := [];
      if c.publisher != Some(me) {
        effects := SetPublisher(c, i, Some(me), left);
        effects := effects + [D.ToReady(D.Publish(c.Kind(me), c.name, c.publisher))];
      }
    }

    /** publish(name) */
    method Publish(name: string, left: map<string, nat>) returns (effects: seq<D.Effect>)
      requires Valid()
      modifies this`channels, channels
      ensures Valid() && old(channels) <= channels && fresh(channels[|old(channels)|..])
      ensures D.Outcome(View(), effects) == D.PublishHere(old(View()), name, left)
      ensures effects == if old(D.Get(View().channels, name).publisher == Some(me)) then []
                         else [D.ToReady(D.Publish('P', name, Some(me)))]
    {
      ghost var d := View();
      if D.Get(d.channels, name).publisher != Some(me) { H.PublishSaid(d, name, left); }
      var c, i := GetOrCreate(name);
      PublishRegistered(old(View()), name, left);
      effects := PublishChannel(c, i, left);
    }

    /** unpublish() of an existing channel */
    method Unpublish(name: string, left: map<string, nat>) returns (effects: seq<D.Effect>)
      requires Valid()
      modifies channels
      ensures channels == old(channels)
      ensures D.Outcome(View(), effects) == D.UnpublishHere(old(View()), name, left)
    {
      var c, i := GetChannel(name);
      effects := [];
      if c != null {
        effects := SetPublisher(c, i, None, left);
        effects := effects + [D.ToReady(D.Unpublish(c.Kind(me), name))];
      }
    }

    /** subscribe() to the channel at i */
    method SubscribeChannel(c: Channel, i: nat) returns (effects: seq<D.Effect>)
      requires Valid() && i < |channels| && c == channels[i] && i == D.Find(View().channels, c.name)
      modifies c`subscriptions
      ensures D.Outcome(View(), effects) == D.Subscribe(old(View()), c.name)
    {
      ghost var d := View();
      AddSubscription(c, i);
      effects := c.Connect(me, locals);
      SubscribeAt(d, i, c.name, c.View(), View());
    }

    /** A new Subscription enters the list of its channel. */
    method AddSubscription(c: Channel, i: nat)
      requires Valid() && i < |channels| && c == channels[i]
      modifies c`subscriptions
      ensures c.View() == old(c.View()).(subs := old(c.subscriptions) + 1)
      ensures Views(channels) == old(Views(channels))[i := c.View()]
    {
      c.subscriptions := c.subscriptions + 1;
    }

    /** subscribe(name) */
    method Subscribe(name: string) returns (effects: seq<D.Effect>)
      requires Valid()
      modifies this`channels, channels
      ensures Valid() && old(channels) <= channels && fresh(channels[|old(channels)|..])
      ensures D.Outcome(View(), effects) == D.Subscribe(old(View()), name)
    {
      var c, i := GetOrCreate(name);
      SubscribeRegistered(old(View()), name);
      effects := SubscribeChannel(c, i);
    }

    // ---------- signalling

    /** apply_publish_statement on the channel at i */
    method Apply(c: Channel, i: nat, h: nat, kind: char, owner: Option<nat>, left: map<string, nat>)
      returns (effects: seq<D.Effect>)
      requires Valid() && i < |channels| && c == channels[i] && i == D.Find(View().channels, c.name)
      modifies c
      ensures D.Outcome(View(), effects) == D.ApplyPublish(old(View()), h, kind, c.name, owner, left)
    {
      effects := [];
      ghost var before := Views(channels);
      assert before == before[i := c.View()];
      if kind == 'P' {
        effects := SetPublisher(c, i, Some(h), left);
      } else if kind == 'A' || kind == 'S' {
        if c.publisher.None? {
          effects := SetPublisher(c, i, owner, left);
        }
      }
      assert Views(channels) == before[i := c.View()];
    }

    /** apply_publish_statement */
    method ApplyPublish(h: nat, kind: char, name: string, owner: Option<nat>, left: map<string, nat>)
      returns (effects: seq<D.Effect>)
      requires Valid()
      modifies this`channels, channels
      ensures Valid() && old(channels) <= channels && fresh(channels[|old(channels)|..])
      ensures D.Outcome(View(), effects) == D.ApplyPublish(old(View()), h, kind, name, owner, left)
    {
      var c, i := GetOrCreate(name);
      ApplyRegistered(old(View()), h, kind, name, owner, left);
      effects := Apply(c, i, h, kind, owner, left);
    }

    /** apply_unpublish_statement */
    method ApplyUnpublish(name: string, left: map<string, nat>) returns (effects: seq<D.Effect>)
      requires Valid()
      modifies channels
      ensures channels == old(channels)
      ensures D.Outcome(View(), effects) == D.ApplyUnpublish(old(View()), name, left)
    {
      var c, i := GetChannel(name);
      effects := [];
      if c != null { effects := SetPublisher(c, i, None, left); }
    }

    /** make_offer_tcp */
    method MakeOffer(h: nat, name: string, port: int) returns (effects: seq<D.Effect>)
      requires Valid()
      modifies channels
      ensures channels == old(channels)
      ensures D.Outcome(View(), effects) == D.MakeOffer(old(View()), h, name, port)
    {
      var c, i := GetChannel(name);
      effects := [];
      if c != null {
        effects := OfferTcp(c, i, h, port);
      }
    }

    /** offer_tcp of the channel at i */
    method OfferTcp(c: Channel, i: nat, h: nat, port: int) returns (effects: seq<D.Effect>)
      requires Valid() && i < |channels| && c == channels[i]
      modifies c`server
      ensures c.View() == old(c.View()).(server := Some(if old(c.server).Some? then old(c.server).value else port))
      ensures effects == [D.To(h, D.OfferTcp(c.name, c.View().server.value))]
      ensures Views(channels) == old(Views(channels))[i := c.View()]
    {
      effects := c.OfferTcp(h, port);
    }

    /** answer_offer_tcp */
    method AnswerOffer(name: string, port: int) returns (effects: seq<D.Effect>)
      requires Valid()
      modifies channels
      ensures channels == old(channels)
      ensures D.Outcome(View(), effects) == D.AnswerOffer(old(View()), name, port)
    {
      var c, i := GetChannel(name);
      effects := [];
      if c != null {
        effects := OnOfferTcp(c, i, port);
      }
    }

    /** on_offer_tcp of the channel at i */
    method OnOfferTcp(c: Channel, i: nat, port: int) returns (effects: seq<D.Effect>)
      requires Valid() && i < |channels| && c == channels[i]
      modifies c`offeredPort
      ensures c.View() == old(c.View()).(offered := port) && effects == D.ConnectByTcp(c.View())
      ensures Views(channels) == old(Views(channels))[i := c.View()]
    {
      effects := c.OnOfferTcp(port);
    }

    /** broadcast_published_channels */
    method BroadcastPublished() returns (effects: seq<D.Effect>)
      ensures effects == D.Announce(me, View().channels, 0)
    {
      effects := [];
      ghost var cs := Views(channels);
      var i := 0;
      while i < |channels|
        invariant 0 <= i <= |channels|
        invariant effects + D.Announce(me, cs, i) == D.Announce(me, cs, 0)
      {
        var c := channels[i];
        if c.publisher == Some(me) {
          effects := effects + [D.ToReady(D.Publish(c.Kind(me), c.name, c.publisher))];
        }
        i := i + 1;
      }
    }

    /** close_all_channels, on the loss of the connection to h */
    method CloseAll(h: nat, left: map<string, nat>)
      requires Valid()
      modifies channels
      ensures channels == old(channels) && Views(channels) == D.CloseAll(old(View()), h, left)
    {
      ghost var goal := D.CloseAll(View(), h, left);
      var i := 0;
      while i < |channels|
        invariant 0 <= i <= |channels| && channels == old(channels)
        invariant forall j {:trigger channels[j]} :: 0 <= j < i ==> channels[j].View() == goal[j]
        invariant forall j {:trigger channels[j]} :: i <= j < |channels| ==> channels[j].View() == old(channels[j].View())
      {
        var c := channels[i];
        if c.publisher == Some(h) {
          var none := c.SetPublisher(me, locals, None, left);
        }
        i := i + 1;
      }
    }

    /** Host::on_close of h */
    method OnLoss(h: nat, left: map<string, nat>)
      requires Valid()
      modifies this`ready, channels
      ensures channels == old(channels) && View() == D.OnLoss(old(View()), h, left)
    {
      ready := ready - {h};
      CloseAll(h, left);
    }

    /** Host::on_receive and digest_message: the whole of what a message from h does to the directory. */
    method OnMessage(h: nat, msg: D.Message, left: map<string, nat>, port: int) returns (effects: seq<D.Effect>)
      requires Valid()
      modifies this, channels
      ensures Valid() && old(channels) <= channels && fresh(channels[|old(channels)|..])
      ensures D.Outcome(View(), effects) == D.OnMessage(old(View()), h, msg, left, port)
    {
      effects := [];
      if msg.Hello? {
        ready := ready + {h};
        effects := BroadcastPublished();
      } else if h in ready {
        match msg {
          case Publish(kind, name, owner) => effects := ApplyPublish(h, kind, name, owner, left);
          case Unpublish(_, name) => effects := ApplyUnpublish(name, left);
          case ConnectTcp(name) => effects := MakeOffer(h, name, port);
          case OfferTcp(name, p) => effects := AnswerOffer(name, p);
          case ConnectShm(_) =>
        }
      }
    }
  }
}
