/**
 The channel registry of one node (src/channel.h, src/channel.cpp, src/signaling.cpp) as functions on
 values. Hosts are named by numbers. `left` stands for what disconnect() leaves in a subscription list:
 the source deletes each subscription while iterating over the list, so nothing is assumed about it.
 */
module DirectorySpec {
  import opened Common

  datatype Channel = Channel(
    name: string,
    publisher: Option<nat>,   // the host known to publish it
    offered: int,             // offeredPort, 0 when none
    subs: nat,                // how many local subscriptions
    server: Option<int>)      // port of the lazily created TCPServer

  /** What one node knows: its channels, the hosts it regards as ready, those that are is_local(). */
  datatype Dir = Dir(me: nat, channels: seq<Channel>, ready: set<nat>, locals: set<nat>)

  datatype Message =
    | Hello                                                    // CONNECTED
    | Publish(kind: char, name: string, owner: Option<nat>)    // PUBLISH=<kind><name>|<address of owner>
    | Unpublish(kind: char, name: string)                      // UNPUBLISH=<kind><name>|
    | ConnectTcp(name: string)
    | OfferTcp(name: string, port: int)
    | ConnectShm(name: string)                                 // sent without '=', so no handler accepts it

  datatype Effect =
    | ToReady(msg: Message)                   // Host::broadcast
    | To(host: nat, msg: Message)             // Host::send
    | Dial(name: string, host: nat, port: int, count: nat)  // count subscriptions connect to host:port

  /** The effects of a handler together with the new value of the channel or node it ran on. */
  datatype Turn = Turn(channel: Channel, effects: seq<Effect>)
  datatype Outcome = Outcome(dir: Dir, effects: seq<Effect>)

  /** The first channel with this name, |channels| when there is none. */
  function Find(channels: seq<Channel>, name: string): (i: nat)
    ensures i <= |channels|
    ensures i < |channels| ==> channels[i].name == name
    ensures forall j :: 0 <= j < i ==> channels[j].name != name
  {
    if channels == [] then 0
    else if channels[0].name == name then 0
    else 1 + Find(channels[1..], name)
  }

  function NewChannel(name: string): Channel {
    Channel(name, None, 0, 0, None)
  }

  /** get_or_create_channel */
  function Ensure(channels: seq<Channel>, name: string): (r: seq<Channel>)
    ensures Find(channels, name) < |r| && r[Find(channels, name)].name == name
    ensures channels <= r
  {
    if Find(channels, name) < |channels| then channels else channels + [NewChannel(name)]
  }

  /** The named channel, new if it is not registered. */
  function Get(channels: seq<Channel>, name: string): (c: Channel)
    ensures c.name == name
  {
    Ensure(channels, name)[Find(channels, name)]
  }

  /** The registry after get_or_create_channel(name) and an update of that channel. */
  function Set(channels: seq<Channel>, name: string, c: Channel): seq<Channel> {
    Ensure(channels, name)[Find(channels, name) := c]
  }

  predicate Has(channels: seq<Channel>, name: string) {
    Find(channels, name) < |channels|
  }

  // ---------- one channel

  /** getType */
  function Kind(me: nat, c: Channel): char {
    if c.publisher == Some(me) then 'P'
    else if c.subs > 0 then 'S'
    else if c.publisher.Some? then 'A'
    else 'N'
  }

  /** ChannelImpl::connect_tcp, which on_offer_tcp also calls directly. */
  function ConnectByTcp(c: Channel): seq<Effect> {
    if c.publisher.None? then []
    else if c.offered == 0 then [To(c.publisher.value, ConnectTcp(c.name))]
    else [Dial(c.name, c.publisher.value, c.offered, c.subs)]
  }

  /** ChannelImpl::connect */
  function Connect(me: nat, locals: set<nat>, c: Channel): seq<Effect> {
    if c.publisher.None? || c.subs == 0 || c.publisher == Some(me) then []
    else if c.publisher.value in locals then [To(c.publisher.value, ConnectShm(c.name))]
    else ConnectByTcp(c)
  }

  function Left(left: map<string, nat>, c: Channel): nat {
    if c.name in left && left[c.name] <= c.subs then left[c.name] else 0
  }

  /** ChannelImpl::setPublisher */
  function SetPublisher(me: nat, locals: set<nat>, c: Channel, p: Option<nat>, left: map<string, nat>): Turn {
    var c1 := if c.publisher.Some? && c.publisher != p then c.(subs := Left(left, c)) else c;
    var c2 := c1.(publisher := p, offered := 0);
    Turn(c2, if c2.subs > 0 && p.Some? then Connect(me, locals, c2) else [])
  }

  // ---------- the API

  /** publish(name) */
  function PublishHere(d: Dir, name: string, left: map<string, nat>): Outcome {
    var c := Get(d.channels, name);
    if c.publisher == Some(d.me) then Outcome(d, [])
    else
      var t := SetPublisher(d.me, d.locals, c, Some(d.me), left);
      Outcome(d.(channels := Set(d.channels, name, t.channel)),
              t.effects + [ToReady(Publish(Kind(d.me, t.channel), name, t.channel.publisher))])
  }

  /** unpublish() of an existing channel */
  function UnpublishHere(d: Dir, name: string, left: map<string, nat>): Outcome {
    if !Has(d.channels, name) then Outcome(d, [])
    else
      var t := SetPublisher(d.me, d.locals, Get(d.channels, name), None, left);
      Outcome(d.(channels := Set(d.channels, name, t.channel)),
              t.effects + [ToReady(Unpublish(Kind(d.me, t.channel), name))])
  }

  /** subscribe(name) */
  function Subscribe(d: Dir, name: string): Outcome {
    var c := Get(d.channels, name);
    var c' := c.(subs := c.subs + 1);
    Outcome(d.(channels := Set(d.channels, name, c')), Connect(d.me, d.locals, c'))
  }

  // ---------- messages

  /** broadcast_published_channels, from index i on */
  function Announce(me: nat, channels: seq<Channel>, i: nat): seq<Effect>
    decreases |channels| - i
  {
    if i >= |channels| then []
    else (if channels[i].publisher == Some(me)
          then [ToReady(Publish(Kind(me, channels[i]), channels[i].name, channels[i].publisher))] else [])
         + Announce(me, channels, i + 1)
  }

  /** apply_publish_statement */
  function ApplyPublish(d: Dir, h: nat, kind: char, name: string, owner: Option<nat>, left: map<string, nat>): Outcome {
    var c := Get(d.channels, name);
    var t := if kind == 'P' then SetPublisher(d.me, d.locals, c, Some(h), left)
             else if (kind == 'A' || kind == 'S') && c.publisher.None? then SetPublisher(d.me, d.locals, c, owner, left)
             else Turn(c, []);
    Outcome(d.(channels := Set(d.channels, name, t.channel)), t.effects)
  }

  /** apply_unpublish_statement */
  function ApplyUnpublish(d: Dir, name: string, left: map<string, nat>): Outcome {
    if !Has(d.channels, name) then Outcome(d, [])
    else
      var t := SetPublisher(d.me, d.locals, Get(d.channels, name), None, left);
      Outcome(d.(channels := Set(d.channels, name, t.channel)), t.effects)
  }

  /** make_offer_tcp; `port` is the port the server finds if it has to be created. */
  function MakeOffer(d: Dir, h: nat, name: string, port: int): Outcome {
    if !Has(d.channels, name) then Outcome(d, [])
    else
      var c := Get(d.channels, name);
      var c' := if c.server.Some? then c else c.(server := Some(port));
      Outcome(d.(channels := Set(d.channels, name, c')), [To(h, OfferTcp(name, c'.server.value))])
  }

  /** answer_offer_tcp */
  function AnswerOffer(d: Dir, name: string, port: int): Outcome {
    if !Has(d.channels, name) then Outcome(d, [])
    else
      var c := Get(d.channels, name).(offered := port);
      Outcome(d.(channels := Set(d.channels, name, c)), ConnectByTcp(c))
  }

  /** on_receive and digest_message: CONNECTED opens the gate, anything else needs it open. */
  function OnMessage(d: Dir, h: nat, msg: Message, left: map<string, nat>, port: int): Outcome {
    if msg.Hello? then Outcome(d.(ready := d.ready + {h}), Announce(d.me, d.channels, 0))
    else if h !in d.ready then Outcome(d, [])
    else match msg
      case Publish(kind, name, owner) => ApplyPublish(d, h, kind, name, owner, left)
      case Unpublish(_, name) => ApplyUnpublish(d, name, left)
      case ConnectTcp(name) => MakeOffer(d, h, name, port)
      case OfferTcp(name, p) => AnswerOffer(d, name, p)
      case ConnectShm(_) => Outcome(d, [])
  }

  /** close_all_channels: setPublisher(NULL) on every channel h published. */
  function CloseAll(d: Dir, h: nat, left: map<string, nat>): (r: seq<Channel>)
    ensures |r| == |d.channels|
    ensures forall i :: 0 <= i < |r| ==>
      r[i] == if d.channels[i].publisher == Some(h)
              then SetPublisher(d.me, d.locals, d.channels[i], None, left).channel else d.channels[i]
  {
    seq(|d.channels|, i requires 0 <= i < |d.channels| =>
      if d.channels[i].publisher == Some(h)
      then SetPublisher(d.me, d.locals, d.channels[i], None, left).channel else d.channels[i])
  }

  /** Host::on_close */
  function OnLoss(d: Dir, h: nat, left: map<string, nat>): Dir {
    d.(ready := d.ready - {h}, channels := CloseAll(d, h, left))
  }
}
