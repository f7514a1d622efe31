/**
 Directories of any number of nodes exchanging messages over FIFO links. links[p][q] is the queue from
 p to q. A link comes up with the CONNECTED of either side already sent, which is how the mesh handshake
 orders it; losing a link is one step that both ends notice.
 */
module DirectoryNet {
  import opened Common
  import opened DirectorySpec

  datatype Link = Down | Up(queue: seq<Message>)

  datatype State = State(dirs: seq<Dir>, links: seq<seq<Link>>)

  datatype Event =
    | Publishes(node: nat, name: string, left: map<string, nat>)
    | Unpublishes(node: nat, name: string, left: map<string, nat>)
    | Subscribes(node: nat, name: string)
    | LinkUp(a: nat, b: nat)
    | LinkLoss(a: nat, b: nat, leftA: map<string, nat>, leftB: map<string, nat>)
    | Delivers(from: nat, node: nat, left: map<string, nat>, port: int)

  /** The TCP server of a channel is bound in this range. */
  const FIRST_PORT := 10000
  const LAST_PORT := 20000

  predicate Shaped(s: State) {
    && |s.links| == |s.dirs|
    && forall p :: 0 <= p < |s.links| ==> |s.links[p]| == |s.dirs|
  }

  function Init(locals: seq<set<nat>>): State {
    var n := |locals|;
    State(seq(n, i requires 0 <= i < n => Dir(i, [], {}, locals[i])), seq(n, i => seq(n, j => Down)))
  }

  function SetLink(links: seq<seq<Link>>, p: nat, q: nat, l: Link): seq<seq<Link>>
    requires p < |links| && q < |links[p]|
  {
    links[p := links[p][q := l]]
  }

  /** The messages a list of effects puts on the link to q, in order. */
  function Posted(effects: seq<Effect>, ready: set<nat>, q: nat): seq<Message> {
    if effects == [] then []
    else Posted1(effects[0], ready, q) + Posted(effects[1..], ready, q)
  }

  function Posted1(e: Effect, ready: set<nat>, q: nat): seq<Message> {
    match e
    case ToReady(msg) => if q in ready then [msg] else []
    case To(h, msg) => if h == q then [msg] else []
    case Dial(_, _, _, _) => []
  }

  /** A link that is down swallows what is sent on it. */
  function Extend(l: Link, msgs: seq<Message>): Link {
    if l.Up? then Up(l.queue + msgs) else l
  }

  /** Node p performs a list of effects. */
  function PostAll(links: seq<seq<Link>>, p: nat, ready: set<nat>, effects: seq<Effect>): seq<seq<Link>>
    requires p < |links|
  {
    links[p := seq(|links[p]|, q requires 0 <= q < |links[p]| => Extend(links[p][q], Posted(effects, ready, q)))]
  }

  function Apply(s: State, n: nat, o: Outcome): State
    requires Shaped(s) && n < |s.dirs|
  {
    State(s.dirs[n := o.dir], PostAll(s.links, n, o.dir.ready, o.effects))
  }

  predicate Enabled(s: State, e: Event)
    requires Shaped(s)
  {
    match e
    case Publishes(n, _, _) => n < |s.dirs|
    case Unpublishes(n, _, _) => n < |s.dirs|
    case Subscribes(n, _) => n < |s.dirs|
    case LinkUp(a, b) => a < |s.dirs| && b < |s.dirs| && a != b && s.links[a][b].Down? && s.links[b][a].Down?
    case LinkLoss(a, b, _, _) => a < |s.dirs| && b < |s.dirs| && a != b && s.links[a][b].Up?
    case Delivers(p, n, _, port) =>
      p < |s.dirs| && n < |s.dirs| && s.links[p][n].Up? && s.links[p][n].queue != [] && FIRST_PORT <= port <= LAST_PORT
  }

  function Deliver(s: State, p: nat, n: nat, left: map<string, nat>, port: int): State
    requires Shaped(s) && Enabled(s, Delivers(p, n, left, port))
  {
    var q := s.links[p][n].queue;
    Apply(s.(links := SetLink(s.links, p, n, Up(q[1..]))), n, OnMessage(s.dirs[n], p, q[0], left, port))
  }

  function Step(s: State, e: Event): State
    requires Shaped(s)
  {
    if !Enabled(s, e) then s else
    match e
    case Publishes(n, name, left) => Apply(s, n, PublishHere(s.dirs[n], name, left))
    case Unpublishes(n, name, left) => Apply(s, n, UnpublishHere(s.dirs[n], name, left))
    case Subscribes(n, name) => Apply(s, n, Subscribe(s.dirs[n], name))
    case LinkUp(a, b) => s.(links := SetLink(SetLink(s.links, a, b, Up([Hello])), b, a, Up([Hello])))
    case LinkLoss(a, b, leftA, leftB) =>
      State(s.dirs[a := OnLoss(s.dirs[a], b, leftA)][b := OnLoss(s.dirs[b], a, leftB)],
            SetLink(SetLink(s.links, a, b, Down), b, a, Down))
    case Delivers(p, n, left, port) => Deliver(s, p, n, left, port)
  }

  lemma StepShaped(s: State, e: Event)
    requires Shaped(s)
    ensures Shaped(Step(s, e)) && |Step(s, e).dirs| == |s.dirs|
  {
  }

  function RunFrom(s: State, events: seq<Event>): (r: State)
    requires Shaped(s)
    ensures Shaped(r) && |r.dirs| == |s.dirs|
  {
    if events == [] then s
    else
      var before := RunFrom(s, events[..|events| - 1]);
      StepShaped(before, events[|events| - 1]);
      Step(before, events[|events| - 1])
  }

  /** The state after a run; an event that is not enabled changes nothing. */
  function Run(locals: seq<set<nat>>, events: seq<Event>): (r: State)
    ensures Shaped(r) && |r.dirs| == |locals|
  {
    RunFrom(Init(locals), events)
  }
}
