/**
 The text of the messages between hosts: how src/mesh.cpp, src/channel.h and src/channel.cpp print them
 and how Host::on_receive and digest_message (src/signaling.cpp) take them apart again.
 */
module Wire {
  import opened Text
  import F = Framing

  datatype Message =
    | Id(id: int, port: int)
    | You(ip: string)
    | Connected
    | HostAt(ip: string, port: int)
    | Publish(kind: char, name: string, ip: string, port: int)
    | Unpublish(kind: char, name: string)    // always sent without a publisher
    | ConnectTcp(name: string)
    | ConnectShm(name: string)
    | OfferTcp(name: string, port: int)
    | OfferShm(name: string, path: string, size: int)

  /** What a received line makes a host do: a handler with its arguments, nothing, or an exception. */
  datatype Heard = Handled(m: Message) | Unknown | Throws

  datatype Tag = IdTag | YouTag | HostTag | PublishTag | UnpublishTag | ConnectTcpTag | ConnectShmTag | OfferTcpTag | OfferShmTag

  /** The prefix a receiver looks for. */
  function Prefix(t: Tag): string {
    match t
    case IdTag => "ID="
    case YouTag => "YOU="
    case HostTag => "Host="
    case PublishTag => "PUBLISH="
    case UnpublishTag => "UNPUBLISH="
    case ConnectTcpTag => "CONNECT_TCP="
    case ConnectShmTag => "CONNECT_SHM="
    case OfferTcpTag => "OFFER_TCP="
    case OfferShmTag => "OFFER_SHM="
  }

  const CONNECTED := "CONNECTED"

  function Place(ip: string, port: int): string {
    ip + ":" + Text.Print(port)
  }

  /** As the senders print it; the SHM messages lack the '='. */
  function Print(m: Message): string {
    match m
    case Id(id, port) => Prefix(IdTag) + (Text.Print(id) + "|PORT=" + Text.Print(port))
    case You(ip) => Prefix(YouTag) + ip
    case Connected => CONNECTED
    case HostAt(ip, port) => Prefix(HostTag) + Place(ip, port)
    case Publish(kind, name, ip, port) => Prefix(PublishTag) + ([kind] + name + "|" + Place(ip, port))
    case Unpublish(kind, name) => Prefix(UnpublishTag) + ([kind] + name + "|")
    case ConnectTcp(name) => Prefix(ConnectTcpTag) + name
    case ConnectShm(name) => "CONNECT_SHM" + name
    case OfferTcp(name, port) => Prefix(OfferTcpTag) + (name + "|" + Text.Print(port))
    case OfferShm(name, path, size) => "OFFER_SHM" + (name + "|" + path + "|" + Text.Print(size))
  }

  /** The ID= branch of on_receive and of handle_incoming_connection */
  function HearId(s: string): Heard {
    Handled(Id(Atoi(After(Before(s, "|"), "=")), Atoi(After(After(s, "|"), "="))))
  }

  function HearHost(body: string): Heard {
    Handled(HostAt(Before(body, ":"), Atoi(After(body, ":"))))
  }

  /** apply_publish_statement; substr(1) of an empty statement throws. */
  function HearPublish(body: string): Heard {
    if body == "" then Throws
    else
      var opts := After(body, "|");
      Handled(Publish(body[0], Before(body[1..], "|"), Before(opts, ":"), Atoi(After(opts, ":"))))
  }

  function HearUnpublish(body: string): Heard {
    if body == "" then Throws else Handled(Unpublish(body[0], Before(body[1..], "|")))
  }

  function HearOfferTcp(body: string): Heard {
    Handled(OfferTcp(Before(body, "|"), Atoi(After(body, "|"))))
  }

  function HearOfferShm(body: string): Heard {
    var offered := After(body, "|");
    Handled(OfferShm(Before(body, "|"), Before(offered, "|"), Atoi(After(offered, "|"))))
  }

  /** digest_message */
  function Digest(s: string): Heard {
    if StartsWith(s, Prefix(PublishTag)) then HearPublish(After(s, "="))
    else if StartsWith(s, Prefix(UnpublishTag)) then HearUnpublish(After(s, "="))
    else if StartsWith(s, Prefix(ConnectTcpTag)) then Handled(ConnectTcp(After(s, "=")))
    else if StartsWith(s, Prefix(ConnectShmTag)) then Handled(ConnectShm(After(s, "=")))
    else if StartsWith(s, Prefix(OfferTcpTag)) then HearOfferTcp(After(s, "="))
    else if StartsWith(s, Prefix(OfferShmTag)) then HearOfferShm(After(s, "="))
    else Unknown
  }

  /** Host::on_receive of a ready host */
  function Hear(s: string): Heard {
    if StartsWith(s, Prefix(IdTag)) then HearId(s)
    else if StartsWith(s, Prefix(YouTag)) then Handled(You(After(s, "=")))
    else if s == CONNECTED then Handled(Connected)
    else if StartsWith(s, Prefix(HostTag)) then HearHost(After(s, "="))
    else Digest(s)
  }

  // ---------- dispatch

  lemma PrefixShape(t: Tag)
    ensures var p := Prefix(t);
      && |p| > 2 && p[|p| - 1] == '=' && '=' !in p[..|p| - 1]
  {
  }

  lemma PrefixesDiffer(t: Tag, u: Tag)
    requires |Prefix(t)| == |Prefix(u)| && Prefix(t)[0] == Prefix(u)[0]
    requires Prefix(t)[|Prefix(t)| - 2] == Prefix(u)[|Prefix(u)| - 2]
    ensures t == u
  {
  }

  /** A line with one tag starts with no other. */
  lemma PrefixOnly(t: Tag, u: Tag, body: string)
    ensures StartsWith(Prefix(t) + body, Prefix(u)) <==> t == u
  {
    PrefixShape(t);
    PrefixShape(u);
    var s, p, q := Prefix(t) + body, Prefix(t), Prefix(u);
    if StartsWith(s, q) {
      SameEnd(p, q, body);
      PrefixesDiffer(t, u);
    }
  }

  lemma SameEnd(p: string, q: string, body: string)
    requires |p| > 2 && |q| > 2 && q <= p + body
    requires p[|p| - 1] == '=' && q[|q| - 1] == '=' && '=' !in p[..|p| - 1] && '=' !in q[..|q| - 1]
    ensures p == q
  {
    var s := p + body;
    assert forall k :: 0 <= k < |q| ==> q[k] == s[k];
    assert s[|p| - 1] == p[|p| - 1];
    assert forall k :: 0 <= k < |p| - 1 ==> p[..|p| - 1][k] == p[k] && p[k] != '=';
    assert forall k :: 0 <= k < |q| - 1 ==> q[..|q| - 1][k] == q[k] && q[k] != '=';
  }

  /** The handler a tag stands for, on a line s with this body. */
  function ByTag(t: Tag, s: string, body: string): Heard {
    match t
    case IdTag => HearId(s)
    case YouTag => Handled(You(body))
    case HostTag => HearHost(body)
    case PublishTag => HearPublish(body)
    case UnpublishTag => HearUnpublish(body)
    case ConnectTcpTag => Handled(ConnectTcp(body))
    case ConnectShmTag => Handled(ConnectShm(body))
    case OfferTcpTag => HearOfferTcp(body)
    case OfferShmTag => HearOfferShm(body)
  }

  lemma BodyOf(t: Tag, body: string)
    ensures After(Prefix(t) + body, "=") == body
    ensures Prefix(t) + body != CONNECTED
  {
    PrefixShape(t);
    var p := Prefix(t);
    var tag := p[..|p| - 1];
    assert p == tag + ['='];
    assert p + body == tag + ['='] + body;
    CutAtChar(tag, '=', body);
    assert (p + body)[|p| - 1] == '=';
    assert '=' !in CONNECTED;
  }

  /** A tagged line reaches the handler of its own tag, with the text behind the tag. */
  lemma Dispatch(t: Tag, body: string)
    ensures Hear(Prefix(t) + body) == ByTag(t, Prefix(t) + body, body)
  {
    BodyOf(t, body);
    var s := Prefix(t) + body;
    forall u ensures StartsWith(s, Prefix(u)) <==> t == u { PrefixOnly(t, u, body); }
    ByPrefix(t, s, body);
  }

  lemma ByPrefix(t: Tag, s: string, body: string)
    requires s != CONNECTED && After(s, "=") == body
    requires forall u :: StartsWith(s, Prefix(u)) <==> t == u
    ensures Hear(s) == ByTag(t, s, body)
  {
  }

  // ---------- one handler at a time

  lemma NumberBack(text: string, tag: string, n: int)
    requires '=' !in tag && text == tag + ['='] + Text.Print(n)
    ensures Atoi(After(text, "=")) == n
  {
    CutAtChar(tag, '=', Text.Print(n));
    AtoiOfPrint(n, "");
    assert Text.Print(n) + "" == Text.Print(n);
  }

  lemma IdParts(a: string, b: string, id: int, port: int)
    requires '|' !in a && Atoi(After(a, "=")) == id && Atoi(After(b, "=")) == port
    ensures HearId(a + ['|'] + b) == Handled(Id(id, port))
  {
    CutAtChar(a, '|', b);
  }

  lemma IdLine(a: string, b: string, id: int, port: int)
    requires a == "ID" + ['='] + Text.Print(id) && b == "PORT" + ['='] + Text.Print(port)
    ensures HearId(a + ['|'] + b) == Handled(Id(id, port))
  {
    AtoiOfPrint(id, "");
    NumberBack(a, "ID", id);
    NumberBack(b, "PORT", port);
    IdParts(a, b, id, port);
  }

  lemma IdText(a: string, b: string)
    ensures Prefix(IdTag) + (a + "|PORT=" + b) == "ID" + ['='] + a + ['|'] + ("PORT" + ['='] + b)
  {
  }

  lemma PlaceBack(ip: string, port: int)
    ensures ':' !in ip ==> Before(Place(ip, port), ":") == ip && Atoi(After(Place(ip, port), ":")) == port
    ensures ':' in ip ==> Before(Place(ip, port), ":") != ip
  {
    var b := Text.Print(port);
    assert Place(ip, port) == ip + [':'] + b;
    if ':' in ip {
      BeforeChar(Place(ip, port), ':');
    } else {
      CutAtChar(ip, ':', b);
      AtoiOfPrint(port, "");
      assert b + "" == b;
    }
  }

  /** Cutting name|rest at the first '|' gives the name back just when it holds none. */
  lemma NameBack(name: string, rest: string)
    ensures '|' !in name ==> Before(name + "|" + rest, "|") == name && After(name + "|" + rest, "|") == rest
    ensures '|' in name ==> Before(name + "|" + rest, "|") != name
  {
    assert name + "|" + rest == name + ['|'] + rest;
    if '|' in name { BeforeChar(name + "|" + rest, '|'); } else { CutAtChar(name, '|', rest); }
  }

  lemma PublishBack(kind: char, name: string, ip: string, port: int)
    requires kind != '|'
    ensures HearPublish([kind] + name + "|" + Place(ip, port)) == Handled(Publish(kind, name, ip, port))
            <==> '|' !in name && ':' !in ip
  {
    var rest := Place(ip, port);
    var body := [kind] + name + "|" + rest;
    NameBack(name, rest);
    NameBack([kind] + name, rest);
    assert body[1..] == name + "|" + rest;
    PlaceBack(ip, port);
  }

  lemma UnpublishBack(kind: char, name: string)
    ensures HearUnpublish([kind] + name + "|") == Handled(Unpublish(kind, name)) <==> '|' !in name
  {
    var body := [kind] + name + "|";
    assert body[1..] == name + "|" == name + "|" + "";
    NameBack(name, "");
  }

  lemma OfferTcpBack(name: string, port: int)
    ensures HearOfferTcp(name + "|" + Text.Print(port)) == Handled(OfferTcp(name, port)) <==> '|' !in name
  {
    NameBack(name, Text.Print(port));
    AtoiOfPrint(port, "");
    assert Text.Print(port) + "" == Text.Print(port);
  }

  lemma HostBack(ip: string, port: int)
    ensures HearHost(Place(ip, port)) == Handled(HostAt(ip, port)) <==> ':' !in ip
  {
    PlaceBack(ip, port);
  }

  /** A line without any of the tags is ignored. */
  lemma ShmIgnored(shm: string, rest: string)
    requires (shm == "CONNECT_SHM" || shm == "OFFER_SHM") && (rest == [] || rest[0] != '=')
    ensures Hear(shm + rest) == Unknown
  {
    var s := shm + rest;
    assert '=' !in shm;
    forall t ensures !StartsWith(s, Prefix(t)) { NoTag(shm, rest, t); }
    assert s[0] == shm[0] && s[7] == shm[7];
  }

  lemma Ends(s: string, p: string)
    requires p != [] && p <= s
    ensures s[0] == p[0] && s[|p| - 1] == p[|p| - 1]
  {
  }

  lemma NoTag(shm: string, rest: string, t: Tag)
    requires (shm == "CONNECT_SHM" || shm == "OFFER_SHM") && (rest == [] || rest[0] != '=')
    ensures !StartsWith(shm + rest, Prefix(t))
  {
    var s, p := shm + rest, Prefix(t);
    PrefixShape(t);
    assert forall k :: 0 <= k < |shm| ==> s[k] == shm[k] && shm[k] != '=';
    assert rest != [] ==> s[|shm|] == rest[0];
    if StartsWith(s, p) { Ends(s, p); }
  }

  // ---------- every message

  /** What a message must be like to arrive as sent; the SHM messages never do. */
  predicate Plain(m: Message) {
    match m
    case Id(_, _) => true
    case You(_) => true
    case Connected => true
    case HostAt(ip, _) => ':' !in ip
    case Publish(_, name, ip, _) => '|' !in name && ':' !in ip
    case Unpublish(_, name) => '|' !in name
    case ConnectTcp(_) => true
    case OfferTcp(name, _) => '|' !in name
    case ConnectShm(_) => false
    case OfferShm(_, _, _) => false
  }

  /** A PUBLISH carries what getType returns. */
  predicate Typed(m: Message) {
    m.Publish? ==> m.kind in "PSAN"
  }

  /** What becomes of a message is what its own handler makes of the text behind the tag. */
  lemma Trip(m: Message, t: Tag, body: string)
    requires Print(m) == Prefix(t) + body
    ensures Hear(Print(m)) == ByTag(t, Prefix(t) + body, body)
  {
    Dispatch(t, body);
  }

  /** The SHM messages are ignored, or mistaken for another when the name supplies the missing '='. */
  lemma ShmLost(m: Message)
    requires m.ConnectShm? || m.OfferShm?
    ensures Hear(Print(m)) != Handled(m)
    ensures (m.name == "" || m.name[0] != '=') ==> Hear(Print(m)) == Unknown
  {
    if m.name != "" && m.name[0] == '=' {
      if m.ConnectShm? { ConnectShmMistaken(m.name); } else { OfferShmMistaken(m.name, m.path, m.size); }
    } else if m.ConnectShm? {
      ShmIgnored("CONNECT_SHM", m.name);
    } else {
      ShmIgnored("OFFER_SHM", m.name + "|" + m.path + "|" + Text.Print(m.size));
    }
  }

  lemma ConnectShmMistaken(name: string)
    requires name != "" && name[0] == '='
    ensures Hear(Print(ConnectShm(name))) == Handled(ConnectShm(name[1..]))
  {
    assert "CONNECT_SHM" + name == Prefix(ConnectShmTag) + name[1..];
    Trip(ConnectShm(name), ConnectShmTag, name[1..]);
  }

  lemma OfferShmMistaken(name: string, path: string, size: int)
    requires name != "" && name[0] == '='
    ensures Hear(Print(OfferShm(name, path, size))) != Handled(OfferShm(name, path, size))
  {
    var rest := name + "|" + path + "|" + Text.Print(size);
    ShmName(name, rest);
    assert "OFFER_SHM" + rest == Prefix(OfferShmTag) + rest[1..];
    Trip(OfferShm(name, path, size), OfferShmTag, rest[1..]);
  }

  /** Without its first character a name is not itself. */
  lemma ShmName(name: string, rest: string)
    requires name != "" && |rest| > |name| && rest[..|name|] == name && rest[|name|] == '|'
    ensures Before(rest[1..], "|") != name
  {
    BeforeChar(rest[1..], '|');
    assert rest[1..][|name| - 1] == '|';
  }

  predicate Tagged(m: Message) {
    !m.Connected? && !m.ConnectShm? && !m.OfferShm?
  }

  function TagOf(m: Message): Tag
    requires Tagged(m)
  {
    match m
    case Id(_, _) => IdTag
    case You(_) => YouTag
    case HostAt(_, _) => HostTag
    case Publish(_, _, _, _) => PublishTag
    case Unpublish(_, _) => UnpublishTag
    case ConnectTcp(_) => ConnectTcpTag
    case OfferTcp(_, _) => OfferTcpTag
  }

  lemma HandlerBack(m: Message, body: string)
    requires Typed(m) && Tagged(m) && Print(m) == Prefix(TagOf(m)) + body
    ensures ByTag(TagOf(m), Print(m), body) == Handled(m) <==> Plain(m)
  {
    match m
    case Id(id, port) =>
      IdLine("ID" + ['='] + Text.Print(id), "PORT" + ['='] + Text.Print(port), id, port);
      IdText(Text.Print(id), Text.Print(port));
    case You(ip) => Behind(YouTag, body, ip);
    case HostAt(ip, port) => Behind(HostTag, body, Place(ip, port)); HostBack(ip, port);
    case Publish(kind, name, ip, port) =>
      Behind(PublishTag, body, [kind] + name + "|" + Place(ip, port));
      PublishBack(kind, name, ip, port);
    case Unpublish(kind, name) => Behind(UnpublishTag, body, [kind] + name + "|"); UnpublishBack(kind, name);
    case ConnectTcp(name) => Behind(ConnectTcpTag, body, name);
    case OfferTcp(name, port) => Behind(OfferTcpTag, body, name + "|" + Text.Print(port)); OfferTcpBack(name, port);
  }

  lemma Behind(t: Tag, a: string, b: string)
    requires Prefix(t) + a == Prefix(t) + b
    ensures a == b
  {
    assert (Prefix(t) + a)[|Prefix(t)|..] == a && (Prefix(t) + b)[|Prefix(t)|..] == b;
  }

  /** Every message reaches its own handler with exactly what was sent if, and only if, it is plain. */
  lemma WireRoundTrip(m: Message)
    requires Typed(m)
    ensures Hear(Print(m)) == Handled(m) <==> Plain(m)
  {
    match m
    case Connected => ConnectedBack();
    case ConnectShm(_) => ShmLost(m);
    case OfferShm(_, _, _) => ShmLost(m);
    case _ =>
      var t := TagOf(m);
      var body := Print(m)[|Prefix(t)|..];
      assert Print(m) == Prefix(t) + body;
      Trip(m, t, body);
      HandlerBack(m, body);
  }

  lemma ConnectedBack()
    ensures Hear(CONNECTED) == Handled(Connected)
  {
    assert CONNECTED[0] == 'C' && CONNECTED[7] == 'E';
    assert Prefix(IdTag)[0] == 'I' && Prefix(YouTag)[0] == 'Y';
  }

  /** How the messages are written. */
  lemma WrittenAs(a: int, b: int, kind: char, name: string, ip: string)
    ensures Print(Id(a, b)) == "ID=" + Text.Print(a) + "|PORT=" + Text.Print(b)
    ensures Print(You(ip)) == "YOU=" + ip && Print(Connected) == "CONNECTED"
    ensures Print(HostAt(ip, a)) == "Host=" + ip + ":" + Text.Print(a)
    ensures Print(Publish(kind, name, ip, a)) == "PUBLISH=" + [kind] + name + "|" + ip + ":" + Text.Print(a)
    ensures Print(Unpublish(kind, name)) == "UNPUBLISH=" + [kind] + name + "|"
    ensures Print(ConnectTcp(name)) == "CONNECT_TCP=" + name
    ensures Print(OfferTcp(name, a)) == "OFFER_TCP=" + name + "|" + Text.Print(a)
    ensures Print(ConnectShm(name)) == "CONNECT_SHM" + name
  {
    assert "PUBLISH=" + ([kind] + name + "|" + (ip + ":" + Text.Print(a))) == "PUBLISH=" + [kind] + name + "|" + ip + ":" + Text.Print(a);
    assert "UNPUBLISH=" + ([kind] + name + "|") == "UNPUBLISH=" + [kind] + name + "|";
  }

  /** A line is ignored exactly when it is not CONNECTED and starts with none of the tags. */
  lemma UnknownLines(s: string)
    ensures Hear(s) == Unknown <==> s != "CONNECTED" && forall t :: !StartsWith(s, Prefix(t))
  {
  }

  /** Handling a line throws exactly when it is a PUBLISH or UNPUBLISH without a statement. */
  lemma EmptyStatementThrows(s: string)
    ensures Hear(s) == Throws <==> s == "PUBLISH=" || s == "UNPUBLISH="
  {
    if s == "PUBLISH=" || s == "UNPUBLISH=" {
      var t := if s == "PUBLISH=" then PublishTag else UnpublishTag;
      assert Prefix(t) + "" == s;
      Dispatch(t, "");
    }
    if Hear(s) == Throws {
      var t := if StartsWith(s, Prefix(PublishTag)) then PublishTag else UnpublishTag;
      var body := s[|Prefix(t)|..];
      assert s == Prefix(t) + body;
      Dispatch(t, body);
    }
  }

  // ---------- over a socket

  /** One write: a message, or the Host= lines of broadcast_hosts, each ended by a newline. */
  datatype Write = One(m: Message) | Table(hosts: seq<(string, int)>)

  function Lines(hosts: seq<(string, int)>): string {
    if hosts == [] then [] else Print(HostAt(hosts[0].0, hosts[0].1)) + "\n" + Lines(hosts[1..])
  }

  function TextOf(w: Write): string {
    match w
    case One(m) => Print(m)
    case Table(hosts) => Lines(hosts)
  }

  function Texts(writes: seq<Write>): seq<string> {
    if writes == [] then [] else [TextOf(writes[0])] + Texts(writes[1..])
  }

  function Sent(w: Write): seq<Message> {
    match w
    case One(m) => [m]
    case Table(hosts) => seq(|hosts|, i requires 0 <= i < |hosts| => HostAt(hosts[i].0, hosts[i].1))
  }

  function AllSent(writes: seq<Write>): seq<Message> {
    if writes == [] then [] else Sent(writes[0]) + AllSent(writes[1..])
  }

  function HearAll(lines: seq<string>): seq<Heard> {
    if lines == [] then [] else [Hear(lines[0])] + HearAll(lines[1..])
  }

  function Handle(ms: seq<Message>): seq<Heard> {
    if ms == [] then [] else [Handled(ms[0])] + Handle(ms[1..])
  }

  /** A message that arrives as sent and does not break up on the way. */
  predicate Sound(m: Message) {
    Typed(m) && Plain(m) && F.Clean(Print(m))
  }

  predicate AllSound(ms: seq<Message>) {
    forall i :: 0 <= i < |ms| ==> Sound(ms[i])
  }

  lemma {:induction false} HearAppend(a: seq<string>, b: seq<string>)
    ensures HearAll(a + b) == HearAll(a) + HearAll(b)
    decreases |a|
  {
    if a == [] {
      assert a + b == b;
    } else {
      assert (a + b)[1..] == a[1..] + b;
      HearAppend(a[1..], b);
    }
  }

  lemma {:induction false} HandleAppend(a: seq<Message>, b: seq<Message>)
    ensures Handle(a + b) == Handle(a) + Handle(b)
    decreases |a|
  {
    if a == [] {
      assert a + b == b;
    } else {
      assert (a + b)[1..] == a[1..] + b;
      HandleAppend(a[1..], b);
    }
  }

  lemma NotEmpty(m: Message)
    requires Plain(m)
    ensures Print(m) != []
  {
  }

  /** One clean line is one piece, whatever ends it. */
  lemma OnePiece(line: string, rest: string)
    requires line != [] && F.Clean(line)
    ensures F.Pieces(line) == [line]
    ensures F.Pieces(line + "\n" + rest) == [line] + F.Pieces(rest)
    ensures '\0' !in line
  {
    F.PiecesFrom(line, |line|);
    assert line[..|line|] == line && line[|line|..] == [];
    var s := line + "\n" + rest;
    F.PiecesFrom(s, |line|);
    assert s[..|line|] == line && s[|line|..] == "\n" + rest;
    assert s[|line|..][0] == '\n' && s[|line|..][1..] == rest;
    assert forall i :: 0 <= i < |line| ==> !F.Delim(line[i]);
  }

  lemma {:induction false} TablePieces(hosts: seq<(string, int)>)
    requires AllSound(Sent(Table(hosts)))
    ensures HearAll(F.Pieces(Lines(hosts))) == Handle(Sent(Table(hosts))) && '\0' !in Lines(hosts)
    decreases |hosts|
  {
    if hosts != [] {
      var m := HostAt(hosts[0].0, hosts[0].1);
      var all, rest := Sent(Table(hosts)), Sent(Table(hosts[1..]));
      assert all[0] == m && all[1..] == rest;
      assert AllSound(rest) by { assert forall i :: 0 <= i < |rest| ==> rest[i] == all[i + 1]; }
      TablePieces(hosts[1..]);
      WireRoundTrip(m);
      NotEmpty(m);
      OnePiece(Print(m), Lines(hosts[1..]));
      HearOne(Print(m), F.Pieces(Lines(hosts[1..])));
    }
  }

  lemma HearOne(line: string, rest: seq<string>)
    ensures HearAll([line] + rest) == [Hear(line)] + HearAll(rest)
  {
    assert ([line] + rest)[1..] == rest;
  }

  lemma WritePieces(w: Write)
    requires AllSound(Sent(w))
    ensures F.CStr(TextOf(w)) == TextOf(w)
    ensures HearAll(F.Pieces(TextOf(w))) == Handle(Sent(w))
  {
    match w
    case One(m) =>
      assert Sent(w)[0] == m;
      WireRoundTrip(m);
      NotEmpty(m);
      OnePiece(Print(m), "");
      HearOne(Print(m), []);
      assert [Print(m)] + [] == [Print(m)] && Sent(w)[1..] == [];
    case Table(hosts) => TablePieces(hosts);
  }

  lemma {:induction false} MessagesHeard(writes: seq<Write>)
    requires AllSound(AllSent(writes))
    ensures HearAll(F.Messages(Texts(writes))) == Handle(AllSent(writes))
    decreases |writes|
  {
    if writes != [] {
      var w, rest := writes[0], writes[1..];
      SoundSplit(Sent(w), AllSent(rest));
      WritePieces(w);
      MessagesHeard(rest);
      HandleAppend(Sent(w), AllSent(rest));
      OneMore(w, rest);
      assert writes == [w] + rest;
    }
  }

  lemma SoundSplit(a: seq<Message>, b: seq<Message>)
    requires AllSound(a + b)
    ensures AllSound(a) && AllSound(b)
  {
    forall i | 0 <= i < |a| ensures Sound(a[i]) { assert Sound((a + b)[i]); }
    forall i | 0 <= i < |b| ensures Sound(b[i]) { assert Sound((a + b)[|a| + i]); }
  }

  lemma {:induction false} OneMore(w: Write, rest: seq<Write>)
    requires F.CStr(TextOf(w)) == TextOf(w)
    ensures HearAll(F.Messages(Texts([w] + rest)))
            == HearAll(F.Pieces(TextOf(w))) + HearAll(F.Messages(Texts(rest)))
  {
    assert ([w] + rest)[1..] == rest;
    var texts := Texts([w] + rest);
    assert texts[0] == TextOf(w) && texts[1..] == Texts(rest);
    assert F.Messages(texts) == F.Pieces(TextOf(w)) + F.Messages(Texts(rest));
    HearAppend(F.Pieces(TextOf(w)), F.Messages(Texts(rest)));
  }

  /**
   End to end: over a socket whose chunks end at delimiters, the receiver's handlers are called with
   exactly the messages sent, in order, single ones and tables of Host= lines alike.
   */
  lemma HeardAsSent(writes: seq<Write>, chunks: seq<string>)
    requires AllSound(AllSent(writes))
    requires F.EndAtDelimiter(chunks) && F.Concat(chunks) == F.Stream(Texts(writes))
    ensures HearAll(F.Delivered(chunks)) == Handle(AllSent(writes))
  {
    F.FramingInvertsWriting(Texts(writes), chunks);
    MessagesHeard(writes);
  }
}
