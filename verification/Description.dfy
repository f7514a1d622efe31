/**
 Transport descriptions of the form "protocol://address[:port][/input|/output]"
 (src/protocols/protocols.h): parsing, printing, and when one undoes the other.
 */
module Description {
  import opened Common
  import opened Text

  datatype EndPointType = Input | Output | Both

  datatype Transport = Transport(
    valid: bool, protocol: string, local: bool, ip: string, port: int, channel: string, kind: EndPointType)

  predicate Upper(c: char) {
    'A' <= c <= 'Z'
  }

  /** str_to_lower */
  function Lower(s: string): (r: string)
    ensures |r| == |s| && forall i :: 0 <= i < |s| ==> !Upper(r[i]) && (r[i] == s[i] || IsLetterPair(s[i], r[i]))
    ensures (forall c :: c in s ==> !Upper(c)) ==> r == s
  {
    seq(|s|, i requires 0 <= i < |s| => if 'A' <= s[i] <= 'Z' then s[i] - 'A' + 'a' else s[i])
  }

  /** An upper-case letter and the lower-case one at the same place of the alphabet. */
  predicate IsLetterPair(upper: char, lower: char) {
    Upper(upper) && 'a' <= lower <= 'z' && upper - 'A' == lower - 'a'
  }

  function ParsePort(url: string): int {
    if Has(url, ":") then Atoi(After(url, ":")) else 0
  }

  function ParseKind(details: string): EndPointType {
    if Has(details, "in") then Input else if Has(details, "out") then Output else Both
  }

  function ParseIp(url: string, local: bool): string {
    var ip := Before(Before(url, ":"), "/");
    if !local && ip == "" then "localhost" else ip
  }

  function Parse(channel: string, desc: string): Transport {
    var protocol := Lower(Before(desc, "://"));
    var url := After(desc, "://");
    var local := protocol == "shm";
    Transport(true, protocol, local, ParseIp(url, local), ParsePort(url), channel, ParseKind(After(url, "/")))
  }

  function PortText(port: int): string {
    if port == 0 then "" else ":" + Text.Print(port)
  }

  function KindText(kind: EndPointType): string {
    match kind
    case Input => "/input"
    case Output => "/output"
    case Both => ""
  }

  function Url(t: Transport): string {
    t.ip + PortText(t.port) + KindText(t.kind)
  }

  function ToString(t: Transport): string {
    if t.valid then t.protocol + "://" + t.ip + PortText(t.port) + KindText(t.kind) else ""
  }

  class TransportDescription {
    var valid: bool
    var protocol: string
    var local: bool
    var ip: string
    var port: int
    const channel: string
    var kind: EndPointType

    ghost function View(): Transport
      reads this
    {
      Transport(valid, protocol, local, ip, port, channel, kind)
    }

    constructor (channel: string, desc: string)
      ensures View() == Parse(channel, desc)
    {
      this.channel := channel;
      protocol := Lower(Before(desc, "://"));
      var url := After(desc, "://");
      ip := Before(Before(url, ":"), "/");
      if Has(url, ":") {
        port := Atoi(After(url, ":"));
      } else {
        port := 0;
      }
      var details := After(url, "/");
      if Has(details, "in") {
        kind := Input;
      } else if Has(details, "out") {
        kind := Output;
      } else {
        kind := Both;
      }
      new;
      local := protocol == "shm";
      if !local && ip == "" { ip := "localhost"; }
      valid := true;
    }

    /** to_string */
    method Render() returns (text: string)
      ensures text == ToString(View())
    {
      if !valid { return ""; }
      text := protocol + "://" + ip;
      ghost var start := text;
      if port != 0 { text := text + ":" + Text.Print(port); }
      AppendPort(start, text, port);
      if kind != Both { text := text + if kind == Input then "/input" else "/output"; }
      assert start + PortText(port) + "" == start + PortText(port);
    }
  }

  lemma AppendPort(start: string, text: string, port: int)
    requires text == if port != 0 then start + ":" + Text.Print(port) else start
    ensures text == start + PortText(port)
  {
  }

  lemma Regroup(a: string, b: string, c: string, d: string)
    ensures a + "://" + b + c + d == a + "://" + (b + c + d)
  {
  }

  // ---------- the round trip

  predicate PlainIp(ip: string) {
    ':' !in ip && '/' !in ip
  }

  /** What a description must be like to survive printing; a caller can check it beforehand. */
  predicate Stable(t: Transport) {
    && t.valid && t.local == (t.protocol == "shm")
    && (forall c :: c in t.protocol ==> !Upper(c)) && !Has(t.protocol, "://")
    && PlainIp(t.ip) && (t.ip == "" ==> t.protocol == "shm")
    && (t.kind == Both ==> !Has(t.ip, "in") && !Has(t.ip, "out"))
  }

  lemma ProtocolCut(protocol: string, url: string)
    ensures var s := protocol + "://" + url;
      if Has(protocol, "://") then |Before(s, "://")| < |protocol|
      else Before(s, "://") == protocol && After(s, "://") == url
  {
    var mark := "://";
    var s := protocol + mark + url;
    FoundAt(protocol, mark, 0);
    if Has(protocol, mark) {
      var i := Find(protocol, mark, 0).value;
      assert s[i..i + 3] == protocol[i..i + 3];
      FindIsFirst(s, mark, 0, i);
    } else {
      forall j | 0 <= j < |protocol| ensures !At(s, mark, j) {
        if At(s, mark, j) { NoOverlap(protocol, url, j); }
      }
      CutAtFirst(protocol, mark, url);
    }
  }

  lemma NoOverlap(protocol: string, url: string, j: nat)
    requires j < |protocol| && At(protocol + "://" + url, "://", j)
    ensures Has(protocol, "://")
  {
    var s := protocol + "://" + url;
    assert s[j..j + 3][1] == s[j + 1] && s[j..j + 3][2] == s[j + 2];
    assert s[|protocol|] == ':';
    assert j + 3 <= |protocol|;
    assert s[j..j + 3] == protocol[j..j + 3];
    FindIsFirst(protocol, "://", 0, j);
  }

  lemma IpCut(ip: string, rest: string)
    requires rest == [] || rest[0] == ':' || rest[0] == '/'
    ensures var cut := Before(Before(ip + rest, ":"), "/");
      if PlainIp(ip) then cut == ip else |cut| < |ip|
  {
    var url := ip + rest;
    var b := Before(url, ":");
    BeforeChar(url, ':');
    BeforeChar(b, '/');
    var cut := Before(b, "/");
    assert cut <= url;
    assert url[..|ip|] == ip && (rest != [] ==> url[|ip|] == rest[0]);
    if |cut| == |ip| { assert cut == ip; }
  }

  lemma PortChars(port: int)
    ensures forall c :: c in PortText(port) ==> c == ':' || c == '-' || IsDigit(c)
  {
    AtoiOfPrint(port, "");
  }

  lemma PortBack(ip: string, port: int, kind: EndPointType)
    requires PlainIp(ip)
    ensures ParsePort(ip + PortText(port) + KindText(kind)) == port
  {
    PortOf(ip, port, KindText(kind));
  }

  lemma Words()
    ensures Has("input", "in") && !Has("output", "in") && Has("output", "out")
  {
    assert At("input", "in", 0);
    FindIsFirst("input", "in", 0, 0);
    assert At("output", "out", 0);
    FindIsFirst("output", "out", 0, 0);
    assert "" + "output" == "output";
    HasAhead("", "output", "in");
  }

  lemma KindBack(ip: string, port: int, kind: EndPointType)
    requires PlainIp(ip)
    ensures var back := ParseKind(After(ip + PortText(port) + KindText(kind), "/"));
      back == kind <==> (kind == Both ==> !Has(ip, "in") && !Has(ip, "out"))
  {
    PortChars(port);
    if kind == Both {
      assert ip + PortText(port) + "" == ip + PortText(port);
      HasChar(ip + PortText(port), '/');
      BothBack(ip, port);
    } else {
      DirectionBack(ip + PortText(port), kind);
    }
  }

  lemma DirectionBack(place: string, kind: EndPointType)
    requires '/' !in place && kind != Both
    ensures ParseKind(After(place + KindText(kind), "/")) == kind
  {
    Words();
    Details(place, if kind == Input then "input" else "output", KindText(kind));
  }

  lemma Details(place: string, word: string, text: string)
    requires '/' !in place && text == "/" + word
    ensures After(place + text, "/") == word
  {
    assert place + text == place + ['/'] + word;
    CutAtChar(place, '/', word);
  }

  lemma BothBack(ip: string, port: int)
    ensures ParseKind(ip + PortText(port)) == Both <==> !Has(ip, "in") && !Has(ip, "out")
  {
    PortChars(port);
    HasAhead(ip, PortText(port), "in");
    HasAhead(ip, PortText(port), "out");
  }

  lemma IpBack(t: Transport, local: bool)
    ensures var back := ParseIp(Url(t), local);
      back == t.ip <==> PlainIp(t.ip) && (t.ip == "" ==> local)
  {
    var port, kind := PortText(t.port), KindText(t.kind);
    assert Url(t) == t.ip + port + kind;
    assert kind == [] || kind[0] == '/';
    UrlCut(t.ip, port, kind);
    assert PlainIp("localhost");
  }

  lemma UrlCut(ip: string, a: string, b: string)
    requires (a == [] || a[0] == ':') && (b == [] || b[0] == '/')
    ensures var cut := Before(Before(ip + a + b, ":"), "/");
      if PlainIp(ip) then cut == ip else |cut| < |ip|
  {
    assert ip + a + b == ip + (a + b);
    IpCut(ip, a + b);
  }

  /** Parsing what was printed gives the description back exactly when it is stable. */
  lemma DescriptionRoundTrip(t: Transport)
    ensures Parse(t.channel, ToString(t)) == t <==> Stable(t)
  {
    if t.valid {
      Regroup(t.protocol, t.ip, PortText(t.port), KindText(t.kind));
      ProtocolCut(t.protocol, Url(t));
      if !Has(t.protocol, "://") {
        IpBack(t, Lower(t.protocol) == "shm");
        if PlainIp(t.ip) {
          PortBack(t.ip, t.port, t.kind);
          KindBack(t.ip, t.port, t.kind);
        }
      }
    }
  }

  // ---------- what parsing yields

  lemma BeforeLacks(s: string, mark: string)
    requires mark != []
    ensures !Has(Before(s, mark), mark)
  {
    var b := Before(s, mark);
    FoundAt(b, mark, 0);
    if Has(s, mark) && Has(b, mark) {
      var j := Find(b, mark, 0).value;
      assert s[j..j + |mark|] == b[j..j + |mark|];
      FindIsFirst(s, mark, 0, j);
    }
  }

  lemma LowerKeeps(s: string)
    ensures Lower(Lower(s)) == Lower(s)
    ensures Has(Lower(s), "://") ==> Has(s, "://")
  {
    FoundAt(Lower(s), "://", 0);
    if Has(Lower(s), "://") {
      var j := Find(Lower(s), "://", 0).value;
      var t := Lower(s)[j..j + 3];
      assert t == "://" && t[0] == Lower(s)[j] && t[1] == Lower(s)[j + 1] && t[2] == Lower(s)[j + 2];
      assert s[j..j + 3] == "://";
      FindIsFirst(s, "://", 0, j);
    }
  }

  /** Any text, once parsed, survives printing and parsing unless its address alone says "in" or "out". */
  lemma ReparseStable(channel: string, desc: string)
    ensures var t := Parse(channel, desc);
      Parse(channel, ToString(t)) == t <==> (t.kind == Both ==> !Has(t.ip, "in") && !Has(t.ip, "out"))
  {
    var t := Parse(channel, desc);
    var url := After(desc, "://");
    BeforeLacks(desc, "://");
    LowerKeeps(Before(desc, "://"));
    BeforeChar(url, ':');
    BeforeChar(Before(url, ":"), '/');
    assert PlainIp(t.ip);
    DescriptionRoundTrip(t);
  }

  // ---------- every text made of the parts a description has

  /** The protocol parsed has no upper-case letter, and differs from what was written in nothing else. */
  lemma ProtocolLowered(channel: string, desc: string)
    ensures var protocol, written := Parse(channel, desc).protocol, Before(desc, "://");
      && |protocol| == |written|
      && forall i :: 0 <= i < |written| ==>
           && !('A' <= protocol[i] <= 'Z')
           && (if 'A' <= written[i] <= 'Z' then protocol[i] - 'a' == written[i] - 'A' && 'a' <= protocol[i] <= 'z'
               else protocol[i] == written[i])
  {
    var written := Before(desc, "://");
    forall i | 0 <= i < |written|
      ensures var r := Lower(written);
        if 'A' <= written[i] <= 'Z' then r[i] - 'a' == written[i] - 'A' && 'a' <= r[i] <= 'z' else r[i] == written[i]
    {
      assert !Upper(Lower(written)[i]) && (Lower(written)[i] == written[i] || IsLetterPair(written[i], Lower(written)[i]));
    }
  }

  predicate SameButCase(a: string, b: string) {
    |a| == |b| && forall i :: 0 <= i < |a| ==> a[i] == b[i] || IsLetterPair(a[i], b[i]) || IsLetterPair(b[i], a[i])
  }

  /** Descriptions whose protocols differ only in case are one description. */
  lemma CaseOfProtocol(channel: string, a: string, b: string, url: string)
    requires SameButCase(a, b) && !Has(a, "://")
    ensures Parse(channel, a + "://" + url) == Parse(channel, b + "://" + url)
  {
    if Has(b, "://") { MarkSurvives(b, a); }
    ProtocolCut(a, url);
    ProtocolCut(b, url);
    LowerSame(a, b);
  }

  lemma LowerSame(a: string, b: string)
    requires SameButCase(a, b)
    ensures Lower(a) == Lower(b)
  {
    forall i | 0 <= i < |a| ensures Lower(a)[i] == Lower(b)[i] {
      assert a[i] == b[i] || IsLetterPair(a[i], b[i]) || IsLetterPair(b[i], a[i]);
      LowerChar(a, i);
      LowerChar(b, i);
    }
  }

  lemma LowerChar(s: string, i: nat)
    requires i < |s|
    ensures Upper(s[i]) ==> IsLetterPair(s[i], Lower(s)[i])
    ensures !Upper(s[i]) ==> Lower(s)[i] == s[i]
  {
  }

  lemma MarkSurvives(b: string, a: string)
    requires SameButCase(a, b) && Has(b, "://")
    ensures Has(a, "://")
  {
    FoundAt(b, "://", 0);
    var j := Find(b, "://", 0).value;
    var t := b[j..j + 3];
    assert t == "://" && t[0] == b[j] && t[1] == b[j + 1] && t[2] == b[j + 2];
    forall k | j <= k < j + 3 ensures a[k] == b[k] {}
    assert a[j..j + 3] == "://";
    FindIsFirst(a, "://", 0, j);
  }

  /** What follows the address: nothing, or a slash and the details. */
  function Tail(details: Option<string>): string {
    if details.None? then "" else "/" + details.value
  }

  /** The text the direction is read from: the details, or, when there are none, the whole address. */
  function Read(place: string, details: Option<string>): string {
    if details.None? then place else details.value
  }

  /** A description put together from its parts gives these parts back, with the defaults where one is missing. */
  lemma PartsParsed(channel: string, protocol: string, ip: string, port: int, details: Option<string>)
    requires !Has(protocol, "://") && PlainIp(ip) && (details.Some? ==> ':' !in details.value)
    ensures var place := ip + if port == 0 then "" else ":" + Text.Print(port);
      var t := Parse(channel, protocol + "://" + (place + Tail(details)));
      && t.valid && t.channel == channel && t.port == port
      && SameButCase(t.protocol, protocol) && t.local == (t.protocol == "shm")
      && t.ip == (if ip == "" && t.protocol != "shm" then "localhost" else ip)
      && (t.kind == Input <==> Has(Read(place, details), "in"))
      && (t.kind == Output <==> !Has(Read(place, details), "in") && Has(Read(place, details), "out"))
  {
    var place := ip + PortText(port);
    var url := place + Tail(details);
    ProtocolCut(protocol, url);
    forall i | 0 <= i < |protocol| ensures Lower(protocol)[i] == protocol[i] || IsLetterPair(protocol[i], Lower(protocol)[i]) {
      LowerChar(protocol, i);
    }
    UrlCut(ip, PortText(port), Tail(details));
    PortOf(ip, port, Tail(details));
    PlaceEnds(ip, port, details);
  }

  lemma PortOf(ip: string, port: int, tail: string)
    requires PlainIp(ip) && ':' !in tail && (tail == "" || tail[0] == '/')
    ensures ParsePort(ip + PortText(port) + tail) == port
  {
    var url := ip + PortText(port) + tail;
    if port == 0 {
      HasChar(url, ':');
    } else {
      assert url == ip + [':'] + (Text.Print(port) + tail);
      CutAtChar(ip, ':', Text.Print(port) + tail);
      AtoiOfPrint(port, tail);
    }
  }

  lemma PlaceEnds(ip: string, port: int, details: Option<string>)
    requires PlainIp(ip)
    ensures After(ip + PortText(port) + Tail(details), "/") == Read(ip + PortText(port), details)
  {
    var place := ip + PortText(port);
    PortChars(port);
    if details.None? {
      assert place + "" == place;
      HasChar(place, '/');
    } else {
      Details(place, details.value, Tail(details));
    }
  }

  /** The texts of the parts, as they are written. */
  lemma PartsWritten(channel: string, protocol: string, local: bool, ip: string, port: int)
    ensures ToString(Transport(true, protocol, local, ip, port, channel, Both))
            == protocol + "://" + ip + if port == 0 then "" else ":" + Text.Print(port)
    ensures ToString(Transport(true, protocol, local, ip, port, channel, Input))
            == ToString(Transport(true, protocol, local, ip, port, channel, Both)) + "/input"
    ensures ToString(Transport(true, protocol, local, ip, port, channel, Output))
            == ToString(Transport(true, protocol, local, ip, port, channel, Both)) + "/output"
  {
    var start := protocol + "://" + ip + PortText(port);
    assert start + "" == start;
  }
}
