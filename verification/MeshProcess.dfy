/**
 The globals and the Host objects of src/mesh.cpp, updated in place as the source does. Every method
 is tied to the handler of MeshSpec it implements: the new View() and the effects it returns.
 */
module MeshProcess {
  import opened Common
  import M = MeshSpec
  import H = MeshHandlers

  class Host {
    var ip: string
    var port: int
    var id: int
    var bReady: bool
    var bServer: bool
    var socket: Option<M.Sock>

    ghost function View(): M.Host
      reads this
    {
      M.Host(M.Addr(ip, port), id, bReady, bServer, socket)
    }

    constructor (ip: string, port: int, bServer: bool, socket: Option<M.Sock>)
      ensures View() == M.Host(M.Addr(ip, port), 0, false, bServer, socket)
    {
      this.ip, this.port, this.id := ip, port, 0;
      this.bReady, this.bServer := false, bServer;
      this.socket := socket;
    }

    /** Host::send of one write. */
    function Send(lines: seq<M.Line>): (effects: seq<M.Effect>)
      reads this
      ensures effects == M.SendTo(View(), lines)
    {
      if socket.Some? then [M.Send(socket.value, lines)] else []
    }
  }

  ghost function Views(hosts: seq<Host>): (r: seq<M.Host>)
    reads hosts
    ensures |r| == |hosts|
    ensures forall i {:trigger r[i]} {:trigger hosts[i]} :: 0 <= i < |hosts| ==> r[i] == hosts[i].View()
  {
    seq(|hosts|, i requires 0 <= i < |hosts| reads hosts => hosts[i].View())
  }

  lemma Assoc<T>(a: seq<T>, b: seq<T>, c: seq<T>)
    ensures a + (b + c) == a + b + c
  {
  }

  lemma BroadcastNext(hs: seq<M.Host>, i: nat, lines: seq<M.Line>, before: seq<M.Effect>)
    requires i < |hs|
    ensures before + M.BroadcastFrom(hs, i, lines)
            == (if hs[i].ready then before + M.SendTo(hs[i], lines) else before) + M.BroadcastFrom(hs, i + 1, lines)
  {
    var rest := M.BroadcastFrom(hs, i + 1, lines);
    if hs[i].ready { Assoc(before, M.SendTo(hs[i], lines), rest); } else { assert [] + rest == rest; }
  }

  lemma HostLinesNext(hs: seq<M.Host>, i: nat, before: seq<M.Line>)
    requires i < |hs|
    ensures before + M.HostLines(hs, i)
            == (if hs[i].ready then before + [M.HostAt(hs[i].addr)] else before) + M.HostLines(hs, i + 1)
  {
    var rest := M.HostLines(hs, i + 1);
    if hs[i].ready { Assoc(before, [M.HostAt(hs[i].addr)], rest); } else { assert [] + rest == rest; }
  }

  lemma BroadcastAllNext(hs: seq<M.Host>, texts: seq<string>, i: nat, before: seq<M.Effect>)
    requires i < |texts|
    ensures before + M.BroadcastAll(hs, texts[i..])
            == before + M.Broadcast(hs, [M.Signal(texts[i])]) + M.BroadcastAll(hs, texts[i + 1..])
  {
    assert texts[i..][0] == texts[i] && texts[i..][1..] == texts[i + 1..];
    Assoc(before, M.Broadcast(hs, [M.Signal(texts[i])]), M.BroadcastAll(hs, texts[i + 1..]));
  }

  /** What CONNECTED comes to, given the table with the host marked ready. */
  lemma ConnectedIs(me: M.Node, i: nat, published: seq<string>, hs: seq<M.Host>)
    requires i < |me.hosts| && hs == me.hosts[i := me.hosts[i].(ready := true)]
    ensures M.OnReceive(me, i, M.Connected, 0, published)
            == M.Outcome(me.(hosts := hs), M.BroadcastAll(hs, published) + M.Broadcast(hs, M.HostLines(hs, 0)))
  {
  }

  class Process {
    const id: int
    const port: int
    var hosts: seq<Host>

    ghost predicate Valid()
      reads this
    {
      |hosts| > 0 && forall i, j :: 0 <= i < j < |hosts| ==> hosts[i] != hosts[j]
    }

    ghost function View(): M.Node
      reads this, hosts
    {
      M.Node(id, port, Views(hosts))
    }

    /** init(): only the loopback host. */
    constructor (id: int, port: int)
      ensures Valid() && View() == M.Start(id, port) && fresh(hosts)
    {
      this.id, this.port := id, port;
      var me := new Host(M.LOCALHOST, port, true, None);
      hosts := [me];
    }

    /** The first host with this address, or null. */
    method GetHost(ip: string, port: int) returns (h: Host?, i: nat)
      ensures i == M.Find(View().hosts, M.Addr(ip, port))
      ensures h == null <==> i == |hosts|
      ensures h != null ==> i < |hosts| && h == hosts[i]
    {
      h := null;
      var k := 0;
      while k < |hosts|
        invariant 0 <= k <= |hosts|
        invariant forall j :: 0 <= j < k ==> hosts[j].View().addr != M.Addr(ip, port)
      {
        if hosts[k].ip == ip && hosts[k].port == port {
          h := hosts[k];
          i := k;
          FindIs(View().hosts, M.Addr(ip, port), k);
          return;
        }
        k := k + 1;
      }
      i := |hosts|;
      FindIs(View().hosts, M.Addr(ip, port), k);
    }

    method HasHost(ip: string, port: int) returns (res: bool)
      ensures res == M.HasHost(View().hosts, M.Addr(ip, port))
    {
      var h, i := GetHost(ip, port);
      res := h != null;
    }

    /** Host::broadcast: one write to every ready remote host. */
    method Broadcast(lines: seq<M.Line>) returns (effects: seq<M.Effect>)
      ensures effects == M.Broadcast(View().hosts, lines)
    {
      effects := [];
      var i := 1;
      ghost var hs := Views(hosts);
      while i < |hosts|
        invariant 1 <= i
        invariant effects + M.BroadcastFrom(hs, i, lines) == M.Broadcast(hs, lines)
      {
        BroadcastNext(hs, i, lines, effects);
        if hosts[i].bReady {
          effects := effects + hosts[i].Send(lines);
        }
        i := i + 1;
      }
    }

    /** broadcast_hosts: the addresses of all ready hosts, to all ready remote hosts. */
    method BroadcastHosts() returns (effects: seq<M.Effect>)
      ensures effects == M.Broadcast(View().hosts, M.HostLines(View().hosts, 0))
    {
      var lines: seq<M.Line> := [];
      var i := 0;
      ghost var hs := Views(hosts);
      while i < |hosts|
        invariant 0 <= i <= |hosts|
        invariant lines + M.HostLines(hs, i) == M.HostLines(hs, 0)
      {
        HostLinesNext(hs, i, lines);
        if hosts[i].bReady {
          lines := lines + [M.HostAt(M.Addr(hosts[i].ip, hosts[i].port))];
        }
        i := i + 1;
      }
      assert lines + [] == lines;
      effects := Broadcast(lines);
    }

    /** The broadcasts of on_host_open. */
    method BroadcastAll(texts: seq<string>) returns (effects: seq<M.Effect>)
      ensures effects == M.BroadcastAll(View().hosts, texts)
    {
      effects := [];
      var i := 0;
      ghost var hs := Views(hosts);
      while i < |texts|
        invariant 0 <= i <= |texts|
        invariant effects + M.BroadcastAll(hs, texts[i..]) == M.BroadcastAll(hs, texts)
      {
        var more := Broadcast([M.Signal(texts[i])]);
        BroadcastAllNext(hs, texts, i, effects);
        effects := effects + more;
        i := i + 1;
      }
    }

    /** hosts.push_back(h) */
    method PushBack(h: Host)
      requires Valid() && h !in hosts
      modifies this`hosts
      ensures Valid() && hosts == old(hosts) + [h] && Views(hosts) == old(Views(hosts)) + [h.View()]
    {
      hosts := hosts + [h];
    }

    /** add_host: `next` names the connection a dial would open. */
    method AddHost(ip: string, port: int, next: nat) returns (effects: seq<M.Effect>)
      requires Valid()
      modifies this
      ensures Valid() && old(hosts) <= hosts && fresh(hosts[|old(hosts)|..])
      ensures M.Outcome(View(), effects) == M.AddHost(old(View()), M.Addr(ip, port), next)
    {
      effects := [];
      var known := HasHost(ip, port);
      if !known {
        var h := new Host(ip, port, false, Some(M.Sock(next, M.Dialer)));
        effects := [M.Dial(M.Addr(ip, port), |hosts|)];
        PushBack(h);
      }
    }

    /** Host::welcome on a socket whose peer has this ip. */
    function Welcome(sock: M.Sock, peerIp: string): M.Effect {
      M.Send(sock, [M.Id(id, port), M.You(peerIp)])
    }

    /** A new Host for the peer that connected. */
    method Accept(sock: M.Sock, ip: string, peerPort: int) returns (effects: seq<M.Effect>)
      requires Valid()
      modifies this
      ensures Valid() && |hosts| == |old(hosts)| + 1 && old(hosts) <= hosts && fresh(hosts[|old(hosts)|..])
      ensures Views(hosts) == old(Views(hosts)) + [M.Host(M.Addr(ip, peerPort), 0, false, true, Some(sock))]
      ensures effects == [M.Attach(sock, |old(hosts)|), M.Welcome(View(), sock, ip), M.Send(sock, [M.Connected])]
    {
      var h := new Host(ip, peerPort, true, Some(sock));
      effects := [M.Attach(sock, |hosts|), Welcome(sock, ip)] + h.Send([M.Connected]);
      PushBack(h);
    }

    /** The peer's socket takes the place of the socket of the known host h. */
    method Replace(h: Host, i: nat, sock: M.Sock, ip: string) returns (effects: seq<M.Effect>)
      requires Valid() && i < |hosts| && h == hosts[i]
      modifies h`bServer, h`socket
      ensures Views(hosts) == old(Views(hosts))[i := old(h.View()).(server := true, sock := Some(sock))]
      ensures effects == (if old(h.socket).Some? then [M.Close(old(h.socket).value)] else [])
                         + [M.Attach(sock, i), M.Welcome(View(), sock, ip)]
                         + if h.bReady then [] else [M.Send(sock, [M.Connected])]
    {
      effects := if h.socket.Some? then [M.Close(h.socket.value)] else [];
      h.bServer := true;
      h.socket := Some(sock);
      effects := effects + [M.Attach(sock, i), Welcome(sock, ip)];
      if !h.bReady {
        effects := effects + h.Send([M.Connected]);
      }
    }

    /** handle_incoming_connection on the ID= line of a connection from `ip`. */
    method Incoming(sock: M.Sock, ip: string, peerId: int, peerPort: int) returns (effects: seq<M.Effect>)
      requires Valid()
      modifies this, hosts
      ensures Valid() && old(hosts) <= hosts && fresh(hosts[|old(hosts)|..])
      ensures M.Outcome(View(), effects) == M.Incoming(old(View()), sock, ip, peerId, peerPort)
      ensures forall i: nat :: H.Entry(old(View()), i, M.Addr(ip, peerPort)) && (peerId > id || old(View()).hosts[i].server)
                          ==> H.TakesOver(old(View()), M.Outcome(View(), effects), i, sock, ip)
    {
      ghost var me := View();
      PeerTakesOver(me, sock, ip, peerId, peerPort);
      var h, i := GetHost(ip, peerPort);
      if h == null {
        effects := Accept(sock, ip, peerPort);
      } else if peerId > id || h.bServer {
        effects := Replace(h, i, sock, ip);
      } else if peerId < id {
        effects := [M.Close(sock)];
      } else {
        effects := [];
      }
    }

    method OnId(h: Host, i: nat, peerId: int, peerPort: int) returns (effects: seq<M.Effect>)
      requires Valid() && i < |hosts| && h == hosts[i]
      modifies h`id, h`port
      ensures M.Outcome(View(), effects) == M.OnReceive(old(View()), i, M.Id(peerId, peerPort), 0, [])
    {
      h.id := peerId;
      h.port := peerPort;
      effects := h.Send([M.Connected]);
      assert Views(hosts) == old(Views(hosts))[i := h.View()];
    }

    method OnYou(me: Host, ip: string)
      requires Valid() && me == hosts[0]
      modifies me`ip, me`bReady
      ensures View() == M.OnReceive(old(View()), 0, M.You(ip), 0, []).node
    {
      me.ip := ip;
      me.bReady := true;
      assert Views(hosts) == old(Views(hosts))[0 := me.View()];
    }

    method MarkReady(h: Host, i: nat)
      requires Valid() && i < |hosts| && h == hosts[i]
      modifies h`bReady
      ensures Views(hosts) == old(Views(hosts))[i := old(h.View()).(ready := true)]
    {
      h.bReady := true;
    }

    /** `if(!has_host(ip, port)) hosts.push_back(this)`: no effect on a host that is in the table. */
    method EnsureListed(h: Host)
      modifies this`hosts
      ensures old(h in hosts) ==> hosts == old(hosts)
      ensures hosts == if old(M.HasHost(View().hosts, M.Addr(h.ip, h.port))) then old(hosts) else old(hosts) + [h]
    {
      var known := HasHost(h.ip, h.port);
      if !known {
        assert h !in hosts by { Listed(h); }
        hosts := hosts + [h];
      }
    }

    lemma Listed(h: Host)
      ensures h in hosts ==> M.HasHost(View().hosts, M.Addr(h.ip, h.port))
    {
      if h in hosts {
        var j :| 0 <= j < |hosts| && hosts[j] == h;
        assert Views(hosts)[j] == h.View();
      }
    }

    /** The host is ready, and listed, which it was. */
    method Ready(h: Host, i: nat)
      requires Valid() && i < |hosts| && h == hosts[i]
      modifies this`hosts, h`bReady
      ensures hosts == old(hosts) && Views(hosts) == old(Views(hosts))[i := old(h.View()).(ready := true)]
    {
      MarkReady(h, i);
      EnsureListed(h);
    }

    method OnConnected(h: Host, i: nat, published: seq<string>) returns (effects: seq<M.Effect>)
      requires Valid() && i < |hosts| && h == hosts[i]
      modifies this`hosts, h`bReady
      ensures hosts == old(hosts)
      ensures M.Outcome(View(), effects) == M.OnReceive(old(View()), i, M.Connected, 0, published)
    {
      ghost var me := View();
      Ready(h, i);
      effects := BroadcastAll(published);
      var more := BroadcastHosts();
      effects := effects + more;
      ConnectedIs(me, i, published, Views(hosts));
    }

    /** Host::on_receive of the host h, which is hosts[i]. */
    method OnReceive(h: Host, i: nat, line: M.Line, next: nat, published: seq<string>) returns (effects: seq<M.Effect>)
      requires Valid() && i < |hosts| && h == hosts[i]
      modifies this, hosts
      ensures Valid() && old(hosts) <= hosts && fresh(hosts[|old(hosts)|..])
      ensures M.Outcome(View(), effects) == M.OnReceive(old(View()), i, line, next, published)
    {
      effects := [];
      match line {
        case Id(peerId, peerPort) => effects := OnId(h, i, peerId, peerPort);
        case You(ip) => OnYou(hosts[0], ip);
        case Connected => effects := OnConnected(h, i, published);
        case HostAt(addr) => if h.bReady { effects := AddHost(addr.ip, addr.port, next); }
        case Signal(_) =>
      }
    }

    /** Host::on_close of hosts[i], whose client socket then dials again on connection `next`. */
    method OnClose(h: Host, i: nat, next: nat) returns (effects: seq<M.Effect>)
      requires Valid() && i < |hosts| && h == hosts[i]
      modifies h
      ensures M.Outcome(View(), effects) == M.OnClose(old(View()), i, next)
      ensures effects == [M.Withdraw(i), M.Dial(old(h.View()).addr, i)]
    {
      h.bReady := false;
      h.socket := Some(M.Sock(next, M.Dialer));
      effects := [M.Withdraw(i), M.Dial(M.Addr(h.ip, h.port), i)];
      assert Views(hosts) == old(Views(hosts))[i := h.View()];
    }
  }

  lemma PeerTakesOver(me: M.Node, sock: M.Sock, ip: string, id: int, port: int)
    ensures forall i: nat :: H.Entry(me, i, M.Addr(ip, port)) && (id > me.id || me.hosts[i].server)
                        ==> H.TakesOver(me, M.Incoming(me, sock, ip, id, port), i, sock, ip)
  {
    forall i: nat | H.Entry(me, i, M.Addr(ip, port)) && (id > me.id || me.hosts[i].server)
      ensures H.TakesOver(me, M.Incoming(me, sock, ip, id, port), i, sock, ip)
    {
      if id > me.id { H.HigherPeerTakesOver(me, sock, ip, id, port, i); } else { H.PeerComesBack(me, sock, ip, id, port, i); }
    }
  }

  /** Find is determined by what it promises. */
  lemma FindIs(hosts: seq<M.Host>, addr: M.Addr, i: nat)
    requires i <= |hosts|
    requires forall j :: 0 <= j < i ==> hosts[j].addr != addr
    requires i < |hosts| ==> hosts[i].addr == addr
    ensures M.Find(hosts, addr) == i
  {
  }
}
