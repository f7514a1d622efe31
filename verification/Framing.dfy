/**
 Cutting a byte stream into messages (src/utils/Socket.cpp, src/utils/Socket.h): a write sends its text
 with a NUL, the receiving loop cuts every received chunk at NUL and newline.
 */
module Framing {

  predicate Delim(c: char) {
    c == '\0' || c == '\n'
  }

  /** Where the first delimiter of s is, |s| when there is none. */
  function Stop(s: string): (j: nat)
    ensures j <= |s| && (j < |s| ==> Delim(s[j]))
    ensures forall k :: 0 <= k < j ==> !Delim(s[k])
  {
    if s == [] || Delim(s[0]) then 0 else 1 + Stop(s[1..])
  }

  /** The non-empty texts between delimiters. */
  function Pieces(s: string): seq<string> {
    if s == [] then []
    else if Delim(s[0]) then Pieces(s[1..])
    else [s[..Stop(s)]] + Pieces(s[Stop(s)..])
  }

  function Concat(parts: seq<string>): string {
    if parts == [] then [] else parts[0] + Concat(parts[1..])
  }

  /** What the callback gets for a sequence of received chunks. */
  function Delivered(chunks: seq<string>): seq<string> {
    if chunks == [] then [] else Pieces(chunks[0]) + Delivered(chunks[1..])
  }

  /** s without its delimiters */
  function Stripped(s: string): string {
    if s == [] then [] else (if s[0] == '\0' || s[0] == '\n' then [] else [s[0]]) + Stripped(s[1..])
  }

  /** How many maximal delimiter-free texts s has: positions where one begins. */
  function Tokens(s: string): nat {
    if s == [] then 0
    else Tokens(s[..|s| - 1]) + if Begins(s, |s| - 1) then 1 else 0
  }

  predicate Begins(s: string, i: nat)
    requires i < |s|
  {
    !Delim(s[i]) && (i == 0 || Delim(s[i - 1]))
  }

  /** How many boundaries between chunks have text on both sides. */
  function Torn(chunks: seq<string>): nat {
    if |chunks| < 2 then 0 else (if Tears(chunks[0], chunks[1]) then 1 else 0) + Torn(chunks[1..])
  }

  predicate Tears(a: string, b: string) {
    a != [] && b != [] && !Delim(a[|a| - 1]) && !Delim(b[0])
  }

  predicate NonEmpty(chunks: seq<string>) {
    forall i :: 0 <= i < |chunks| ==> chunks[i] != []
  }

  predicate Clean(s: string) {
    forall i :: 0 <= i < |s| ==> s[i] != '\0' && s[i] != '\n'
  }

  // ---------- one chunk

  /** The inner loops: pieces of one received chunk, and whether its end was reported as an error. */
  method Cut(buf: array<char>, n: nat) returns (calls: seq<string>, reported: bool)
    requires n <= buf.Length
    ensures calls == Pieces(buf[..n])
    ensures reported <==> n > 0 && !Delim(buf[n - 1])
  {
    calls, reported := [], false;
    ghost var s := buf[..n];
    var i := 0;
    while i < n
      invariant 0 <= i <= n + 1
      invariant calls + From(s, i) == Pieces(s)
      invariant (reported <==> i == n + 1) && (n == 0 ==> i == 0)
      invariant 0 < n <= i ==> (reported <==> !Delim(s[n - 1]))
    {
      var j := i;
      while j < n && !Delim(buf[j])
        invariant i <= j <= n
        invariant forall k :: i <= k < j ==> !Delim(s[k])
      {
        j := j + 1;
      }
      if j == n { reported := true; }
      CutRound(s, i, j, calls);
      if j > i {
        SameText(buf, n, i, j);
        calls := calls + [buf[i..j]];
      }
      i := j + 1;
    }
  }

  lemma CutRound(s: string, i: nat, j: nat, calls: seq<string>)
    requires i <= j <= |s| && (forall k :: i <= k < j ==> !Delim(s[k])) && (j < |s| ==> Delim(s[j]))
    requires calls + From(s, i) == Pieces(s)
    ensures (if j > i then calls + [s[i..j]] else calls) + From(s, j + 1) == Pieces(s)
  {
    CutOne(s, i, j);
    Assoc(calls, [s[i..j]], From(s, j + 1));
  }

  lemma SameText(buf: array<char>, n: nat, i: nat, j: nat)
    requires i <= j <= n <= buf.Length
    ensures buf[i..j] == buf[..n][i..j]
  {
  }

  /** The pieces from position i on. */
  function From(s: string, i: nat): seq<string> {
    if i <= |s| then Pieces(s[i..]) else []
  }

  /** One round of the outer loop takes the piece at i, if there is one, and the delimiter after it. */
  lemma CutOne(s: string, i: nat, j: nat)
    requires i <= j <= |s| && (forall k :: i <= k < j ==> !Delim(s[k])) && (j < |s| ==> Delim(s[j]))
    ensures From(s, i) == if j > i then [s[i..j]] + From(s, j + 1) else From(s, j + 1)
  {
    PiecesFrom(s[i..], j - i);
    assert s[i..][..j - i] == s[i..j] && s[i..][j - i..] == s[j..];
    if j < |s| { assert s[j..][1..] == s[j + 1..]; }
  }

  lemma PiecesFrom(s: string, j: nat)
    requires j <= |s| && (forall k :: 0 <= k < j ==> !Delim(s[k])) && (j < |s| ==> Delim(s[j]))
    ensures j == 0 || Pieces(s) == [s[..j]] + Pieces(s[j..])
    ensures Stop(s) == j
  {
  }

  lemma {:induction false} PiecesShape(s: string)
    ensures forall p :: p in Pieces(s) ==> p != [] && Clean(p)
    ensures Concat(Pieces(s)) == Stripped(s)
    decreases |s|
  {
    if s != [] {
      if Delim(s[0]) {
        PiecesShape(s[1..]);
      } else {
        var j := Stop(s);
        PiecesShape(s[j..]);
        StrippedPrefix(s, j);
      }
    }
  }

  lemma {:induction false} StrippedPrefix(s: string, j: nat)
    requires j <= |s| && forall k :: 0 <= k < j ==> !Delim(s[k])
    ensures Stripped(s) == s[..j] + Stripped(s[j..])
    decreases j
  {
    if j > 0 {
      StrippedPrefix(s[1..], j - 1);
      assert s[1..][..j - 1] == s[1..j] && s[1..][j - 1..] == s[j..];
    }
  }

  // ---------- where two chunks meet

  /** Cutting after a + b differs from cutting a and b by exactly one cut when the boundary tears a text. */
  lemma {:induction false} Meet(a: string, b: string)
    ensures !Tears(a, b) ==> Pieces(a + b) == Pieces(a) + Pieces(b)
    ensures Tears(a, b) ==> |Pieces(a)| + |Pieces(b)| == |Pieces(a + b)| + 1
    decreases |a|
  {
    if a == [] {
      assert a + b == b;
    } else if Delim(a[0]) {
      assert (a + b)[1..] == a[1..] + b;
      Meet(a[1..], b);
    } else {
      var j := Stop(a);
      if j < |a| {
        PiecesFrom(a + b, j);
        assert (a + b)[..j] == a[..j] && (a + b)[j..] == a[j..] + b;
        Meet(a[j..], b);
      } else {
        assert Pieces(a) == [a] by { assert a[..j] == a && a[j..] == []; }
        MeetOne(a, b);
      }
    }
  }

  lemma MeetOne(a: string, b: string)
    requires a != [] && Clean(a)
    ensures !Tears(a, b) ==> Pieces(a + b) == [a] + Pieces(b)
    ensures Tears(a, b) ==> |Pieces(a + b)| == |Pieces(b)|
  {
    var k := |a| + Stop(b);
    forall i | 0 <= i < k ensures !Delim((a + b)[i]) {}
    PiecesFrom(a + b, k);
    assert (a + b)[k..] == b[Stop(b)..];
    if !Tears(a, b) {
      assert Stop(b) == 0 && (a + b)[..k] == a;
    }
  }

  lemma AtNul(a: string, b: string)
    ensures Pieces(a + ("\0" + b)) == Pieces(a) + Pieces(b)
  {
    var rest := "\0" + b;
    Meet(a, rest);
    assert rest[1..] == b && Delim(rest[0]);
  }

  /** Counting the pieces is counting where they begin. */
  lemma {:induction false} PiecesCount(s: string)
    ensures |Pieces(s)| == Tokens(s)
    decreases |s|
  {
    if s != [] {
      var last := |s| - 1;
      var a, b := s[..last], [s[last]];
      assert s == a + b;
      PiecesCount(a);
      Meet(a, b);
      assert b[1..] == [] && (!Delim(b[0]) ==> b[..1] == b);
      PiecesFrom(b, if Delim(b[0]) then 0 else 1);
    }
  }

  // ---------- any chunking

  lemma {:induction false} StrippedAppend(a: string, b: string)
    ensures Stripped(a + b) == Stripped(a) + Stripped(b)
    decreases |a|
  {
    if a == [] {
      assert a + b == b;
    } else {
      assert (a + b)[1..] == a[1..] + b;
      StrippedAppend(a[1..], b);
    }
  }

  lemma {:induction false} ConcatAppend(a: seq<string>, b: seq<string>)
    ensures Concat(a + b) == Concat(a) + Concat(b)
    decreases |a|
  {
    if a == [] {
      assert a + b == b;
    } else {
      assert (a + b)[1..] == a[1..] + b;
      ConcatAppend(a[1..], b);
    }
  }

  lemma {:induction false} Cuts(chunks: seq<string>)
    requires NonEmpty(chunks)
    ensures Torn(chunks) == 0 ==> Delivered(chunks) == Pieces(Concat(chunks))
    ensures |Delivered(chunks)| == |Pieces(Concat(chunks))| + Torn(chunks)
    decreases |chunks|
  {
    if chunks != [] {
      var rest := chunks[1..];
      Cuts(rest);
      Meet(chunks[0], Concat(rest));
      if rest != [] { assert Concat(rest)[0] == rest[0][0]; }
    }
  }

  lemma {:induction false} DeliveredShape(chunks: seq<string>)
    ensures forall p :: p in Delivered(chunks) ==> p != [] && Clean(p)
    ensures Concat(Delivered(chunks)) == Stripped(Concat(chunks))
    decreases |chunks|
  {
    if chunks != [] {
      PiecesShape(chunks[0]);
      DeliveredShape(chunks[1..]);
      ConcatAppend(Pieces(chunks[0]), Delivered(chunks[1..]));
      StrippedAppend(chunks[0], Concat(chunks[1..]));
    }
  }

  /**
   Whatever the chunks, the pieces join to the stream without its delimiters, none is empty or holds a
   delimiter, and there are as many as the stream has tokens plus the boundaries that tear one; they
   are the stream's own pieces exactly when no boundary does.
   */
  lemma {:induction false} AnyChunking(chunks: seq<string>)
    requires NonEmpty(chunks)
    ensures Concat(Delivered(chunks)) == Stripped(Concat(chunks))
    ensures forall p :: p in Delivered(chunks) ==> p != [] && Clean(p)
    ensures |Delivered(chunks)| == Tokens(Concat(chunks)) + Torn(chunks)
    ensures Delivered(chunks) == Pieces(Concat(chunks)) <==> Torn(chunks) == 0
  {
    DeliveredShape(chunks);
    Cuts(chunks);
    PiecesCount(Concat(chunks));
  }

  /** A boundary between chunks acts as one more delimiter, no more and no less. */
  lemma {:induction false} BoundaryIsDelimiter(chunks: seq<string>)
    ensures Delivered(chunks) == Pieces(Joined(chunks))
    decreases |chunks|
  {
    if chunks != [] {
      BoundaryIsDelimiter(chunks[1..]);
      AtNul(chunks[0], Joined(chunks[1..]));
    }
  }

  function Joined(chunks: seq<string>): string {
    if chunks == [] then [] else chunks[0] + ("\0" + Joined(chunks[1..]))
  }

  // ---------- writing

  /** The text a C string function sees: s up to its first NUL. */
  function CStr(s: string): (r: string)
    ensures r <= s && '\0' !in r && (|r| < |s| ==> s[|r|] == '\0')
  {
    if s == [] || s[0] == '\0' then [] else [s[0]] + CStr(s[1..])
  }

  /** The bytes of write(const string&): the C string with its NUL. */
  function Sent(s: string): (r: string)
    ensures |r| == |CStr(s)| + 1 && CStr(s) <= r && r[|r| - 1] == '\0'
  {
    CStr(s) + "\0"
  }

  function Stream(writes: seq<string>): string {
    if writes == [] then [] else Sent(writes[0]) + Stream(writes[1..])
  }

  /** What a receiver should get of a sequence of writes. */
  function Messages(writes: seq<string>): seq<string> {
    if writes == [] then [] else Pieces(CStr(writes[0])) + Messages(writes[1..])
  }

  function WithoutEmpty(writes: seq<string>): seq<string> {
    if writes == [] then [] else (if writes[0] == [] then [] else [writes[0]]) + WithoutEmpty(writes[1..])
  }

  lemma {:induction false} StreamPieces(writes: seq<string>)
    ensures Pieces(Stream(writes)) == Messages(writes)
    decreases |writes|
  {
    if writes != [] {
      var text, rest := CStr(writes[0]), Stream(writes[1..]);
      StreamPieces(writes[1..]);
      AtNul(text, rest);
      assert Stream(writes) == text + ("\0" + rest);
    }
  }

  lemma {:induction false} CleanMessages(writes: seq<string>)
    requires forall i :: 0 <= i < |writes| ==> Clean(writes[i])
    ensures Messages(writes) == WithoutEmpty(writes)
    decreases |writes|
  {
    if writes != [] {
      var w := writes[0];
      CleanMessages(writes[1..]);
      assert Clean(w);
      assert CStr(w) == w;
      if w != [] {
        PiecesFrom(w, |w|);
        assert w[..|w|] == w && w[|w|..] == [];
      }
    }
  }

  predicate EndAtDelimiter(chunks: seq<string>) {
    forall i :: 0 <= i < |chunks| ==> chunks[i] != [] && Delim(chunks[i][|chunks[i]| - 1])
  }

  lemma {:induction false} NotTorn(chunks: seq<string>)
    requires EndAtDelimiter(chunks)
    ensures Torn(chunks) == 0
    decreases |chunks|
  {
    if |chunks| >= 2 { NotTorn(chunks[1..]); }
  }

  /**
   Framing inverts writing: when every received chunk ends at a delimiter the callbacks are the messages
   written, however the stream was cut, and the non-empty texts themselves if they hold no delimiter.
   */
  lemma {:induction false} FramingInvertsWriting(writes: seq<string>, chunks: seq<string>)
    requires EndAtDelimiter(chunks) && Concat(chunks) == Stream(writes)
    ensures Delivered(chunks) == Messages(writes)
    ensures (forall i :: 0 <= i < |writes| ==> Clean(writes[i])) ==> Delivered(chunks) == WithoutEmpty(writes)
  {
    NotTorn(chunks);
    Cuts(chunks);
    StreamPieces(writes);
    if forall i :: 0 <= i < |writes| ==> Clean(writes[i]) { CleanMessages(writes); }
  }

  // ---------- the receiving loop

  const BUFSIZE := 512000

  /** The chunks that arrive before the peer closes, which shows as an empty one. */
  function BeforeClose(chunks: seq<string>): (r: seq<string>)
    ensures NonEmpty(r) && r <= chunks && (|r| < |chunks| ==> chunks[|r|] == [])
  {
    if chunks == [] || chunks[0] == [] then [] else [chunks[0]] + BeforeClose(chunks[1..])
  }

  /** One recv into the buffer. */
  method Recv(buf: array<char>, chunk: string)
    requires |chunk| <= buf.Length
    modifies buf
    ensures buf[..|chunk|] == chunk
  {
    forall k | 0 <= k < |chunk| { buf[k] := chunk[k]; }
  }

  /** The calls to the receive callback, with and without bLinebuffer, for what recv returns. */
  function Calls(chunks: seq<string>, lines: bool): seq<string> {
    if lines then Delivered(BeforeClose(chunks)) else BeforeClose(chunks)
  }

  function OneChunk(chunk: string, lines: bool): seq<string> {
    if lines then Pieces(chunk) else [chunk]
  }

  /** One recv and the calls it leads to. */
  method ReceiveOne(buf: array<char>, chunk: string, lines: bool) returns (calls: seq<string>)
    requires |chunk| <= buf.Length
    modifies buf
    ensures calls == OneChunk(chunk, lines)
  {
    Recv(buf, chunk);
    if lines {
      var reported;
      calls, reported := Cut(buf, |chunk|);
    } else {
      calls := [buf[..|chunk|]];
    }
  }

  lemma CallsStep(chunks: seq<string>, k: nat, lines: bool)
    requires k < |chunks|
    ensures Calls(chunks[k..], lines)
            == if chunks[k] == [] then []
               else OneChunk(chunks[k], lines) + Calls(chunks[k + 1..], lines)
  {
    var rest := BeforeClose(chunks[k + 1..]);
    assert chunks[k..][0] == chunks[k] && chunks[k..][1..] == chunks[k + 1..];
    if chunks[k] != [] { assert BeforeClose(chunks[k..]) == [chunks[k]] + rest; }
    assert ([chunks[k]] + rest)[1..] == rest;
  }

  lemma Assoc(a: seq<string>, b: seq<string>, c: seq<string>)
    ensures a + (b + c) == a + b + c
  {
  }

  /** The receiving loop of run() up to the close of the connection. */
  method Receive(chunks: seq<string>, lines: bool) returns (calls: seq<string>)
    requires forall i :: 0 <= i < |chunks| ==> |chunks[i]| <= BUFSIZE
    ensures calls == if lines then Delivered(BeforeClose(chunks)) else BeforeClose(chunks)
  {
    var buf := new char[BUFSIZE];
    calls := [];
    var k := 0;
    assert chunks[0..] == chunks;
    while k < |chunks|
      invariant 0 <= k <= |chunks|
      invariant calls + Calls(chunks[k..], lines) == Calls(chunks, lines)
    {
      CallsStep(chunks, k, lines);
      if |chunks[k]| == 0 { return; }
      var more := ReceiveOne(buf, chunks[k], lines);
      Assoc(calls, more, Calls(chunks[k + 1..], lines));
      calls := calls + more;
      k := k + 1;
    }
    assert chunks[k..] == [];
  }

  /** TCPServer(firstPort, lastPort): the first port that binds, or the "No free port" exception. */
  method BindFirst(first: int, last: int, free: set<int>) returns (found: bool, port: int)
    ensures found <==> exists p :: first <= p <= last && p in free
    ensures found ==> first <= port <= last && port in free && forall p :: first <= p < port ==> p !in free
  {
    found, port := false, first;
    while port <= last
      invariant first <= port
      invariant forall p :: first <= p < port ==> p !in free
      invariant port <= last || port == last + 1 || first > last
    {
      if port in free {
        found := true;
        return;
      }
      port := port + 1;
    }
  }
}
