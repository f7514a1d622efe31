/**
 get_free_port (src/protocols/tcp.h): first fit over a table of one file a port that outlives the
 process and holds the name of the channel that has the port.
 */
module Ports {

  const SIZE := 512

  /** What fgets leaves in the buffer: a line's start, newline included; an empty file leaves it alone. */
  function Fgets(file: string, buf: string): string {
    if file == "" then buf else Line(file, SIZE - 1)
  }

  function Line(file: string, room: nat): (r: string)
    ensures r <= file && |r| <= room
  {
    if file == "" || room == 0 then ""
    else if file[0] == '\n' then "\n"
    else [file[0]] + Line(file[1..], room - 1)
  }

  /** A channel name that reads back as written. */
  predicate Legible(channel: string) {
    0 < |channel| < 512 && forall i :: 0 <= i < |channel| - 1 ==> channel[i] != '\n'
  }

  lemma {:induction false} LineReads(file: string, room: nat)
    ensures Line(file, room) == file <==> |file| <= room && forall i :: 0 <= i < |file| - 1 ==> file[i] != '\n'
    decreases |file|
  {
    if file != "" && room > 0 {
      LineReads(file[1..], room - 1);
      assert file == [file[0]] + file[1..];
      if file[0] == '\n' {
        assert |file| == 1 ==> file == "\n";
      } else {
        assert Line(file, room) == file <==> Line(file[1..], room - 1) == file[1..] by {
          assert Line(file, room)[1..] == Line(file[1..], room - 1);
        }
        assert forall i :: 0 <= i < |file| - 2 ==> file[1..][i] == file[i + 1];
        if forall i :: 0 <= i < |file| - 2 ==> file[1..][i] != '\n' {
          forall i | 0 <= i < |file| - 1 ensures file[i] != '\n' {
            if i > 0 { assert file[1..][i - 1] == file[i]; }
          }
        }
      }
    }
  }

  /** A recorded name is recognised by its channel just when it is legible. */
  lemma LegibleReadsBack(channel: string, buf: string)
    requires channel != ""
    ensures Fgets(channel, buf) == channel <==> Legible(channel)
  {
    LineReads(channel, SIZE - 1);
  }

  type Table = map<nat, string>

  ghost function Above(t: Table, i: nat): set<nat> {
    set p | p in t && p >= i
  }

  lemma AboveLess(t: Table, i: nat)
    requires i in t
    ensures |Above(t, i + 1)| < |Above(t, i)|
  {
    assert Above(t, i) == Above(t, i + 1) + {i};
  }

  /** The port the loop stops at, from port i on with this buffer. */
  ghost function Search(t: Table, i: nat, channel: string, buf: string): (r: nat)
    ensures r >= i
    decreases |Above(t, i)|
  {
    if i !in t then i
    else
      var b := Fgets(t[i], buf);
      if b == channel then i
      else
        AboveLess(t, i);
        Search(t, i + 1, channel, b)
  }

  /** The directory of port files. */
  class PortDirectory {
    var owner: Table

    constructor (owner: Table)
      ensures this.owner == owner
    {
      this.owner := owner;
    }

    /** get_free_port; `junk` is what the uninitialised buffer holds. */
    method GetFreePort(first: nat, channel: string, junk: string) returns (port: nat)
      modifies this
      ensures port == Search(old(owner), first, channel, junk)
      ensures owner == old(owner)[port := channel]
    {
      port := first;
      var buf := junk;
      while port in owner
        invariant owner == old(owner)
        invariant Search(owner, port, channel, buf) == Search(owner, first, channel, junk)
        decreases |Above(owner, port)|
      {
        buf := Fgets(owner[port], buf);
        if buf == channel { break; }
        AboveLess(owner, port);
        port := port + 1;
      }
      owner := owner[port := channel];
    }
  }

  predicate AllLegible(t: Table) {
    forall p :: p in t ==> Legible(t[p])
  }

  /** With legible names the search is first fit: the least port that is free or already the channel's. */
  lemma {:induction false} FirstFit(t: Table, i: nat, channel: string, buf: string)
    requires AllLegible(t)
    ensures var r := Search(t, i, channel, buf);
      && (r in t ==> t[r] == channel)
      && forall j :: i <= j < r ==> j in t && t[j] != channel
    decreases |Above(t, i)|
  {
    if i in t {
      LegibleReadsBack(t[i], buf);
      AboveLess(t, i);
      if t[i] != channel { FirstFit(t, i + 1, channel, t[i]); }
    }
  }

  lemma FirstFitIs(t: Table, i: nat, channel: string, buf: string, r: nat)
    requires AllLegible(t) && i <= r && (r in t ==> t[r] == channel)
    requires forall j :: i <= j < r ==> j in t && t[j] != channel
    ensures Search(t, i, channel, buf) == r
  {
    FirstFit(t, i, channel, buf);
  }

  // ---------- taking a port over

  /** Where the search stops, the record reads as the channel, unless there is none or it is empty. */
  lemma {:induction false} StopsWhereRead(t: Table, i: nat, channel: string, buf: string)
    ensures var r := Search(t, i, channel, buf);
      r in t && t[r] != "" ==> Line(t[r], SIZE - 1) == channel
    decreases |Above(t, i)|
  {
    if i in t {
      var b := Fgets(t[i], buf);
      AboveLess(t, i);
      if b != channel { StopsWhereRead(t, i + 1, channel, b); }
    }
  }

  predicate ChangesOwner(t: Table, t': Table) {
    exists q :: q in t && (q !in t' || t'[q] != t[q])
  }

  /**
   A call takes a port from its owner exactly when the port it answers is recorded for a name that is
   empty, or whose beginning, as far as it is read back, is the channel's while the whole is not.
   */
  lemma CallChangesOwner(t: Table, first: nat, channel: string, junk: string)
    ensures var p := Search(t, first, channel, junk);
      ChangesOwner(t, t[p := channel])
      <==> p in t && t[p] != channel && (t[p] == "" || (Line(t[p], SIZE - 1) == channel && !Legible(t[p])))
  {
    var p := Search(t, first, channel, junk);
    StopsWhereRead(t, first, channel, junk);
    if p in t && t[p] != "" { LineReads(t[p], SIZE - 1); }
    if p in t && t[p] != channel { assert p in t && t[p := channel][p] != t[p]; }
  }

  /** No call at all can take a port from its owner exactly when every recorded name is legible. */
  lemma OwnersSafeIffLegible(t: Table)
    ensures (forall first: nat, channel: string, junk: string ::
               !ChangesOwner(t, t[Search(t, first, channel, junk) := channel])) <==> AllLegible(t)
  {
    if AllLegible(t) {
      forall first: nat, channel: string, junk: string ensures !ChangesOwner(t, t[Search(t, first, channel, junk) := channel]) {
        FirstFit(t, first, channel, junk);
        CallChangesOwner(t, first, channel, junk);
      }
    } else {
      var q :| q in t && !Legible(t[q]);
      var channel := if t[q] == "" then "x" else Line(t[q], SIZE - 1);
      if t[q] != "" { LineReads(t[q], SIZE - 1); }
      assert Search(t, q, channel, "x") == q;
      CallChangesOwner(t, q, channel, "x");
    }
  }

  // ---------- sequences of calls

  datatype Call = Call(first: nat, channel: string, junk: string)

  ghost function After(t: Table, c: Call): Table {
    t[Search(t, c.first, c.channel, c.junk) := c.channel]
  }

  /** The table after the first n calls. */
  ghost function TableAt(t: Table, calls: seq<Call>, n: nat): Table
    requires n <= |calls|
  {
    if n == 0 then t else After(TableAt(t, calls, n - 1), calls[n - 1])
  }

  /** What call k returns. */
  ghost function Answer(t: Table, calls: seq<Call>, k: nat): nat
    requires k < |calls|
  {
    var c := calls[k];
    Search(TableAt(t, calls, k), c.first, c.channel, c.junk)
  }

  predicate LegibleCalls(calls: seq<Call>) {
    forall k :: 0 <= k < |calls| ==> Legible(calls[k].channel)
  }

  lemma {:induction false} StaysLegible(t: Table, calls: seq<Call>, n: nat)
    requires AllLegible(t) && LegibleCalls(calls) && n <= |calls|
    ensures AllLegible(TableAt(t, calls, n))
    decreases n
  {
    if n > 0 { StaysLegible(t, calls, n - 1); }
  }

  /** A recorded port never changes owner. */
  lemma {:induction false} OwnerKept(t: Table, calls: seq<Call>, m: nat, n: nat, port: nat)
    requires AllLegible(t) && LegibleCalls(calls) && m <= n <= |calls| && port in TableAt(t, calls, m)
    ensures port in TableAt(t, calls, n) && TableAt(t, calls, n)[port] == TableAt(t, calls, m)[port]
    decreases n
  {
    if m < n {
      OwnerKept(t, calls, m, n - 1, port);
      StaysLegible(t, calls, n - 1);
      var c := calls[n - 1];
      FirstFit(TableAt(t, calls, n - 1), c.first, c.channel, c.junk);
    }
  }

  /** Distinct channels never share a port; the same channel with the same first port keeps its answer. */
  lemma Stable(t: Table, calls: seq<Call>, i: nat, j: nat)
    requires AllLegible(t) && LegibleCalls(calls) && i < j < |calls|
    ensures calls[i].channel != calls[j].channel ==> Answer(t, calls, i) != Answer(t, calls, j)
    ensures calls[i].channel == calls[j].channel && calls[i].first == calls[j].first ==>
      Answer(t, calls, i) == Answer(t, calls, j)
  {
    var p, c := Answer(t, calls, i), calls[i];
    var before, now := TableAt(t, calls, i), TableAt(t, calls, j);
    assert TableAt(t, calls, i + 1) == After(before, c);
    OwnerKept(t, calls, i + 1, j, p);
    StaysLegible(t, calls, i);
    StaysLegible(t, calls, j);
    FirstFit(now, calls[j].first, calls[j].channel, calls[j].junk);
    FirstFit(before, c.first, c.channel, c.junk);
    if calls[i].channel == calls[j].channel && calls[i].first == calls[j].first {
      forall q | c.first <= q < p ensures q in now && now[q] != c.channel { OwnerKept(t, calls, i, j, q); }
      FirstFitIs(now, c.first, c.channel, calls[j].junk, p);
    }
  }

  /** A name that is not legible is not recognised again: the next same call takes another port. */
  lemma RepeatIffLegible(t: Table, first: nat, channel: string, junk: string, junk2: string)
    requires AllLegible(t) && channel != ""
    ensures var p := Search(t, first, channel, junk);
      Search(t[p := channel], first, channel, junk2) == p <==> Legible(channel)
  {
    var p := Search(t, first, channel, junk);
    FirstFit(t, first, channel, junk);
    if Legible(channel) {
      FirstFitIs(t[p := channel], first, channel, junk2, p);
    } else {
      NotFoundAt(t[p := channel], first, channel, junk2, p);
    }
  }

  /** The search stops neither at a port recorded for a channel it cannot read, nor is that port free. */
  lemma {:induction false} NotFoundAt(t: Table, i: nat, channel: string, buf: string, p: nat)
    requires channel != "" && !Legible(channel) && p in t && t[p] == channel
    ensures Search(t, i, channel, buf) != p
    decreases |Above(t, i)|
  {
    if i in t {
      var b := Fgets(t[i], buf);
      if i == p { LegibleReadsBack(channel, buf); }
      AboveLess(t, i);
      if b != channel { NotFoundAt(t, i + 1, channel, b, p); }
    }
  }
}
