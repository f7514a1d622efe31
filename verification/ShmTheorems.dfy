/**
 The two-semaphore handoff delivers every completed write exactly once and in order, never lets two
 threads touch the memory together, and gets stuck only when there is nothing left to hand over.
 */
module ShmTheorems {
  import opened Common
  import opened ShmSpec

  // ---------- tokens

  /** How many threads are between their sem_wait and their sem_post. */
  function Count(threads: seq<Thread>): nat {
    if threads == [] then 0 else (if Inside(threads[0]) then 1 else 0) + Count(threads[1..])
  }

  function One(t: Thread): nat {
    if Inside(t) then 1 else 0
  }

  lemma {:induction false} CountUpdate(threads: seq<Thread>, t: nat, x: Thread)
    requires t < |threads|
    ensures Count(threads[t := x]) + One(threads[t]) == Count(threads) + One(x)
    decreases |threads|
  {
    if t == 0 {
      assert threads[t := x][1..] == threads[1..];
    } else {
      assert threads[t := x][1..] == threads[1..][t - 1 := x];
      CountUpdate(threads[1..], t - 1, x);
    }
  }

  lemma {:induction false} CountAtLeast(threads: seq<Thread>, t: nat)
    requires t < |threads| && Inside(threads[t])
    ensures Count(threads) >= 1
    decreases |threads|
  {
    if t > 0 { CountAtLeast(threads[1..], t - 1); }
  }

  lemma {:induction false} CountTwo(threads: seq<Thread>, t: nat, u: nat)
    requires t < u < |threads| && Inside(threads[t]) && Inside(threads[u])
    ensures Count(threads) >= 2
    decreases |threads|
  {
    if t > 0 { CountTwo(threads[1..], t - 1, u - 1); } else { CountAtLeast(threads[1..], u - 1); }
  }

  lemma {:induction false} CountNone(threads: seq<Thread>)
    requires forall t :: 0 <= t < |threads| ==> !Inside(threads[t])
    ensures Count(threads) == 0
    decreases |threads|
  {
    if threads != [] { CountNone(threads[1..]); }
  }

  // ---------- the invariant

  predicate Tokens(s: State) {
    s.shm.semRead + s.shm.semWrite + Count(s.threads) == 1
  }

  /** The memory, when no copy is under way: all completed writes over the initial memory. */
  predicate Settled(mem: seq<Byte>, s: State)
    requires |s.shm.mem| == |mem| && LogFits(s.written, |mem|)
  {
    s.shm.mem == Overlaid(mem, s.written)
  }

  predicate ThreadOk(mem: seq<Byte>, s: State, x: Thread)
    requires |s.shm.mem| == |mem| && LogFits(s.written, |mem|) && Fits(x, |mem|)
  {
    match x
    case Writer(msgs, at) => at.Some? ==>
      |s.written| == |s.delivered| && s.shm.mem == Overlay(Overlaid(mem, s.written), msgs[0][..at.value])
    case Reader(lens, got) => got.Some? ==>
      |s.written| == |s.delivered| + 1 && Settled(mem, s) && got.value == s.shm.mem[..|got.value|]
  }

  /** Each delivery is the beginning of the memory as the write of the same rank left it. */
  predicate Faithful(mem: seq<Byte>, written: seq<Entry>, delivered: seq<Entry>)
    requires LogFits(written, |mem|)
  {
    && |delivered| <= |written| && LogFits(delivered, |mem|)
    && forall k :: 0 <= k < |delivered| ==>
         delivered[k].bytes == Overlaid(mem, written[..k + 1])[..|delivered[k].bytes|]
  }

  predicate Inv(mem: seq<Byte>, s: State) {
    && Safe(s) && |s.shm.mem| == |mem| && LogFits(s.written, |mem|)
    && Tokens(s)
    && (s.shm.semWrite > 0 ==> |s.written| == |s.delivered| && Settled(mem, s))
    && (s.shm.semRead > 0 ==> |s.written| == |s.delivered| + 1 && Settled(mem, s))
    && (forall t :: 0 <= t < |s.threads| ==> ThreadOk(mem, s, s.threads[t]))
    && Faithful(mem, s.written, s.delivered)
  }

  lemma Alone(s: State, t: nat, u: nat)
    requires Tokens(s) && t < |s.threads| && u < |s.threads| && Inside(s.threads[t]) && Inside(s.threads[u])
    ensures t == u && s.shm.semRead == 0 && s.shm.semWrite == 0
  {
    CountAtLeast(s.threads, t);
    if t < u { CountTwo(s.threads, t, u); }
    if u < t { CountTwo(s.threads, u, t); }
  }

  lemma NobodyInside(s: State, t: nat)
    requires Tokens(s) && t < |s.threads| && s.shm.semRead + s.shm.semWrite > 0
    ensures !Inside(s.threads[t])
  {
    if Inside(s.threads[t]) { CountAtLeast(s.threads, t); }
  }

  lemma WriterInv(mem: seq<Byte>, s: State, t: nat)
    requires Inv(mem, s) && Enabled(s, t) && s.threads[t].Writer?
    ensures Inv(mem, Step(s, t))
  {
    var w := s.threads[t];
    if !Inside(w) { WriterEnters(mem, s, t); }
    else if w.at.value < |w.msgs[0]| { WriterCopies(mem, s, t); }
    else { WriterPosts(mem, s, t); }
  }

  lemma OnlyInside(s: State, t: nat)
    requires Tokens(s) && t < |s.threads| && Inside(s.threads[t])
    ensures s.shm.semRead == 0 && s.shm.semWrite == 0
    ensures forall u :: 0 <= u < |s.threads| && u != t ==> !Inside(s.threads[u])
  {
    Alone(s, t, t);
    forall u | 0 <= u < |s.threads| && u != t ensures !Inside(s.threads[u]) {
      if Inside(s.threads[u]) { Alone(s, t, u); }
    }
  }

  lemma WriterEnters(mem: seq<Byte>, s: State, t: nat)
    requires Inv(mem, s) && Enabled(s, t) && s.threads[t].Writer? && !Inside(s.threads[t])
    ensures Inv(mem, Step(s, t))
  {
    var w, s' := s.threads[t], Step(s, t);
    CountUpdate(s.threads, t, s'.threads[t]);
    assert w.msgs[0][..0] == [];
    assert s'.shm.mem == Overlay(Overlaid(mem, s.written), []);
    forall u | 0 <= u < |s.threads| ensures !Inside(s.threads[u]) { NobodyInside(s, u); }
  }

  lemma WriterCopies(mem: seq<Byte>, s: State, t: nat)
    requires Inv(mem, s) && Enabled(s, t) && s.threads[t].Writer? && Inside(s.threads[t])
    requires s.threads[t].at.value < |s.threads[t].msgs[0]|
    ensures Inv(mem, Step(s, t))
  {
    var w, s' := s.threads[t], Step(s, t);
    var i := w.at.value;
    CountUpdate(s.threads, t, s'.threads[t]);
    assert ThreadOk(mem, s, w) && Fits(w, |mem|);
    OnlyInside(s, t);
    OverlayNext(Overlaid(mem, s.written), w.msgs[0], i);
  }

  lemma OverlayNext(mem: seq<Byte>, msg: seq<Byte>, i: nat)
    requires i < |msg| <= |mem|
    ensures Overlay(mem, msg[..i])[i := msg[i]] == Overlay(mem, msg[..i + 1])
  {
  }

  lemma WriterPosts(mem: seq<Byte>, s: State, t: nat)
    requires Inv(mem, s) && Enabled(s, t) && s.threads[t].Writer? && Inside(s.threads[t])
    requires s.threads[t].at.value >= |s.threads[t].msgs[0]|
    ensures Inv(mem, Step(s, t))
  {
    var w, s' := s.threads[t], Step(s, t);
    CountUpdate(s.threads, t, s'.threads[t]);
    assert ThreadOk(mem, s, w) && Fits(w, |mem|);
    OnlyInside(s, t);
    assert w.msgs[0][..w.at.value] == w.msgs[0];
    assert s'.written[..|s.written|] == s.written;
    FaithfulMore(mem, s.written, s.delivered, Entry(t, w.msgs[0]));
  }

  lemma FaithfulMore(mem: seq<Byte>, written: seq<Entry>, delivered: seq<Entry>, e: Entry)
    requires LogFits(written, |mem|) && Faithful(mem, written, delivered) && |e.bytes| <= |mem|
    ensures LogFits(written + [e], |mem|) && Faithful(mem, written + [e], delivered)
  {
    forall k | 0 <= k < |delivered|
      ensures delivered[k].bytes == Overlaid(mem, (written + [e])[..k + 1])[..|delivered[k].bytes|]
    {
      assert (written + [e])[..k + 1] == written[..k + 1];
    }
  }

  lemma ReaderInv(mem: seq<Byte>, s: State, t: nat)
    requires Inv(mem, s) && Enabled(s, t) && s.threads[t].Reader?
    ensures Inv(mem, Step(s, t))
  {
    var r := s.threads[t];
    var s' := Step(s, t);
    CountUpdate(s.threads, t, s'.threads[t]);
    assert ThreadOk(mem, s, r);
    if Inside(r) {
      OnlyInside(s, t);
      var got := r.got.value;
      if |got| < r.lens[0] {
        assert s.shm.mem[..|got| + 1] == got + [s.shm.mem[|got|]];
      } else {
        assert s.written[..|s.delivered| + 1] == s.written;
      }
    } else {
      forall u | 0 <= u < |s.threads| ensures !Inside(s.threads[u]) { NobodyInside(s, u); }
    }
  }

  lemma {:induction false} RunInv(mem: seq<Byte>, threads: seq<Thread>, schedule: seq<nat>)
    requires Fresh(threads, |mem|)
    ensures Inv(mem, Run(Start(mem, threads), schedule))
    decreases |schedule|
  {
    if schedule == [] {
      CountNone(threads);
    } else {
      var before, t := schedule[..|schedule| - 1], schedule[|schedule| - 1];
      RunInv(mem, threads, before);
      var s := Run(Start(mem, threads), before);
      if Enabled(s, t) {
        if s.threads[t].Writer? { WriterInv(mem, s, t); } else { ReaderInv(mem, s, t); }
      }
    }
  }

  // ---------- what each thread has done

  /** A thread's completed accesses followed by what it has left is its workload. */
  predicate Kept(start: Thread, now: Thread, t: nat, written: seq<Entry>, delivered: seq<Entry>) {
    if start.Writer? then now.Writer? && Of(written, t) + now.msgs == start.msgs
    else now.Reader? && Lengths(Of(delivered, t)) + now.lens == start.lens
  }

  lemma OfAppend(log: seq<Entry>, e: Entry, t: nat)
    ensures Of(log + [e], t) == Of(log, t) + if e.who == t then [e.bytes] else []
  {
    assert (log + [e])[..|log|] == log;
  }

  lemma KeptStep(s: State, t: nat, u: nat, start: Thread)
    requires Safe(s) && u < |s.threads| && Kept(start, s.threads[u], u, s.written, s.delivered)
    ensures Kept(start, Step(s, t).threads[u], u, Step(s, t).written, Step(s, t).delivered)
  {
    if Enabled(s, t) {
      if s.threads[t].Writer? { KeptWriter(s, t, u, start); } else { KeptReader(s, t, u, start); }
    }
  }

  lemma KeptWriter(s: State, t: nat, u: nat, start: Thread)
    requires Safe(s) && u < |s.threads| && Kept(start, s.threads[u], u, s.written, s.delivered)
    requires Enabled(s, t) && s.threads[t].Writer?
    ensures Kept(start, Step(s, t).threads[u], u, Step(s, t).written, Step(s, t).delivered)
  {
    var x := s.threads[t];
    if Inside(x) && x.at.value == |x.msgs[0]| {
      OfAppend(s.written, Entry(t, x.msgs[0]), u);
      if t == u { Requeued(Of(s.written, u), x.msgs); }
    }
  }

  lemma KeptReader(s: State, t: nat, u: nat, start: Thread)
    requires Safe(s) && u < |s.threads| && Kept(start, s.threads[u], u, s.written, s.delivered)
    requires Enabled(s, t) && s.threads[t].Reader?
    ensures Kept(start, Step(s, t).threads[u], u, Step(s, t).written, Step(s, t).delivered)
  {
    var x := s.threads[t];
    if Inside(x) && |x.got.value| == x.lens[0] {
      OfAppend(s.delivered, Entry(t, x.got.value), u);
      if t == u {
        LengthsAppend(Of(s.delivered, u), x.got.value);
        Requeued(Lengths(Of(s.delivered, u)), x.lens);
      }
    }
  }

  lemma Requeued<T>(done: seq<T>, todo: seq<T>)
    requires todo != []
    ensures done + [todo[0]] + todo[1..] == done + todo
  {
  }

  lemma LengthsAppend(bufs: seq<seq<Byte>>, buf: seq<Byte>)
    ensures Lengths(bufs + [buf]) == Lengths(bufs) + [|buf|]
  {
  }

  lemma {:induction false} RunKept(mem: seq<Byte>, threads: seq<Thread>, schedule: seq<nat>, u: nat)
    requires Fresh(threads, |mem|) && u < |threads|
    ensures var s := Run(Start(mem, threads), schedule);
      Kept(threads[u], s.threads[u], u, s.written, s.delivered)
    decreases |schedule|
  {
    if schedule != [] {
      var before := schedule[..|schedule| - 1];
      RunKept(mem, threads, before, u);
      KeptStep(Run(Start(mem, threads), before), schedule[|schedule| - 1], u, threads[u]);
    }
  }

  /**
   Handoff: after any run of any number of writers and readers, the k-th delivered buffer is what the
   first k completed writes laid over the initial memory make of it, completed writes exceed deliveries
   by at most one, and every thread's accesses completed once each, in its program order.
   */
  lemma {:induction false} ExactlyOnceInOrder(mem: seq<Byte>, threads: seq<Thread>, schedule: seq<nat>)
    requires Fresh(threads, |mem|)
    ensures var s := Run(Start(mem, threads), schedule);
      && LogFits(s.written, |mem|) && LogFits(s.delivered, |mem|)
      && |s.delivered| <= |s.written| <= |s.delivered| + 1
      && (forall k :: 0 <= k < |s.delivered| ==>
            s.delivered[k].bytes == Overlaid(mem, s.written[..k + 1])[..|s.delivered[k].bytes|])
      && (forall t :: 0 <= t < |threads| ==>
            if threads[t].Writer? then s.threads[t].Writer? && Of(s.written, t) + s.threads[t].msgs == threads[t].msgs
            else s.threads[t].Reader? && Lengths(Of(s.delivered, t)) + s.threads[t].lens == threads[t].lens)
  {
    var s := Run(Start(mem, threads), schedule);
    RunInv(mem, threads, schedule);
    forall t | 0 <= t < |threads|
      ensures Kept(threads[t], s.threads[t], t, s.written, s.delivered)
    {
      RunKept(mem, threads, schedule, t);
    }
    if s.shm.semRead + s.shm.semWrite == 0 {
      var t := SomeInside(s.threads);
      assert ThreadOk(mem, s, s.threads[t]);
    }
  }

  lemma {:induction false} SomeInside(threads: seq<Thread>) returns (t: nat)
    requires Count(threads) >= 1
    ensures t < |threads| && Inside(threads[t])
    decreases |threads|
  {
    if Inside(threads[0]) {
      t := 0;
    } else {
      t := SomeInside(threads[1..]);
      t := t + 1;
    }
  }

  /** The sum of both semaphores and of the threads inside is always one, so no two threads meet. */
  lemma {:induction false} TokenConservation(mem: seq<Byte>, threads: seq<Thread>, schedule: seq<nat>, t: nat, u: nat)
    requires Fresh(threads, |mem|) && t < |threads| && u < |threads|
    ensures var s := Run(Start(mem, threads), schedule);
      && s.shm.semRead + s.shm.semWrite + Count(s.threads) == 1
      && (Inside(s.threads[t]) && Inside(s.threads[u]) ==> t == u)
  {
    var s := Run(Start(mem, threads), schedule);
    RunInv(mem, threads, schedule);
    if Inside(s.threads[t]) && Inside(s.threads[u]) { Alone(s, t, u); }
  }

  // ---------- progress

  predicate Stuck(s: State) {
    forall t :: 0 <= t < |s.threads| ==> !Enabled(s, t)
  }

  /** How many accesses the writers, or the readers, have left. */
  function Left(threads: seq<Thread>, writers: bool): nat {
    if threads == [] then 0
    else (if threads[0].Writer? == writers then Pending(threads[0]) else 0) + Left(threads[1..], writers)
  }

  lemma {:induction false} LeftUpdate(threads: seq<Thread>, t: nat, x: Thread, writers: bool)
    requires t < |threads| && x.Writer? == threads[t].Writer?
    ensures Left(threads[t := x], writers) + (if x.Writer? == writers then Pending(threads[t]) else 0)
            == Left(threads, writers) + (if x.Writer? == writers then Pending(x) else 0)
    decreases |threads|
  {
    if t == 0 {
      assert threads[t := x][1..] == threads[1..];
    } else {
      assert threads[t := x][1..] == threads[1..][t - 1 := x];
      LeftUpdate(threads[1..], t - 1, x, writers);
    }
  }

  lemma {:induction false} LeftZero(threads: seq<Thread>, writers: bool)
    requires forall t :: 0 <= t < |threads| && threads[t].Writer? == writers ==> Pending(threads[t]) == 0
    ensures Left(threads, writers) == 0
    decreases |threads|
  {
    if threads != [] { LeftZero(threads[1..], writers); }
  }

  lemma {:induction false} RunCounts(mem: seq<Byte>, threads: seq<Thread>, schedule: seq<nat>)
    requires Fresh(threads, |mem|)
    ensures var s := Run(Start(mem, threads), schedule);
      && |s.written| + Left(s.threads, true) == Left(threads, true)
      && |s.delivered| + Left(s.threads, false) == Left(threads, false)
    decreases |schedule|
  {
    if schedule != [] {
      var before, t := schedule[..|schedule| - 1], schedule[|schedule| - 1];
      RunCounts(mem, threads, before);
      var s := Run(Start(mem, threads), before);
      if Enabled(s, t) {
        LeftUpdate(s.threads, t, Step(s, t).threads[t], true);
        LeftUpdate(s.threads, t, Step(s, t).threads[t], false);
      }
    }
  }

  function Min(a: nat, b: nat): nat {
    if a <= b then a else b
  }

  /**
   No deadlock: a run can only get stuck with the slot empty and no writer left, or full and no reader
   left. Whatever the schedule was, it then has delivered as much as writers and readers allow.
   */
  lemma {:induction false} StuckOnlyWhenDone(mem: seq<Byte>, threads: seq<Thread>, schedule: seq<nat>)
    requires Fresh(threads, |mem|)
    requires Stuck(Run(Start(mem, threads), schedule))
    ensures var s := Run(Start(mem, threads), schedule);
      && (forall t :: 0 <= t < |threads| ==> !Inside(s.threads[t]))
      && ((s.shm.semWrite == 1 && s.shm.semRead == 0 && Left(s.threads, true) == 0)
          || (s.shm.semWrite == 0 && s.shm.semRead == 1 && Left(s.threads, false) == 0))
      && |s.delivered| == Min(Left(threads, true), Left(threads, false))
      && |s.written| == Min(Left(threads, true), Left(threads, false) + 1)
  {
    var s := Run(Start(mem, threads), schedule);
    RunInv(mem, threads, schedule);
    RunCounts(mem, threads, schedule);
    forall t | 0 <= t < |threads| ensures !Inside(s.threads[t]) {
      assert !Enabled(s, t) && Fits(s.threads[t], |mem|);
    }
    CountNone(s.threads);
    var writers := s.shm.semWrite == 1;
    forall t | 0 <= t < |threads| && s.threads[t].Writer? == writers ensures Pending(s.threads[t]) == 0 {
      assert !Enabled(s, t);
    }
    LeftZero(s.threads, writers);
  }

  /** How many steps a thread has left. */
  function ThreadWork(x: Thread): nat
    requires x.Writer? && x.at.Some? ==> x.msgs != [] && x.at.value <= |x.msgs[0]|
    requires x.Reader? && x.got.Some? ==> x.lens != [] && |x.got.value| <= x.lens[0]
  {
    match x
    case Writer(msgs, at) =>
      WriteWork(msgs) - (if at.Some? then assert WriteWork(msgs) >= |msgs[0]| + 2; 1 + at.value else 0)
    case Reader(lens, got) =>
      ReadWork(lens) - (if got.Some? then assert ReadWork(lens) >= lens[0] + 2; 1 + |got.value| else 0)
  }

  function WriteWork(msgs: seq<seq<Byte>>): nat {
    if msgs == [] then 0 else |msgs[0]| + 2 + WriteWork(msgs[1..])
  }

  function ReadWork(lens: seq<nat>): nat {
    if lens == [] then 0 else lens[0] + 2 + ReadWork(lens[1..])
  }

  function Work(threads: seq<Thread>, size: nat): nat
    requires AllFit(threads, size)
  {
    if threads == [] then 0 else assert Fits(threads[0], size); ThreadWork(threads[0]) + Work(threads[1..], size)
  }

  lemma {:induction false} WorkUpdate(threads: seq<Thread>, t: nat, x: Thread, size: nat)
    requires t < |threads| && AllFit(threads, size) && Fits(x, size)
    ensures AllFit(threads[t := x], size)
    ensures Work(threads[t := x], size) + ThreadWork(threads[t]) == Work(threads, size) + ThreadWork(x)
    decreases |threads|
  {
    if t == 0 {
      assert threads[t := x][1..] == threads[1..];
    } else {
      assert threads[t := x][1..] == threads[1..][t - 1 := x];
      WorkUpdate(threads[1..], t - 1, x, size);
    }
  }

  /** Every step of a thread that can move takes one unit off the work left. */
  lemma StepWork(s: State, t: nat)
    requires Safe(s) && Enabled(s, t)
    ensures Work(Step(s, t).threads, |s.shm.mem|) + 1 == Work(s.threads, |s.shm.mem|)
  {
    var x := Step(s, t).threads[t];
    assert Fits(s.threads[t], |s.shm.mem|) && Fits(x, |s.shm.mem|);
    WorkUpdate(s.threads, t, x, |s.shm.mem|);
    assert Step(s, t).threads == s.threads[t := x];
  }

  /** Every step of the schedule is one of a thread that can move. */
  predicate Productive(s: State, schedule: seq<nat>)
    requires Safe(s)
  {
    forall k :: 0 <= k < |schedule| ==> Enabled(Run(s, schedule[..k]), schedule[k])
  }

  /** A finite workload ends: the steps taken and the work left always add up to the workload. */
  lemma {:induction false} WorkloadEnds(mem: seq<Byte>, threads: seq<Thread>, schedule: seq<nat>)
    requires Fresh(threads, |mem|) && Productive(Start(mem, threads), schedule)
    ensures |schedule| + Work(Run(Start(mem, threads), schedule).threads, |mem|) == Work(threads, |mem|)
    decreases |schedule|
  {
    if schedule != [] {
      var s0, last := Start(mem, threads), |schedule| - 1;
      var before := schedule[..last];
      forall k | 0 <= k < last ensures Enabled(Run(s0, before[..k]), before[k]) {
        assert before[..k] == schedule[..k];
        assert Enabled(Run(s0, schedule[..k]), schedule[k]);
      }
      WorkloadEnds(mem, threads, before);
      assert Enabled(Run(s0, schedule[..last]), schedule[last]);
      StepWork(Run(s0, before), schedule[last]);
    }
  }
}
