/**
 The single-slot shared memory of src/utils/shm.cpp: two semaphores, one buffer, any number of writing
 and reading threads of the server and its clients. sem_wait, every byte of memcpy and sem_post are
 separate steps of a thread, and any thread may run next.
 */
module ShmSpec {
  import opened Common

  type Byte = b: int | 0 <= b < 256

  datatype Shared = Shared(mem: seq<Byte>, semRead: nat, semWrite: nat)

  /**
   What a thread still has to do. A writer is inside once it has passed sem_wait, with `at` bytes
   copied; a reader likewise, with the bytes it has got. write() without a buffer writes no bytes.
   read() asks for the whole buffer, read(buf, len) for its first len bytes.
   */
  datatype Thread =
    | Writer(msgs: seq<seq<Byte>>, at: Option<nat>)
    | Reader(lens: seq<nat>, got: Option<seq<Byte>>)

  /** A completed write or read of thread `who`. */
  datatype Entry = Entry(who: nat, bytes: seq<Byte>)

  datatype State = State(shm: Shared, threads: seq<Thread>, written: seq<Entry>, delivered: seq<Entry>)

  /** How many accesses a thread has left. */
  function Pending(t: Thread): nat {
    if t.Writer? then |t.msgs| else |t.lens|
  }

  predicate Inside(t: Thread) {
    if t.Writer? then t.at.Some? else t.got.Some?
  }

  /** No access goes past the buffer. */
  predicate Fits(t: Thread, size: nat) {
    match t
    case Writer(msgs, at) =>
      (forall i :: 0 <= i < |msgs| ==> |msgs[i]| <= size) && (at.Some? ==> msgs != [] && at.value <= |msgs[0]|)
    case Reader(lens, got) =>
      (forall i :: 0 <= i < |lens| ==> lens[i] <= size) && (got.Some? ==> lens != [] && |got.value| <= lens[0])
  }

  predicate AllFit(threads: seq<Thread>, size: nat) {
    forall t :: 0 <= t < |threads| ==> Fits(threads[t], size)
  }

  /** The threads of a workload before their first step. */
  predicate Fresh(threads: seq<Thread>, size: nat) {
    AllFit(threads, size) && forall t :: 0 <= t < |threads| ==> !Inside(threads[t])
  }

  /** The semaphores as the SHMServer constructor leaves them. */
  function Start(mem: seq<Byte>, threads: seq<Thread>): State {
    State(Shared(mem, 0, 1), threads, [], [])
  }

  /** A thread with nothing left to do, or waiting on a semaphore that is zero, cannot move. */
  predicate Enabled(s: State, t: nat) {
    && t < |s.threads| && Pending(s.threads[t]) > 0
    && (Inside(s.threads[t]) || if s.threads[t].Writer? then s.shm.semWrite > 0 else s.shm.semRead > 0)
  }

  predicate Safe(s: State) {
    AllFit(s.threads, |s.shm.mem|)
  }

  function WriterStep(s: State, t: nat): State
    requires Safe(s) && Enabled(s, t) && s.threads[t].Writer?
  {
    var w := s.threads[t];
    match w.at
    case None =>
      s.(shm := s.shm.(semWrite := s.shm.semWrite - 1), threads := s.threads[t := w.(at := Some(0))])
    case Some(i) =>
      if i < |w.msgs[0]| then
        s.(shm := s.shm.(mem := s.shm.mem[i := w.msgs[0][i]]), threads := s.threads[t := w.(at := Some(i + 1))])
      else
        s.(shm := s.shm.(semRead := s.shm.semRead + 1), threads := s.threads[t := Writer(w.msgs[1..], None)],
           written := s.written + [Entry(t, w.msgs[0])])
  }

  function ReaderStep(s: State, t: nat): State
    requires Safe(s) && Enabled(s, t) && s.threads[t].Reader?
  {
    var r := s.threads[t];
    match r.got
    case None =>
      s.(shm := s.shm.(semRead := s.shm.semRead - 1), threads := s.threads[t := r.(got := Some([]))])
    case Some(got) =>
      if |got| < r.lens[0] then
        s.(threads := s.threads[t := r.(got := Some(got + [s.shm.mem[|got|]]))])
      else
        s.(shm := s.shm.(semWrite := s.shm.semWrite + 1), threads := s.threads[t := Reader(r.lens[1..], None)],
           delivered := s.delivered + [Entry(t, got)])
  }

  /** One step of thread t; nothing happens when it cannot move. */
  function Step(s: State, t: nat): (s': State)
    requires Safe(s)
    ensures Safe(s') && |s'.shm.mem| == |s.shm.mem| && |s'.threads| == |s.threads|
  {
    if !Enabled(s, t) then s
    else if s.threads[t].Writer? then WriterStep(s, t) else ReaderStep(s, t)
  }

  /** The state after the threads ran in the order of the schedule. */
  function Run(s: State, schedule: seq<nat>): (s': State)
    requires Safe(s)
    ensures Safe(s') && |s'.shm.mem| == |s.shm.mem| && |s'.threads| == |s.threads|
  {
    if schedule == [] then s
    else Step(Run(s, schedule[..|schedule| - 1]), schedule[|schedule| - 1])
  }

  /** memcpy of buf to the start of mem. */
  function Overlay(mem: seq<Byte>, buf: seq<Byte>): (r: seq<Byte>)
    requires |buf| <= |mem|
    ensures |r| == |mem|
  {
    buf + mem[|buf|..]
  }

  predicate LogFits(log: seq<Entry>, size: nat) {
    forall k :: 0 <= k < |log| ==> |log[k].bytes| <= size
  }

  /** The messages of a log laid over mem one after the other. */
  function Overlaid(mem: seq<Byte>, log: seq<Entry>): (r: seq<Byte>)
    requires LogFits(log, |mem|)
    ensures |r| == |mem|
  {
    if log == [] then mem else Overlay(Overlaid(mem, log[..|log| - 1]), log[|log| - 1].bytes)
  }

  /** What thread t did, in order. */
  function Of(log: seq<Entry>, t: nat): seq<seq<Byte>> {
    if log == [] then []
    else
      var last := log[|log| - 1];
      Of(log[..|log| - 1], t) + if last.who == t then [last.bytes] else []
  }

  function Lengths(bufs: seq<seq<Byte>>): (r: seq<nat>)
    ensures |r| == |bufs| && forall k :: 0 <= k < |r| ==> r[k] == |bufs[k]|
  {
    seq(|bufs|, k requires 0 <= k < |bufs| => |bufs[k]|)
  }
}
