/**
 The mapped segment with its semaphores, and write and read as one caller runs them undisturbed. A call
 that would block reports it and changes nothing. UndisturbedWrite and UndisturbedRead tie the methods to the
 interleaved steps of ShmSpec.
 */
module ShmSegment {
  import opened Common
  import opened ShmSpec

  /** What an undisturbed write leaves. */
  function Written(shm: Shared, buf: seq<Byte>): Shared
    requires |buf| <= |shm.mem| && shm.semWrite > 0
  {
    Shared(Overlay(shm.mem, buf), shm.semRead + 1, shm.semWrite - 1)
  }

  /** What an undisturbed read leaves. */
  function Emptied(shm: Shared): Shared
    requires shm.semRead > 0
  {
    shm.(semRead := shm.semRead - 1, semWrite := shm.semWrite + 1)
  }

  class Segment {
    const mem: array<Byte>
    var semRead: nat
    var semWrite: nat

    ghost function View(): Shared
      reads this, mem
    {
      Shared(mem[..], semRead, semWrite)
    }

    constructor (bufsize: nat)
      ensures fresh(mem) && mem.Length == bufsize
      ensures forall threads :: Start(mem[..], threads).shm == View()
    {
      mem := new Byte[bufsize](_ => 0);
      semRead, semWrite := 0, 0;
      new;
      semWrite := semWrite + 1;
    }

    /** memcpy to the segment */
    method CopyIn(buf: seq<Byte>)
      requires |buf| <= mem.Length
      modifies mem
      ensures mem[..] == Overlay(old(mem[..]), buf)
    {
      var i := 0;
      while i < |buf|
        invariant 0 <= i <= |buf|
        invariant forall k :: 0 <= k < i ==> mem[k] == buf[k]
        invariant forall k :: i <= k < mem.Length ==> mem[k] == old(mem[k])
      {
        mem[i] := buf[i];
        i := i + 1;
      }
    }

    /** memcpy from the segment */
    method CopyOut(buf: array<Byte>, len: nat)
      requires len <= mem.Length && len <= buf.Length && buf != mem
      modifies buf
      ensures buf[..] == mem[..len] + old(buf[len..])
    {
      var i := 0;
      while i < len
        invariant 0 <= i <= len
        invariant forall k :: 0 <= k < i ==> buf[k] == mem[k]
        invariant forall k :: i <= k < buf.Length ==> buf[k] == old(buf[k])
      {
        buf[i] := mem[i];
        i := i + 1;
      }
    }

    /** write(buf, len); write() is the call with no bytes. */
    method Write(buf: seq<Byte>) returns (passed: bool)
      requires |buf| <= mem.Length
      modifies this, mem
      ensures passed == (old(semWrite) > 0)
      ensures View() == if passed then Written(old(View()), buf) else old(View())
    {
      passed := semWrite > 0;
      if passed {
        semWrite := semWrite - 1;
        CopyIn(buf);
        semRead := semRead + 1;
      }
    }

    /** read(buf, len) */
    method Read(buf: array<Byte>, len: nat) returns (passed: bool)
      requires len <= mem.Length && len <= buf.Length && buf != mem
      modifies this, buf
      ensures passed == (old(semRead) > 0)
      ensures View() == if passed then Emptied(old(View())) else old(View())
      ensures buf[..] == if passed then mem[..len] + old(buf[len..]) else old(buf[..])
    {
      passed := semRead > 0;
      if passed {
        semRead := semRead - 1;
        CopyOut(buf, len);
        semWrite := semWrite + 1;
      }
    }
  }

  /** A writer that runs undisturbed performs exactly Write. */
  lemma UndisturbedWrite(s: State, t: nat)
    requires Safe(s) && Enabled(s, t) && s.threads[t].Writer? && !Inside(s.threads[t])
    ensures var msgs := s.threads[t].msgs;
      |msgs[0]| <= |s.shm.mem|
      && Run(s, seq(|msgs[0]| + 2, _ => t))
         == State(Written(s.shm, msgs[0]), s.threads[t := Writer(msgs[1..], None)],
                  s.written + [Entry(t, msgs[0])], s.delivered)
  {
    assert Fits(s.threads[t], |s.shm.mem|);
    var msgs := s.threads[t].msgs;
    var n := |msgs[0]|;
    Copying(s, t, n);
    assert msgs[0][..n] == msgs[0];
    var all := seq(n + 2, _ => t);
    assert all[..n + 1] == seq(n + 1, _ => t);
    var copied := s.(shm := Shared(Overlay(s.shm.mem, msgs[0]), s.shm.semRead, s.shm.semWrite - 1),
                     threads := s.threads[t := s.threads[t].(at := Some(n))]);
    assert Run(s, all) == Step(copied, t) by { assert all[|all| - 1] == t; }
    Replaced(s.threads, t, s.threads[t].(at := Some(n)), Writer(msgs[1..], None));
  }

  lemma Replaced(threads: seq<Thread>, t: nat, x: Thread, y: Thread)
    requires t < |threads|
    ensures threads[t := x][t := y] == threads[t := y]
  {
  }

  lemma {:induction false} Copying(s: State, t: nat, i: nat)
    requires Safe(s) && Enabled(s, t) && s.threads[t].Writer? && !Inside(s.threads[t])
    requires i <= |s.threads[t].msgs[0]| <= |s.shm.mem|
    ensures var w := s.threads[t];
      Run(s, seq(i + 1, _ => t))
      == s.(shm := Shared(Overlay(s.shm.mem, w.msgs[0][..i]), s.shm.semRead, s.shm.semWrite - 1),
            threads := s.threads[t := w.(at := Some(i))])
  {
    var w := s.threads[t];
    var all := seq(i + 1, _ => t);
    assert all[..i] == seq(i, _ => t);
    assert Run(s, all) == Step(Run(s, all[..i]), t);
    if i == 0 {
      assert Run(s, all[..0]) == s;
      assert Overlay(s.shm.mem, w.msgs[0][..0]) == s.shm.mem;
    } else {
      Copying(s, t, i - 1);
      assert w.msgs[0][..i] == w.msgs[0][..i - 1] + [w.msgs[0][i - 1]];
      assert Overlay(s.shm.mem, w.msgs[0][..i - 1])[i - 1 := w.msgs[0][i - 1]] == Overlay(s.shm.mem, w.msgs[0][..i]);
      assert s.threads[t := w.(at := Some(i - 1))][t := w.(at := Some(i))] == s.threads[t := w.(at := Some(i))];
    }
  }

  /** A reader that runs undisturbed performs exactly Read. */
  lemma UndisturbedRead(s: State, t: nat)
    requires Safe(s) && Enabled(s, t) && s.threads[t].Reader? && !Inside(s.threads[t])
    ensures var lens := s.threads[t].lens;
      lens[0] <= |s.shm.mem|
      && Run(s, seq(lens[0] + 2, _ => t))
         == State(Emptied(s.shm), s.threads[t := Reader(lens[1..], None)],
                  s.written, s.delivered + [Entry(t, s.shm.mem[..lens[0]])])
  {
    assert Fits(s.threads[t], |s.shm.mem|);
    var lens := s.threads[t].lens;
    var n := lens[0];
    Fetching(s, t, n);
    var all := seq(n + 2, _ => t);
    assert all[..n + 1] == seq(n + 1, _ => t);
    var fetched := s.(shm := s.shm.(semRead := s.shm.semRead - 1),
                      threads := s.threads[t := s.threads[t].(got := Some(s.shm.mem[..n]))]);
    assert Run(s, all) == Step(fetched, t) by { assert all[|all| - 1] == t; }
    Replaced(s.threads, t, s.threads[t].(got := Some(s.shm.mem[..n])), Reader(lens[1..], None));
  }

  lemma {:induction false} Fetching(s: State, t: nat, i: nat)
    requires Safe(s) && Enabled(s, t) && s.threads[t].Reader? && !Inside(s.threads[t])
    requires i <= s.threads[t].lens[0] <= |s.shm.mem|
    ensures Run(s, seq(i + 1, _ => t))
            == s.(shm := s.shm.(semRead := s.shm.semRead - 1),
                  threads := s.threads[t := s.threads[t].(got := Some(s.shm.mem[..i]))])
  {
    var r := s.threads[t];
    var all := seq(i + 1, _ => t);
    assert all[..i] == seq(i, _ => t);
    assert Run(s, all) == Step(Run(s, all[..i]), t);
    if i == 0 {
      assert Run(s, all[..0]) == s;
      assert s.shm.mem[..0] == [];
    } else {
      Fetching(s, t, i - 1);
      assert s.shm.mem[..i] == s.shm.mem[..i - 1] + [s.shm.mem[i - 1]];
      assert s.threads[t := r.(got := Some(s.shm.mem[..i - 1]))][t := r.(got := Some(s.shm.mem[..i]))]
             == s.threads[t := r.(got := Some(s.shm.mem[..i]))];
    }
  }
}
