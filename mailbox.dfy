/** The hand-off between the message callbacks and the filter loop: a shared
    sample plus a "new" flag, written whole by a callback and read-and-cleared
    by the loop, each under its lock (so each operation here is atomic); and
    the loop's periodic wake-up deadline. */
module Mailbox {
  /** The contents of a mailbox as a value. */
  datatype Box<T> = Box(value: T, isNew: bool)

  /** A write stores the sample and marks it new. */
  function WriteBox<T>(b: Box<T>, v: T): (b': Box<T>)
    ensures b'.value == v && b'.isNew
  {
    Box(v, true)
  }

  /** A drain hands out the stored sample (fresh or stale) with its flag and
      leaves the sample stored and the flag cleared. */
  function DrainBox<T>(b: Box<T>): (r: (T, bool, Box<T>))
    ensures r.0 == b.value && r.1 == b.isNew
    ensures r.2.value == b.value && !r.2.isNew
  {
    (b.value, b.isNew, Box(b.value, false))
  }

  class SharedSample<T> {
    var value: T
    var isNew: bool

    function Contents(): (b: Box<T>)
      reads this
      ensures b.value == value && b.isNew == isNew
    {
      Box(value, isNew)
    }

    /** The value-initialised global: the given initial sample, not new. */
    constructor (init: T)
      ensures Contents() == Box(init, false)
    {
      value := init;
      isNew := false;
    }

    method Write(v: T)
      modifies this
      ensures Contents() == WriteBox(old(Contents()), v)
    {
      value := v;
      isNew := true;
    }

    method Drain() returns (v: T, wasNew: bool)
      modifies this
      ensures (v, wasNew, Contents()) == DrainBox(old(Contents()))
    {
      wasNew := isNew;
      v := value;
      isNew := false;
    }
  }

  // ------------------------------------------------------------ replaying

  /** What happens to a mailbox: a callback's write or a drain by the loop. */
  datatype Event<T> = Put(v: T) | Take

  /** The box after a sequence of events. */
  function Replay<T>(b: Box<T>, evs: seq<Event<T>>): Box<T>
    decreases |evs|
  {
    if |evs| == 0 then b
    else Replay(match evs[0] case Put(v) => WriteBox(b, v) case Take => DrainBox(b).2, evs[1..])
  }

  /** What each drain of the sequence returned, in order. */
  function Reads<T>(b: Box<T>, evs: seq<Event<T>>): seq<(T, bool)>
    decreases |evs|
  {
    if |evs| == 0 then []
    else match evs[0]
      case Put(v) => Reads(WriteBox(b, v), evs[1..])
      case Take => [(b.value, b.isNew)] + Reads(DrainBox(b).2, evs[1..])
  }

  /** The sample of the last write in evs, or init if there is none. */
  function LastPut<T>(init: T, evs: seq<Event<T>>): T
    decreases |evs|
  {
    if |evs| == 0 then init
    else if evs[|evs| - 1].Put? then evs[|evs| - 1].v
    else LastPut(init, evs[..|evs| - 1])
  }

  lemma {:induction false} ReplaySnoc<T>(b: Box<T>, evs: seq<Event<T>>, e: Event<T>)
    ensures Replay(b, evs + [e]) == match e case Put(v) => WriteBox(Replay(b, evs), v) case Take => DrainBox(Replay(b, evs)).2
    decreases |evs|
  {
    if |evs| == 0 {
      assert evs + [e] == [e];
    } else {
      assert (evs + [e])[0] == evs[0];
      assert (evs + [e])[1..] == evs[1..] + [e];
      ReplaySnoc(match evs[0] case Put(v) => WriteBox(b, v) case Take => DrainBox(b).2, evs[1..], e);
    }
  }

  /** Last write wins: the box holds the last sample written (the initial one
      if none was), and it is marked new exactly when the last event was a
      write (or, with no events, when it started new). Earlier writes are
      overwritten, never queued. */
  lemma {:induction false} ReplayState<T>(b: Box<T>, evs: seq<Event<T>>)
    ensures Replay(b, evs).value == LastPut(b.value, evs)
    ensures Replay(b, evs).isNew <==> if |evs| == 0 then b.isNew else evs[|evs| - 1].Put?
    decreases |evs|
  {
    if |evs| > 0 {
      var front := evs[..|evs| - 1];
      assert front + [evs[|evs| - 1]] == evs;
      ReplayState(b, front);
      ReplaySnoc(b, front, evs[|evs| - 1]);
    }
  }

  /** A drain returns the last sample written before it, or the initial one,
      and reports it new exactly when the event just before it was a write:
      only a drain clears the flag. */
  lemma DrainReturnsLastWrite<T>(b: Box<T>, evs: seq<Event<T>>)
    requires |evs| >= 1 && evs[|evs| - 1].Take?
    ensures var rs := Reads(b, evs);
      var before := evs[..|evs| - 1];
      |rs| >= 1 && rs[|rs| - 1].0 == LastPut(b.value, before) &&
      (rs[|rs| - 1].1 <==> if |before| == 0 then b.isNew else before[|before| - 1].Put?)
  {
    ReadsLength(b, evs);
    ReplayState(b, evs[..|evs| - 1]);
  }

  /** Two writes and a drain: the drain returns the second sample, as new;
      a second drain returns the same sample, no longer new. */
  lemma TwoWritesThenDrains<T>(b: Box<T>, v1: T, v2: T)
    ensures Reads(b, [Put(v1), Put(v2), Take, Take]) == [(v2, true), (v2, false)]
  {
    var evs: seq<Event<T>> := [Put(v1), Put(v2), Take, Take];
    var b2 := Box(v2, true);
    var b3 := Box(v2, false);
    assert evs[1..][1..][1..][1..] == [];
    assert Reads(b3, [Take]) == [(v2, false)] + Reads(b3, []);
    assert evs[1..][1..] == [Take, Take];
    assert Reads(b2, [Take, Take]) == [(v2, true)] + Reads(b3, [Take]);
    assert evs[1..] == [Put(v2), Take, Take];
    assert Reads(WriteBox(b, v1), [Put(v2), Take, Take]) == Reads(b2, [Take, Take]);
  }

  /** There are no torn reads: every sample a drain returns is the initial
      one or one that was written whole. */
  lemma {:induction false} ReadsAreWritten<T>(b: Box<T>, evs: seq<Event<T>>, k: nat)
    requires k < |Reads(b, evs)|
    ensures Reads(b, evs)[k].0 == b.value || exists i :: 0 <= i < |evs| && evs[i] == Put(Reads(b, evs)[k].0)
    decreases |evs|
  {
    var r := Reads(b, evs)[k].0;
    match evs[0]
    case Put(v) =>
      var b' := WriteBox(b, v);
      ReadsAreWritten(b', evs[1..], k);
      if r == b'.value {
        assert evs[0] == Put(r);
      } else {
        var i :| 0 <= i < |evs[1..]| && evs[1..][i] == Put(r);
        assert evs[i + 1] == Put(r);
      }
    case Take =>
      if k > 0 {
        var b' := DrainBox(b).2;
        assert Reads(b, evs)[k] == Reads(b', evs[1..])[k - 1];
        ReadsAreWritten(b', evs[1..], k - 1);
        if r != b'.value {
          var i :| 0 <= i < |evs[1..]| && evs[1..][i] == Put(r);
          assert evs[i + 1] == Put(r);
        }
      }
  }

  lemma {:induction false} ReadsLength<T>(b: Box<T>, evs: seq<Event<T>>)
    requires |evs| >= 1 && evs[|evs| - 1].Take?
    ensures |Reads(b, evs)| >= 1
    ensures Reads(b, evs)[|Reads(b, evs)| - 1] == (Replay(b, evs[..|evs| - 1]).value, Replay(b, evs[..|evs| - 1]).isNew)
    decreases |evs|
  {
    if |evs| == 1 {
      assert evs[0].Take?;
      assert evs[..0] == [];
    } else {
      var rest := evs[1..];
      assert rest[|rest| - 1] == evs[|evs| - 1];
      var b' := match evs[0] case Put(v) => WriteBox(b, v) case Take => DrainBox(b).2;
      ReadsLength(b', rest);
      assert evs[..|evs| - 1][1..] == rest[..|rest| - 1];
      assert evs[..|evs| - 1][0] == evs[0];
    }
  }

  // ------------------------------------------------------------ wake-up times

  /** The loop's next wake-up time: advanced by the period before each
      iteration's work, from the previous target and not from the clock, so
      time spent working never shifts the schedule. */
  class WakeTimer {
    const start: int
    const period: nat
    var target: int
    ghost var iterations: nat

    ghost predicate Valid()
      reads this
    {
      target == start + iterations * period
    }

    constructor (now: int, period: nat)
      ensures Valid() && start == now && this.period == period && iterations == 0
    {
      start := now;
      this.period := period;
      target := now;
      iterations := 0;
    }

    /** One iteration's advance; when the work ended is irrelevant. */
    method Advance()
      requires Valid()
      modifies this
      ensures Valid() && iterations == old(iterations) + 1
      ensures target == old(target) + period
    {
      target := target + period;
      iterations := iterations + 1;
    }
  }
}
