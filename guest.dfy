/** The guest program: a Morse "SOS" blinker that drives the host only
    through the `on`, `off` and `delay` imports. The functions below give the
    calls each guest function must issue; the class `MyGuest` issues them one
    after another and is proved to issue exactly those. */
module Guest {
  import opened Blinky
  import opened Host

  // ---------------------------------------------------------------------
  // Repetition of a block of calls.
  // ---------------------------------------------------------------------

  /** `c` issued `n` times in a row. */
  function Repeat<T>(c: seq<T>, n: nat): seq<T>
    decreases n
  {
    if n == 0 then [] else Repeat(c, n - 1) + c
  }

  /** `n` repetitions of `c` are `n` times as long as `c`. */
  lemma {:induction false} RepeatLength<T>(c: seq<T>, n: nat)
    ensures |Repeat(c, n)| == n * |c|
    decreases n
  {
    if n > 0 {
      RepeatLength(c, n - 1);
    }
  }

  /** Repeating `a` times and then `b` times is repeating `a + b` times. */
  lemma {:induction false} RepeatAdd<T>(c: seq<T>, a: nat, b: nat)
    ensures Repeat(c, a) + Repeat(c, b) == Repeat(c, a + b)
    decreases b
  {
    if b > 0 {
      RepeatAdd(c, a, b - 1);
      assert Repeat(c, a) + Repeat(c, b) == (Repeat(c, a) + Repeat(c, b - 1)) + c;
    }
  }

  /** `k * m <= n * m` when `k <= n`. */
  lemma {:induction false} MulMonotone(k: nat, n: nat, m: nat)
    requires k <= n
    ensures k * m <= n * m
    decreases n - k
  {
    if k < n {
      MulMonotone(k + 1, n, m);
    }
  }

  /** Block `k` of `n` repetitions of `c` is `c` itself. */
  lemma {:induction false} RepeatSlice<T>(c: seq<T>, n: nat, k: nat)
    requires k < n
    ensures |Repeat(c, n)| == n * |c| && (k + 1) * |c| <= n * |c|
    ensures Repeat(c, n)[k * |c| .. (k + 1) * |c|] == c
    decreases n
  {
    var prev := Repeat(c, n - 1);
    assert Repeat(c, n) == prev + c;
    RepeatLength(c, n - 1);
    if k < n - 1 {
      RepeatSlice(c, n - 1, k);
      MulMonotone(k + 1, n - 1, |c|);
      assert (prev + c)[k * |c| .. (k + 1) * |c|] == prev[k * |c| .. (k + 1) * |c|];
    } else {
      assert k * |c| == |prev|;
      assert (prev + c)[|prev| ..] == c;
    }
  }

  /** Position `j` of block `k` of `n` repetitions of `c` is `c[j]`. */
  lemma RepeatAt<T>(c: seq<T>, n: nat, k: nat, j: nat)
    requires k < n && j < |c|
    ensures |Repeat(c, n)| == n * |c| && k * |c| + j < n * |c|
    ensures Repeat(c, n)[k * |c| + j] == c[j]
  {
    RepeatSlice(c, n, k);
    var block := Repeat(c, n)[k * |c| .. (k + 1) * |c|];
    assert block[j] == Repeat(c, n)[k * |c| + j];
  }

  /** Everything in a repetition of `c` occurs in `c`. */
  lemma {:induction false} RepeatMembers<T>(c: seq<T>, n: nat, x: T)
    requires x in Repeat(c, n)
    ensures x in c
    decreases n
  {
    if n > 0 && x !in c {
      assert x in Repeat(c, n - 1);
      RepeatMembers(c, n - 1, x);
    }
  }

  // ---------------------------------------------------------------------
  // The calls each guest function issues.
  // ---------------------------------------------------------------------

  /** One flash: LED on, hold `hold` ms, LED off, 100 ms gap. */
  function Pulse(hold: uint32): seq<Event> {
    [On, Delay(hold), Off, Delay(100)]
  }

  /** `dot`: a 100 ms flash. */
  function DotCalls(): seq<Event> {
    Pulse(100)
  }

  /** `dash`: a 400 ms flash. */
  function DashCalls(): seq<Event> {
    Pulse(400)
  }

  /** `sos`: "S", a 200 ms letter gap, "O", a 200 ms letter gap, "S", then a
      1000 ms pause before the word repeats. */
  function SosCalls(): seq<Event> {
    Repeat(DotCalls(), 3) + [Delay(200)]
      + Repeat(DashCalls(), 3) + [Delay(200)]
      + Repeat(DotCalls(), 3) + [Delay(1000)]
  }

  /** The first `n` iterations of `run`'s endless loop. */
  function RunCalls(n: nat): seq<Event> {
    Repeat(SosCalls(), n)
  }

  // ---------------------------------------------------------------------
  // The guest as it runs against the host.
  // ---------------------------------------------------------------------

  /** A running guest instance. `calls` records every host call it has
      issued, in order; `host` is the host state its imports are bound to. */
  class MyGuest {
    var calls: seq<Event>
    const host: HostState

    /** A freshly instantiated guest that has issued no call yet. */
    constructor (host: HostState)
      ensures calls == [] && this.host == host
    {
      calls := [];
      this.host := host;
    }

    /** The `host::on` import. */
    method CallOn()
      modifies this, host
      ensures calls == old(calls) + [On]
      ensures host.led == High && host.clock == old(host.clock)
    {
      host.On();
      calls := calls + [On];
    }

    /** The `host::off` import. */
    method CallOff()
      modifies this, host
      ensures calls == old(calls) + [Off]
      ensures host.led == Low && host.clock == old(host.clock)
    {
      host.Off();
      calls := calls + [Off];
    }

    /** The `host::delay` import. */
    method CallDelay(ms: uint32)
      modifies this, host
      ensures calls == old(calls) + [Delay(ms)]
      ensures host.led == old(host.led) && host.clock >= old(host.clock) + ms as int
    {
      host.Delay(ms);
      calls := calls + [Delay(ms)];
    }

    /** `dot`: the LED ends low and at least 200 ms have passed. */
    method Dot()
      modifies this, host
      ensures calls == old(calls) + DotCalls()
      ensures host.led == Low && host.clock >= old(host.clock) + 200
    {
      CallOn();
      CallDelay(100);
      CallOff();
      CallDelay(100);
    }

    /** `dash`: the LED ends low and at least 500 ms have passed. */
    method Dash()
      modifies this, host
      ensures calls == old(calls) + DashCalls()
      ensures host.led == Low && host.clock >= old(host.clock) + 500
    {
      CallOn();
      CallDelay(400);
      CallOff();
      CallDelay(100);
    }

    /** `sos`: three counted loops of dots and dashes between the gaps; the
        LED ends low and at least 4100 ms have passed. */
    method Sos()
      modifies this, host
      ensures calls == old(calls) + SosCalls()
      ensures host.led == Low && host.clock >= old(host.clock) + 4100
    {
      for i := 0 to 3
        invariant calls == old(calls) + Repeat(DotCalls(), i)
        invariant i > 0 ==> host.led == Low
        invariant host.clock >= old(host.clock) + 200 * i
      {
        Dot();
        RepeatStep(old(calls), DotCalls(), i);
      }
      CallDelay(200);
      ghost var s := Repeat(DotCalls(), 3) + [Delay(200)];
      Regroup(old(calls), Repeat(DotCalls(), 3), [Delay(200)], DashCalls());

      for i := 0 to 3
        invariant calls == old(calls) + s + Repeat(DashCalls(), i)
        invariant host.led == Low
        invariant host.clock >= old(host.clock) + 800 + 500 * i
      {
        Dash();
        RepeatStep(old(calls) + s, DashCalls(), i);
      }
      CallDelay(200);
      ghost var so := s + Repeat(DashCalls(), 3) + [Delay(200)];
      Regroup(old(calls), s + Repeat(DashCalls(), 3), [Delay(200)], DotCalls());
      Regroup(old(calls), s, Repeat(DashCalls(), 3), DotCalls());

      for i := 0 to 3
        invariant calls == old(calls) + so + Repeat(DotCalls(), i)
        invariant host.led == Low
        invariant host.clock >= old(host.clock) + 2500 + 200 * i
      {
        Dot();
        RepeatStep(old(calls) + so, DotCalls(), i);
      }
      CallDelay(1000);
      Regroup(old(calls), so, Repeat(DotCalls(), 3), DotCalls());
      Regroup(old(calls), so + Repeat(DotCalls(), 3), [Delay(1000)], DotCalls());
    }

    /** `run`'s endless `loop { sos() }`, cut off after `n` iterations: the
        calls are `n` copies of one `sos`, the LED is low after every
        completed iteration (unchanged if there was none) and at least 4100 ms pass per iteration. */
    method Run(n: nat)
      modifies this, host
      ensures calls == old(calls) + RunCalls(n)
      ensures host.led == if n == 0 then old(host.led) else Low
      ensures host.clock >= old(host.clock) + 4100 * n
    {
      for i := 0 to n
        invariant calls == old(calls) + RunCalls(i)
        invariant host.led == if i == 0 then old(host.led) else Low
        invariant host.clock >= old(host.clock) + 4100 * i
      {
        Sos();
        RepeatStep(old(calls), SosCalls(), i);
      }
    }
  }

  /** One more block after `n` blocks makes `n + 1` blocks. */
  lemma RepeatStep<T>(start: seq<T>, c: seq<T>, n: nat)
    ensures start + Repeat(c, n) + c == start + Repeat(c, n + 1)
  {
  }

  /** Regrouping a trace: `start + a + b` is `start` followed by `a + b`, and
      by no repetitions yet of whatever block comes next. */
  lemma Regroup<T>(start: seq<T>, a: seq<T>, b: seq<T>, next: seq<T>)
    ensures start + a + b == start + (a + b) == start + (a + b) + Repeat(next, 0)
  {
  }
}
