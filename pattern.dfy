/** What the guest's call trace means: the shape, timing and repetition of
    the SOS pattern, and the LED level it leaves the host in. */
module Pattern {
  import opened Blinky
  import opened Host
  import opened Guest

  /** The only delay lengths the guest ever asks for. */
  const DELAY_LENGTHS: set<uint32> := {100, 200, 400, 1000}

  /** The LED calls of `t`, in order, with the delays left out. */
  function Switches(t: seq<Event>): seq<Event>
    decreases |t|
  {
    if t == [] then [] else (if t[0].Delay? then [] else [t[0]]) + Switches(t[1..])
  }

  /** The milliseconds of delay in `t` spent with the LED high, starting
      from level `led`. */
  function LitTime(led: Level, t: seq<Event>): nat
    decreases |t|
  {
    if t == [] then 0
    else (if t[0].Delay? && led == High then t[0].ms as int else 0) + LitTime(Step(led, t[0]), t[1..])
  }

  /** Every `On` in `t` is followed by exactly one delay and then `Off`. */
  ghost predicate OnsClosed(t: seq<Event>) {
    forall i :: 0 <= i < |t| && t[i] == On ==> i + 2 < |t| && t[i + 1].Delay? && t[i + 2] == Off
  }

  /** Every delay in `t` has one of the four lengths. */
  ghost predicate DelaysKnown(t: seq<Event>) {
    forall e :: e in t && e.Delay? ==> e.ms in DELAY_LENGTHS
  }

  // ---------------------------------------------------------------------
  // The measures split over concatenation and repetition.
  // ---------------------------------------------------------------------

  lemma {:induction false} SwitchesAppend(a: seq<Event>, b: seq<Event>)
    ensures Switches(a + b) == Switches(a) + Switches(b)
    decreases |a|
  {
    if a == [] {
      assert a + b == b;
    } else {
      assert (a + b)[1..] == a[1..] + b;
      SwitchesAppend(a[1..], b);
    }
  }

  lemma {:induction false} LitTimeAppend(led: Level, a: seq<Event>, b: seq<Event>)
    ensures LitTime(led, a + b) == LitTime(led, a) + LitTime(LedAfter(led, a), b)
    decreases |a|
  {
    if a == [] {
      assert a + b == b;
    } else {
      assert (a + b)[1..] == a[1..] + b;
      LitTimeAppend(Step(led, a[0]), a[1..], b);
    }
  }

  lemma OnsClosedAppend(a: seq<Event>, b: seq<Event>)
    requires OnsClosed(a) && OnsClosed(b)
    ensures OnsClosed(a + b)
  {
    var t := a + b;
    forall i | 0 <= i < |t| && t[i] == On
      ensures i + 2 < |t| && t[i + 1].Delay? && t[i + 2] == Off
    {
      if i < |a| {
        assert a[i] == On;
      } else {
        assert b[i - |a|] == On;
      }
    }
  }

  lemma {:induction false} SwitchesRepeat(c: seq<Event>, n: nat)
    ensures Switches(Repeat(c, n)) == Repeat(Switches(c), n)
    decreases n
  {
    if n > 0 {
      SwitchesRepeat(c, n - 1);
      SwitchesAppend(Repeat(c, n - 1), c);
    }
  }

  lemma {:induction false} OnsClosedRepeat(c: seq<Event>, n: nat)
    requires OnsClosed(c)
    ensures OnsClosed(Repeat(c, n))
    decreases n
  {
    if n > 0 {
      OnsClosedRepeat(c, n - 1);
      OnsClosedAppend(Repeat(c, n - 1), c);
    }
  }

  lemma {:induction false} ElapsedRepeat(c: seq<Event>, n: nat)
    ensures Elapsed(Repeat(c, n)) == n * Elapsed(c)
    decreases n
  {
    if n > 0 {
      ElapsedRepeat(c, n - 1);
      ElapsedAppend(Repeat(c, n - 1), c);
    }
  }

  // ---------------------------------------------------------------------
  // One flash, and a letter of three flashes.
  // ---------------------------------------------------------------------

  /** Each measure of a trace that starts with `e`, in terms of the rest. */
  lemma Prefixed(led: Level, e: Event, t: seq<Event>)
    ensures LedAfter(led, [e] + t) == LedAfter(Step(led, e), t)
    ensures Elapsed([e] + t) == (if e.Delay? then e.ms as int else 0) + Elapsed(t)
    ensures LitTime(led, [e] + t) == (if e.Delay? && led == High then e.ms as int else 0) + LitTime(Step(led, e), t)
    ensures Switches([e] + t) == (if e.Delay? then [] else [e]) + Switches(t)
  {
    assert ([e] + t)[0] == e && ([e] + t)[1..] == t;
  }

  /** A flash switches the LED on then off, holds it high for `hold` ms
      and takes `hold + 100` ms, whatever the LED level before it. */
  lemma PulseEffect(led: Level, hold: uint32)
    ensures LedAfter(led, Pulse(hold)) == Low
    ensures Elapsed(Pulse(hold)) == hold as int + 100
    ensures LitTime(led, Pulse(hold)) == hold as int
    ensures Switches(Pulse(hold)) == [On, Off]
    ensures OnsClosed(Pulse(hold))
  {
    var t3 := [Delay(100)];
    var t2 := [Off] + t3;
    var t1 := [Delay(hold)] + t2;
    assert Pulse(hold) == [On] + t1;
    assert t3 == [Delay(100)] + [];
    Prefixed(led, On, t1);
    Prefixed(High, Delay(hold), t2);
    Prefixed(High, Off, t3);
    Prefixed(Low, Delay(100), []);
  }

  /** A block of calls that leaves the LED low from either level, and is
      lit for as long from either level, does the same `n` times over. */
  lemma {:induction false} BlocksEffect(led: Level, c: seq<Event>, n: nat)
    requires LedAfter(Low, c) == Low && LedAfter(High, c) == Low
    requires LitTime(Low, c) == LitTime(High, c)
    ensures LedAfter(led, Repeat(c, n)) == if n == 0 then led else Low
    ensures LitTime(led, Repeat(c, n)) == n * LitTime(Low, c)
    decreases n
  {
    if n > 0 {
      var prev := Repeat(c, n - 1);
      BlocksEffect(led, c, n - 1);
      LedAfterAppend(led, prev, c);
      LitTimeAppend(led, prev, c);
      assert n * LitTime(Low, c) == (n - 1) * LitTime(Low, c) + LitTime(Low, c);
    }
  }

  /** `n` flashes in a row take `n * (hold + 100)` ms, leave the LED low
      (unless there were none) and are lit for `n * hold` of them. */
  lemma PulsesEffect(led: Level, hold: uint32, n: nat)
    ensures LedAfter(led, Repeat(Pulse(hold), n)) == if n == 0 then led else Low
    ensures Elapsed(Repeat(Pulse(hold), n)) == n * (hold as int + 100)
    ensures LitTime(led, Repeat(Pulse(hold), n)) == n * hold as int
  {
    PulseEffect(Low, hold);
    PulseEffect(High, hold);
    BlocksEffect(led, Pulse(hold), n);
    ElapsedRepeat(Pulse(hold), n);
  }

  /** A delay leaves the LED alone, and counts as lit time only when lit. */
  lemma GapEffect(led: Level, ms: uint32)
    ensures LedAfter(led, [Delay(ms)]) == led
    ensures Elapsed([Delay(ms)]) == ms as int
    ensures LitTime(led, [Delay(ms)]) == if led == High then ms as int else 0
    ensures Switches([Delay(ms)]) == [] && OnsClosed([Delay(ms)])
  {
    assert [Delay(ms)] == [Delay(ms)] + [];
    Prefixed(led, Delay(ms), []);
  }

  // ---------------------------------------------------------------------
  // One `sos` cycle.
  // ---------------------------------------------------------------------

  /** One cycle is 39 calls. */
  lemma SosLength()
    ensures |SosCalls()| == 39
  {
    RepeatLength(DotCalls(), 3);
    RepeatLength(DashCalls(), 3);
  }

  /** Three letters of three flashes each (holds `h1`, `h2`, `h3`), each
      letter followed by a delay (`x`, `y`, `z`): the LED ends low, the
      delays add up letter by letter, and only the holds are lit. */
  lemma WordEffect(led: Level, h1: uint32, h2: uint32, h3: uint32, x: uint32, y: uint32, z: uint32)
    ensures var w := Repeat(Pulse(h1), 3) + [Delay(x)] + Repeat(Pulse(h2), 3) + [Delay(y)]
                     + Repeat(Pulse(h3), 3) + [Delay(z)];
      && LedAfter(led, w) == Low
      && Elapsed(w) == 3 * (h1 as int + 100) + x as int + 3 * (h2 as int + 100) + y as int
                       + 3 * (h3 as int + 100) + z as int
      && LitTime(led, w) == 3 * h1 as int + 3 * h2 as int + 3 * h3 as int
  {
    var s1 := Repeat(Pulse(h1), 3);
    var g1 := s1 + [Delay(x)];
    var o := g1 + Repeat(Pulse(h2), 3);
    var g2 := o + [Delay(y)];
    var s2 := g2 + Repeat(Pulse(h3), 3);
    var w := s2 + [Delay(z)];
    PulsesEffect(led, h1, 3);
    PulsesEffect(Low, h2, 3);
    PulsesEffect(Low, h3, 3);
    GapEffect(Low, x);
    GapEffect(Low, y);
    GapEffect(Low, z);
    assert LedAfter(led, g1) == Low && Elapsed(g1) == Elapsed(s1) + x as int
        && LitTime(led, g1) == LitTime(led, s1) by {
      LedAfterAppend(led, s1, [Delay(x)]);
      ElapsedAppend(s1, [Delay(x)]);
      LitTimeAppend(led, s1, [Delay(x)]);
    }
    assert LedAfter(led, o) == Low && Elapsed(o) == Elapsed(g1) + Elapsed(Repeat(Pulse(h2), 3))
        && LitTime(led, o) == LitTime(led, g1) + LitTime(Low, Repeat(Pulse(h2), 3)) by {
      LedAfterAppend(led, g1, Repeat(Pulse(h2), 3));
      ElapsedAppend(g1, Repeat(Pulse(h2), 3));
      LitTimeAppend(led, g1, Repeat(Pulse(h2), 3));
    }
    assert LedAfter(led, g2) == Low && Elapsed(g2) == Elapsed(o) + y as int
        && LitTime(led, g2) == LitTime(led, o) by {
      LedAfterAppend(led, o, [Delay(y)]);
      ElapsedAppend(o, [Delay(y)]);
      LitTimeAppend(led, o, [Delay(y)]);
    }
    assert LedAfter(led, s2) == Low && Elapsed(s2) == Elapsed(g2) + Elapsed(Repeat(Pulse(h3), 3))
        && LitTime(led, s2) == LitTime(led, g2) + LitTime(Low, Repeat(Pulse(h3), 3)) by {
      LedAfterAppend(led, g2, Repeat(Pulse(h3), 3));
      ElapsedAppend(g2, Repeat(Pulse(h3), 3));
      LitTimeAppend(led, g2, Repeat(Pulse(h3), 3));
    }
    assert LedAfter(led, w) == Low && Elapsed(w) == Elapsed(s2) + z as int
        && LitTime(led, w) == LitTime(led, s2) by {
      LedAfterAppend(led, s2, [Delay(z)]);
      ElapsedAppend(s2, [Delay(z)]);
      LitTimeAppend(led, s2, [Delay(z)]);
    }
  }

  /** One cycle drives the LED low again whatever its level before, takes
      4100 ms of delay (six 200 ms dots, three 500 ms dashes, two 200 ms
      letter gaps and the 1000 ms pause) and keeps the LED lit for 1800 ms
      of it (six 100 ms flashes and three 400 ms flashes). */
  lemma SosEffect(led: Level)
    ensures LedAfter(led, SosCalls()) == Low
    ensures Elapsed(SosCalls()) == 4100
    ensures LitTime(led, SosCalls()) == 1800
  {
    WordEffect(led, 100, 400, 100, 200, 200, 1000);
  }

  /** The LED calls of a letter of three flashes are `On, Off` three times. */
  lemma LetterSwitches(hold: uint32)
    ensures Switches(Repeat(Pulse(hold), 3)) == Repeat([On, Off], 3)
  {
    SwitchesRepeat(Pulse(hold), 3);
    PulseEffect(Low, hold);
  }

  /** The LED calls of three letters separated by delays are those of the
      letters. */
  lemma SwitchesOfWord(a: seq<Event>, b: seq<Event>, c: seq<Event>, x: uint32, y: uint32, z: uint32)
    ensures Switches(a + [Delay(x)] + b + [Delay(y)] + c + [Delay(z)]) == Switches(a) + Switches(b) + Switches(c)
  {
    var t1 := a + [Delay(x)];
    var t2 := t1 + b;
    var t3 := t2 + [Delay(y)];
    var t4 := t3 + c;
    assert Switches(t1) == Switches(a) by { GapEffect(Low, x); SwitchesAppend(a, [Delay(x)]); }
    assert Switches(t2) == Switches(a) + Switches(b) by { SwitchesAppend(t1, b); }
    assert Switches(t3) == Switches(t2) by { GapEffect(Low, y); SwitchesAppend(t2, [Delay(y)]); }
    assert Switches(t4) == Switches(a) + Switches(b) + Switches(c) by { SwitchesAppend(t3, c); }
    assert Switches(t4 + [Delay(z)]) == Switches(t4) by { GapEffect(Low, z); SwitchesAppend(t4, [Delay(z)]); }
  }

  /** The LED calls of one cycle are `On, Off` nine times over. */
  lemma SosSwitches()
    ensures Switches(SosCalls()) == Repeat([On, Off], 9)
  {
    var r := Repeat([On, Off], 3);
    assert Switches(SosCalls()) == r + r + r by {
      SwitchesOfWord(Repeat(DotCalls(), 3), Repeat(DashCalls(), 3), Repeat(DotCalls(), 3), 200, 200, 1000);
      LetterSwitches(100);
      LetterSwitches(400);
    }
    assert r + r + r == Repeat([On, Off], 9) by {
      RepeatAdd([On, Off], 3, 3);
      RepeatAdd([On, Off], 6, 3);
    }
  }

  /** Within one cycle the LED calls strictly alternate: there are 18 of
      them, `On` at every even position and `Off` at every odd one, so the
      first is `On`, the last is `Off`, and each occurs nine times. */
  lemma SosAlternates()
    ensures |Switches(SosCalls())| == 18
    ensures forall i :: 0 <= i < 18 ==> Switches(SosCalls())[i] == if i % 2 == 0 then On else Off
  {
    SosSwitches();
    RepeatLength([On, Off], 9);
    forall i | 0 <= i < 18
      ensures Switches(SosCalls())[i] == if i % 2 == 0 then On else Off
    {
      RepeatAt([On, Off], 9, i / 2, i % 2);
    }
  }

  /** In one cycle every `On` is followed by one delay and then `Off`. */
  lemma SosOnsClosed()
    ensures OnsClosed(SosCalls())
  {
    var s1 := Repeat(DotCalls(), 3);
    var g1 := s1 + [Delay(200)];
    var o := g1 + Repeat(DashCalls(), 3);
    var g2 := o + [Delay(200)];
    var s2 := g2 + Repeat(DotCalls(), 3);
    PulseEffect(Low, 100);
    PulseEffect(Low, 400);
    GapEffect(Low, 200);
    GapEffect(Low, 1000);
    OnsClosedRepeat(DotCalls(), 3);
    OnsClosedRepeat(DashCalls(), 3);
    OnsClosedAppend(s1, [Delay(200)]);
    OnsClosedAppend(g1, Repeat(DashCalls(), 3));
    OnsClosedAppend(o, [Delay(200)]);
    OnsClosedAppend(g2, Repeat(DotCalls(), 3));
    OnsClosedAppend(s2, [Delay(1000)]);
  }

  /** Every delay of one cycle is 100, 200, 400 or 1000 ms. */
  lemma SosDelays()
    ensures DelaysKnown(SosCalls())
  {
    forall e | e in SosCalls() && e.Delay?
      ensures e.ms in DELAY_LENGTHS
    {
      if e in Repeat(DotCalls(), 3) {
        RepeatMembers(DotCalls(), 3, e);
      } else if e in Repeat(DashCalls(), 3) {
        RepeatMembers(DashCalls(), 3, e);
      }
    }
  }

  // ---------------------------------------------------------------------
  // `run`: the cycle over and over.
  // ---------------------------------------------------------------------

  /** After `n` iterations the LED is low (if there was one), `4100 * n` ms
      of delay have been asked for and `1800 * n` of them were lit. */
  lemma RunEffect(led: Level, n: nat)
    ensures LedAfter(led, RunCalls(n)) == if n == 0 then led else Low
    ensures Elapsed(RunCalls(n)) == 4100 * n
    ensures LitTime(led, RunCalls(n)) == 1800 * n
  {
    SosEffect(Low);
    SosEffect(High);
    BlocksEffect(led, SosCalls(), n);
    ElapsedRepeat(SosCalls(), n);
  }

  /** Every iteration issues the same 39 calls: block `k` of the first `n`
      iterations is one `sos` cycle. */
  lemma RunCyclesIdentical(n: nat, k: nat)
    requires k < n
    ensures |RunCalls(n)| == 39 * n
    ensures RunCalls(n)[39 * k .. 39 * (k + 1)] == SosCalls()
  {
    SosLength();
    RepeatSlice(SosCalls(), n, k);
  }

  /** No iteration count ends the loop: each further iteration extends the
      calls issued so far by another full cycle, so the `n`-iteration trace
      is a proper prefix of the `n + 1`-iteration one. */
  lemma RunNeverSettles(n: nat)
    ensures RunCalls(n + 1) == RunCalls(n) + SosCalls()
    ensures RunCalls(n) < RunCalls(n + 1)
    ensures |RunCalls(n + 1)| == |RunCalls(n)| + 39
  {
    SosLength();
    assert RunCalls(n + 1)[..|RunCalls(n)|] == RunCalls(n);
  }
}
