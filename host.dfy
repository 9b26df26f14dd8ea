/** The host side of the firmware: the state its capability functions act on
    (one LED output line and an abstract monotonic clock that `delay`
    advances) and the single global cell that stands in for thread-local
    storage. */
module Host {
  import opened Blinky

  /** Rust's `u64`, the type `delay` widens its argument to. */
  newtype uint64 = x: int | 0 <= x < 0x1_0000_0000_0000_0000

  /** A raw pointer on the 32-bit target: an address, with 0 the null pointer. */
  newtype Address = x: int | 0 <= x < 0x1_0000_0000

  const NULL: Address := 0

  /** The two levels of the LED output line. */
  datatype Level = Low | High

  /** `ms as u64`. */
  function Widen(ms: uint32): uint64 {
    ms as uint64
  }

  /** `x as u32`: Rust keeps the low 32 bits. */
  function Truncate(x: uint64): uint32 {
    (x as int % 0x1_0000_0000) as uint32
  }

  /** Widening keeps the value: truncating it back gives the original, and
      the widened value still lies in the 32-bit range. */
  lemma WidenLossless(ms: uint32)
    ensures Truncate(Widen(ms)) == ms
    ensures Widen(ms) as int == ms as int < 0x1_0000_0000
  {
  }

  // ---------------------------------------------------------------------
  // What a trace of host calls does to the host state, as functions.
  // ---------------------------------------------------------------------

  /** The LED level after one host call. */
  function Step(led: Level, e: Event): Level {
    match e
    case On => High
    case Off => Low
    case Delay(_) => led
  }

  /** The LED level after the host has carried out every call of `t`. */
  function LedAfter(led: Level, t: seq<Event>): Level
    decreases |t|
  {
    if t == [] then led else LedAfter(Step(led, t[0]), t[1..])
  }

  /** The time the delays of `t` ask for, in milliseconds: the least the
      host clock advances while `t` is carried out. */
  function Elapsed(t: seq<Event>): nat
    decreases |t|
  {
    if t == [] then 0
    else (if t[0].Delay? then t[0].ms as int else 0) + Elapsed(t[1..])
  }

  /** Carrying out `a` then `b` leaves the LED where carrying out `a + b` does. */
  lemma {:induction false} LedAfterAppend(led: Level, a: seq<Event>, b: seq<Event>)
    ensures LedAfter(led, a + b) == LedAfter(LedAfter(led, a), b)
    decreases |a|
  {
    if a != [] {
      assert (a + b)[0] == a[0];
      assert (a + b)[1..] == a[1..] + b;
      LedAfterAppend(Step(led, a[0]), a[1..], b);
    } else {
      assert a + b == b;
    }
  }

  /** The delays of `a + b` add up to those of `a` plus those of `b`. */
  lemma {:induction false} ElapsedAppend(a: seq<Event>, b: seq<Event>)
    ensures Elapsed(a + b) == Elapsed(a) + Elapsed(b)
    decreases |a|
  {
    if a != [] {
      assert (a + b)[0] == a[0];
      assert (a + b)[1..] == a[1..] + b;
      ElapsedAppend(a[1..], b);
    } else {
      assert a + b == b;
    }
  }

  /** `on` drives the LED high and `off` drives it low whatever the level
      before, so each is idempotent; `delay` leaves the level alone. */
  lemma CallEffects(led: Level, ms: uint32)
    ensures LedAfter(led, [On]) == High && LedAfter(led, [On, On]) == LedAfter(led, [On])
    ensures LedAfter(led, [Off]) == Low && LedAfter(led, [Off, Off]) == LedAfter(led, [Off])
    ensures LedAfter(led, [Delay(ms)]) == led && Elapsed([Delay(ms)]) == ms as int
  {
  }

  // ---------------------------------------------------------------------
  // The host state the capability functions act on.
  // ---------------------------------------------------------------------

  /** `HostState`: the LED output and the clock `delay` blocks on. */
  class HostState {
    var led: Level
    /** Abstract monotonic time in milliseconds; only `Delay` moves it. */
    var clock: nat

    /** The state built at start-up: the LED pin is configured low. The
        clock's starting value is whatever the timer reads then. */
    constructor (now: nat)
      ensures led == Low && clock == now
    {
      led := Low;
      clock := now;
    }

    /** `on`: drive the LED high, whatever its level before. */
    method On()
      modifies this
      ensures led == High && clock == old(clock)
    {
      led := High;
    }

    /** `off`: drive the LED low, whatever its level before. */
    method Off()
      modifies this
      ensures led == Low && clock == old(clock)
    {
      led := Low;
    }

    /** `delay`: block for at least `ms` milliseconds, leaving the LED alone.
        The model's clock advances by exactly the widened duration. */
    method Delay(ms: uint32)
      modifies this
      ensures led == old(led) && clock >= old(clock) + ms as int
    {
      clock := clock + Widen(ms) as int;
    }
  }

  // ---------------------------------------------------------------------
  // The global cell behind `wasmtime_tls_get` / `wasmtime_tls_set`.
  // ---------------------------------------------------------------------

  /** `TLS_PTR`: one pointer-sized cell, used from a single thread. */
  class TlsSlot {
    var ptr: Address

    /** The cell's static initialiser: the null pointer. */
    constructor ()
      ensures ptr == NULL
    {
      ptr := NULL;
    }

    /** `wasmtime_tls_get`: the pointer last stored, changing nothing. */
    method Get() returns (p: Address)
      ensures p == ptr
    {
      p := ptr;
    }

    /** `wasmtime_tls_set`: store `p`, and nothing else. */
    method Set(p: Address)
      modifies this
      ensures ptr == p
    {
      ptr := p;
    }
  }
}
