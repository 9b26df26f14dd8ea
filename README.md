# SOS blinker on an embedded WebAssembly host — Dafny model

The system is a firmware image for a Raspberry Pi Pico 2 that embeds a
WebAssembly runtime and runs one guest component. The guest exports `run`
and imports three host capabilities from the `wasi:blinky/blinky`
interface: `on`, `off` and `delay(ms: u32)`. The guest blinks Morse
"SOS" forever; the host drives one LED output line and blocks for the
requested time. The firmware also supplies the runtime's thread-local
storage hooks, backed by one global pointer cell.

The model has four modules:

- `Blinky` (`blinky.dfy`): the interface — `uint32` and the host call
  `Event = On | Off | Delay(ms)`.
- `Host` (`host.dfy`): the host. `HostState` is a class holding the LED
  level and an abstract millisecond clock that only `Delay` moves;
  `TlsSlot` is a class holding the global pointer cell. `LedAfter` and
  `Elapsed` say what a sequence of host calls does to the LED and how much
  delay it asks for.
- `Guest` (`guest.dfy`): the guest. `DotCalls`, `DashCalls`, `SosCalls`
  and `RunCalls(n)` are the call sequences each guest function must issue.
  The class `MyGuest` issues the calls one at a time against its
  `HostState`, using the same counted loops as the source. It records every
  call in `calls`, and each method is proved to issue exactly its sequence.
- `Pattern` (`pattern.dfy`): what the SOS sequence means. It proves the
  length, the alternation of LED calls, the shape of each flash, the delay
  lengths, the total and lit time, and that the loop repeats identical
  cycles.

## Model

| member | source | states |
|---|---|---|
| Host.WidenLossless | pico2-quick/src/main.rs:36-38 | widening the `u32` delay to `u64` loses nothing: truncating back gives the original, and the value stays below 2^32 |
| Host.CallEffects | pico2-quick/src/main.rs:28-38 | `on` leaves the LED high and `off` leaves it low whatever the level before, so each is idempotent; `delay` keeps the level and asks for exactly `ms` |
| Host.LedAfterAppend | pico2-quick/src/main.rs:27-39 | the host carrying out `a` then `b` leaves the LED where carrying out `a + b` does |
| Host.ElapsedAppend | pico2-quick/src/main.rs:36-38 | the delay asked for by `a + b` is the delay of `a` plus that of `b` |
| Host.HostState.constructor | pico2-quick/src/main.rs:85-86 | the host state starts with the LED low |
| Host.HostState.On | pico2-quick/src/main.rs:28-31 | the LED is high afterwards whatever it was, and the clock is unchanged |
| Host.HostState.Off | pico2-quick/src/main.rs:32-35 | the LED is low afterwards whatever it was, and the clock is unchanged |
| Host.HostState.Delay | pico2-quick/src/main.rs:36-38 | the LED is unchanged and the clock has advanced by at least `ms` |
| Host.TlsSlot.constructor | pico2-quick/src/main.rs:42 | the cell starts as the null pointer |
| Host.TlsSlot.Get | pico2-quick/src/main.rs:43-46 | returns the pointer currently stored and changes nothing |
| Host.TlsSlot.Set | pico2-quick/src/main.rs:47-52 | afterwards the cell holds exactly `p` |
| Guest.RepeatLength | guest/src/lib.rs:32-34 | `n` repetitions of a block are `n` times its length |
| Guest.RepeatAdd | guest/src/lib.rs:54-58 | `a` repetitions followed by `b` repetitions are `a + b` repetitions |
| Guest.RepeatSlice | guest/src/lib.rs:54-58 | block `k` of `n` repetitions is the repeated block itself |
| Guest.MyGuest.constructor | guest/src/lib.rs:13 | a new guest has issued no call and is bound to the given host state |
| Guest.MyGuest.CallOn | guest/src/lib.rs:17 | an `on` import call records `On` and leaves the host LED high, clock unchanged |
| Guest.MyGuest.CallOff | guest/src/lib.rs:19 | an `off` import call records `Off` and leaves the host LED low, clock unchanged |
| Guest.MyGuest.CallDelay | guest/src/lib.rs:18 | a `delay` import call records `Delay(ms)`, keeps the LED and advances the clock by at least `ms` |
| Guest.MyGuest.Dot | guest/src/lib.rs:16-21 | `dot` issues exactly on, 100 ms, off, 100 ms; the LED ends low and at least 200 ms pass |
| Guest.MyGuest.Dash | guest/src/lib.rs:23-28 | `dash` issues exactly on, 400 ms, off, 100 ms; the LED ends low and at least 500 ms pass |
| Guest.MyGuest.Sos | guest/src/lib.rs:30-50 | `sos` issues three dots, a 200 ms gap, three dashes, a 200 ms gap, three dots and a 1000 ms pause; the LED ends low and at least 4100 ms pass |
| Guest.MyGuest.Run | guest/src/lib.rs:54-58 | after `n` loop iterations the calls are `n` copies of one `sos` cycle, the LED is low (unchanged when `n = 0`) and at least `4100 * n` ms have passed |
| Pattern.PulseEffect | guest/src/lib.rs:16-28 | a flash ends with the LED low whatever the level before, takes `hold + 100` ms, is lit for `hold` ms, switches on then off and closes its `On` |
| Pattern.PulsesEffect | guest/src/lib.rs:32-46 | `n` flashes in a row take `n * (hold + 100)` ms, are lit `n * hold` ms and leave the LED low unless there were none |
| Pattern.BlocksEffect | guest/src/lib.rs:54-58 | a block that always ends with the LED low keeps doing so when repeated, and its lit time multiplies |
| Pattern.SosLength | guest/src/lib.rs:30-50 | one cycle is 39 host calls |
| Pattern.WordEffect | guest/src/lib.rs:30-50 | three letters of three flashes with a delay after each end with the LED low; total and lit time add up letter by letter |
| Pattern.SosEffect | guest/src/lib.rs:16-49 | one cycle ends with the LED low from either level, asks for 4100 ms of delay and is lit for 1800 ms of it |
| Pattern.SosSwitches | guest/src/lib.rs:16-46 | the LED calls of one cycle, delays left out, are `On, Off` nine times |
| Pattern.SosAlternates | guest/src/lib.rs:16-46 | one cycle has 18 LED calls, `On` at even and `Off` at odd positions: they alternate, start with `On`, end with `Off`, nine of each |
| Pattern.SosOnsClosed | guest/src/lib.rs:16-28 | in one cycle every `On` is followed by exactly one delay and then `Off` |
| Pattern.SosDelays | guest/src/lib.rs:18-49 | every delay of one cycle is 100, 200, 400 or 1000 ms |
| Pattern.RunEffect | guest/src/lib.rs:54-58 | after `n` iterations the LED is low if `n > 0`, `4100 * n` ms of delay were asked for and `1800 * n` of them were lit |
| Pattern.RunCyclesIdentical | guest/src/lib.rs:54-58 | `n` iterations are `39 * n` calls, and iteration `k` issues exactly one `sos` cycle |
| Pattern.RunNeverSettles | guest/src/lib.rs:54-58 | each further iteration appends one more full cycle, so the trace grows strictly and never settles |

## Left out

- The runtime configuration (pulley32 target, no signals-based traps, no guard pages or reservations, 32 KiB wasm stack) is not modelled: it only tunes the runtime.
- Heap initialisation (440 KiB) and the global allocator are not modelled: they are memory set-up for the runtime.
- The generated bindings, the linker, deserialising the precompiled component, instantiation and `call_run` are not modelled: the model's `MyGuest` is bound directly to its `HostState`, which stands for the store and linker wiring.
- Board initialisation, the GPIO pin number, `defmt` logging, the async executor and the panic handler are not modelled: they have no effect on the call sequence or the LED level.
- Real time is not modelled: the clock is an abstract count of milliseconds that only `delay` moves. Time spent in `on`, `off` and the guest's own code is ignored.
- Host.HostState.Delay: promises only that at least `ms` milliseconds pass, as a busy-wait does; the body advances the model clock by exactly `ms`.
- Host.HostState: the 64-bit hardware timer's wrap-around is not modelled; the clock is an unbounded natural number.
- Host.TlsSlot: `TLS_PTR` is an unsynchronised `static mut`; the model assumes one thread and does not model concurrent access or `unsafe` soundness.
- Guest.MyGuest.Run: the endless `loop` is modelled as its first `n` iterations, for every `n`; non-termination itself is stated by Pattern.RunNeverSettles.
