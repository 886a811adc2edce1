# Nios II interrupt demo: dispatcher and ISRs

This project models the interrupt core of a bare-metal demo for a Nios II
soft processor on a DE1-SoC board, `debug/general_IRH_debugger.c`.

`main` does five things, then idles:
- it programs the interval timer's period as two 16-bit halves;
- it starts the timer in continuous mode with its interrupt enabled;
- it enables the interrupts of pushbuttons KEY0 and KEY1;
- it admits interrupt levels 0 and 1 in IENABLE;
- it turns interrupts on in STATUS.

From then on, each hardware interrupt enters the exception vector. The
vector calls `interrupt_handler`, which reads `ipending` and works bit by bit:
- bit 0 runs the interval-timer ISR;
- bit 1 runs the pushbutton ISR;
- all other bits are ignored.

The timer ISR acknowledges the timer, then counts and prints one more elapsed
second. The pushbutton ISR reads the edge-capture register and writes the same
value back to clear it. Then KEY0 replaces `pattern` with the switch value, and
KEY1 flips the low bit of `shift_dir`.

How the model is built:
- `Registers`: a register is a name and every value is a 32-bit word (`bv32`).
  Each register read, each register write and each printed tick is appended
  to one trace of `Event`s. The trace makes "acknowledge first" and "write back
  what was read" visible.
- `Handlers`: the dispatcher and both ISRs as functions. Each takes the globals
  `pattern`, `shift_dir`, `shift_enable` and `timeElapsed` and returns the new
  globals and the trace. The per-call properties are proved here.
- `Startup`: `main`'s constants, the period split and the set-up writes.
- `Lifetime`: a run is a sequence of trap entries, each one call of
  `interrupt_handler`. The properties over many interrupts are proved here:
  ticks, acknowledgements, direction parity and the last switch load.
- `Board`: the program in its own imperative form. Class `Machine` holds the
  globals as fields and appends each access to `bus`. Each of its methods is
  proved to match the corresponding function in `Handlers` or `Startup`.

Values the hardware supplies are method parameters:
- `ipending`;
- the edge-capture value;
- the switch value.

The file's header comment (`general_IRH_debugger.c`:59-61) and the comment
above `interval_timer_ISR` (lines 222-223) describe a pattern rotation and an
LED write in the timer ISR, switched by `shift_enable` in the commented-out
block (lines 230-246). That block is never compiled, so the model's timer ISR
only acknowledges, counts and reports. `shift_enable` is never changed, and
`RunKeepsShiftEnable` proves this.

## Model

| member | source | states |
|---|---|---|
| `Handlers.Initial` | debug/general_IRH_debugger.c:43-53 | the globals start with `pattern` 0x0000000F (the low four LEDs lit), `timeElapsed` 0, and `shift_dir` and `shift_enable` as the compiler initialises them |
| `Handlers.ToggleLowBit` | debug/general_IRH_debugger.c:262-263 | `shift_dir ^ 1` changes bit 0 and leaves bits 1 to 31 as they were |
| `Handlers.ToggleLowBitTwice` | debug/general_IRH_debugger.c:263 | toggling twice gives back the original value; toggling once always changes it |
| `Handlers.IntervalTimerIsr` | debug/general_IRH_debugger.c:225-250 | its first action writes 0 to the timer status register; `timeElapsed` goes up by exactly 1; the value reported is the new count; `pattern`, `shift_dir` and `shift_enable` are unchanged |
| `Handlers.TimerIsrWrites` | debug/general_IRH_debugger.c:229 | the timer ISR writes exactly once, the value 0, to the timer status register, and writes no other register |
| `Handlers.TimerIsrReports` | debug/general_IRH_debugger.c:247 | the timer ISR reports exactly one tick, carrying the incremented count |
| `Handlers.PushbuttonIsr` | debug/general_IRH_debugger.c:252-266 | it first reads the edge-capture register, then writes the same value back; if KEY0 is set `pattern` becomes the switch value, whatever it was, otherwise it is kept; if KEY1 is set `shift_dir` is toggled, otherwise kept; `timeElapsed` and `shift_enable` are unchanged; the switches are read exactly when KEY0 is set |
| `Handlers.PushbuttonIsrWrites` | debug/general_IRH_debugger.c:257-258 | the only register the pushbutton ISR writes is edge capture, exactly once, with the value it read |
| `Handlers.PushbuttonIsrReportsNothing` | debug/general_IRH_debugger.c:252-266 | the pushbutton ISR prints no tick |
| `Handlers.PushbuttonKey1TwiceRestoresDirection` | debug/general_IRH_debugger.c:262-263 | two pushbutton interrupts that both capture KEY1 leave `shift_dir` as it was, whatever else they capture |
| `Handlers.DispatchTimerIffBit0` | debug/general_IRH_debugger.c:207-210 | the timer is acknowledged exactly once when bit 0 of `ipending` is set, and not at all otherwise; the same bit decides whether `timeElapsed` goes up by 1 and one tick is reported |
| `Handlers.DispatchPushbuttonIffBit1` | debug/general_IRH_debugger.c:211-214 | the edge capture is cleared exactly once, with the captured value, when bit 1 is set, and never otherwise; with bit 1 set, `pattern` and `shift_dir` follow KEY0 and KEY1; without it, both are unchanged; `shift_enable` is never changed |
| `Handlers.DispatchDirection` | debug/general_IRH_debugger.c:211-214 | one dispatch toggles `shift_dir` exactly when level 1 is pending and KEY1 was captured |
| `Handlers.DispatchBothTimerFirst` | debug/general_IRH_debugger.c:205-214 | with both bits set, the dispatch is the `ipending` read, then the whole timer ISR, then the whole pushbutton ISR run on the state the timer ISR left |
| `Handlers.DispatchIgnoresUnknownLevels` | debug/general_IRH_debugger.c:207-216 | a mask with neither bit 0 nor bit 1 set changes no global, and the only action is reading `ipending` |
| `Handlers.DispatchIgnoresHigherBits` | debug/general_IRH_debugger.c:207-216 | bits 2 to 31 of `ipending` change neither the resulting globals nor anything after the `ipending` read |
| `Handlers.IsrsCommuteOnState` | debug/general_IRH_debugger.c:247-263 | the two ISRs touch disjoint globals, so running them in either order leaves the same state |
| `Handlers.InterruptHandler` | debug/general_IRH_debugger.c:203-217 | the dispatcher's first action is reading `ipending`; `timeElapsed` goes up by 1 exactly when bit 0 is set; `shift_enable` is unchanged; its full behaviour is fixed by `Handlers.DispatchTraceParts`, `Handlers.DispatchWrites` and `Handlers.DispatchReports` below |
| `Handlers.DispatchTraceParts` | debug/general_IRH_debugger.c:203-217 | a dispatch's trace is the `ipending` read, then the timer ISR's trace if bit 0 is set, then the pushbutton ISR's trace if bit 1 is set |
| `Handlers.DispatchWrites` | debug/general_IRH_debugger.c:203-217 | what one dispatch writes, register by register: 0 to the timer status if bit 0 is set, the captured value to edge capture if bit 1 is set, nothing else |
| `Handlers.DispatchReports` | debug/general_IRH_debugger.c:203-217 | one dispatch reports the next tick if bit 0 is set, and nothing otherwise |
| `Startup.PeriodLow` | debug/general_IRH_debugger.c:75 | the low half is below 2^16 and agrees with the period in the low 16 bits |
| `Startup.PeriodHigh` | debug/general_IRH_debugger.c:76 | the high half is below 2^16 and equals the period shifted right by 16 bits, so the mask removes nothing |
| `Startup.PeriodHalvesRecombine` | debug/general_IRH_debugger.c:74-76 | for every 32-bit period, both `hi * 0x10000 + lo` and the bitwise OR of `hi << 16` with `lo` give back the period |
| `Startup.StartTrace` | debug/general_IRH_debugger.c:74-85 | set-up performs six register writes and nothing else (no read, no report), and writes no register twice |
| `Startup.StartProgramsPeriodFirst` | debug/general_IRH_debugger.c:74-85 | `main` writes 0xE100 to period-low and 0x05F5 to period-high, and these recombine to 100000000 as integers; it then writes control word 0x7; it writes 0x3, once each, to the pushbutton interrupt mask and to IENABLE; and its last write sets STATUS to 1 |
| `Startup.NoPeriodWritesAfterTwo` | debug/general_IRH_debugger.c:78-85 | after the two period writes, `main` does not write the period registers again |
| `Startup.StartReportsNothing` | debug/general_IRH_debugger.c:73-85 | set-up prints no tick |
| `Startup.IenableAdmitsExactlyHandledLevels` | debug/general_IRH_debugger.c:84 | IENABLE = 0x3 enables level k, for each k from 0 to 31, exactly when dispatching level k alone does more than read `ipending` |
| `Lifetime.RunCountsEveryTick` | debug/general_IRH_debugger.c:247 | over any sequence of interrupts, `timeElapsed` grows by exactly the number of timer interrupts; the ticks reported are the consecutive counts after the starting value, none skipped and none repeated |
| `Lifetime.RunAcknowledgesEveryTick` | debug/general_IRH_debugger.c:229 | over any sequence of interrupts, the timer status is written once per timer interrupt, and always with 0 |
| `Lifetime.RunDirectionParity` | debug/general_IRH_debugger.c:262-263 | `shift_dir` is back at its start after an even number of serviced KEY1 presses, and toggled after an odd number |
| `Lifetime.RunPatternIsLastSwitchLoad` | debug/general_IRH_debugger.c:260-261 | after any sequence of interrupts, `pattern` holds the switch value of the last serviced KEY0 press, or its old value if there was none |
| `Lifetime.RunKeepsShiftEnable` | debug/general_IRH_debugger.c:53 | no sequence of interrupts changes `shift_enable` |
| `Lifetime.ScenarioTickKey0ThenKey1` | debug/general_IRH_debugger.c:203-266 | a timer tick together with KEY0 on switches 0xA5, then KEY1 alone: one tick is counted and reported, `pattern` becomes 0xA5, and `shift_dir` is toggled |
| `Board.Machine.constructor` | debug/general_IRH_debugger.c:42-53 | `pattern` starts at 0x0000000F and `timeElapsed` at 0, with nothing yet on the bus |
| `Board.Machine.Start` | debug/general_IRH_debugger.c:73-85 | `main`'s set-up appends exactly the set-up writes to the bus and changes no global |
| `Board.Machine.IntervalTimerIsr` | debug/general_IRH_debugger.c:225-250 | the in-place ISR leaves the globals and the bus as `Handlers.IntervalTimerIsr` says: the acknowledgement is appended first, then `timeElapsed` is incremented and the new value reported last |
| `Board.Machine.PushbuttonIsr` | debug/general_IRH_debugger.c:252-266 | the in-place ISR leaves the globals and the bus as `Handlers.PushbuttonIsr` says |
| `Board.Machine.InterruptHandler` | debug/general_IRH_debugger.c:203-217 | the in-place dispatcher leaves the globals and the bus as `Handlers.InterruptHandler` says |
| `Board.Session` | debug/general_IRH_debugger.c:63-266 | start-up, then a combined timer and KEY0 interrupt on switches 0xA5, then KEY1: `pattern` is 0xA5, `timeElapsed` is 1, `shift_dir` is toggled, `shift_enable` is unchanged, and the only tick reported is 1 |

## Left out

- The reset and exception vectors (`the_reset`, `the_exception`, lines 91-195) are not modelled: they are register save/restore, the `ea` adjustment and `eret`. A trap entry is modelled as one call of `interrupt_handler`.
- `__builtin_rdctl` and `__builtin_wrctl` (lines 19-34) are compiler builtins. `ipending` is a parameter. The IENABLE and STATUS writes are logged like the other register writes.
- Physical addresses and `volatile` accesses (lines 38-41) are not modelled. A register is a name. A read returns the value passed in from outside.
- The peripherals' reaction to writes is not modelled, for example the timer's TO flag or the edge-capture bits being cleared. Only the writes the program issues are recorded.
- The `printf` formatting (line 247) is I/O. Only the second count it prints is recorded.
- The idle loop `while (1);` (line 87) does no work and never ends. It is not modelled.
- Interrupt masking and reentrancy are hardware concurrency. Each dispatch is one synchronous call that finishes before the next starts.
- The LED write and pattern rotation in `interval_timer_ISR` (lines 230-246) are not modelled, because they are commented out and never compiled.
- The values of `'LEFT'` and `'ENABLE'` (lines 52-53) are chosen by the compiler. The initial `shift_dir` and `shift_enable` are constructor parameters.
- The comment says 50 MHz, but the period is 100000000 (line 74). Wall-clock timing is not modelled.
- Handlers.IntervalTimerIsr: `timeElapsed` is an unbounded `nat`. The model does not cover the signed 32-bit overflow of `++timeElapsed`, which is undefined behaviour in C and would need more than 2^31 - 1 ticks.
- Startup.PeriodHalvesRecombine: the recombination is stated in 32-bit arithmetic, for every period. It cannot wrap, because both halves are below 2^16. As an integer equation (`lo + hi * 65536 == counter`) it is stated only for the period `main` uses, in `Startup.StartProgramsPeriodFirst`.
