/** The one-time set-up `main` performs before idling: program the
    interval timer's period and start it, enable the pushbutton
    interrupts, admit interrupt levels 0 and 1, and turn interrupts on. */
module Startup {
  import opened Registers
  import opened Handlers

  /** The timer period in clock cycles (1 s at the board's 100 MHz). */
  const PeriodCycles: Word := 100000000
  /** Timer control: START, CONT and ITO set, STOP clear. */
  const TimerStartControl: Word := 0x7
  /** Pushbutton interrupt mask: KEY0 and KEY1. */
  const KeyInterruptEnable: Word := 0x3
  /** IENABLE: interrupt levels 0 (interval timer) and 1 (pushbuttons). */
  const IenableLevels: Word := 0x3
  /** STATUS with PIE set: interrupts enabled. */
  const StatusInterruptsOn: Word := 1

  /** `counter & 0xFFFF`: the low half written to the period-low register. */
  function PeriodLow(counter: Word): (lo: Word)
    ensures lo < 0x10000
    ensures (counter - lo) & 0xFFFF == 0
  {
    counter & 0xFFFF
  }

  /** `(counter >> 16) & 0xFFFF`: the high half written to the period-high
      register. For a negative C `int` the arithmetic shift brings in ones,
      which the mask removes again, so the logical shift used here gives
      the same value. */
  function PeriodHigh(counter: Word): (hi: Word)
    ensures hi < 0x10000
    ensures hi == counter >> 16
  {
    (counter >> 16) & 0xFFFF
  }

  /** The two 16-bit halves recombine to the whole period. */
  lemma PeriodHalvesRecombine(counter: Word)
    ensures PeriodHigh(counter) * 0x10000 + PeriodLow(counter) == counter
    ensures (PeriodHigh(counter) << 16) | PeriodLow(counter) == counter
  {
  }

  /** The register writes `main` performs, in program order. */
  function StartTrace(): (r: seq<Event>)
    ensures |r| == 6
    ensures forall i :: 0 <= i < |r| ==> r[i].Write?
    ensures forall i, j :: 0 <= i < j < |r| ==> r[i].reg != r[j].reg
  {
    [ Write(TimerPeriodLow, PeriodLow(PeriodCycles)),
      Write(TimerPeriodHigh, PeriodHigh(PeriodCycles)),
      Write(TimerControl, TimerStartControl),
      Write(KeyInterruptMask, KeyInterruptEnable),
      Write(Ienable, IenableLevels),
      Write(Status, StatusInterruptsOn) ]
  }

  /** The period registers receive 0xE100 (low) and 0x05F5 (high), which recombine to
      100000000; the timer is started only after its period is set, and
      interrupts are turned on last. */
  lemma StartProgramsPeriodFirst()
    ensures Writes(StartTrace(), TimerPeriodLow) == [0xE100]
    ensures Writes(StartTrace(), TimerPeriodHigh) == [0x05F5]
    ensures 0xE100 + 0x05F5 * 0x10000 == PeriodCycles as int
    ensures StartTrace()[2] == Write(TimerControl, 0x7)
    ensures StartTrace()[|StartTrace()| - 1] == Write(Status, 1)
    ensures Writes(StartTrace(), KeyInterruptMask) == [0x3]
    ensures Writes(StartTrace(), Ienable) == [0x3]
  {
    var tr := StartTrace();
    PeriodHalvesRecombine(PeriodCycles);
    assert tr == tr[..2] + tr[2..];
    WritesAppend(tr[..2], tr[2..], TimerPeriodLow);
    WritesAppend(tr[..2], tr[2..], TimerPeriodHigh);
    NoPeriodWritesAfterTwo();
  }

  lemma NoPeriodWritesAfterTwo()
    ensures Writes(StartTrace()[2..], TimerPeriodLow) == []
    ensures Writes(StartTrace()[2..], TimerPeriodHigh) == []
  {
    var tail := StartTrace()[2..];
    assert tail[1..][1..][1..][1..] == [];
  }

  lemma StartReportsNothing()
    ensures Reports(StartTrace()) == []
  {
    var tr := StartTrace();
    assert tr[1..][1..][1..][1..][1..][1..] == [];
  }

  /** IENABLE admits exactly the interrupt levels the dispatcher handles:
      a level alone in `ipending` makes the dispatcher do more than read
      the mask exactly when it is enabled. */
  lemma IenableAdmitsExactlyHandledLevels(g: Globals, level: nat, press: Word, switches: Word)
    requires level < 32
    ensures var m := (1 as Word) << level;
      ((IenableLevels & m) != 0) <==> InterruptHandler(g, Trap(m, press, switches)).trace != [Read(Ipending, m)]
  {
    var m := (1 as Word) << level;
    if level >= 2 {
      assert (m & 0x3) == 0;
    } else {
      assert level == 0 || level == 1;
      assert m == 1 || m == 2;
    }
  }
}
