/** The sketch's main loop: the direct button path, the clock-wrap guard, the
    sampling interval, the irrigation trigger and the "pump, soak, re-sample"
    sub-loop that only ends once the soil reads wet enough. */
module Control {
  import opened Config
  import opened Hardware
  import opened Pumps
  import opened Sensor

  // ---------------------------------------------------------------------
  // Sampling schedule

  /** The sample baseline after the clock-wrap guard: a stored timestamp
      that lies ahead of the clock is pulled back to the current time. */
  function GuardedBase(lastSampleTs: U32, now: U32): (b: U32)
    ensures b <= now
    ensures lastSampleTs <= now ==> b == lastSampleTs
    ensures now < lastSampleTs ==> b == now
  {
    if now < lastSampleTs then now else lastSampleTs
  }

  /** A sample is due: at least `SAMPLE_INTERVAL_MS` since the guarded baseline. */
  predicate SampleDue(lastSampleTs: U32, now: U32)
  {
    Elapsed(now, GuardedBase(lastSampleTs, now)) >= SAMPLE_INTERVAL_MS
  }

  /** After the guard the unsigned subtraction cannot wrap, and a sample is due
      exactly when the clock has not wrapped and has moved on by at least the
      interval since the stored timestamp. */
  lemma SampleDueExactly(lastSampleTs: U32, now: U32)
    ensures Elapsed(now, GuardedBase(lastSampleTs, now)) == now - GuardedBase(lastSampleTs, now)
    ensures SampleDue(lastSampleTs, now) <==> lastSampleTs <= now && now - lastSampleTs >= SAMPLE_INTERVAL_MS
  {
  }

  /** When the clock has wrapped, no sample is taken and the baseline restarts
      at the current time: the next sample comes exactly one interval later,
      neither sooner nor later. Measured from the last sample actually taken,
      that can be up to almost two intervals, although the unsigned difference
      alone would already have been at least the interval (for example with
      the last sample at 2^32 - 1000 and the clock at 40000). */
  lemma WrapRestartsInterval(lastSampleTs: U32, now: U32)
    requires now < lastSampleTs
    ensures GuardedBase(lastSampleTs, now) == now && !SampleDue(lastSampleTs, now)
    ensures forall later: U32 :: now <= later ==> (SampleDue(now, later) <==> later - now >= SAMPLE_INTERVAL_MS)
    ensures Elapsed(40000, TWO32 - 1000) >= SAMPLE_INTERVAL_MS && !SampleDue(TWO32 - 1000, 40000)
  {
  }

  /** In mode 0 the trigger point is 450: 450 starts irrigation, 449 does not.
      Soil dry enough to start watering in a drier mode starts it in every
      wetter mode too. */
  lemma TriggerBoundaryMode0()
    ensures TooDry(0, 450) && !TooDry(0, 449)
    ensures forall m: Mode, n: Mode, x :: m < n && TooDry(n, x) ==> TooDry(m, x)
  {
    forall m: Mode, n: Mode, x | m < n && TooDry(n, x)
      ensures TooDry(m, x)
    {
      DrierModesPumpLaterAndShorter(m, n);
    }
  }

  // ---------------------------------------------------------------------
  // Irrigation sub-loop

  /** The result of the watering sub-loop on a finite input: how many pump
      runs were made, whether it ended because a re-sample read wet enough
      (otherwise the readings ran out while the sketch would go on pumping),
      the pin events it produced and the readings left over. */
  datatype Irrigation = Irrigation(runs: nat, stopped: bool, events: seq<Event>, rest: seq<Reading>)

  /** The `k`-th block of `N_SAMPLES` readings. */
  function Block(script: seq<Reading>, k: nat): (b: seq<Reading>)
    requires N_SAMPLES * (k + 1) <= |script|
    ensures |b| == N_SAMPLES
  {
    script[N_SAMPLES * k .. N_SAMPLES * (k + 1)]
  }

  /** One pass of the sub-loop's body in mode `m`: run the pump, soak, and
      re-sample from `script`. It `ended` the sub-loop when the re-sample read
      below the limit (`wet`) or when the readings ran out. */
  datatype Cycle = Cycle(ended: bool, wet: bool, events: seq<Event>, rest: seq<Reading>)

  function PumpCycle(m: Mode, script: seq<Reading>): (c: Cycle)
    ensures c.wet ==> c.ended
    ensures !c.ended ==> |script| >= N_SAMPLES && c.rest == script[N_SAMPLES..]
  {
    var soak := PumpEvents(m) + [Wait(SOAK_MS)];
    if |script| < N_SAMPLES then
      Cycle(true, false, soak, script)
    else
      var wet := Mean(script[..N_SAMPLES]) < Limit(m);
      Cycle(wet, wet, soak + SampleWaits(N_SAMPLES), script[N_SAMPLES..])
  }

  /** Specification of the sub-loop in mode `m` on the readings `script`:
      repeat the pump cycle until one ends it. */
  function Irrigate(m: Mode, script: seq<Reading>): (r: Irrigation)
    decreases |script|
  {
    var c := PumpCycle(m, script);
    if c.ended then
      Irrigation(1, c.wet, c.events, c.rest)
    else
      var r := Irrigate(m, c.rest);
      Irrigation(r.runs + 1, r.stopped, c.events + r.events, r.rest)
  }

  /** The sub-loop ends at the first re-sample below the limit and at no
      other: every earlier re-sample was at or above it; if it stopped, the
      last re-sample was below it and exactly the blocks read are consumed;
      if it did not stop, every complete block was at or above the limit. */
  lemma {:induction false} IrrigateStopsAtFirstWetSample(m: Mode, script: seq<Reading>)
    ensures Irrigate(m, script).runs >= 1
    ensures var r := Irrigate(m, script);
      (forall j :: 0 <= j < r.runs - 1 ==>
         N_SAMPLES * (j + 1) <= |script| && Mean(Block(script, j)) >= Limit(m)) &&
      (r.stopped ==>
         N_SAMPLES * r.runs <= |script| && Mean(Block(script, r.runs - 1)) < Limit(m) &&
         r.rest == script[N_SAMPLES * r.runs..]) &&
      (!r.stopped ==>
         N_SAMPLES * (r.runs - 1) <= |script| < N_SAMPLES * r.runs &&
         r.rest == script[N_SAMPLES * (r.runs - 1)..])
    decreases |script|
  {
    var r := Irrigate(m, script);
    if |script| < N_SAMPLES {
    } else if Mean(script[..N_SAMPLES]) < Limit(m) {
      assert Block(script, 0) == script[..N_SAMPLES];
    } else {
      var tail := script[N_SAMPLES..];
      IrrigateStopsAtFirstWetSample(m, tail);
      var q := Irrigate(m, tail);
      assert r.runs == q.runs + 1 && r.stopped == q.stopped && r.rest == q.rest;
      forall j | 0 <= j < r.runs - 1
        ensures N_SAMPLES * (j + 1) <= |script| && Mean(Block(script, j)) >= Limit(m)
      {
        if j == 0 {
          assert Block(script, 0) == script[..N_SAMPLES];
        } else {
          assert Block(script, j) == Block(tail, j - 1);
        }
      }
      if r.stopped {
        assert Block(script, r.runs - 1) == Block(tail, q.runs - 1);
        assert tail[N_SAMPLES * q.runs..] == script[N_SAMPLES * r.runs..];
      } else {
        assert tail[N_SAMPLES * (q.runs - 1)..] == script[N_SAMPLES * (r.runs - 1)..];
      }
    }
  }

  /** Mode 0 at the exit boundary: a first re-sample averaging 449 ends the
      sub-loop after one pump run, one averaging 450 pumps again. */
  lemma ExitBoundaryMode0(script: seq<Reading>)
    requires |script| >= N_SAMPLES
    ensures Mean(script[..N_SAMPLES]) == 449 ==> Irrigate(0, script).stopped && Irrigate(0, script).runs == 1
    ensures Mean(script[..N_SAMPLES]) == 450 ==> Irrigate(0, script).runs >= 2
  {
  }

  /** However it ends, the sub-loop leaves the pump switched off and the
      indicators as they were. */
  lemma {:induction false} IrrigationLeavesPumpOff(log: seq<Event>, m: Mode, script: seq<Reading>)
    ensures LevelOf(log + Irrigate(m, script).events, PIN_PUMP) == Low
    ensures forall i :: 0 <= i < 3 ==> LevelOf(log + Irrigate(m, script).events, Led[i]) == LevelOf(log, Led[i])
    decreases |script|
  {
    var r := Irrigate(m, script);
    var pumped := log + PumpEvents(m);
    RunPumpLeavesPumpOff(log, m);
    var waits := if |script| < N_SAMPLES then [Wait(SOAK_MS)] else [Wait(SOAK_MS)] + SampleWaits(N_SAMPLES);
    var soaked := pumped + waits;
    assert !Writes(waits, PIN_PUMP);
    LevelOfAppend(pumped, waits, PIN_PUMP);
    forall i | 0 <= i < 3
      ensures LevelOf(soaked, Led[i]) == LevelOf(log, Led[i])
    {
      assert !Writes(waits, Led[i]);
      LevelOfAppend(pumped, waits, Led[i]);
    }
    if |script| < N_SAMPLES || Mean(script[..N_SAMPLES]) < Limit(m) {
      assert log + r.events == soaked;
    } else {
      var tail := script[N_SAMPLES..];
      IrrigationLeavesPumpOff(soaked, m, tail);
      assert log + r.events == soaked + Irrigate(m, tail).events;
    }
  }

  /** The pins agree with mode `m` after `log`: no indicator but that of `m`
      is lit and the pump is off. This holds at power-up, when nothing has
      been written yet: the `Pump` constructor never switches its LED on. */
  ghost predicate PinsAgree(log: seq<Event>, m: Mode)
  {
    AtMostIndicatorOf(log, m) && LevelOf(log, PIN_PUMP) == Low
  }

  /** Every step a pass of `loop()` can take keeps the pins in agreement
      with the mode: a mode change, the delays of a sample, and a whole
      watering sub-loop. */
  lemma PassKeepsPinsAgreeing(log: seq<Event>, m: Mode, buttonHigh: bool, script: seq<Reading>)
    requires PinsAgree(log, m)
    ensures PinsAgree([], 0)
    ensures var n := if buttonHigh then NextMode(m) else m;
      var changed := if buttonHigh then log + ModeChangeEvents(m) else log;
      var sampled := changed + SampleWaits(N_SAMPLES);
      PinsAgree(changed, n) && PinsAgree(sampled, n) &&
      PinsAgree(sampled + Irrigate(n, script).events, n)
  {
    var n := if buttonHigh then NextMode(m) else m;
    var changed := if buttonHigh then log + ModeChangeEvents(m) else log;
    if buttonHigh {
      ModeChangeLightsNewIndicator(log, m);
    }
    var waits := SampleWaits(N_SAMPLES);
    var sampled := changed + waits;
    LevelOfAppend(changed, waits, PIN_PUMP);
    forall i | 0 <= i < 3
      ensures LevelOf(sampled, Led[i]) == LevelOf(changed, Led[i])
    {
      LevelOfAppend(changed, waits, Led[i]);
    }
    IrrigationLeavesPumpOff(sampled, n, script);
  }

  // ---------------------------------------------------------------------
  // The sketch

  /** What one sampling step ended with, when the sub-loop was entered. */
  datatype Pumping = Skipped | Stopped(runs: nat) | StillPumping(runs: nat)

  /** What one pass of the main loop did about sampling. */
  datatype Sample = NotDue | Taken(moisture: int, pumping: Pumping)

  function PumpingOf(r: Irrigation): Pumping
  {
    if r.stopped then Stopped(r.runs) else StillPumping(r.runs)
  }

  /** The sketch's global state: the sample timestamp and the pump. */
  class Sketch {
    var lastSampleTs: U32
    var pump: Pump

    ghost predicate Valid()
      reads this, pump
    {
      pump.Valid()
    }

    /** The global initialisers: no sample yet, the pump in mode 0. */
    constructor ()
      ensures Valid() && fresh(pump)
      ensures lastSampleTs == 0 && pump.pumpMode == 0
    {
      lastSampleTs := 0;
      pump := new Pump(0);
    }

    /** The body of the `while (1)` sub-loop up to its test: run the pump,
        soak, and re-sample if the readings have not run out. */
    method PumpSoakResample(board: Board) returns (resampled: bool, moisture: int)
      requires Valid()
      modifies board
      ensures var c := PumpCycle(pump.pumpMode, old(board.analogIn));
        board.events == old(board.events) + c.events && board.analogIn == c.rest &&
        resampled == (|old(board.analogIn)| >= N_SAMPLES) &&
        (resampled ==> moisture == Mean(old(board.analogIn)[..N_SAMPLES]))
    {
      pump.RunPump(board);
      board.Delay(SOAK_MS);
      resampled, moisture := false, 0;
      if |board.analogIn| >= N_SAMPLES {
        resampled := true;
        moisture := ReadSoilAveraged(board);
      }
    }

    /** One pass of the `while (1)` sub-loop's body, test included: it ends
        the sub-loop exactly as `PumpCycle` does. */
    method IrrigationPass(board: Board) returns (ended: bool, wet: bool)
      requires Valid()
      modifies board
      ensures var c := PumpCycle(pump.pumpMode, old(board.analogIn));
        board.events == old(board.events) + c.events && board.analogIn == c.rest &&
        ended == c.ended && wet == c.wet
    {
      var resampled, moisture := PumpSoakResample(board);
      if !resampled {
        ended, wet := true, false;
      } else {
        wet := moisture < Thr[pump.GetPumpMode()] + HYSTERESIS;
        ended := wet;
      }
    }

    /** The `while (1)` sub-loop: pump, soak, re-sample, until a re-sample
        reads below the current mode's limit. The mode cannot change in it. */
    method IrrigateUntilWet(board: Board) returns (p: Pumping)
      requires Valid()
      modifies board
      ensures var r := Irrigate(pump.pumpMode, old(board.analogIn));
        board.events == old(board.events) + r.events && board.analogIn == r.rest && p == PumpingOf(r)
    {
      ghost var m: Mode := pump.pumpMode;
      ghost var left := board.analogIn;
      ghost var whole := Irrigate(m, left);
      ghost var done: seq<Event> := [];
      var runs: nat := 0;
      while true
        invariant board.analogIn == left
        invariant board.events == old(board.events) + done
        invariant var r := Irrigate(m, left);
          whole == Irrigation(runs + r.runs, r.stopped, done + r.events, r.rest)
        decreases |left|
      {
        ghost var c := PumpCycle(m, left);
        var ended, wet := IrrigationPass(board);
        assert board.events == old(board.events) + (done + c.events);
        if ended {
          p := if wet then Stopped(runs + 1) else StillPumping(runs + 1);
          break;
        }
        ghost var next := Irrigate(m, c.rest);
        assert Irrigate(m, left) == Irrigation(next.runs + 1, next.stopped, c.events + next.events, next.rest);
        assert done + (c.events + next.events) == (done + c.events) + next.events;
        done := done + c.events;
        left := c.rest;
        runs := runs + 1;
      }
    }

    /** One pass of `loop()`, given the level `buttonHigh` read on `PIN_BUT`
        and the clock reading `now` taken in it. */
    method Loop(board: Board, buttonHigh: bool, now: U32) returns (s: Sample)
      requires Valid() && |board.analogIn| >= N_SAMPLES
      modifies this, pump, board
      ensures Valid() && pump == old(pump)
      ensures PinsAgree(old(board.events), old(pump.pumpMode)) ==> PinsAgree(board.events, pump.pumpMode)
      ensures pump.pumpMode == if buttonHigh then NextMode(old(pump.pumpMode)) else old(pump.pumpMode)
      ensures var log := old(board.events) + (if buttonHigh then ModeChangeEvents(old(pump.pumpMode)) else []);
        var input := old(board.analogIn);
        if SampleDue(old(lastSampleTs), now) then
          lastSampleTs == now && s.Taken? && s.moisture == Mean(input[..N_SAMPLES]) &&
          if TooDry(pump.pumpMode, s.moisture) then
            var r := Irrigate(pump.pumpMode, input[N_SAMPLES..]);
            s.pumping == PumpingOf(r) && board.events == log + SampleWaits(N_SAMPLES) + r.events &&
            board.analogIn == r.rest
          else
            s.pumping == Skipped && board.events == log + SampleWaits(N_SAMPLES) &&
            board.analogIn == input[N_SAMPLES..]
        else
          lastSampleTs == GuardedBase(old(lastSampleTs), now) && s == NotDue &&
          board.events == log && board.analogIn == input
    {
      if PinsAgree(board.events, pump.pumpMode) {
        PassKeepsPinsAgreeing(board.events, pump.pumpMode, buttonHigh, board.analogIn[N_SAMPLES..]);
      }
      if buttonHigh {
        pump.ChangeMode(board);
      }
      if now < lastSampleTs {
        lastSampleTs := now;
      }
      if Elapsed(now, lastSampleTs) >= SAMPLE_INTERVAL_MS {
        lastSampleTs := now;
        var moisture := ReadSoilAveraged(board);
        if moisture >= Thr[pump.GetPumpMode()] + HYSTERESIS {
          var p := IrrigateUntilWet(board);
          s := Taken(moisture, p);
        } else {
          s := Taken(moisture, Skipped);
        }
      } else {
        s := NotDue;
      }
    }
  }
}
