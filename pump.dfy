/** The pump controller: the current mode, and the run time and indicator
    pin that belong to it, kept in step with the per-mode tables. */
module Pumps {
  import opened Config
  import opened Hardware

  /** What `change_mode` does on the pins when it leaves mode `m`: the old
      indicator off, the new one on, then the settle delay. */
  function ModeChangeEvents(m: Mode): seq<Event>
  {
    [Write(Led[m], Low), Write(Led[NextMode(m)], High), Wait(SETTLE_MS)]
  }

  /** What `run_pump` does on the pins in mode `m`: pump on, wait the mode's
      run time, pump off. */
  function PumpEvents(m: Mode): seq<Event>
  {
    [Write(PIN_PUMP, High), Wait(Prt[m]), Write(PIN_PUMP, Low)]
  }

  /** No indicator other than that of mode `m` is lit after `log`. */
  predicate AtMostIndicatorOf(log: seq<Event>, m: Mode)
  {
    forall i :: 0 <= i < 3 && LevelOf(log, Led[i]) == High ==> i == m
  }

  /** Exactly the indicator of mode `m` is lit after `log`. */
  predicate OnlyIndicatorOf(log: seq<Event>, m: Mode)
  {
    forall i :: 0 <= i < 3 ==> (LevelOf(log, Led[i]) == High <==> i == m)
  }

  /** A mode change switches the old indicator off before the new one on, so
      afterwards exactly the new mode's indicator is lit, provided no other
      indicator was lit before. The pump output is left as it was. */
  lemma ModeChangeLightsNewIndicator(log: seq<Event>, m: Mode)
    requires AtMostIndicatorOf(log, m)
    ensures OnlyIndicatorOf(log + ModeChangeEvents(m), NextMode(m))
    ensures LevelOf(log + ModeChangeEvents(m), PIN_PUMP) == LevelOf(log, PIN_PUMP)
  {
    var more := ModeChangeEvents(m);
    LedPinsDistinct();
    forall i | 0 <= i < 3
      ensures LevelOf(log + more, Led[i]) == High <==> i == NextMode(m)
    {
      LevelOfAppend(log, more, Led[i]);
      var two := [Write(Led[m], Low), Write(Led[NextMode(m)], High)];
      var one := [Write(Led[m], Low)];
      assert more[..|more| - 1] == two && two[..|two| - 1] == one && one[..|one| - 1] == [];
      if i == NextMode(m) {
        assert more[1].Write? && more[1].pin == Led[i];
        assert LevelOf(more, Led[i]) == LevelOf(two, Led[i]) == High;
      } else if i == m {
        assert more[0].Write? && more[0].pin == Led[i];
        assert LevelOf(more, Led[i]) == LevelOf(two, Led[i]) == LevelOf(one, Led[i]) == Low;
      } else {
        assert !Writes(more, Led[i]);
      }
    }
    LevelOfAppend(log, more, PIN_PUMP);
    assert !Writes(more, PIN_PUMP);
  }

  /** A pump run leaves the pump switched off and the indicators as they were. */
  lemma RunPumpLeavesPumpOff(log: seq<Event>, m: Mode)
    ensures LevelOf(log + PumpEvents(m), PIN_PUMP) == Low
    ensures forall i :: 0 <= i < 3 ==> LevelOf(log + PumpEvents(m), Led[i]) == LevelOf(log, Led[i])
  {
    var more := PumpEvents(m);
    LevelOfAppend(log, more, PIN_PUMP);
    assert more[2].Write? && more[2].pin == PIN_PUMP;
    LedPinsDistinct();
    forall i | 0 <= i < 3
      ensures LevelOf(log + more, Led[i]) == LevelOf(log, Led[i])
    {
      LevelOfAppend(log, more, Led[i]);
      assert !Writes(more, Led[i]);
    }
  }

  class Pump {
    var pumpMode: int
    var pumpTime: int
    var ledPin: int

    /** The run time and indicator pin always belong to the current mode. */
    ghost predicate Valid()
      reads this
    {
      0 <= pumpMode < 3 && pumpTime == Prt[pumpMode] && ledPin == Led[pumpMode]
    }

    constructor (startMode: int)
      requires 0 <= startMode < 3
      ensures Valid() && pumpMode == startMode
    {
      pumpMode := startMode;
      pumpTime := Prt[startMode];
      ledPin := Led[startMode];
    }

    method ChangeMode(board: Board)
      requires Valid()
      modifies this, board`events
      ensures Valid()
      ensures pumpMode == NextMode(old(pumpMode))
      ensures board.events == old(board.events) + ModeChangeEvents(old(pumpMode))
    {
      board.DigitalWrite(ledPin, Low);
      if pumpMode == 2 {
        pumpMode := 0;
      } else {
        pumpMode := pumpMode + 1;
      }
      ledPin := Led[pumpMode];
      pumpTime := Prt[pumpMode];
      board.DigitalWrite(ledPin, High);
      board.Delay(SETTLE_MS);
    }

    method RunPump(board: Board)
      requires Valid()
      modifies board`events
      ensures board.events == old(board.events) + PumpEvents(pumpMode)
    {
      board.DigitalWrite(PIN_PUMP, High);
      board.Delay(pumpTime);
      board.DigitalWrite(PIN_PUMP, Low);
    }

    /** The current mode; reading it changes nothing. */
    function GetPumpMode(): (m: Mode)
      reads this
      requires Valid()
      ensures m == pumpMode
      ensures Prt[m] == pumpTime && Led[m] == ledPin
    {
      pumpMode
    }
  }
}
