/** The board the sketch drives. Pin writes and blocking delays are recorded,
    in order, in an event log; the analog input is a script of converter
    readings that `analogRead` hands out one at a time. */
module Hardware {
  import opened Config

  datatype Level = Low | High

  /** An observable action of the sketch: a `digitalWrite` or a `delay`. */
  datatype Event = Write(pin: int, level: Level) | Wait(ms: int)

  class Board {
    /** Every `digitalWrite` and `delay` so far, oldest first. */
    var events: seq<Event>
    /** Readings the sensor pin has still to deliver, next one first. */
    var analogIn: seq<Reading>

    constructor (script: seq<Reading>)
      ensures events == [] && analogIn == script
    {
      events := [];
      analogIn := script;
    }

    method DigitalWrite(pin: int, level: Level)
      modifies this`events
      ensures events == old(events) + [Write(pin, level)]
    {
      events := events + [Write(pin, level)];
    }

    method Delay(ms: int)
      modifies this`events
      ensures events == old(events) + [Wait(ms)]
    {
      events := events + [Wait(ms)];
    }

    method AnalogRead() returns (r: Reading)
      requires analogIn != []
      modifies this`analogIn
      ensures r == old(analogIn)[0] && analogIn == old(analogIn)[1..]
    {
      r := analogIn[0];
      analogIn := analogIn[1..];
    }
  }

  /** The level a pin shows after `log`: the last level written to it, and
      `Low` for a pin never written (all pins come out of reset low). */
  function LevelOf(log: seq<Event>, pin: int): Level
    decreases |log|
  {
    if log == [] then Low
    else match log[|log| - 1]
      case Write(p, l) => if p == pin then l else LevelOf(log[..|log| - 1], pin)
      case Wait(_) => LevelOf(log[..|log| - 1], pin)
  }

  /** `log` writes to `pin` somewhere. */
  predicate Writes(log: seq<Event>, pin: int)
  {
    exists i :: 0 <= i < |log| && log[i].Write? && log[i].pin == pin
  }

  /** After more events, a pin shows what the newer events last wrote to it,
      or, if they never touch it, what it showed before. */
  lemma {:induction false} LevelOfAppend(log: seq<Event>, more: seq<Event>, pin: int)
    ensures LevelOf(log + more, pin) == if Writes(more, pin) then LevelOf(more, pin) else LevelOf(log, pin)
    decreases |more|
  {
    if more == [] {
      assert log + more == log;
    } else {
      var init := more[..|more| - 1];
      assert (log + more)[..|log + more| - 1] == log + init;
      LevelOfAppend(log, init, pin);
      var last := more[|more| - 1];
      if last.Write? && last.pin == pin {
        assert more[|more| - 1].Write? && more[|more| - 1].pin == pin;
      } else {
        if Writes(more, pin) {
          var i :| 0 <= i < |more| && more[i].Write? && more[i].pin == pin;
          assert i < |more| - 1 && init[i] == more[i];
        }
        if Writes(init, pin) {
          var i :| 0 <= i < |init| && init[i].Write? && init[i].pin == pin;
          assert more[i] == init[i];
        }
      }
    }
  }
}
