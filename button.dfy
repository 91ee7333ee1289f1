/** The two-click button: a first press arms it, a press within the
    double-click window after arming advances the pump mode. */
module Buttons {
  import opened Config
  import opened Hardware
  import opened Pumps

  /** Width of the double-click window in ms. */
  const DOUBLE_CLICK_MS: int := 5000

  /** `-10000` stored in an `unsigned long`: the initial arming time, which
      makes the first press (normally) only arm. */
  const SENTINEL: U32 := TWO32 - 10000

  /** The two clock readings one call of `pressed` takes: the one it compares
      and the one it stores. */
  datatype Click = Click(now: U32, nowAgain: U32)

  /** What a press acts on: the button's arming time and the pump's mode. */
  datatype PressState = PressState(lastPressed: U32, mode: Mode)

  /** A press at `now` only (re-)arms: more than the window has passed since
      `lastPressed`, on the wrapping clock. */
  predicate Arms(lastPressed: U32, now: U32)
  {
    Elapsed(now, lastPressed) > DOUBLE_CLICK_MS
  }

  /** One press: arm by storing the second clock reading, or advance the mode
      and leave the arming time alone. */
  function PressStep(s: PressState, c: Click): PressState
  {
    if Arms(s.lastPressed, c.now) then PressState(c.nowAgain, s.mode)
    else PressState(s.lastPressed, NextMode(s.mode))
  }

  /** A series of presses, oldest first. */
  function Presses(s: PressState, clicks: seq<Click>): PressState
    decreases |clicks|
  {
    if clicks == [] then s else Presses(PressStep(s, clicks[0]), clicks[1..])
  }

  /** A press never changes both the arming time and the mode: either it arms
      and the mode stays, or it advances the mode by one and the arming time stays. */
  lemma PressArmsOrAdvances(s: PressState, c: Click)
    ensures var t := PressStep(s, c);
      (t.mode == s.mode && t.lastPressed == c.nowAgain && Elapsed(c.now, s.lastPressed) > DOUBLE_CLICK_MS) ||
      (t.mode == NextMode(s.mode) && t.lastPressed == s.lastPressed && Elapsed(c.now, s.lastPressed) <= DOUBLE_CLICK_MS)
  {
  }

  /** With the `-10000` sentinel a first press only arms, unless the clock
      reads within the 5001 ms from 2^32 - 10000 to 2^32 - 5000, where the
      unsigned difference is at most 5000 and the first press advances the mode. */
  lemma FirstPressArmsExceptNearWrap(now: U32)
    ensures Arms(SENTINEL, now) <==> !(TWO32 - 10000 <= now <= TWO32 - 5000)
    ensures now < TWO32 - 10000 ==> Arms(SENTINEL, now)
  {
  }

  /** Once armed at `armedAt`, every press whose clock reading is still within
      the window advances the mode; the arming time is never refreshed, so a
      third, fourth, ... press inside the window advances again. */
  lemma {:induction false} PressesInWindowAdvance(armedAt: U32, m: Mode, clicks: seq<Click>)
    requires forall i :: 0 <= i < |clicks| ==> Elapsed(clicks[i].now, armedAt) <= DOUBLE_CLICK_MS
    ensures Presses(PressState(armedAt, m), clicks) == PressState(armedAt, Advance(m, |clicks|))
    decreases |clicks|
  {
    if clicks != [] {
      var rest := clicks[1..];
      assert forall i :: 0 <= i < |rest| ==> rest[i] == clicks[i + 1];
      PressesInWindowAdvance(armedAt, NextMode(m), rest);
      AdvanceIsAdditionMod3(NextMode(m), |rest|);
      AdvanceIsAdditionMod3(m, |clicks|);
    }
  }

  /** A fresh button pressed once (at an ordinary clock reading) only arms;
      pressed a second time within the window it advances the mode exactly once. */
  lemma DoubleClickAdvancesOnce(m: Mode, first: Click, second: Click)
    requires first.now < TWO32 - 10000
    requires Elapsed(second.now, first.nowAgain) <= DOUBLE_CLICK_MS
    ensures Presses(PressState(SENTINEL, m), [first]) == PressState(first.nowAgain, m)
    ensures Presses(PressState(SENTINEL, m), [first, second]) == PressState(first.nowAgain, NextMode(m))
  {
    var armed := PressStep(PressState(SENTINEL, m), first);
    assert armed == PressState(first.nowAgain, m);
    assert [first][1..] == [];
    assert [first, second][1..] == [second];
    PressesInWindowAdvance(first.nowAgain, m, [second]);
  }

  class Button {
    var lastPressed: U32

    constructor ()
      ensures lastPressed == SENTINEL
    {
      lastPressed := SENTINEL;
    }

    /** `pressed`; the pump it acts on is passed in. */
    method Pressed(pump: Pump, board: Board, now: U32, nowAgain: U32)
      requires pump.Valid()
      modifies this, pump, board`events
      ensures pump.Valid()
      ensures PressState(lastPressed, pump.pumpMode)
        == PressStep(PressState(old(lastPressed), old(pump.pumpMode)), Click(now, nowAgain))
      ensures board.events == old(board.events) +
        (if Arms(old(lastPressed), now) then [] else ModeChangeEvents(old(pump.pumpMode)))
    {
      if Elapsed(now, lastPressed) > DOUBLE_CLICK_MS {
        lastPressed := nowAgain;
      } else {
        pump.ChangeMode(board);
      }
    }
  }
}
