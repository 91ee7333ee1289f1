/** Configuration of the irrigation sketch: pin numbers, timing constants, the
    three per-mode tables, the mode cycle and the 32-bit clock arithmetic of
    the microcontroller (`unsigned long` is 32 bits wide on the AVR target). */
module Config {

  /** 2^32: `unsigned long` arithmetic is carried out modulo this value. */
  const TWO32: int := 0x1_0000_0000

  /** An `unsigned long` value, e.g. a `millis()` timestamp. */
  type U32 = x: int | 0 <= x < 0x1_0000_0000

  /** One conversion of the 10-bit analog-to-digital converter (`analogRead`). */
  type Reading = x: int | 0 <= x < 1024

  /** One of the three irrigation profiles (0 = wet, 1 = medium, 2 = dry). */
  type Mode = m: int | 0 <= m < 3

  // Digital pins
  const PIN_PUMP: int := 8
  const PIN_BUT: int := 9
  const LED_WET: int := 1
  const LED_MED: int := 2
  const LED_DRY: int := 3

  // Sampling and timing
  const N_SAMPLES: nat := 10
  const SAMPLE_DELAY_MS: int := 5
  const SAMPLE_INTERVAL_MS: int := 30000
  const HYSTERESIS: int := 20
  const SETTLE_MS: int := 1000
  const SOAK_MS: int := 15000

  /** Threshold of the soil-moisture reading, per mode. */
  const Thr: seq<int> := [430, 520, 610]
  /** Pump run time in ms, per mode. */
  const Prt: seq<int> := [3000, 2000, 1000]
  /** Indicator LED pin, per mode. */
  const Led: seq<int> := [LED_WET, LED_MED, LED_DRY]

  /** The reading at and above which the soil counts as too dry in mode `m`. */
  function Limit(m: Mode): (l: int)
    ensures 450 <= l <= 630
  {
    Thr[m] + HYSTERESIS
  }

  /** The tables run from wet to dry: a drier mode waits for drier soil
      before it waters, and then runs the pump for a shorter time. */
  lemma DrierModesPumpLaterAndShorter(m: Mode, n: Mode)
    requires m < n
    ensures Limit(m) < Limit(n)
    ensures Prt[m] > Prt[n]
  {
  }

  /** The irrigation trigger: the moisture reading reaches threshold plus hysteresis. */
  predicate TooDry(m: Mode, moisture: int)
  {
    moisture >= Limit(m)
  }

  /** The indicator pins are three different pins, none of them the pump's. */
  lemma LedPinsDistinct()
    ensures forall i, j :: 0 <= i < 3 && 0 <= j < 3 && Led[i] == Led[j] ==> i == j
    ensures forall i :: 0 <= i < 3 ==> Led[i] != PIN_PUMP
  {
  }

  /** The mode after one `change_mode`: 2 wraps to 0, anything else goes up by one. */
  function NextMode(m: Mode): (n: Mode)
  {
    if m == 2 then 0 else m + 1
  }

  /** The mode after `k` calls of `change_mode` starting from `m`. */
  function Advance(m: Mode, k: nat): (n: Mode)
    decreases k
  {
    if k == 0 then m else NextMode(Advance(m, k - 1))
  }

  /** `change_mode` is the successor modulo 3. */
  lemma NextModeIsSuccessorMod3(m: Mode)
    ensures NextMode(m) == (m + 1) % 3
    ensures NextMode(m) != m
  {
  }

  /** `k` mode changes add `k` modulo 3. */
  lemma {:induction false} AdvanceIsAdditionMod3(m: Mode, k: nat)
    ensures Advance(m, k) == (m + k) % 3
    decreases k
  {
    if k > 0 {
      AdvanceIsAdditionMod3(m, k - 1);
    }
  }

  /** Three consecutive mode changes come back to the starting mode, and
      fewer than three do not. */
  lemma ThreeChangesReturn(m: Mode)
    ensures Advance(m, 3) == m
    ensures Advance(m, 1) != m && Advance(m, 2) != m
  {
    AdvanceIsAdditionMod3(m, 1);
    AdvanceIsAdditionMod3(m, 2);
    AdvanceIsAdditionMod3(m, 3);
  }

  /** Unsigned 32-bit subtraction `now - since`, the time elapsed on a clock
      that wraps every 2^32 ms. */
  function Elapsed(now: U32, since: U32): (d: U32)
    ensures since <= now ==> d == now - since
    ensures now < since ==> d == TWO32 - since + now
  {
    (now - since) % TWO32
  }
}
