/** The averaged soil-moisture measurement: `N_SAMPLES` converter readings,
    each followed by a short delay, summed and divided with truncation. */
module Sensor {
  import opened Config
  import opened Hardware

  /** Sum of readings, accumulated front to back. */
  function Sum(s: seq<Reading>): int
    decreases |s|
  {
    if s == [] then 0 else Sum(s[..|s| - 1]) + s[|s| - 1]
  }

  /** The delays of one averaged measurement after its first `k` readings. */
  function SampleWaits(k: nat): (w: seq<Event>)
    ensures |w| == k && forall i :: 0 <= i < k ==> w[i] == Wait(SAMPLE_DELAY_MS)
  {
    seq(k, _ => Wait(SAMPLE_DELAY_MS))
  }

  /** Integer mean of one block of `N_SAMPLES` readings, truncated toward zero
      (C division of the non-negative `long` sum). */
  function Mean(block: seq<Reading>): (avg: int)
    requires |block| == N_SAMPLES
    ensures N_SAMPLES * avg <= Sum(block) < N_SAMPLES * avg + N_SAMPLES
  {
    Sum(block) / N_SAMPLES
  }

  /** Readings that all lie in `[lo, hi]` sum to between `|s| * lo` and `|s| * hi`. */
  lemma {:induction false} SumBounds(s: seq<Reading>, lo: int, hi: int)
    requires forall i :: 0 <= i < |s| ==> lo <= s[i] <= hi
    ensures |s| * lo <= Sum(s) <= |s| * hi
    decreases |s|
  {
    if s != [] {
      var init := s[..|s| - 1];
      assert forall i :: 0 <= i < |init| ==> init[i] == s[i];
      SumBounds(init, lo, hi);
    }
  }

  /** The averaged reading lies between the smallest and the largest sample:
      it is bounded by any bounds of the block, some sample is at or below it
      and some sample at or above it. In particular it is a valid 10-bit
      reading, so the cast to a 16-bit `int` loses nothing. */
  lemma MeanWithinSamples(block: seq<Reading>, lo: int, hi: int)
    requires |block| == N_SAMPLES
    requires forall i :: 0 <= i < |block| ==> lo <= block[i] <= hi
    ensures lo <= Mean(block) <= hi
    ensures 0 <= Mean(block) < 1024
    ensures exists i :: 0 <= i < |block| && block[i] <= Mean(block)
    ensures exists j :: 0 <= j < |block| && Mean(block) <= block[j]
  {
    var avg := Mean(block);
    SumBounds(block, lo, hi);
    SumBounds(block, 0, 1023);
    if forall i :: 0 <= i < |block| ==> avg < block[i] {
      SumBounds(block, avg + 1, 1023);
      assert false;
    }
    if forall j :: 0 <= j < |block| ==> block[j] < avg {
      SumBounds(block, 0, avg - 1);
      assert false;
    }
  }

  /** Nine readings of 400 and one of 409 average to 400: the fraction is cut off. */
  lemma MeanTruncates()
    ensures Mean([400, 400, 400, 400, 400, 400, 400, 400, 400, 409]) == 400
  {
    var block: seq<Reading> := [400, 400, 400, 400, 400, 400, 400, 400, 400, 409];
    var nine := block[..9];
    assert forall i :: 0 <= i < |nine| ==> nine[i] == 400;
    SumBounds(nine, 400, 400);
    assert block[..|block| - 1] == nine;
  }

  /** `readSoilAveraged`: consumes the next `N_SAMPLES` readings of the sensor
      pin, delaying after each, and returns their truncated mean. */
  method ReadSoilAveraged(board: Board) returns (avg: int)
    requires |board.analogIn| >= N_SAMPLES
    modifies board
    ensures avg == Mean(old(board.analogIn)[..N_SAMPLES])
    ensures board.analogIn == old(board.analogIn)[N_SAMPLES..]
    ensures board.events == old(board.events) + SampleWaits(N_SAMPLES)
  {
    ghost var input := board.analogIn;
    var sum := 0;
    for i := 0 to N_SAMPLES
      invariant board.analogIn == input[i..]
      invariant sum == Sum(input[..i])
      invariant 0 <= sum <= 1023 * i  // well within the 32-bit `long`
      invariant board.events == old(board.events) + SampleWaits(i)
    {
      var r := board.AnalogRead();
      assert input[..i + 1][..i] == input[..i];
      sum := sum + r;
      board.Delay(SAMPLE_DELAY_MS);
      assert SampleWaits(i + 1) == SampleWaits(i) + [Wait(SAMPLE_DELAY_MS)];
    }
    avg := sum / N_SAMPLES;
  }
}
