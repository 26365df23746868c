/** The choice of the loudest three seconds of a voice sample by a rolling sum of frame energies. */
module WindowSearch {
  import opened Collections

  const FRAME: nat := 160
  const WINDOW_FRAMES: nat := 300
  const RATE: nat := 16_000
  const WINDOW: nat := 48_000

  /** The energy of the samples from `lo` up to `hi`. */
  function Energy(pcm: seq<int>, lo: nat, hi: nat): int
    requires lo <= hi <= |pcm|
    decreases hi
  {
    if lo == hi then 0 else Energy(pcm, lo, hi - 1) + pcm[hi - 1] * pcm[hi - 1]
  }

  lemma {:induction false} EnergySplits(pcm: seq<int>, lo: nat, mid: nat, hi: nat)
    requires lo <= mid <= hi <= |pcm|
    ensures Energy(pcm, lo, hi) == Energy(pcm, lo, mid) + Energy(pcm, mid, hi)
    decreases hi
  {
    if mid < hi {
      EnergySplits(pcm, lo, mid, hi - 1);
    }
  }

  ghost predicate Silent(pcm: seq<int>, lo: nat, hi: nat) {
    forall i: nat | lo <= i < hi && i < |pcm| :: pcm[i] == 0
  }

  lemma Square(x: int)
    ensures x * x >= 0 && (x * x == 0 <==> x == 0)
  {
  }

  lemma {:induction false} EnergyOfSilence(pcm: seq<int>, lo: nat, hi: nat)
    requires lo <= hi <= |pcm|
    ensures Energy(pcm, lo, hi) >= 0
    ensures Energy(pcm, lo, hi) == 0 <==> Silent(pcm, lo, hi)
    decreases hi
  {
    if lo < hi {
      EnergyOfSilence(pcm, lo, hi - 1);
      Square(pcm[hi - 1]);
    }
  }

  // ---------------------------------------------------------------- the best window

  function Frames(pcm: seq<int>): nat {
    |pcm| / FRAME
  }

  /** A window starts at a frame and holds 300 whole frames. */
  predicate IsWindow(pcm: seq<int>, frame: nat) {
    frame + WINDOW_FRAMES <= Frames(pcm)
  }

  function WindowEnergy(pcm: seq<int>, frame: nat): int
    requires IsWindow(pcm, frame)
  {
    Energy(pcm, frame * FRAME, frame * FRAME + WINDOW)
  }

  /** The leftmost of the loudest windows among those that start before `bound`. */
  ghost predicate IsBest(pcm: seq<int>, frame: nat, bound: int) {
    && frame < bound && IsWindow(pcm, frame)
    && forall g: nat | g < bound && IsWindow(pcm, g) ::
         if g < frame then WindowEnergy(pcm, g) < WindowEnergy(pcm, frame)
         else WindowEnergy(pcm, g) <= WindowEnergy(pcm, frame)
  }

  /** A window is a frame longer and a frame shorter than its neighbour. */
  lemma WindowSlides(pcm: seq<int>, frame: nat)
    requires IsWindow(pcm, frame) && IsWindow(pcm, frame + 1)
    ensures WindowEnergy(pcm, frame + 1)
         == WindowEnergy(pcm, frame) + FrameEnergy(pcm, frame + WINDOW_FRAMES) - FrameEnergy(pcm, frame)
  {
    var lo, hi := frame * FRAME, frame * FRAME + WINDOW;
    EnergySplits(pcm, lo, lo + FRAME, hi + FRAME);
    EnergySplits(pcm, lo, hi, hi + FRAME);
  }

  function FrameEnergy(pcm: seq<int>, frame: nat): int
    requires frame < Frames(pcm)
  {
    Energy(pcm, frame * FRAME, frame * FRAME + FRAME)
  }

  /** The best window is silent exactly when every whole frame is. */
  lemma BestOfSilence(pcm: seq<int>, frame: nat)
    requires IsBest(pcm, frame, Frames(pcm) - WINDOW_FRAMES + 1)
    ensures WindowEnergy(pcm, frame) <= 0 <==> Silent(pcm, 0, Frames(pcm) * FRAME)
  {
    EnergyOfSilence(pcm, frame * FRAME, frame * FRAME + WINDOW);
    if WindowEnergy(pcm, frame) <= 0 {
      forall i: nat | i < Frames(pcm) * FRAME ensures pcm[i] == 0 {
        var g := if i / FRAME + WINDOW_FRAMES <= Frames(pcm) then i / FRAME else Frames(pcm) - WINDOW_FRAMES;
        assert g * FRAME <= i < g * FRAME + WINDOW;
        EnergyOfSilence(pcm, g * FRAME, g * FRAME + WINDOW);
        assert WindowEnergy(pcm, g) <= WindowEnergy(pcm, frame);
      }
    }
  }

  // ---------------------------------------------------------------- the search

  method FrameEnergies(pcm: seq<int>) returns (energies: seq<int>)
    ensures |energies| == Frames(pcm)
    ensures forall f: nat | f < |energies| :: energies[f] == FrameEnergy(pcm, f)
  {
    energies := [];
    var offset: nat := 0;
    while offset + FRAME <= |pcm|
      invariant offset == |energies| * FRAME <= |pcm|
      invariant forall f: nat | f < |energies| :: energies[f] == FrameEnergy(pcm, f)
    {
      var sum := 0;
      for k := offset to offset + FRAME
        invariant sum == Energy(pcm, offset, k)
      {
        sum := sum + pcm[k] * pcm[k];
      }
      energies := energies + [sum];
      offset := offset + FRAME;
    }
  }

  method FirstWindow(pcm: seq<int>, energies: seq<int>) returns (rolling: int)
    requires |energies| == Frames(pcm) && IsWindow(pcm, 0)
    requires forall f: nat | f < |energies| :: energies[f] == FrameEnergy(pcm, f)
    ensures rolling == WindowEnergy(pcm, 0)
  {
    rolling := 0;
    for f := 0 to WINDOW_FRAMES
      invariant rolling == Energy(pcm, 0, f * FRAME)
    {
      EnergySplits(pcm, 0, f * FRAME, f * FRAME + FRAME);
      rolling := rolling + energies[f];
    }
  }

  /** The rolling search: one pass over the frame energies finds the leftmost loudest window. */
  method LoudestWindow(pcm: seq<int>) returns (frame: nat, energy: int)
    requires IsWindow(pcm, 0)
    ensures IsBest(pcm, frame, Frames(pcm) - WINDOW_FRAMES + 1)
    ensures energy == WindowEnergy(pcm, frame)
  {
    var energies := FrameEnergies(pcm);
    var rolling := FirstWindow(pcm, energies);
    energy, frame := rolling, 0;
    for index := WINDOW_FRAMES to |energies|
      invariant rolling == WindowEnergy(pcm, index - WINDOW_FRAMES)
      invariant IsBest(pcm, frame, index - WINDOW_FRAMES + 1)
      invariant energy == WindowEnergy(pcm, frame)
    {
      WindowSlides(pcm, index - WINDOW_FRAMES);
      rolling := rolling + (energies[index] - energies[index - WINDOW_FRAMES]);
      if rolling > energy {
        energy, frame := rolling, index - WINDOW_FRAMES + 1;
      }
    }
  }

  datatype Outcome = BadFormat | NoSpeech | Selected(start: nat, samples: seq<int>)

  predicate Usable(channels: nat, sampleWidth: nat, rate: nat, recording: seq<int>) {
    channels == 1 && sampleWidth == 2 && rate == RATE && |recording| >= 3 * RATE
  }

  /** At most fifteen seconds are read; what is kept is the loudest aligned three seconds of them. */
  method MaterializeVoiceSample(channels: nat, sampleWidth: nat, rate: nat, recording: seq<int>) returns (r: Outcome)
    ensures r.BadFormat? <==> channels != 1 || sampleWidth != 2 || rate != 16_000 || |recording| < 48_000
    ensures
      var pcm := Prefix(recording, 15 * RATE);
      && (r.NoSpeech? ==> Silent(pcm, 0, Frames(pcm) * FRAME))
      && (r.Selected? ==>
            && !Silent(pcm, 0, Frames(pcm) * FRAME)
            && (exists f: nat :: r.start == f * FRAME && IsBest(pcm, f, Frames(pcm) - WINDOW_FRAMES + 1))
            && r.start + WINDOW <= |pcm| && r.samples == pcm[r.start..r.start + WINDOW])
  {
    if !Usable(channels, sampleWidth, rate, recording) {
      return BadFormat;
    }
    var pcm := Prefix(recording, 15 * RATE);
    var frame, energy := LoudestWindow(pcm);
    BestOfSilence(pcm, frame);
    if energy <= 0 {
      return NoSpeech;
    }
    var start := frame * FRAME;
    return Selected(start, pcm[start..start + WINDOW]);
  }

  /** The leftmost loudest window is the only one of its kind, so the search has one possible answer. */
  lemma BestIsUnique(pcm: seq<int>, f: nat, g: nat, bound: int)
    requires IsBest(pcm, f, bound) && IsBest(pcm, g, bound)
    ensures f == g
  {
    assert WindowEnergy(pcm, f) == WindowEnergy(pcm, g);
  }
}
