/** AudioPlaylistPlayer: plays a list of clips in order, wrapping back to the
    first, and optionally gives every track its own pitch. */
module Playlist {
  import opened Scene

  /** Unity's AudioSource pitch range. */
  const MinPitch: real := -3.0
  const MaxPitch: real := 3.0

  /** Mathf.Clamp. */
  function Clamp(v: real, lo: real, hi: real): (r: real)
    requires lo <= hi
    ensures lo <= r <= hi
    ensures lo <= v <= hi ==> r == v
    ensures v < lo ==> r == lo
    ensures hi < v ==> r == hi
  {
    if v < lo then lo else if hi < v then hi else v
  }

  /** C#'s `%` on int: `a` less the result is a multiple of `b`, and the
      result takes the sign of the dividend (truncated division). */
  function CsRem(a: int, b: int): (r: int)
    requires b > 0
    ensures (a - r) % b == 0
    ensures a >= 0 ==> 0 <= r < b
    ensures a < 0 ==> -b < r <= 0
  {
    if a >= 0 then
      MultipleHasNoRemainder(a / b, b);
      a % b
    else
      MultipleHasNoRemainder(-((-a) / b), b);
      -((-a) % b)
  }

  /** A multiple of `b` leaves no remainder. */
  lemma MultipleHasNoRemainder(q: int, b: int)
    requires b > 0
    ensures (q * b) % b == 0
  {
    var d, m := (q * b) / b, (q * b) % b;
    assert q * b == d * b + m && 0 <= m < b;
    assert m == (q - d) * b;
    assert q - d >= 1 ==> (q - d) * b >= b;
    assert q - d <= -1 ==> (q - d) * b <= -b;
  }

  /** The index after `i` in a playlist of `n` tracks: one on, back to the
      first past the end. */
  function NextIndex(i: int, n: nat): (r: int)
    ensures 0 <= i && n > 0 ==> 0 <= r < n
    ensures r == 0 || r == i + 1
  {
    if i + 1 >= n then 0 else i + 1
  }

  /** The index reached from `i` after `k` advances. */
  function Advanced(i: int, k: nat, n: nat): int
  {
    if k == 0 then i else NextIndex(Advanced(i, k - 1, n), n)
  }

  /** Advancing `a` then `b` times is advancing `a + b` times. */
  lemma {:induction false} AdvancedSplits(i: int, a: nat, b: nat, n: nat)
    ensures Advanced(Advanced(i, a, n), b, n) == Advanced(i, a + b, n)
  {
    if b > 0 {
      AdvancedSplits(i, a, b - 1, n);
    }
  }

  /** Before the end of the list the index just counts up. */
  lemma {:induction false} AdvancedCountsUp(i: int, k: nat, n: nat)
    requires 0 <= i && i + k < n
    ensures Advanced(i, k, n) == i + k
  {
    if k > 0 {
      AdvancedCountsUp(i, k - 1, n);
    }
  }

  /** The step past the last track lands on the first. */
  lemma AdvancedWraps(i: int, n: nat)
    requires 0 <= i < n
    ensures Advanced(i, n - i, n) == 0
  {
    AdvancedCountsUp(i, n - i - 1, n);
  }

  /** A full lap of `n` advances comes back to the track it started from,
      and no shorter one does, so the playlist loops with period `n`. */
  lemma FullLapReturns(i: int, n: nat)
    requires 0 <= i < n
    ensures Advanced(i, n, n) == i
    ensures forall k: nat :: 0 < k < n ==> Advanced(i, k, n) != i
  {
    AdvancedWraps(i, n);
    AdvancedSplits(i, n - i, i, n);
    if i > 0 {
      AdvancedCountsUp(0, i - 1, n);
      assert Advanced(0, i, n) == NextIndex(i - 1, n);
    }
    forall k: nat | 0 < k < n
      ensures Advanced(i, k, n) != i
    {
      if i + k < n {
        AdvancedCountsUp(i, k, n);
      } else {
        AdvancedWraps(i, n);
        AdvancedSplits(i, n - i, k - (n - i), n);
        AdvancedCountsUp(0, k - (n - i), n);
      }
    }
  }

  /** A smoothing of the pitch in progress (the pitch coroutine): it ends
      with the pitch on `target` after `time` seconds. */
  datatype Glide = Glide(target: real, time: real)

  /** The pitch settings of the component, as set in the inspector. */
  datatype PitchSettings = PitchSettings(
    enablePitchShifter: bool, basePitch: real, pitchVariation: real,
    randomizePerTrack: bool, smoothPitchChange: bool, pitchSmoothTime: real)

  /** ComputePitchForTrack. `rnd` is the Random.value drawn for this track
      (used only in random mode); the deterministic variation spreads the
      track index, modulo 100, over [-1, 1) times the variation. */
  function PitchForTrack(s: PitchSettings, trackIndex: int, rnd: real): (r: real)
    ensures MinPitch <= r <= MaxPitch
  {
    var variation :=
      if s.randomizePerTrack then (rnd * 2.0 - 1.0) * s.pitchVariation
      else
        var t := CsRem(trackIndex, 100) as real / 100.0;
        (t * 2.0 - 1.0) * s.pitchVariation;
    Clamp(s.basePitch + variation, MinPitch, MaxPitch)
  }

  /** In deterministic mode the pitch depends on the track index only. */
  lemma DeterministicPitch(s: PitchSettings, i: int, rnd1: real, rnd2: real)
    requires !s.randomizePerTrack
    ensures PitchForTrack(s, i, rnd1) == PitchForTrack(s, i, rnd2)
  {
  }

  /** ApplyPitch on values: a pending glide is cancelled; a positive
      smoothing time starts a new glide and leaves the pitch for it to move,
      otherwise the pitch is set at once. */
  function Applied(pitch: real, target: real, smoothTime: real): (real, Option<Glide>)
  {
    if smoothTime > 0.0 then (pitch, Some(Glide(target, smoothTime))) else (target, None)
  }

  /** The end of a glide: the pitch lands on its target. */
  function Settled(pitch: real, glide: Option<Glide>): real
  {
    if glide.Some? then glide.value.target else pitch
  }

  /** However it was applied, a pitch ends on its target once the glide,
      if any, has run out; and it is never left half-way with two glides. */
  lemma AppliedPitchSettles(pitch: real, target: real, smoothTime: real)
    ensures var (p, g) := Applied(pitch, target, smoothTime);
      Settled(p, g) == target
      && (g.Some? <==> smoothTime > 0.0)
      && (g.None? ==> p == target)
  {
  }

  class PlaylistPlayer {
    // Inspector configuration; clips are identified by number.
    const playlist: seq<int>
    const settings: PitchSettings
    // Whether Awake found the AudioSource (the component requires one).
    const hasSource: bool

    // The AudioSource's state as this component sets it.
    var clip: Option<int>
    var pitch: real
    var loop: bool
    var isPlaying: bool

    var currentTrackIndex: int
    var pitchGlide: Option<Glide>   // _pitchCoroutine

    /** The track index is always a valid index, or 0 for an empty list. */
    ghost predicate Valid()
      reads this`currentTrackIndex
    {
      0 <= currentTrackIndex && (currentTrackIndex < |playlist| || currentTrackIndex == 0)
    }

    constructor (tracks: seq<int>, s: PitchSettings, source: bool, startPitch: real)
      ensures Valid() && currentTrackIndex == 0 && pitchGlide == None
      ensures playlist == tracks && settings == s && hasSource == source
      ensures clip == None && pitch == startPitch && !isPlaying && loop
    {
      playlist, settings, hasSource := tracks, s, source;
      clip, pitch, loop, isPlaying := None, startPitch, true, false;
      currentTrackIndex, pitchGlide := 0, None;
    }

    /** Start: looping off, then the current track when there is one. */
    method Start(rnd: real)
      requires Valid() && hasSource
      modifies this`loop, this`clip, this`pitch, this`pitchGlide, this`isPlaying
      ensures Valid() && !loop
      ensures |playlist| == 0 ==>
        clip == old(clip) && pitch == old(pitch) && pitchGlide == old(pitchGlide) && isPlaying == old(isPlaying)
      ensures |playlist| > 0 ==>
        clip == Some(playlist[currentTrackIndex]) && isPlaying
        && (pitch, pitchGlide) == Applied(old(pitch), TrackTarget(currentTrackIndex, rnd), TrackSmoothing())
    {
      loop := false;
      if |playlist| > 0 {
        PlayTrack(currentTrackIndex, rnd);
      }
    }

    /** Update: advance when there are tracks and the source has stopped. */
    method Update(rnd: real)
      requires Valid() && hasSource
      modifies this`currentTrackIndex, this`clip, this`pitch, this`pitchGlide, this`isPlaying
      ensures Valid()
      ensures |playlist| > 0 && !old(isPlaying) ==>
        currentTrackIndex == NextIndex(old(currentTrackIndex), |playlist|)
        && clip == Some(playlist[currentTrackIndex]) && isPlaying
        && (pitch, pitchGlide) == Applied(old(pitch), TrackTarget(currentTrackIndex, rnd), TrackSmoothing())
      ensures |playlist| == 0 || old(isPlaying) ==> unchanged(this)
    {
      if |playlist| > 0 && !isPlaying {
        PlayNextTrack(rnd);
      }
    }

    /** One track on, wrapping to the first; then play it. */
    method PlayNextTrack(rnd: real)
      requires Valid() && hasSource
      modifies this`currentTrackIndex, this`clip, this`pitch, this`pitchGlide, this`isPlaying
      ensures Valid()
      ensures currentTrackIndex == NextIndex(old(currentTrackIndex), |playlist|)
      ensures |playlist| > 0 ==>
        clip == Some(playlist[currentTrackIndex]) && isPlaying
        && (pitch, pitchGlide) == Applied(old(pitch), TrackTarget(currentTrackIndex, rnd), TrackSmoothing())
      ensures |playlist| == 0 ==>
        clip == old(clip) && pitch == old(pitch) && pitchGlide == old(pitchGlide) && isPlaying == old(isPlaying)
    {
      currentTrackIndex := currentTrackIndex + 1;
      if currentTrackIndex >= |playlist| {
        currentTrackIndex := 0;
      }
      PlayTrack(currentTrackIndex, rnd);
    }

    /** Play one track: an index outside the list does nothing; otherwise
        its clip, its pitch (the shifter's, smoothed when asked, or the base
        pitch at once) and play. */
    method PlayTrack(trackIndex: int, rnd: real)
      requires hasSource
      modifies this`clip, this`pitch, this`pitchGlide, this`isPlaying
      ensures !(0 <= trackIndex < |playlist|) ==> unchanged(this)
      ensures 0 <= trackIndex < |playlist| ==>
        clip == Some(playlist[trackIndex]) && isPlaying
        && (pitch, pitchGlide) == Applied(old(pitch), TrackTarget(trackIndex, rnd), TrackSmoothing())
    {
      if 0 <= trackIndex < |playlist| {
        clip := Some(playlist[trackIndex]);
        if settings.enablePitchShifter {
          var target := PitchForTrack(settings, trackIndex, rnd);
          ApplyPitch(target, if settings.smoothPitchChange then settings.pitchSmoothTime else 0.0);
        } else {
          ApplyPitch(settings.basePitch, 0.0);
        }
        isPlaying := true;
      }
    }

    /** The pitch a track is played at: the shifter's, or the base pitch. */
    function TrackTarget(trackIndex: int, rnd: real): real
    {
      if settings.enablePitchShifter then PitchForTrack(settings, trackIndex, rnd) else settings.basePitch
    }

    /** The smoothing time a track change uses: none without the shifter. */
    function TrackSmoothing(): real
    {
      if settings.enablePitchShifter && settings.smoothPitchChange then settings.pitchSmoothTime else 0.0
    }

    /** With the shifter off, a track is played at exactly the base pitch,
        set at once (the base pitch is not clamped on this path). */
    lemma ShifterOffPlaysBasePitch(trackIndex: int, rnd: real, current: real)
      requires !settings.enablePitchShifter
      ensures Applied(current, TrackTarget(trackIndex, rnd), TrackSmoothing()) == (settings.basePitch, None)
    {
    }

    /** With the shifter on, the pitch a track gets is in the engine's range. */
    lemma ShifterOnStaysInRange(trackIndex: int, rnd: real, current: real)
      requires settings.enablePitchShifter
      ensures MinPitch <= Settled(Applied(current, TrackTarget(trackIndex, rnd), TrackSmoothing()).0,
                                  Applied(current, TrackTarget(trackIndex, rnd), TrackSmoothing()).1) <= MaxPitch
    {
      AppliedPitchSettles(current, TrackTarget(trackIndex, rnd), TrackSmoothing());
    }

    /** ApplyPitch: cancel a pending glide, then glide or set at once. */
    method ApplyPitch(targetPitch: real, smoothTime: real)
      modifies this`pitch, this`pitchGlide
      ensures (pitch, pitchGlide) == Applied(old(pitch), targetPitch, smoothTime)
    {
      if pitchGlide != None {
        pitchGlide := None;
      }
      if smoothTime > 0.0 {
        pitchGlide := Some(Glide(targetPitch, smoothTime));
      } else {
        pitch := targetPitch;
      }
    }

    /** The last step of the pitch coroutine: the pitch lands on the target. */
    method FinishGlide()
      modifies this`pitch, this`pitchGlide
      ensures pitch == Settled(old(pitch), old(pitchGlide)) && pitchGlide == None
    {
      if pitchGlide.Some? {
        pitch := pitchGlide.value.target;
        pitchGlide := None;
      }
    }

    /** SetPitchImmediate: without a source nothing happens; otherwise the
        glide is cancelled and the clamped pitch set at once. */
    method SetPitchImmediate(p: real)
      modifies this`pitch, this`pitchGlide
      ensures !hasSource ==> unchanged(this)
      ensures hasSource ==> pitch == Clamp(p, MinPitch, MaxPitch) && pitchGlide == None
    {
      if !hasSource {
        return;
      }
      if pitchGlide != None {
        pitchGlide := None;
      }
      pitch := Clamp(p, MinPitch, MaxPitch);
    }

    /** SetPitchSmooth: without a source nothing happens; otherwise the
        clamped pitch is applied with the given smoothing. */
    method SetPitchSmooth(p: real, smoothTime: real)
      modifies this`pitch, this`pitchGlide
      ensures !hasSource ==> unchanged(this)
      ensures hasSource ==> (pitch, pitchGlide) == Applied(old(pitch), Clamp(p, MinPitch, MaxPitch), smoothTime)
      ensures hasSource ==> MinPitch <= Settled(pitch, pitchGlide) <= MaxPitch
    {
      if !hasSource {
        return;
      }
      ApplyPitch(Clamp(p, MinPitch, MaxPitch), smoothTime);
    }
  }
}
