/** The background music player: it picks a random track of the playlist,
    avoiding an immediate repeat of the previous one when so configured.
    The `Random.Range(0, count)` draws are parameters; the audio source is
    modelled by its clip, volume and playing flag. */
module Music {
  import opened Numerics

  /** An audio clip of the playlist. */
  datatype Clip = Clip(name: string)

  /** One or two draws of `Random.Range(0, count)`; the second is read only on a reroll. */
  datatype Draws = Draws(first: int, second: int)

  predicate DrawsIn(d: Draws, count: int)
  {
    0 <= d.first < count && 0 <= d.second < count
  }

  /** `GetRandomIndex`: a single track is always index 0. Otherwise the first
      draw, except that with `avoidImmediateRepeat` a draw equal to the last
      index is rerolled once, and a reroll that lands on it again moves to the
      next index, wrapping around. */
  function RandomIndex(count: int, avoidImmediateRepeat: bool, lastIndex: int, d: Draws): (index: int)
    requires count > 0
    ensures count == 1 ==> index == 0
    ensures DrawsIn(d, count) ==> 0 <= index < count
    ensures avoidImmediateRepeat && count >= 2 && DrawsIn(d, count) ==> index != lastIndex
    ensures count >= 2 && (!avoidImmediateRepeat || d.first != lastIndex) ==> index == d.first
  {
    if count == 1 then 0
    else if avoidImmediateRepeat && d.first == lastIndex then
      if d.second == lastIndex then TruncMod(d.second + 1, count) else d.second
    else d.first
  }

  /** The indices played by successive `PlayRandomTrack` calls on a playlist of `count` tracks. */
  function Playlist(count: int, avoidImmediateRepeat: bool, lastIndex: int, draws: seq<Draws>): (played: seq<int>)
    requires count > 0
    ensures |played| == |draws|
    decreases |draws|
  {
    if draws == [] then []
    else
      var index := RandomIndex(count, avoidImmediateRepeat, lastIndex, draws[0]);
      [index] + Playlist(count, avoidImmediateRepeat, index, draws[1..])
  }

  /** With `avoidImmediateRepeat` and at least two tracks, no track is played
      twice in a row, including across the track that was playing before. */
  lemma {:induction false} NoImmediateRepeat(count: int, lastIndex: int, draws: seq<Draws>)
    requires count >= 2
    requires forall k :: 0 <= k < |draws| ==> DrawsIn(draws[k], count)
    ensures var played := Playlist(count, true, lastIndex, draws);
      && (forall k :: 0 <= k < |played| ==> 0 <= played[k] < count)
      && (|played| > 0 ==> played[0] != lastIndex)
      && (forall k :: 0 < k < |played| ==> played[k] != played[k - 1])
    decreases |draws|
  {
    if draws != [] {
      var index := RandomIndex(count, true, lastIndex, draws[0]);
      var rest := Playlist(count, true, index, draws[1..]);
      NoImmediateRepeat(count, index, draws[1..]);
      var played := Playlist(count, true, lastIndex, draws);
      assert played == [index] + rest;
      forall k | 0 < k < |played|
        ensures played[k] != played[k - 1] && 0 <= played[k] < count
      {
        assert played[k] == rest[k - 1];
        if k > 1 {
          assert played[k - 1] == rest[k - 2];
        }
      }
    }
  }

  /** Without `avoidImmediateRepeat` every play is simply the first draw. */
  lemma {:induction false} PlaylistFollowsDraws(count: int, lastIndex: int, draws: seq<Draws>)
    requires count >= 2
    ensures forall k :: 0 <= k < |draws| ==> Playlist(count, false, lastIndex, draws)[k] == draws[k].first
    decreases |draws|
  {
    if draws != [] {
      var index := RandomIndex(count, false, lastIndex, draws[0]);
      PlaylistFollowsDraws(count, index, draws[1..]);
      var played := Playlist(count, false, lastIndex, draws);
      assert played == [index] + Playlist(count, false, index, draws[1..]);
      forall k | 0 < k < |draws|
        ensures played[k] == draws[k].first
      {
        assert played[k] == Playlist(count, false, index, draws[1..])[k - 1];
        assert draws[1..][k - 1] == draws[k];
      }
    }
  }

  class RandomMusicPlayer {
    var tracks: seq<Clip>
    var avoidImmediateRepeat: bool
    var volume: real
    var lastIndex: int
    // The audio source.
    var clip: Option<Clip>
    var sourceVolume: real
    var playing: bool

    /** A player with nothing played yet. */
    constructor (playlist: seq<Clip>, avoidRepeat: bool)
      ensures tracks == playlist && avoidImmediateRepeat == avoidRepeat
      ensures volume == 1.0 && lastIndex == -1 && clip == None && !playing
    {
      tracks := playlist;
      avoidImmediateRepeat := avoidRepeat;
      volume := 1.0;
      lastIndex := -1;
      clip := None;
      sourceVolume := 1.0;
      playing := false;
    }

    /** Plays a randomly chosen track. The draws are those of `Random.Range(0, count)`,
        hence within the playlist. An empty playlist changes nothing. */
    method PlayRandomTrack(d: Draws)
      requires |tracks| > 0 ==> DrawsIn(d, |tracks|)
      modifies this`clip, this`sourceVolume, this`playing, this`lastIndex
      ensures |tracks| == 0 ==>
        clip == old(clip) && sourceVolume == old(sourceVolume) && playing == old(playing) && lastIndex == old(lastIndex)
      ensures |tracks| > 0 ==>
        && lastIndex == RandomIndex(|tracks|, avoidImmediateRepeat, old(lastIndex), d)
        && 0 <= lastIndex < |tracks|
        && clip == Some(tracks[lastIndex]) && sourceVolume == volume && playing
      ensures |tracks| >= 2 && avoidImmediateRepeat ==> lastIndex != old(lastIndex)
    {
      if |tracks| == 0 {
        return;
      }
      var index := RandomIndex(|tracks|, avoidImmediateRepeat, lastIndex, d);
      clip := Some(tracks[index]);
      sourceVolume := volume;
      playing := true;
      lastIndex := index;
    }

    /** The volume, kept within [0, 1], is applied to the source at once. */
    method SetVolume(newVolume: real)
      modifies this`volume, this`sourceVolume
      ensures volume == Clamp01(newVolume) && sourceVolume == volume
      ensures 0.0 <= volume <= 1.0
      ensures 0.0 <= newVolume <= 1.0 ==> volume == newVolume
    {
      volume := Clamp01(newVolume);
      sourceVolume := volume;
    }
  }
}
