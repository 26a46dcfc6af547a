/**
 * The audio manager's tracks as values: the playing/active flags and the gain
 * target of each sound, and the three whole-ensemble updates the manager
 * applies (start every music track, follow the towers' sound keys, reset).
 */
module Tracks {

  /**
   * One loaded sound. `hasSource` records that a buffer source was created
   * for it; `gainTarget` is the value the last gain ramp aims at.
   */
  datatype Track = Track(key: string, isMusic: bool, active: bool, playing: bool, hasSource: bool, gainTarget: real)

  /** Only a sound with a source can be playing. */
  ghost predicate WellFormed(s: seq<Track>) {
    forall i :: 0 <= i < |s| ==> s[i].playing ==> s[i].hasSource
  }

  /** The records the loader creates: muted, inactive, not playing. */
  function InitialTracks(mappings: seq<(string, bool)>): (s: seq<Track>)
    ensures |s| == |mappings| && WellFormed(s)
    ensures forall i :: 0 <= i < |s| ==>
      s[i].key == mappings[i].0 && s[i].isMusic == mappings[i].1 &&
      !s[i].active && !s[i].playing && !s[i].hasSource && s[i].gainTarget == 0.0
  {
    seq(|mappings|, i requires 0 <= i < |mappings| => Track(mappings[i].0, mappings[i].1, false, false, false, 0.0))
  }

  /** Every music track is playing (allTracksStarted). */
  ghost predicate AllMusicPlaying(s: seq<Track>) {
    forall i :: 0 <= i < |s| && s[i].isMusic ==> s[i].playing
  }

  /** A music track that is not playing gets a new looping source and plays. */
  function StartTrack(t: Track): Track {
    if t.isMusic && !t.playing then t.(playing := true, hasSource := true) else t
  }

  function StartedTracks(s: seq<Track>): (r: seq<Track>)
    ensures |r| == |s|
    ensures forall i :: 0 <= i < |s| ==> r[i] == StartTrack(s[i])
  {
    seq(|s|, i requires 0 <= i < |s| => StartTrack(s[i]))
  }

  /**
   * Starting the tracks leaves every music track playing; it changes only
   * the music tracks that were not playing, and only their playing/source
   * flags. A second start changes nothing, and neither does a start when all
   * music tracks already play.
   */
  lemma StartedTracksSpec(s: seq<Track>)
    requires WellFormed(s)
    ensures WellFormed(StartedTracks(s)) && AllMusicPlaying(StartedTracks(s))
    ensures forall i :: 0 <= i < |s| && (!s[i].isMusic || s[i].playing) ==> StartedTracks(s)[i] == s[i]
    ensures forall i :: 0 <= i < |s| ==>
      StartedTracks(s)[i].(playing := s[i].playing, hasSource := s[i].hasSource) == s[i]
    ensures StartedTracks(StartedTracks(s)) == StartedTracks(s)
    ensures AllMusicPlaying(s) ==> StartedTracks(s) == s
  {
  }

  /** The set of non-empty sound keys of the towers (activeSoundKeys). */
  function ActiveKeys(keys: seq<string>): set<string> {
    set k | k in keys && k != ""
  }

  /**
   * A music track whose active flag disagrees with membership of its key
   * takes the membership as its flag and ramps toward 0.5 (active) or 0.
   */
  function GainTrack(t: Track, keys: set<string>): Track {
    if t.isMusic && (t.key in keys) != t.active
    then t.(active := t.key in keys, gainTarget := if t.key in keys then 0.5 else 0.0)
    else t
  }

  function GainUpdate(s: seq<Track>, keys: set<string>): (r: seq<Track>)
    ensures |r| == |s|
    ensures forall i :: 0 <= i < |s| ==> r[i] == GainTrack(s[i], keys)
  {
    seq(|s|, i requires 0 <= i < |s| => GainTrack(s[i], keys))
  }

  /**
   * After a gain update each music track is active exactly when its key is
   * in the set, with gain target 0.5 or 0 where it changed. A track's gain
   * target changes only on an edge of its active flag, playback flags are
   * never touched, and a second update with the same keys changes nothing.
   */
  lemma GainUpdateSpec(s: seq<Track>, keys: set<string>)
    requires WellFormed(s)
    ensures WellFormed(GainUpdate(s, keys))
    ensures forall i :: 0 <= i < |s| && s[i].isMusic ==> GainUpdate(s, keys)[i].active == (s[i].key in keys)
    ensures forall i :: 0 <= i < |s| && GainUpdate(s, keys)[i].gainTarget != s[i].gainTarget ==>
      s[i].isMusic && s[i].active != (s[i].key in keys) &&
      GainUpdate(s, keys)[i].gainTarget == (if s[i].key in keys then 0.5 else 0.0)
    ensures forall i :: 0 <= i < |s| ==>
      GainUpdate(s, keys)[i].playing == s[i].playing && GainUpdate(s, keys)[i].hasSource == s[i].hasSource
    ensures GainUpdate(GainUpdate(s, keys), keys) == GainUpdate(s, keys)
  {
  }

  /** A music track is muted, deactivated and, if it has a playing source, stopped. */
  function ResetTrack(t: Track): Track {
    if t.isMusic
    then t.(gainTarget := 0.0, active := false, playing := if t.hasSource && t.playing then false else t.playing)
    else t
  }

  function ResetTracks(s: seq<Track>): (r: seq<Track>)
    ensures |r| == |s|
    ensures forall i :: 0 <= i < |s| ==> r[i] == ResetTrack(s[i])
  {
    seq(|s|, i requires 0 <= i < |s| => ResetTrack(s[i]))
  }

  /**
   * After a reset no music track plays, is active or has a non-zero gain
   * target; a second reset changes nothing, and a later start plays every
   * music track again. If there is any music track, not all tracks count as
   * started any more.
   */
  lemma ResetTracksSpec(s: seq<Track>)
    requires WellFormed(s)
    ensures WellFormed(ResetTracks(s))
    ensures forall i :: 0 <= i < |s| && s[i].isMusic ==>
      !ResetTracks(s)[i].playing && !ResetTracks(s)[i].active && ResetTracks(s)[i].gainTarget == 0.0
    ensures ResetTracks(ResetTracks(s)) == ResetTracks(s)
    ensures AllMusicPlaying(StartedTracks(ResetTracks(s)))
    ensures (exists i :: 0 <= i < |s| && s[i].isMusic) ==> !AllMusicPlaying(ResetTracks(s))
  {
    StartedTracksSpec(ResetTracks(s));
  }

}
