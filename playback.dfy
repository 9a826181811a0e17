/** The single-slot audio handle (`audioRef`) the recording page and the
    script editor share in shape: every cue played creates a new audio
    object, and the one held before is paused first. The handle is the
    history of audio objects created; the held one is the last. */
module Playback {
  import opened Wrappers

  datatype Clip = Clip(url: string, playing: bool)

  /** No audio object but the held one is playing. */
  predicate AtMostLastPlaying(clips: seq<Clip>) {
    forall i :: 0 <= i < |clips| - 1 ==> !clips[i].playing
  }

  /** The audio object `audioRef.current` holds, if any. */
  function Held(clips: seq<Clip>): Option<Clip> {
    if clips == [] then None else Some(clips[|clips| - 1])
  }

  /** `audioRef.current.pause()` when there is a held object. */
  function PauseHeld(clips: seq<Clip>): (r: seq<Clip>)
    ensures |r| == |clips|
    ensures forall i :: 0 <= i < |clips| - 1 ==> r[i] == clips[i]
    ensures r != [] ==> r[|r| - 1] == clips[|clips| - 1].(playing := false)
  {
    if clips == [] then [] else clips[..|clips| - 1] + [clips[|clips| - 1].(playing := false)]
  }

  /** Pause what is held, then hold and play a new object for `url`. */
  function PlayNew(clips: seq<Clip>, url: string): (r: seq<Clip>)
    ensures |r| == |clips| + 1 && Held(r) == Some(Clip(url, true))
  {
    PauseHeld(clips) + [Clip(url, true)]
  }

  /** The held object finished playing (`onended`). */
  function EndHeld(clips: seq<Clip>): seq<Clip> {
    PauseHeld(clips)
  }

  /** At most one audio object ever plays: playing a new cue silences the
      previous one, and nothing older is touched. */
  lemma PlayNewKeepsOneVoice(clips: seq<Clip>, url: string)
    requires AtMostLastPlaying(clips)
    ensures AtMostLastPlaying(PlayNew(clips, url))
    ensures forall i :: 0 <= i < |clips| ==> !PlayNew(clips, url)[i].playing
    ensures forall i :: 0 <= i < |clips| ==> PlayNew(clips, url)[i].url == clips[i].url
  {
  }

  /** After pausing, nothing plays at all. */
  lemma PauseHeldSilences(clips: seq<Clip>)
    requires AtMostLastPlaying(clips)
    ensures forall i :: 0 <= i < |clips| ==> !PauseHeld(clips)[i].playing
    ensures PauseHeld(PauseHeld(clips)) == PauseHeld(clips)
  {
  }

  /** The number of objects playing. */
  function PlayingCount(clips: seq<Clip>): nat {
    if clips == [] then 0 else PlayingCount(clips[..|clips| - 1]) + (if clips[|clips| - 1].playing then 1 else 0)
  }

  lemma {:induction false} NoneBeforeLast(clips: seq<Clip>)
    requires forall i :: 0 <= i < |clips| ==> !clips[i].playing
    ensures PlayingCount(clips) == 0
  {
    if clips != [] {
      NoneBeforeLast(clips[..|clips| - 1]);
    }
  }

  /** The invariant means what it says: at most one object is playing,
      and if one is, it is the held one. */
  lemma AtMostOnePlaying(clips: seq<Clip>)
    requires AtMostLastPlaying(clips)
    ensures PlayingCount(clips) <= 1
    ensures PlayingCount(clips) == 1 <==> clips != [] && clips[|clips| - 1].playing
  {
    if clips != [] {
      NoneBeforeLast(clips[..|clips| - 1]);
    }
  }
}
