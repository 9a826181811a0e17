/** The self-tape capture page (Recording.jsx): a three-second countdown,
    a media recorder fed from the camera/microphone stream, a buffer of
    recorded chunks, an elapsed-seconds timer, and manual line stepping
    that plays the partner's recorded cues. Browser objects (the stream,
    the recorder, audio objects, timers) appear as fields recording their
    state; their events arrive as method calls. */
module Recording {
  import opened Wrappers
  import opened Text
  import opened Script
  import opened Playback

  /** `MediaRecorder.state`. */
  datatype RecorderState = Inactive | Active | Paused

  /** A camera/microphone stream and which kinds of track it carries. */
  datatype MediaStream = MediaStream(video: bool, audio: bool)

  /** One `dataavailable` payload: its size in bytes and its position in
      the recorder's output. */
  datatype Chunk = Chunk(size: nat, position: nat)

  /** A toast the page shows. */
  datatype Notice = NoNotice | NoStream | DeviceError

  // ---------------------------------------------------------------- pure parts

  /** `formatTime(seconds)`: zero-padded minutes, a colon, two-digit seconds. */
  function FormatTime(seconds: nat): string {
    PadStart2(NatToString(seconds / 60)) + ":" + PadStart2(NatToString(seconds % 60))
  }

  /** The clock reads back: the part before the last three characters is
      the minutes (at least two digits), then a colon, then exactly two
      digits of seconds below 60, and minutes * 60 + seconds is the input. */
  lemma FormatTimeReadsBack(seconds: nat)
    ensures ReadsAsClock(FormatTime(seconds), 2, seconds)
  {
    var q, rem := seconds / 60, seconds % 60;
    assert q * 60 + rem == seconds;
    var m := PadStart2(NatToString(q));
    var sec := PadStart2(NatToString(rem));
    TwoDigitsBelowHundred(rem);
    NatToStringRoundTrip(q);
    NatToStringRoundTrip(rem);
    assert DigitsValue(m) == q && DigitsValue(sec) == rem;
    assert FormatTime(seconds) == m + ":" + sec;
    SplitClock(m, sec);
  }

  lemma FormatTimeExamples()
    ensures FormatTime(0) == "00:00"
    ensures FormatTime(75) == "01:15"
  {
    assert NatToString(0) == "0";
    assert NatToString(1) == "1";
    assert NatToString(15) == NatToString(1) + "5";
  }

  /** One tick of the countdown: `null` once the previous value is at most
      1, else one less. */
  function CountdownStep(prev: nat): Option<nat> {
    if prev <= 1 then None else Some(prev - 1)
  }

  /** The countdown shows 3, 2, 1, and ends on the third tick. */
  lemma CountdownRunsThreeTicks()
    ensures CountdownStep(3) == Some(2) && CountdownStep(2) == Some(1) && CountdownStep(1) == None
  {
  }

  /** The countdown after `k` more ticks of its interval: once it is
      `null` the interval is cleared and nothing ticks any more. */
  function AfterTicks(v: Option<nat>, k: nat): Option<nat>
    decreases k
  {
    if k == 0 || v.None? then v else AfterTicks(CountdownStep(v.value), k - 1)
  }

  /** A countdown started at any positive value `n` shows `n - k` after
      `k < n` ticks and ends on exactly the `n`-th tick. */
  lemma {:induction false} CountdownEndsAfter(n: nat, k: nat)
    requires n >= 1 && k <= n
    ensures AfterTicks(Some(n), k) == if k < n then Some(n - k) else None
  {
    if k > 0 && n > 1 {
      CountdownEndsAfter(n - 1, k - 1);
    }
  }

  /** The chunks the buffer keeps from a sequence of deliveries: the
      non-empty ones, in arrival order. */
  function NonEmptyChunks(delivered: seq<Chunk>): (r: seq<Chunk>)
    ensures |r| <= |delivered|
  {
    if delivered == [] then []
    else
      var last := delivered[|delivered| - 1];
      NonEmptyChunks(delivered[..|delivered| - 1]) + (if last.size > 0 then [last] else [])
  }

  lemma NonEmptyChunksSnoc(delivered: seq<Chunk>, c: Chunk)
    ensures NonEmptyChunks(delivered + [c]) == NonEmptyChunks(delivered) + (if c.size > 0 then [c] else [])
  {
    assert (delivered + [c])[..|delivered|] == delivered;
  }

  /** The buffer holds exactly the delivered chunks that carry data. */
  lemma {:induction false} NonEmptyChunksKeepExactlyData(delivered: seq<Chunk>)
    ensures forall c :: c in NonEmptyChunks(delivered) <==> c in delivered && c.size > 0
  {
    if delivered != [] {
      var init, last := delivered[..|delivered| - 1], delivered[|delivered| - 1];
      NonEmptyChunksKeepExactlyData(init);
      assert delivered == init + [last];
      assert forall c :: c in delivered <==> c in init || c == last;
    }
  }

  function TotalSize(cs: seq<Chunk>): nat {
    if cs == [] then 0 else TotalSize(cs[..|cs| - 1]) + cs[|cs| - 1].size
  }

  /** Dropping empty deliveries loses no data. */
  lemma {:induction false} NonEmptyChunksKeepAllData(delivered: seq<Chunk>)
    ensures TotalSize(NonEmptyChunks(delivered)) == TotalSize(delivered)
  {
    if delivered != [] {
      var init := delivered[..|delivered| - 1];
      var last := delivered[|delivered| - 1];
      NonEmptyChunksKeepAllData(init);
      TotalSizeAppend(NonEmptyChunks(init), if last.size > 0 then [last] else []);
    }
  }

  lemma {:induction false} TotalSizeAppend(a: seq<Chunk>, b: seq<Chunk>)
    ensures TotalSize(a + b) == TotalSize(a) + TotalSize(b)
    decreases |b|
  {
    if b != [] {
      assert (a + b)[..|a + b| - 1] == a + b[..|b| - 1];
      TotalSizeAppend(a, b[..|b| - 1]);
    } else {
      assert a + b == a;
    }
  }

  /** When no delivery is empty, the buffer is exactly the deliveries. */
  lemma {:induction false} NonEmptyChunksOfNonEmpty(delivered: seq<Chunk>)
    requires forall i :: 0 <= i < |delivered| ==> delivered[i].size > 0
    ensures NonEmptyChunks(delivered) == delivered
  {
    if delivered != [] {
      var init, last := delivered[..|delivered| - 1], delivered[|delivered| - 1];
      assert delivered == init + [last];
      assert forall i :: 0 <= i < |init| ==> init[i] == delivered[i];
      NonEmptyChunksOfNonEmpty(init);
      NonEmptyChunksSnoc(init, last);
    }
  }

  /** Cue auto-play gate: auto-play on, the line exists, is a partner's
      line, and has a recording. */
  predicate ShouldAutoPlay(autoPlay: bool, lines: seq<Line>, i: nat) {
    autoPlay && i < |lines| && !lines[i].isUserLine && HasAudio(lines[i])
  }

  /** The cue to play on reaching line `i`, if any. */
  function CueAt(autoPlay: bool, lines: seq<Line>, i: nat): (r: Option<string>)
    ensures r.Some? <==> ShouldAutoPlay(autoPlay, lines, i)
    ensures r.Some? ==> r.value == lines[i].audioUrl.value && r.value != ""
  {
    if ShouldAutoPlay(autoPlay, lines, i) then lines[i].audioUrl else None
  }

  /** A line of the performer's own is never cued, and nothing is cued
      with auto-play off. */
  lemma NoCueForOwnLines(autoPlay: bool, lines: seq<Line>, i: nat)
    requires !autoPlay || (i < |lines| && lines[i].isUserLine)
    ensures CueAt(autoPlay, lines, i) == None
  {
  }

  /** Every field of the page, for stating whole-state postconditions. */
  datatype Snapshot = Snapshot(
    index: nat,
    recording: bool,
    paused: bool,
    blob: Option<seq<Chunk>>,
    url: Option<string>,
    countdown: Option<nat>,
    countdownTicking: bool,
    time: nat,
    timerRunning: bool,
    camera: bool,
    mic: bool,
    autoPlay: bool,
    stream: Option<MediaStream>,
    released: seq<MediaStream>,
    recorder: Option<RecorderState>,
    chunks: seq<Chunk>,
    clips: seq<Clip>)

  /** `streamRef.current` after `stopMediaStream`: released and null. */
  function Released(stream: Option<MediaStream>, released: seq<MediaStream>): seq<MediaStream> {
    if stream.Some? then released + [stream.value] else released
  }

  /** The page's invariant on its fields: the line cursor is in range,
      the countdown interval runs exactly while a countdown shows, the
      recorder's state follows the recording and pause flags, the clock runs
      exactly while recording unpaused, at most the held audio plays, and a
      take and its URL come together. */
  predicate Consistent(s: Snapshot, lineCount: nat) {
    (s.index == 0 || s.index < lineCount)
    && (s.countdownTicking <==> s.countdown.Some?)
    && (s.countdown.Some? ==> 1 <= s.countdown.value <= 3 && !s.recording)
    && (s.paused ==> s.recording)
    && (s.timerRunning <==> s.recording && !s.paused)
    && (s.recording ==> s.recorder == Some(if s.paused then Paused else Active))
    && (!s.recording ==> s.recorder != Some(Active) && s.recorder != Some(Paused))
    && AtMostLastPlaying(s.clips)
    && (s.blob.Some? <==> s.url.Some?)
  }

  // ---------------------------------------------------------------- the page

  class RecordingPage {
    const lines: seq<Line>
    var currentLineIndex: nat
    var isRecording: bool
    var isPaused: bool
    var recordedBlob: Option<seq<Chunk>>
    var recordedUrl: Option<string>
    var countdown: Option<nat>
    /** The countdown's interval is set. */
    var countdownTicking: bool
    var recordingTime: nat
    /** `timerRef`'s interval is set. */
    var timerRunning: bool
    var cameraEnabled: bool
    var micEnabled: bool
    var autoPlayCues: bool
    /** `streamRef.current`. */
    var stream: Option<MediaStream>
    /** Streams whose tracks have been stopped, in order. */
    var released: seq<MediaStream>
    /** `mediaRecorderRef.current` and its state. */
    var recorder: Option<RecorderState>
    /** `chunksRef.current`. */
    var chunks: seq<Chunk>
    /** Every chunk delivered since the current recorder started. */
    ghost var delivered: seq<Chunk>
    /** Audio objects created by `playLineAudio`; the last is `audioRef.current`. */
    var clips: seq<Clip>

    function State(): Snapshot
      reads this
    {
      Snapshot(currentLineIndex, isRecording, isPaused, recordedBlob, recordedUrl, countdown,
        countdownTicking, recordingTime, timerRunning, cameraEnabled, micEnabled, autoPlayCues,
        stream, released, recorder, chunks, clips)
    }

    ghost predicate Valid()
      reads this
    {
      Consistent(State(), |lines|) && chunks == NonEmptyChunks(delivered)
    }

    /** The page once its project has loaded: every scene's lines, nothing
        recording, camera, microphone and cue auto-play on. */
    constructor(scenes: seq<Scene>)
      ensures lines == Flatten(scenes) && Valid()
      ensures State() == Snapshot(0, false, false, None, None, None, false, 0, false, true, true, true,
        None, [], None, [], [])
    {
      lines := Flatten(scenes);
      currentLineIndex, isRecording, isPaused := 0, false, false;
      recordedBlob, recordedUrl, countdown, countdownTicking := None, None, None, false;
      recordingTime, timerRunning := 0, false;
      cameraEnabled, micEnabled, autoPlayCues := true, true, true;
      stream, released, recorder, chunks, clips := None, [], None, [], [];
      delivered := [];
    }

    /** `stopMediaStream`: stop the held stream's tracks and drop it. */
    method StopMediaStream()
      modifies this
      ensures State() == old(State()).(stream := None, released := Released(old(stream), old(released)))
      ensures delivered == old(delivered)
    {
      if stream.Some? {
        released := released + [stream.value];
        stream := None;
      }
    }

    /** `initCamera`, with `granted` the outcome of asking the browser for
        the devices. The old stream is always released first; with both
        devices off no new one is asked for. */
    method InitCamera(granted: bool) returns (notice: Notice)
      modifies this
      ensures var wanted := cameraEnabled || micEnabled;
        State() == old(State()).(
          stream := if wanted && granted then Some(MediaStream(cameraEnabled, micEnabled)) else None,
          released := Released(old(stream), old(released)))
      ensures notice == (if (cameraEnabled || micEnabled) && !granted then DeviceError else NoNotice)
      ensures delivered == old(delivered)
    {
      notice := NoNotice;
      StopMediaStream();
      if !cameraEnabled && !micEnabled {
        return;
      }
      if granted {
        stream := Some(MediaStream(cameraEnabled, micEnabled));
      } else {
        notice := DeviceError;
      }
    }

    /** The camera switch or button; the page then re-initialises the devices. */
    method SetCameraEnabled(on: bool, granted: bool) returns (notice: Notice)
      requires Valid()
      modifies this
      ensures Valid()
      ensures on == old(cameraEnabled) ==> State() == old(State()) && notice == NoNotice
      ensures on != old(cameraEnabled) ==> (cameraEnabled == on && micEnabled == old(micEnabled)
        && State() == old(State()).(camera := on,
          stream := if (on || micEnabled) && granted then Some(MediaStream(on, micEnabled)) else None,
          released := Released(old(stream), old(released))))
    {
      notice := NoNotice;
      if on != cameraEnabled {
        cameraEnabled := on;
        notice := InitCamera(granted);
      }
    }

    /** The microphone switch or button; the page then re-initialises the devices. */
    method SetMicEnabled(on: bool, granted: bool) returns (notice: Notice)
      requires Valid()
      modifies this
      ensures Valid()
      ensures on == old(micEnabled) ==> State() == old(State()) && notice == NoNotice
      ensures on != old(micEnabled) ==> (micEnabled == on && cameraEnabled == old(cameraEnabled)
        && State() == old(State()).(mic := on,
          stream := if (cameraEnabled || on) && granted then Some(MediaStream(cameraEnabled, on)) else None,
          released := Released(old(stream), old(released))))
    {
      notice := NoNotice;
      if on != micEnabled {
        micEnabled := on;
        notice := InitCamera(granted);
      }
    }

    method SetAutoPlayCues(on: bool)
      requires Valid()
      modifies this
      ensures Valid() && State() == old(State()).(autoPlay := on)
    {
      autoPlayCues := on;
    }

    /** `startCountdown`. The start button is only offered before a take
        (not recording, no take to review), and the countdown overlay
        covers it while the countdown runs. */
    method StartCountdown()
      requires Valid() && !isRecording && recordedUrl.None? && countdown.None?
      modifies this
      ensures Valid()
      ensures State() == old(State()).(countdown := Some(3), countdownTicking := true)
    {
      countdown := Some(3);
      countdownTicking := true;
    }

    /** One second of the countdown. On the tick where the previous value
        is at most 1 the interval is cleared, the countdown disappears and
        recording starts; `cue` is the first line's cue the start schedules. */
    method CountdownTick() returns (started: bool, notice: Notice, cue: Option<string>)
      requires Valid() && countdown.Some?
      modifies this
      ensures Valid()
      ensures started <==> old(countdown.value) <= 1
      ensures countdown == CountdownStep(old(countdown.value))
      ensures !started ==> State() == old(State()).(countdown := Some(old(countdown.value) - 1)) && notice == NoNotice && cue == None
      ensures started ==> countdown.None? && !countdownTicking
      ensures started && old(stream).None? ==> State() == old(State()).(countdown := None, countdownTicking := false) && notice == NoStream
      ensures started && old(stream).Some? ==> isRecording && recordingTime == 0 && chunks == [] && cue == CueAt(autoPlayCues, lines, 0)
      ensures started && old(stream).Some? ==> delivered == [] && stream == old(stream)
      ensures started && old(stream).Some? ==>
        notice == NoNotice
        && State() == old(State()).(countdown := None, countdownTicking := false, recording := true,
          paused := false, time := 0, timerRunning := true, recorder := Some(Active), chunks := [])
    {
      var prev := countdown.value;
      if prev <= 1 {
        countdownTicking := false;
        countdown := None;
        started := true;
        notice, cue := StartRecording();
      } else {
        countdown := Some(prev - 1);
        started, notice, cue := false, NoNotice, None;
      }
    }

    /** `startRecording`. Without a stream nothing starts. Otherwise the
        chunk buffer is emptied, a recorder starts on the stream, the clock
        is zeroed and starts, and the first line's cue is scheduled when it
        should auto-play. */
    method StartRecording() returns (notice: Notice, cue: Option<string>)
      requires Valid() && !isRecording && countdown.None?
      modifies this
      ensures Valid()
      ensures old(stream).None? ==> State() == old(State()) && notice == NoStream && cue == None
      ensures old(stream).Some? ==> (notice == NoNotice && cue == CueAt(autoPlayCues, lines, 0)
        && State() == old(State()).(recording := true, paused := false, time := 0, timerRunning := true,
          recorder := Some(Active), chunks := []))
      ensures old(stream).Some? ==> delivered == []
    {
      if stream.None? {
        notice, cue := NoStream, None;
        return;
      }
      notice, cue := NoNotice, CueAt(autoPlayCues, lines, 0);
      assert NonEmptyChunks([]) == [];
      StartRecorder();
      StartClock();
    }

    /** The recorder half of `startRecording`: an empty chunk buffer and a
        recorder started on the stream. */
    method StartRecorder()
      modifies this
      ensures delivered == [] && State() == old(State()).(chunks := [], recorder := Some(Active))
    {
      chunks, delivered, recorder := [], [], Some(Active);
    }

    /** The clock half of `startRecording`: recording, the clock at zero and
        its interval set. */
    method StartClock()
      modifies this
      ensures delivered == old(delivered)
      ensures State() == old(State()).(recording := true, time := 0, timerRunning := true)
    {
      isRecording, recordingTime, timerRunning := true, 0, true;
    }

    /** `ondataavailable`: a chunk is kept only when it holds data. */
    method OnDataAvailable(c: Chunk)
      requires Valid()
      modifies this
      ensures Valid()
      ensures delivered == old(delivered) + [c]
      ensures State() == old(State()).(chunks := if c.size > 0 then old(chunks) + [c] else old(chunks))
    {
      ghost var s0 := State();
      NonEmptyChunksSnoc(delivered, c);
      delivered := delivered + [c];
      if c.size > 0 {
        chunks := chunks + [c];
      }
      assert State() == s0.(chunks := if c.size > 0 then s0.chunks + [c] else s0.chunks);
    }

    /** `onstop`: the take is the buffered chunks in arrival order, shown
        through the object URL `url` the browser hands out. */
    method OnRecorderStop(url: string)
      requires Valid() && recorder.Some?
      modifies this
      ensures Valid()
      ensures State() == old(State()).(blob := Some(old(chunks)), url := Some(url))
      ensures recordedBlob == Some(NonEmptyChunks(delivered))
    {
      recordedBlob := Some(chunks);
      recordedUrl := Some(url);
    }

    /** One second of the recording clock. */
    method RecordingTimerTick()
      requires Valid() && timerRunning
      modifies this
      ensures Valid() && State() == old(State()).(time := old(recordingTime) + 1)
    {
      recordingTime := recordingTime + 1;
    }

    /** `pauseRecording`: while recording, flip between paused and
        recording, stopping the clock on pause and restarting it on resume;
        otherwise nothing. */
    method PauseRecording()
      requires Valid()
      modifies this
      ensures Valid()
      ensures !old(isRecording) ==> State() == old(State())
      ensures old(isRecording) ==> State() == old(State()).(paused := !old(isPaused),
        timerRunning := old(isPaused), recorder := Some(if old(isPaused) then Active else Paused))
    {
      if recorder.Some? && isRecording {
        ghost var s0 := State();
        if isPaused {
          recorder := Some(Active);
          timerRunning := true;
        } else {
          recorder := Some(Paused);
          timerRunning := false;
        }
        isPaused := !isPaused;
        assert State() == s0.(paused := !s0.paused, timerRunning := s0.paused,
          recorder := Some(if s0.paused then Active else Paused));
      }
    }

    /** `stopRecording`: while recording, stop the recorder (its `onstop`
        follows) and the clock; otherwise nothing. */
    method StopRecording()
      requires Valid()
      modifies this
      ensures Valid()
      ensures !old(isRecording) ==> State() == old(State())
      ensures old(isRecording) ==> State() == old(State()).(recording := false, paused := false,
        timerRunning := false, recorder := Some(Inactive))
    {
      if recorder.Some? && isRecording {
        ghost var s0 := State();
        recorder := Some(Inactive);
        isRecording := false;
        isPaused := false;
        timerRunning := false;
        assert State() == s0.(recording := false, paused := false, timerRunning := false, recorder := Some(Inactive));
      }
    }

    /** `resetRecording` ("Retake"): drop the take, back to the first line
        and a zero clock. */
    method ResetRecording()
      requires Valid()
      modifies this
      ensures Valid()
      ensures State() == old(State()).(blob := None, url := None, index := 0, time := 0)
    {
      ghost var s0 := State();
      recordedBlob, recordedUrl := None, None;
      currentLineIndex, recordingTime := 0, 0;
      assert State() == s0.(blob := None, url := None, index := 0, time := 0);
    }

    /** `playLineAudio`: pause the held audio, then hold and play a new one. */
    method PlayLineAudio(url: string)
      requires Valid()
      modifies this
      ensures Valid()
      ensures State() == old(State()).(clips := PlayNew(old(clips), url))
    {
      PlayNewKeepsOneVoice(clips, url);
      clips := PlayNew(clips, url);
    }

    /** `handleNextLine`: advance when not on the last line, playing the
        new line's cue when it should auto-play. */
    method HandleNextLine()
      requires Valid()
      modifies this
      ensures Valid()
      ensures old(currentLineIndex) + 1 >= |lines| ==> State() == old(State())
      ensures old(currentLineIndex) + 1 < |lines| ==> var cue := CueAt(autoPlayCues, lines, old(currentLineIndex) + 1);
        State() == old(State()).(index := old(currentLineIndex) + 1,
          clips := if cue.Some? then PlayNew(old(clips), cue.value) else old(clips))
    {
      if currentLineIndex + 1 < |lines| {
        var next := currentLineIndex + 1;
        currentLineIndex := next;
        var cue := CueAt(autoPlayCues, lines, next);
        if cue.Some? {
          PlayLineAudio(cue.value);
        }
      }
    }

    /** `handlePrevLine`: step back when not on the first line; no cue. */
    method HandlePrevLine()
      requires Valid()
      modifies this
      ensures Valid()
      ensures old(currentLineIndex) == 0 ==> State() == old(State())
      ensures old(currentLineIndex) > 0 ==> State() == old(State()).(index := old(currentLineIndex) - 1)
    {
      if currentLineIndex > 0 {
        currentLineIndex := currentLineIndex - 1;
      }
    }

    /** Leaving the page releases the stream and clears the clock's
        interval; the recorder, the countdown and any audio are left as
        they are. */
    method Dispose()
      modifies this
      ensures State() == old(State()).(stream := None, released := Released(old(stream), old(released)), timerRunning := false)
    {
      StopMediaStream();
      timerRunning := false;
    }
  }

  /** Releasing the stream twice is releasing it once. */
  method StopMediaStreamIdempotent(page: RecordingPage)
    modifies page
    ensures page.stream.None?
    ensures page.State() == old(page.State()).(stream := None, released := Released(old(page.stream), old(page.released)))
  {
    page.StopMediaStream();
    var afterFirst := page.State();
    page.StopMediaStream();
    assert page.State() == afterFirst;
  }

  /** A full take: countdown, recording with chunks delivered along the
      way, stop, and the recorder's `onstop`; the take holds exactly the
      non-empty chunks in delivery order. */
  method FullTake(page: RecordingPage, deliveries: seq<Chunk>, url: string)
    requires page.Valid() && !page.isRecording && page.recordedUrl.None? && page.countdown.None?
    requires page.stream.Some?
    modifies page
    ensures page.Valid()
    ensures !page.isRecording && page.recordedBlob == Some(NonEmptyChunks(deliveries)) && page.recordedUrl == Some(url)
  {
    page.StartCountdown();
    var started, notice, cue := page.CountdownTick();
    started, notice, cue := page.CountdownTick();
    started, notice, cue := page.CountdownTick();
    assert started && page.isRecording && page.delivered == [];
    var i := 0;
    while i < |deliveries|
      invariant 0 <= i <= |deliveries|
      invariant page.Valid() && page.isRecording && page.delivered == deliveries[..i]
    {
      page.OnDataAvailable(deliveries[i]);
      assert deliveries[..i + 1] == deliveries[..i] + [deliveries[i]];
      i := i + 1;
    }
    assert deliveries[..i] == deliveries;
    page.StopRecording();
    page.OnRecorderStop(url);
  }
}
