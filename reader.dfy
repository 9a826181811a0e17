/** The rehearsal reader (Reader.jsx): a cursor over the flattened script,
    advanced by hand or by the speech recognizer when the performer says
    their own line. Each handler is a pure transition on a `Session`; the
    page class holds the same fields and its methods perform those
    transitions. */
module Reader {
  import opened Wrappers
  import opened Text
  import opened Script
  import Matcher

  /** What a recognizer's event handlers saw when it was created: the
      handlers are closures over the render that created them. */
  datatype Capture = Capture(index: nat, listening: bool, playing: bool)

  /** The browser's speech recognizer object held in `recognitionRef`. */
  datatype Recognizer = Recognizer(running: bool, captured: Capture)

  /** A toast the page shows. */
  datatype Notice = NoNotice | ScriptCompleted | SpeechUnsupported | RecognitionError(message: string)

  datatype Session = Session(
    index: nat,
    listening: bool,
    playing: bool,
    transcript: string,
    recognizer: Option<Recognizer>)

  /** The state after a handler, and the toast it raised. */
  datatype Step = Step(session: Session, notice: Notice)

  /** One entry of the recognizer's `event.results`: its best alternative's
      text, and whether the recognizer has finished with it. */
  datatype SpeechResult = SpeechResult(transcript: string, isFinal: bool)

  const Initial := Session(0, false, false, "", None)

  /** The cursor names a line of the script, or is 0 for an empty script. */
  predicate CursorInRange(n: nat, s: Session) {
    s.index == 0 || s.index < n
  }

  function Stop(r: Option<Recognizer>): Option<Recognizer> {
    if r.Some? then Some(r.value.(running := false)) else None
  }

  function Start(r: Option<Recognizer>): Option<Recognizer> {
    if r.Some? then Some(r.value.(running := true)) else None
  }

  // ---------------------------------------------------------------- navigation

  /** `handleNextLine`: advance and clear the transcript, or, on the last
      line (and on an empty script), end the run. The recognizer is left
      as it is. */
  function NextLine(n: nat, s: Session): (r: Step)
    ensures r.session.recognizer == s.recognizer
    ensures r.notice == ScriptCompleted <==> s.index + 1 >= n
    ensures r.notice == ScriptCompleted ==> r.session == s.(listening := false, playing := false)
    ensures r.notice != ScriptCompleted ==> r.notice == NoNotice && r.session == s.(index := s.index + 1, transcript := "")
  {
    if s.index < n - 1 then Step(s.(index := s.index + 1, transcript := ""), NoNotice)
    else Step(s.(playing := false, listening := false), ScriptCompleted)
  }

  /** `handlePrevLine`: step back and clear the transcript; nothing on the
      first line. */
  function PrevLine(s: Session): (r: Session)
    ensures s.index == 0 ==> r == s
    ensures s.index > 0 ==> r == s.(index := s.index - 1, transcript := "")
  {
    if s.index > 0 then s.(index := s.index - 1, transcript := "") else s
  }

  /** Clicking a line of the script jumps to it; the transcript stays. */
  function JumpTo(s: Session, idx: nat): (r: Session)
    ensures r.index == idx && r == s.(index := idx)
  {
    s.(index := idx)
  }

  /** `handleReset`. */
  function Reset(s: Session): (r: Session)
    ensures r.index == 0 && r.transcript == "" && !r.listening && !r.playing
    ensures r.recognizer.Some? <==> s.recognizer.Some?
    ensures r.recognizer.Some? ==> !r.recognizer.value.running && r.recognizer.value.captured == s.recognizer.value.captured
  {
    Session(0, false, false, "", Stop(s.recognizer))
  }

  /** How a line is drawn relative to the cursor. */
  datatype LineStatus = Active | Completed | Upcoming

  function StatusOf(idx: nat, cursor: nat): (r: LineStatus)
    ensures r == Active <==> idx == cursor
    ensures r == Completed <==> idx < cursor
    ensures r == Upcoming <==> idx > cursor
  {
    if idx == cursor then Active else if idx < cursor then Completed else Upcoming
  }

  // ---------------------------------------------------------------- listening

  /** `initSpeechRecognition`: a new, idle recognizer whose handlers see the
      session as it is now, or nothing (and a toast) without browser
      support. */
  function NewRecognizer(supported: bool, s: Session): (r: Option<Recognizer>)
    ensures r.Some? <==> supported
    ensures r.Some? ==> !r.value.running && r.value.captured == Capture(s.index, s.listening, s.playing)
  {
    if supported then Some(Recognizer(false, Capture(s.index, s.listening, s.playing))) else None
  }

  /** `toggleListening`. Turning listening on also starts the run; without
      a recognizer (no browser support) nothing changes but the toast. */
  function ToggleListening(supported: bool, s: Session): (r: Step)
    ensures s.listening ==> r == Step(s.(listening := false, recognizer := Stop(s.recognizer)), NoNotice)
    ensures !s.listening && s.recognizer.None? && !supported ==> r == Step(s, SpeechUnsupported)
    ensures !s.listening && (s.recognizer.Some? || supported) ==>
      r.notice == NoNotice && r.session.listening && r.session.playing
      && r.session.index == s.index && r.session.transcript == s.transcript
      && r.session.recognizer.Some? && r.session.recognizer.value.running
  {
    if s.listening then Step(s.(listening := false, recognizer := Stop(s.recognizer)), NoNotice)
    else
      var rec := if s.recognizer.Some? then s.recognizer else NewRecognizer(supported, s);
      if rec.Some? then Step(s.(listening := true, playing := true, recognizer := Start(rec)), NoNotice)
      else Step(s, SpeechUnsupported)
  }

  /** `togglePlayPause`. Playing always turns listening on, even when no
      recognizer could be created. */
  function TogglePlayPause(supported: bool, s: Session): (r: Step)
    ensures s.playing ==> r == Step(s.(playing := false, listening := false, recognizer := Stop(s.recognizer)), NoNotice)
    ensures !s.playing ==> (r.session.playing && r.session.listening
      && r.session.index == s.index && r.session.transcript == s.transcript)
    ensures !s.playing ==> (r.notice == SpeechUnsupported <==> s.recognizer.None? && !supported)
    ensures !s.playing ==> (r.session.recognizer.Some? <==> s.recognizer.Some? || supported)
    ensures !s.playing && r.session.recognizer.Some? ==> r.session.recognizer.value.running
  {
    if s.playing then Step(s.(playing := false, listening := false, recognizer := Stop(s.recognizer)), NoNotice)
    else
      var rec := if s.recognizer.Some? then s.recognizer else NewRecognizer(supported, s);
      var notice := if rec.None? then SpeechUnsupported else NoNotice;
      Step(s.(playing := true, listening := true, recognizer := Start(rec)), notice)
  }

  // ---------------------------------------------------------------- recognizer events

  /** The finished text of a run of results, in order. */
  function FinalOf(rs: seq<SpeechResult>): string {
    if rs == [] then ""
    else FinalOf(rs[..|rs| - 1]) + (if rs[|rs| - 1].isFinal then rs[|rs| - 1].transcript else "")
  }

  /** The unfinished text of a run of results, in order. */
  function InterimOf(rs: seq<SpeechResult>): string {
    if rs == [] then ""
    else InterimOf(rs[..|rs| - 1]) + (if rs[|rs| - 1].isFinal then "" else rs[|rs| - 1].transcript)
  }

  /** Total length of all the results' texts. */
  function TextLength(rs: seq<SpeechResult>): nat {
    if rs == [] then 0 else TextLength(rs[..|rs| - 1]) + |rs[|rs| - 1].transcript|
  }

  /** Every result's text goes to exactly one of the two transcripts. */
  lemma {:induction false} FinalAndInterimPartition(rs: seq<SpeechResult>)
    ensures |FinalOf(rs)| + |InterimOf(rs)| == TextLength(rs)
  {
    if rs != [] {
      FinalAndInterimPartition(rs[..|rs| - 1]);
    }
  }

  /** While nothing is finished the final transcript is empty. */
  lemma {:induction false} NothingFinalYet(rs: seq<SpeechResult>)
    requires forall k :: 0 <= k < |rs| ==> !rs[k].isFinal
    ensures FinalOf(rs) == "" && InterimOf(rs) == ConcatTexts(rs)
  {
    if rs != [] {
      NothingFinalYet(rs[..|rs| - 1]);
    }
  }

  function ConcatTexts(rs: seq<SpeechResult>): string {
    if rs == [] then "" else ConcatTexts(rs[..|rs| - 1]) + rs[|rs| - 1].transcript
  }

  /** The results the event reports as new or changed: those from
      `resultIndex` on (none when it is past the end). */
  function Fresh(results: seq<SpeechResult>, resultIndex: nat): seq<SpeechResult> {
    if resultIndex <= |results| then results[resultIndex..] else []
  }

  /** The loop at the top of `onresult`: the finished and the unfinished
      text of the fresh results. */
  method ComposeTranscript(results: seq<SpeechResult>, resultIndex: nat) returns (interim: string, final: string)
    ensures final == FinalOf(Fresh(results, resultIndex))
    ensures interim == InterimOf(Fresh(results, resultIndex))
  {
    interim := "";
    final := "";
    if resultIndex > |results| {
      return;
    }
    var i := resultIndex;
    while i < |results|
      invariant resultIndex <= i <= |results|
      invariant final == FinalOf(results[resultIndex..i])
      invariant interim == InterimOf(results[resultIndex..i])
    {
      assert results[resultIndex..i + 1][..i - resultIndex] == results[resultIndex..i];
      if results[i].isFinal {
        final := final + results[i].transcript;
      } else {
        interim := interim + results[i].transcript;
      }
      i := i + 1;
    }
    assert results[resultIndex..i] == results[resultIndex..];
  }

  /** `(finalTranscript || interimTranscript).toLowerCase().trim()`. */
  function Heard(rs: seq<SpeechResult>): string {
    var f := FinalOf(rs);
    JsTrim(ToLower(if f != "" then f else InterimOf(rs)))
  }

  /** Whether the performer's words count as the line at `idx`. Only a
      line of the performer's own character can be matched. */
  predicate MatchesLine(lines: seq<Line>, idx: nat, heard: string, hit: Option<Matcher.FuseHit>) {
    idx < |lines| && lines[idx].isUserLine && Matcher.FuzzyMatch(heard, ToLower(lines[idx].text), hit, idx)
  }

  /** `onresult`, reading the session as it is when the event arrives:
      show what was heard, and go on when it matches the current line.
      `hit` is the search library's answer for the cleaned text. */
  function OnResult(lines: seq<Line>, s: Session, heard: string, hit: Option<Matcher.FuseHit>): (r: Step)
    ensures MatchesLine(lines, s.index, heard, hit) ==> r == NextLine(|lines|, s.(transcript := heard))
    ensures !MatchesLine(lines, s.index, heard, hit) ==> r == Step(s.(transcript := heard), NoNotice)
  {
    var s1 := s.(transcript := heard);
    if MatchesLine(lines, s.index, heard, hit) then NextLine(|lines|, s1) else Step(s1, NoNotice)
  }

  /** `onerror`: every error but silence is reported. */
  function OnError(error: string): (r: Notice)
    ensures r == NoNotice <==> error == "no-speech"
    ensures r != NoNotice ==> r == RecognitionError("Recognition error: " + error)
  {
    if error != "no-speech" then RecognitionError("Recognition error: " + error) else NoNotice
  }

  /** `onend`, reading the session as it is: the recognizer has stopped,
      and it is started again while the run is on and listening. */
  function OnEnd(s: Session): (r: Session)
    requires s.recognizer.Some?
    ensures r.recognizer.Some? && r.recognizer.value.captured == s.recognizer.value.captured
    ensures r.recognizer.value.running <==> s.listening && s.playing
    ensures r == s.(recognizer := r.recognizer)
  {
    s.(recognizer := Some(s.recognizer.value.(running := s.listening && s.playing)))
  }

  // ---------------------------------------------------------------- properties

  /** Every handler keeps the cursor on a line of the script. */
  lemma CursorStaysInRange(lines: seq<Line>, supported: bool, s: Session, heard: string, hit: Option<Matcher.FuseHit>)
    requires CursorInRange(|lines|, s)
    ensures CursorInRange(|lines|, NextLine(|lines|, s).session)
    ensures CursorInRange(|lines|, PrevLine(s))
    ensures CursorInRange(|lines|, Reset(s))
    ensures CursorInRange(|lines|, ToggleListening(supported, s).session)
    ensures CursorInRange(|lines|, TogglePlayPause(supported, s).session)
    ensures CursorInRange(|lines|, OnResult(lines, s, heard, hit).session)
    ensures s.recognizer.Some? ==> CursorInRange(|lines|, OnEnd(s))
  {
  }

  /** Going back undoes going forward, and forward undoes back. */
  lemma PrevUndoesNext(n: nat, s: Session)
    requires s.index + 1 < n
    ensures PrevLine(NextLine(n, s).session) == s.(transcript := "")
  {
  }

  lemma NextUndoesPrev(n: nat, s: Session)
    requires 0 < s.index < n
    ensures NextLine(n, PrevLine(s)).session == s.(transcript := "")
  {
  }

  /** `k` presses of "next" from the cursor. */
  function Advance(n: nat, s: Session, k: nat): Session
    decreases k
  {
    if k == 0 then s else Advance(n, NextLine(n, s).session, k - 1)
  }

  /** From any line, "next" moves one line at a time without ending the run
      until the last line is reached. */
  lemma {:induction false} AdvanceWithinScript(n: nat, s: Session, k: nat)
    requires s.index + k < n
    ensures Advance(n, s, k).index == s.index + k
    ensures Advance(n, s, k).playing == s.playing && Advance(n, s, k).listening == s.listening
    ensures k > 0 ==> Advance(n, s, k).transcript == ""
    decreases k
  {
    if k > 0 {
      assert NextLine(n, s).notice == NoNotice;
      AdvanceWithinScript(n, NextLine(n, s).session, k - 1);
    }
  }

  /** A full pass: from the first line, `n - 1` presses reach the last line
      with the run still on, and the next press completes the script and
      stops the run. */
  lemma FullPassCompletes(n: nat, s: Session)
    requires n >= 1 && s.index == 0 && s.playing && s.listening
    ensures Advance(n, s, n - 1).index == n - 1 && Advance(n, s, n - 1).playing
    ensures NextLine(n, Advance(n, s, n - 1)).notice == ScriptCompleted
    ensures !Advance(n, s, n).playing && !Advance(n, s, n).listening && Advance(n, s, n).index == n - 1
  {
    AdvanceWithinScript(n, s, n - 1);
    AdvanceSplit(n, s, n - 1);
  }

  lemma {:induction false} AdvanceSplit(n: nat, s: Session, k: nat)
    ensures Advance(n, s, k + 1) == NextLine(n, Advance(n, s, k)).session
    decreases k
  {
    if k > 0 {
      AdvanceSplit(n, NextLine(n, s).session, k - 1);
    }
  }

  /** Resetting twice is resetting once. */
  lemma ResetIdempotent(s: Session)
    ensures Reset(Reset(s)) == Reset(s)
  {
  }

  /** Turning listening on and then off again leaves the run playing with
      the recognizer stopped. */
  lemma ListenOnThenOff(supported: bool, s: Session)
    requires !s.listening && (s.recognizer.Some? || supported)
    ensures var on := ToggleListening(supported, s).session;
      var off := ToggleListening(supported, on).session;
      off.playing && !off.listening && off.index == s.index
      && off.recognizer.Some? && !off.recognizer.value.running
  {
  }

  /** Play and then pause returns both flags to off and stops recognition. */
  lemma PlayThenPause(supported: bool, s: Session)
    requires !s.playing
    ensures var played := TogglePlayPause(supported, s).session;
      var paused := TogglePlayPause(supported, played).session;
      !paused.playing && !paused.listening && paused.index == s.index
      && (paused.recognizer.Some? ==> !paused.recognizer.value.running)
  {
  }

  /** Speech never moves the cursor off a partner's line, nor off the end
      of the script. */
  lemma SpeechWaitsOnPartnerLines(lines: seq<Line>, s: Session, heard: string, hit: Option<Matcher.FuseHit>)
    requires s.index < |lines| && !lines[s.index].isUserLine
    ensures OnResult(lines, s, heard, hit) == Step(s.(transcript := heard), NoNotice)
  {
  }

  /** Silence, or words that clean to nothing, never advance the reader. */
  lemma SilenceNeverAdvances(lines: seq<Line>, s: Session, heard: string, hit: Option<Matcher.FuseHit>)
    requires Matcher.Clean(heard) == ""
    ensures OnResult(lines, s, heard, hit).session.index == s.index
    ensures OnResult(lines, s, heard, hit).notice == NoNotice
  {
    if s.index < |lines| {
      Matcher.EmptyCleanedSpokenNeverMatches(heard, ToLower(lines[s.index].text), hit, s.index);
    }
  }

  /** Reading one's own line aloud on one's own turn advances the reader
      exactly when it is longer than three characters once cleaned. */
  lemma ReadingOwnLineAdvances(lines: seq<Line>, s: Session, hit: Option<Matcher.FuseHit>)
    requires s.index + 1 < |lines| && lines[s.index].isUserLine
    requires lines[s.index].text != ""
    ensures var heard := ToLower(lines[s.index].text);
      OnResult(lines, s, heard, hit).session.index == s.index + 1 <==> |Matcher.Clean(heard)| > 3
  {
    var heard := ToLower(lines[s.index].text);
    Matcher.RepeatingTheLineMatches(heard, hit, s.index);
  }

  // ---------------------------------------------------------------- as written

  /** `onresult` as the source has it: the handler was created together
      with the recognizer, so it tests the line and the cursor of that
      moment; the advance itself (`prev => prev + 1`) applies to the
      current cursor. */
  function OnResultAsWritten(lines: seq<Line>, s: Session, heard: string, hit: Option<Matcher.FuseHit>): (r: Step)
    requires s.recognizer.Some?
    ensures var c := s.recognizer.value.captured.index;
      MatchesLine(lines, c, heard, hit) && c + 1 < |lines| ==> r == Step(s.(index := s.index + 1, transcript := ""), NoNotice)
    ensures var c := s.recognizer.value.captured.index;
      MatchesLine(lines, c, heard, hit) && c + 1 >= |lines| ==>
        r == Step(s.(transcript := heard, playing := false, listening := false), ScriptCompleted)
    ensures !MatchesLine(lines, s.recognizer.value.captured.index, heard, hit) ==> r == Step(s.(transcript := heard), NoNotice)
  {
    var c := s.recognizer.value.captured.index;
    if !MatchesLine(lines, c, heard, hit) then Step(s.(transcript := heard), NoNotice)
    else if c + 1 < |lines| then Step(s.(index := s.index + 1, transcript := ""), NoNotice)
    else Step(s.(transcript := heard, playing := false, listening := false), ScriptCompleted)
  }

  /** `onend` as the source has it: the flags it tests are the ones of the
      moment the recognizer was created. */
  function OnEndAsWritten(s: Session): (r: Session)
    requires s.recognizer.Some?
    ensures r.recognizer.Some? && (r.recognizer.value.running <==> s.recognizer.value.captured.listening && s.recognizer.value.captured.playing)
  {
    var c := s.recognizer.value.captured;
    s.(recognizer := Some(s.recognizer.value.(running := c.listening && c.playing)))
  }

  /** A recognizer is only ever created while listening or playing is off,
      and its captured flags never change afterwards. */
  predicate CreatedWhileIdle(s: Session) {
    s.recognizer.Some? ==> !(s.recognizer.value.captured.listening && s.recognizer.value.captured.playing)
  }

  /** The navigation buttons keep the captured flags. */
  lemma NavigationKeepsCapture(lines: seq<Line>, s: Session)
    requires CreatedWhileIdle(s)
    ensures CreatedWhileIdle(NextLine(|lines|, s).session)
    ensures CreatedWhileIdle(PrevLine(s))
    ensures CreatedWhileIdle(Reset(s))
    ensures CreatedWhileIdle(JumpTo(s, 0))
  {
  }

  /** The two toggles create a recognizer only while listening or playing
      is off. */
  lemma TogglesKeepCapture(supported: bool, s: Session)
    requires CreatedWhileIdle(s)
    ensures CreatedWhileIdle(ToggleListening(supported, s).session)
    ensures CreatedWhileIdle(TogglePlayPause(supported, s).session)
  {
  }

  /** The recognizer's own events keep the captured flags, both as written
      and corrected. */
  lemma RecognitionKeepsCapture(lines: seq<Line>, s: Session, heard: string, hit: Option<Matcher.FuseHit>)
    requires CreatedWhileIdle(s)
    ensures CreatedWhileIdle(OnResult(lines, s, heard, hit).session)
    ensures s.recognizer.Some? ==> CreatedWhileIdle(OnResultAsWritten(lines, s, heard, hit).session)
    ensures s.recognizer.Some? ==> CreatedWhileIdle(OnEnd(s)) && CreatedWhileIdle(OnEndAsWritten(s))
  {
  }

  /** Hence, as written, recognition that ends on its own is never
      restarted, though the page still shows it listening. */
  lemma AsWrittenNeverRestarts(s: Session)
    requires s.recognizer.Some? && CreatedWhileIdle(s)
    ensures !OnEndAsWritten(s).recognizer.value.running
  {
  }

  /** After "play" from the start and the recognizer ending on its own:
      the source leaves it stopped, the corrected handler restarts it. */
  lemma PlayThenRecognizerEnds()
    ensures var played := TogglePlayPause(true, Initial).session;
      var ended := played.(recognizer := Stop(played.recognizer));
      ended.listening && ended.playing
      && !OnEndAsWritten(ended).recognizer.value.running
      && OnEnd(ended).recognizer.value.running
  {
  }

  /** Two lines, the first the performer's "hello". Saying "hello" twice:
      as written, the second result is still tested against line 0 and the
      cursor runs past the end of the script; read against the current
      state, the cursor waits on the partner's line. */
  lemma StaleCursorRunsPastEnd()
    ensures var lines := [Line("1", "ME", "hello", 1, true, None, None, None),
                          Line("2", "YOU", "bye", 2, false, None, None, None)];
      var played := TogglePlayPause(true, Initial).session;
      var once := OnResultAsWritten(lines, played, "hello", None).session;
      var twice := OnResultAsWritten(lines, once, "hello", None).session;
      var fixedOnce := OnResult(lines, played, "hello", None).session;
      var fixedTwice := OnResult(lines, fixedOnce, "hello", None).session;
      once.index == 1 && twice.index == 2 && !CursorInRange(|lines|, twice)
      && fixedOnce.index == 1 && fixedTwice.index == 1
  {
    var lines := [Line("1", "ME", "hello", 1, true, None, None, None),
                  Line("2", "YOU", "bye", 2, false, None, None, None)];
    HelloMatchesHello();
    var played := TogglePlayPause(true, Initial).session;
    assert played.recognizer.value.captured.index == 0;
    assert MatchesLine(lines, 0, "hello", None);
  }

  lemma HelloMatchesHello()
    ensures ToLower("hello") == "hello"
    ensures Matcher.FuzzyMatch("hello", "hello", None, 0)
  {
    LowerOfLowerCase("hello");
    HelloIsClean();
    Matcher.RepeatingTheLineMatches("hello", None, 0);
  }

  lemma HelloIsClean()
    ensures Matcher.Clean("hello") == "hello"
  {
    assert forall i :: 0 <= i < |"hello"| ==> IsJsWordChar("hello"[i]);
    Matcher.CleanKeepsPlainWord("hello");
  }

  // ---------------------------------------------------------------- the page

  /** The reader page's state: React state variables and the recognizer
      ref. Handlers read the current state (see `OnResultAsWritten` and
      `OnEndAsWritten` for the source's captured reads). */
  class ReaderPage {
    const lines: seq<Line>
    const speechSupported: bool
    var currentLineIndex: nat
    var isListening: bool
    var isPlaying: bool
    var transcript: string
    var recognition: Option<Recognizer>

    function State(): Session
      reads this
    {
      Session(currentLineIndex, isListening, isPlaying, transcript, recognition)
    }

    predicate Valid()
      reads this
    {
      CursorInRange(|lines|, State())
    }

    method Load(s: Session)
      modifies this
      ensures State() == s
    {
      currentLineIndex, isListening, isPlaying, transcript, recognition := s.index, s.listening, s.playing, s.transcript, s.recognizer;
    }

    /** The page once the reader data has loaded: all scenes' lines in
        order, the cursor on the first. */
    constructor(scenes: seq<Scene>, supported: bool)
      ensures lines == Flatten(scenes) && speechSupported == supported
      ensures State() == Initial && Valid()
    {
      lines := Flatten(scenes);
      speechSupported := supported;
      currentLineIndex, isListening, isPlaying, transcript, recognition := 0, false, false, "", None;
    }

    method HandleNextLine() returns (notice: Notice)
      requires Valid()
      modifies this
      ensures Valid()
      ensures Step(State(), notice) == NextLine(|lines|, old(State()))
    {
      var r := NextLine(|lines|, State());
      Load(r.session);
      notice := r.notice;
    }

    method HandlePrevLine()
      requires Valid()
      modifies this
      ensures Valid()
      ensures State() == PrevLine(old(State()))
    {
      Load(PrevLine(State()));
    }

    /** A click on the line at `idx` of the script. */
    method SelectLine(idx: nat)
      requires idx < |lines|
      modifies this
      ensures Valid()
      ensures State() == JumpTo(old(State()), idx)
    {
      Load(JumpTo(State(), idx));
    }

    method HandleReset()
      modifies this
      ensures Valid()
      ensures State() == Reset(old(State()))
    {
      Load(Reset(State()));
    }

    method ToggleListeningButton() returns (notice: Notice)
      requires Valid()
      modifies this
      ensures Valid()
      ensures Step(State(), notice) == ToggleListening(speechSupported, old(State()))
    {
      var r := ToggleListening(speechSupported, State());
      Load(r.session);
      notice := r.notice;
    }

    method TogglePlayPauseButton() returns (notice: Notice)
      requires Valid()
      modifies this
      ensures Valid()
      ensures Step(State(), notice) == TogglePlayPause(speechSupported, old(State()))
    {
      var r := TogglePlayPause(speechSupported, State());
      Load(r.session);
      notice := r.notice;
    }

    /** A result event: compose the transcript from the fresh results,
        then test it against the current line. */
    method OnSpeechResult(results: seq<SpeechResult>, resultIndex: nat, hit: Option<Matcher.FuseHit>) returns (notice: Notice)
      requires Valid() && recognition.Some?
      modifies this
      ensures Valid()
      ensures Step(State(), notice) == OnResult(lines, old(State()), Heard(Fresh(results, resultIndex)), hit)
    {
      var interim, final := ComposeTranscript(results, resultIndex);
      var heard := JsTrim(ToLower(if final != "" then final else interim));
      assert heard == Heard(Fresh(results, resultIndex));
      var r := OnResult(lines, State(), heard, hit);
      CursorStaysInRange(lines, speechSupported, State(), heard, hit);
      Load(r.session);
      notice := r.notice;
    }

    method OnSpeechError(error: string) returns (notice: Notice)
      ensures notice == OnError(error)
    {
      notice := OnError(error);
    }

    method OnSpeechEnd()
      requires Valid() && recognition.Some?
      modifies this
      ensures Valid()
      ensures State() == OnEnd(old(State()))
    {
      Load(OnEnd(State()));
    }

    /** Leaving the page stops the recognizer. */
    method Dispose()
      modifies this
      ensures State() == old(State()).(recognizer := Stop(old(recognition)))
    {
      recognition := Stop(recognition);
    }
  }
}
