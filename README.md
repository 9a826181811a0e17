# CuePartner core, modelled in Dafny

CuePartner is a rehearsal and self-tape tool for actors. A script is uploaded
as a PDF. The backend turns the extracted text into lines of dialogue, one
speaker per cue. The performer then picks the character they play, and the
other characters' lines become the partner's lines.

This project models the logic of that path:

- **Reader** (`reader.dfy`, `matcher.dfy`): the rehearsal page. It holds a
  cursor over the flattened script, the listening and playing flags, and the
  last transcript. A speech result advances the cursor when the current line
  is the performer's and the transcript matches it under the three-tier
  `fuzzyMatch`.
- **Recording** (`recording.dfy`, `playback.dfy`): the self-tape page. It runs
  a 3-2-1 countdown, keeps the recording and paused flags, buffers chunks and
  counts an elapsed-seconds timer. It steps through lines, optionally playing
  the partner's cue audio, and holds the single media-stream and audio handles.
- **Script editor** (`script_editor.dfy`): the editor of the flattened line
  list. It covers edits of one field, insert, delete, adjacent swaps with
  renumbering, the parenthetical wrap, adding a character without duplicates,
  audio preview, and the save-time normalisation.
- **Backend** (`server.dfy`): the text loop of `parse_script_pdf` (cue
  detection, parenthetical skipping, one dialogue line per cue, numbering),
  `set_user_character`, the `update_project` field selection and the
  `upload_pdf` gate.
- **Small views** (`project_detail.dfy`, `shared_view.dfy`, `mobile_nav.dfy`):
  line counts and UI conditions on the project page, the shared take's
  duration and error heading, and the bottom navigation's active item.
- Shared vocabulary (`wrappers.dfy`, `text.dfy`, `script.dfy`): `Option` and
  `Result`, JavaScript and Python string operations, and the script records.

Pages whose fields the source updates in place are classes:
`Reader.ReaderPage`, `Recording.RecordingPage` and
`ScriptEditor.ScriptEditorPage`. Each has a `State()` snapshot, and each
method is specified by a pure transition function on that snapshot, or by an
explicit new snapshot. The properties are proved as lemmas about those
functions. Loops in the source are loops here: the transcript composition in
`onresult`, the parser's text loop, the nested marking loop of
`set_user_character`, the renumbering `forEach`, and the chunk deliveries of
a whole take.

Browser and server effects are parameters or results:

- speech-API support and the Fuse.js hit are parameters;
- `getUserMedia`'s outcome and the object URL are parameters;
- the `Date.now` stamp, the UUIDs and the timestamps are parameters;
- toasts are returned as `Notice` values;
- cue audio to play is returned as an outbound URL.

Two facts about the code shape the model:

- `fuzzyMatch` has three tiers and no stopword list; the Fuse tier is an
  oracle input.
- `PUT /projects/{id}/script`, the editor's save target, is not defined in
  `backend/server.py`; only the request body is modelled
  (`ScriptEditor.ScriptEditorPage.SaveRequest`).

## Model

| member | source | states |
|---|---|---|
| Matcher.StripPunctuation | frontend/src/components/Reader.jsx:168-169 | `replace(/[^\w\s]/g, '')` yields only word and space characters, each character of the input that is one of those survives, and the result is no longer than the input |
| Matcher.StripPunctuationOfChar | frontend/src/components/Reader.jsx:168-169 | a single character is kept iff it is a word character or white space |
| Matcher.StripPunctuationAppend | frontend/src/components/Reader.jsx:168-169 | the replacement works piece by piece: stripping `a + b` is stripping `a` followed by stripping `b`, so survivors keep their order |
| Matcher.CountMatching | frontend/src/components/Reader.jsx:187-189 | the number of spoken words with a related target word never exceeds the number of spoken words |
| Matcher.FuzzyMatch | frontend/src/components/Reader.jsx:164-192 | an empty spoken or target string never matches; a match needs a non-empty cleaned transcript |
| Matcher.EmptyCleanedSpokenNeverMatches | frontend/src/components/Reader.jsx:168-174 | a transcript that cleans to "" is contained in every target, and so is rejected by the length gate before the later tiers |
| Matcher.ContainmentTierDecides | frontend/src/components/Reader.jsx:172-174 | when either cleaned string contains the other, the result is exactly `cleanSpoken.length > 3`, whatever the search and overlap tiers would say |
| Matcher.SearchTierDecidesOnCurrentLine | frontend/src/components/Reader.jsx:177-181 | without containment, a top search hit on the current line decides by its score test alone |
| Matcher.OverlapTierDecidesOtherwise | frontend/src/components/Reader.jsx:182-191 | without containment and without a top hit on the current line, the word-overlap test decides |
| Matcher.RepeatingTheLineMatches | frontend/src/components/Reader.jsx:172-174 | saying the line itself matches iff its cleaned form is longer than 3 characters |
| Matcher.SpokenOpeningMatches | frontend/src/components/Reader.jsx:172-174 | a spoken opening of the line longer than 3 characters matches |
| Matcher.Clean | frontend/src/components/Reader.jsx:168-169 | `replace(/[^\w\s]/g, '').trim()`: the punctuation filter followed by JavaScript white-space trimming; `StripPunctuation*` and `CleanKeepsPlainWord` state its properties |
| Matcher.Threshold | frontend/src/components/Reader.jsx:191 | `Math.min(3, Math.floor(n * 0.5))` on a whole word count, written as the integer half capped at 3; bounded in `ThresholdBounds` |
| Matcher.WordOverlap | frontend/src/components/Reader.jsx:185-191 | the third tier: the spoken words with a counterpart among the target words number at least the threshold of the target word count; `OneWordTargetPassesOverlap`, `ThreeMatchedWordsPassOverlap` and `HesitantFragmentPassesOverlap` are about it |
| Matcher.ThresholdBounds | frontend/src/components/Reader.jsx:191 | `min(3, floor(n/2))` is at most 3, is 0 iff the target has at most one word, and is 3 from six words on |
| Matcher.OneWordTargetPassesOverlap | frontend/src/components/Reader.jsx:185-191 | against a one-word target the overlap test always passes |
| Matcher.ThreeMatchedWordsPassOverlap | frontend/src/components/Reader.jsx:185-191 | three matched spoken words always pass the overlap test |
| Matcher.CountMatchingAppend | frontend/src/components/Reader.jsx:187-189 | the filter's count is additive over concatenated transcripts |
| Matcher.CountMatchingAll | frontend/src/components/Reader.jsx:187-189 | every spoken word is counted iff each has a target word containing it or contained in it |
| Matcher.WordIsOwnCounterpart | frontend/src/components/Reader.jsx:188 | a spoken word that occurs among the target words is counted |
| Matcher.StripPunctuationKeepsPlainText | frontend/src/components/Reader.jsx:168-169 | text of word and space characters only is left as it is by the cleaning |
| Matcher.CleanKeepsPlainWord | frontend/src/components/Reader.jsx:168-169 | a word of word characters only is left as it is by stripping and trimming |
| Matcher.SplitAfterWord | frontend/src/components/Reader.jsx:185-186 | `split(/\s+/)` of a word, a space and the rest is the word followed by the split of the rest |
| Matcher.SplitSingleWord | frontend/src/components/Reader.jsx:185-186 | a string without white space splits into itself alone |
| Matcher.SplitJoinSpaced | frontend/src/components/Reader.jsx:185-186 | splitting words joined by single spaces gives the words back (round trip) |
| Matcher.PlainLineSplitsBack | frontend/src/components/Reader.jsx:168-186 | a line of plain words joined by single spaces survives the cleaning unchanged and splits back into exactly its words |
| Matcher.HesitantFragmentPassesOverlap | frontend/src/components/Reader.jsx:185-191 | on the strings themselves, the cleaned and split hesitant fragment "uh i think i" reaches the overlap threshold of the cleaned line "i love you dearly" |
| Text.PyStrip | backend/server.py:167 | `str.strip()` is a contiguous piece of the input with only white space before and after it, and it neither starts nor ends with white space |
| Text.SplitJsWhitespace | frontend/src/components/Reader.jsx:185-186 | `split(/\s+/)` always yields at least one (possibly empty) word |
| Text.NatToStringRoundTrip | frontend/src/components/Recording.jsx:263 | the decimal text of a number reads back as that number |
| Text.PadStart2 | frontend/src/components/Recording.jsx:263 | `padStart(2, '0')` keeps the digits' value, yields at least two digits, exactly two from at most two, and leaves longer text alone |
| Reader.NextLine | frontend/src/components/Reader.jsx:194-204 | before the last line, the cursor moves on and the transcript clears; on the last line, both flags drop and completion is signalled, with the cursor kept |
| Reader.PrevLine | frontend/src/components/Reader.jsx:206-211 | the cursor moves back and the transcript clears iff the cursor is past the first line; otherwise nothing changes |
| Reader.JumpTo | frontend/src/components/Reader.jsx:391 | a click on a line moves the cursor there and changes nothing else |
| Reader.Reset | frontend/src/components/Reader.jsx:244-250 | cursor 0, empty transcript, both flags false and the recognizer stopped |
| Reader.StatusOf | frontend/src/components/Reader.jsx:371-372 | a line is active, completed or upcoming exactly as its index equals, precedes or follows the cursor |
| Reader.NewRecognizer | frontend/src/components/Reader.jsx:101-112 | a recognizer exists iff speech is supported; it starts idle and captures the state at its creation |
| Reader.ToggleListening | frontend/src/components/Reader.jsx:213-227 | turning off stops the recognizer and clears only `isListening`; turning on without a recognizer or support reports it and changes nothing; otherwise both flags are set and the recognizer runs |
| Reader.TogglePlayPause | frontend/src/components/Reader.jsx:229-242 | from playing, both flags drop and the recognizer stops; otherwise both flags are set, and a recognizer runs iff one exists or speech is supported |
| Reader.FinalAndInterimPartition | frontend/src/components/Reader.jsx:118-125 | each result's text goes to exactly one of the final and interim transcripts |
| Reader.NothingFinalYet | frontend/src/components/Reader.jsx:118-127 | with no final result the final transcript is empty and the interim one holds everything |
| Reader.ComposeTranscript | frontend/src/components/Reader.jsx:115-125 | the loop from `resultIndex` builds the final and interim transcripts of the fresh results |
| Reader.OnResult | frontend/src/components/Reader.jsx:127-144 | the transcript is recorded; the cursor advances (as `handleNextLine`) iff the current line is the performer's and matches, else nothing else changes |
| Reader.OnError | frontend/src/components/Reader.jsx:147-152 | an error is reported iff it is not "no-speech", with the text "Recognition error: " and the code |
| Reader.OnEnd | frontend/src/components/Reader.jsx:154-159 | recognition restarts iff listening and playing; nothing else changes |
| Reader.CursorStaysInRange | frontend/src/components/Reader.jsx:194-250 | every handler keeps the cursor on a line of the script |
| Reader.PrevUndoesNext | frontend/src/components/Reader.jsx:194-211 | before the last line, stepping forward then back returns to the start with an empty transcript |
| Reader.NextUndoesPrev | frontend/src/components/Reader.jsx:194-211 | past the first line, stepping back then forward returns to the start with an empty transcript |
| Reader.AdvanceWithinScript | frontend/src/components/Reader.jsx:194-197 | k steps that stay inside the script move the cursor by k and keep the flags |
| Reader.FullPassCompletes | frontend/src/components/Reader.jsx:194-204 | from the first line, n-1 steps reach the last line still playing; one more completes the script and stops, with the cursor on the last line |
| Reader.AdvanceSplit | frontend/src/components/Reader.jsx:194-204 | k+1 steps are k steps followed by one |
| Reader.ResetIdempotent | frontend/src/components/Reader.jsx:244-250 | resetting twice is resetting once |
| Reader.ListenOnThenOff | frontend/src/components/Reader.jsx:213-227 | listening on then off leaves playback on, listening off, the cursor unmoved and the recognizer stopped |
| Reader.PlayThenPause | frontend/src/components/Reader.jsx:229-242 | play then pause leaves both flags off, the cursor unmoved and recognition stopped |
| Reader.SpeechWaitsOnPartnerLines | frontend/src/components/Reader.jsx:131-134 | on a partner's line, speech only updates the transcript |
| Reader.SilenceNeverAdvances | frontend/src/components/Reader.jsx:127-142 | a transcript that cleans to nothing never moves the cursor or completes the script |
| Reader.ReadingOwnLineAdvances | frontend/src/components/Reader.jsx:127-142 | reading one's own line (not the last) advances iff its cleaned text is longer than 3 characters |
| Reader.OnResultAsWritten | frontend/src/components/Reader.jsx:101-145 | the closure tests the line at the cursor captured at creation; without a match it stores the transcript; on a match before the captured last line it increments the live cursor; on a match at the captured last line it stops playing and listening and gives the completion notice |
| Reader.OnEndAsWritten | frontend/src/components/Reader.jsx:154-162 | the closure restarts iff the flags captured at creation were both set |
| Reader.NavigationKeepsCapture | frontend/src/components/Reader.jsx:101-162 | moving between lines, resetting and jumping leave the recognizer's captured flags as they were |
| Reader.TogglesKeepCapture | frontend/src/components/Reader.jsx:101-162 | the listening and play toggles create a recognizer only while listening or playing is off |
| Reader.RecognitionKeepsCapture | frontend/src/components/Reader.jsx:101-162 | the recognizer's result and end events, as written and corrected, never change what it captured |
| Reader.AsWrittenNeverRestarts | frontend/src/components/Reader.jsx:154-159 | as written, `onend` never restarts recognition |
| Reader.PlayThenRecognizerEnds | frontend/src/components/Reader.jsx:154-159 | after Play the recognizer ends while both flags are set; as written it stays stopped, reading current state it restarts |
| Reader.StaleCursorRunsPastEnd | frontend/src/components/Reader.jsx:131-142 | on [own "hello", partner "bye"], saying "hello" twice moves the cursor as written to 2, past the last line; reading current state it stays at 1 |
| Reader.HelloMatchesHello | frontend/src/components/Reader.jsx:136-137 | "hello" is already lower case and matches itself |
| Reader.ReaderPage.constructor | frontend/src/components/Reader.jsx:35-91 | the page starts on line 0, idle, with the flattened lines of all scenes |
| Reader.ReaderPage.HandleNextLine | frontend/src/components/Reader.jsx:194-204 | the new state and notice are `NextLine` of the old state |
| Reader.ReaderPage.HandlePrevLine | frontend/src/components/Reader.jsx:206-211 | the new state is `PrevLine` of the old state |
| Reader.ReaderPage.SelectLine | frontend/src/components/Reader.jsx:391 | the new state is `JumpTo` the clicked line |
| Reader.ReaderPage.HandleReset | frontend/src/components/Reader.jsx:244-250 | the new state is `Reset` of the old state |
| Reader.ReaderPage.ToggleListeningButton | frontend/src/components/Reader.jsx:213-227 | the new state and notice are `ToggleListening` of the old state |
| Reader.ReaderPage.TogglePlayPauseButton | frontend/src/components/Reader.jsx:229-242 | the new state and notice are `TogglePlayPause` of the old state |
| Reader.ReaderPage.OnSpeechResult | frontend/src/components/Reader.jsx:114-145 | the new state is `OnResult` of the transcript composed from the fresh results |
| Reader.ReaderPage.OnSpeechError | frontend/src/components/Reader.jsx:147-152 | the notice is `OnError` of the code |
| Reader.ReaderPage.OnSpeechEnd | frontend/src/components/Reader.jsx:154-159 | the new state is `OnEnd` of the old state |
| Reader.ReaderPage.Dispose | frontend/src/components/Reader.jsx:55-59 | unmounting stops the recognizer and changes nothing else |
| Recording.FormatTime | frontend/src/components/Recording.jsx:260-264 | minutes and seconds, each zero-padded to two digits, around a colon; `FormatTimeReadsBack` proves it reads back as the input |
| Recording.FormatTimeReadsBack | frontend/src/components/Recording.jsx:260-264 | the text is at least two minute digits, ":", and two seconds digits below 60; minutes*60 + seconds is the input |
| Recording.FormatTimeExamples | frontend/src/components/Recording.jsx:260-264 | 0 s is "00:00" and 75 s is "01:15" |
| Recording.CountdownRunsThreeTicks | frontend/src/components/Recording.jsx:126-138 | the countdown goes 3, 2, 1 and then ends |
| Recording.CountdownStep | frontend/src/components/Recording.jsx:129-136 | the interval's updater: a value at most 1 ends the countdown (null), any other counts down by one; iterated in `CountdownEndsAfter` |
| Recording.CountdownEndsAfter | frontend/src/components/Recording.jsx:128-136 | started at n >= 1, the countdown shows n - k after k < n ticks of `CountdownStep` and becomes null on exactly the n-th tick |
| Recording.NonEmptyChunks | frontend/src/components/Recording.jsx:155-159 | the buffer never holds more chunks than were delivered |
| Recording.NonEmptyChunksKeepExactlyData | frontend/src/components/Recording.jsx:155-159 | a chunk is in the buffer exactly when it was delivered and has positive size |
| Recording.NonEmptyChunksKeepAllData | frontend/src/components/Recording.jsx:155-159 | dropping the empty chunks loses no data |
| Recording.NonEmptyChunksOfNonEmpty | frontend/src/components/Recording.jsx:155-159 | when every delivery has data, all of them are kept, in order |
| Recording.CueAt | frontend/src/components/Recording.jsx:177-179 | a cue plays iff auto-play is on and the line exists, is not the performer's and has an audio URL; the URL is that line's (`handleNextLine` applies the same test at lines 243-245) |
| Recording.NoCueForOwnLines | frontend/src/components/Recording.jsx:243 | with auto-play off, or on the performer's own line, nothing plays |
| Recording.RecordingPage.constructor | frontend/src/components/Recording.jsx:39-87 | the page starts idle with no stream, no take, camera, mic and auto-play on, and the flattened lines |
| Recording.RecordingPage.StopMediaStream | frontend/src/components/Recording.jsx:119-124 | the stream handle is released and nulled; nothing else changes |
| Recording.RecordingPage.InitCamera | frontend/src/components/Recording.jsx:96-117 | the old stream is always stopped; a new one is held iff a device is wanted and access is granted; a refusal is reported |
| Recording.RecordingPage.SetCameraEnabled | frontend/src/components/Recording.jsx:73-77 | changing the camera switch re-runs camera setup with the new setting; the same setting changes nothing (the switch itself is at lines 319-321) |
| Recording.RecordingPage.SetMicEnabled | frontend/src/components/Recording.jsx:73-77 | changing the mic switch re-runs camera setup with the new setting; the same setting changes nothing (the switch itself is at lines 323-325) |
| Recording.RecordingPage.SetAutoPlayCues | frontend/src/components/Recording.jsx:327 | only the auto-play setting changes |
| Recording.RecordingPage.StartCountdown | frontend/src/components/Recording.jsx:126-128 | the countdown is set to 3 and ticks; nothing else changes |
| Recording.RecordingPage.CountdownTick | frontend/src/components/Recording.jsx:128-137 | the new countdown is `CountdownStep` of the old one; a tick above 1 counts down and changes nothing else; at 1 or below the countdown ends and, without a stream, only the notice follows, while with one the whole new state is that of a started recording (recorder active, clock zeroed and running, chunks emptied) with every other field kept |
| Recording.RecordingPage.StartRecording | frontend/src/components/Recording.jsx:140-180 | with no stream, an error and no change; otherwise an empty buffer, recording on, time 0, timer running, and line 0's cue iff `CueAt` gives one |
| Recording.RecordingPage.OnDataAvailable | frontend/src/components/Recording.jsx:155-159 | a chunk is appended iff it has data |
| Recording.RecordingPage.OnRecorderStop | frontend/src/components/Recording.jsx:161-165 | the take becomes the buffer, which is the non-empty deliveries in arrival order, with its URL |
| Recording.RecordingPage.RecordingTimerTick | frontend/src/components/Recording.jsx:172-174 | the elapsed time grows by one second |
| Recording.RecordingPage.PauseRecording | frontend/src/components/Recording.jsx:182-195 | only while recording: toggles paused, stops the timer when pausing and restarts it when resuming |
| Recording.RecordingPage.StopRecording | frontend/src/components/Recording.jsx:197-204 | only while recording: recording and paused both become false and the timer stops |
| Recording.RecordingPage.ResetRecording | frontend/src/components/Recording.jsx:206-211 | the take and its URL are cleared, and the line and the time return to 0 |
| Recording.RecordingPage.PlayLineAudio | frontend/src/components/Recording.jsx:227-234 | the held audio is paused and a new one for the URL is held and playing |
| Recording.RecordingPage.HandleNextLine | frontend/src/components/Recording.jsx:236-252 | before the last line the cursor moves on, and the new line's cue plays iff `CueAt` gives one; otherwise nothing changes |
| Recording.RecordingPage.HandlePrevLine | frontend/src/components/Recording.jsx:254-258 | the cursor moves back iff past the first line, and nothing plays |
| Recording.RecordingPage.Dispose | frontend/src/components/Recording.jsx:65-71 | unmounting releases the stream and clears the timer |
| Recording.StopMediaStreamIdempotent | frontend/src/components/Recording.jsx:119-124 | stopping twice is stopping once: the handle is null and nothing else changed |
| Recording.FullTake | frontend/src/components/Recording.jsx:126-204 | countdown, recording and any sequence of chunk deliveries end in a take holding exactly the non-empty chunks in order |
| Playback.PauseHeld | frontend/src/components/Recording.jsx:228-230 | pausing touches only the held audio |
| Playback.PlayNew | frontend/src/components/Recording.jsx:227-234 | after playing a cue, the held audio is the new one, playing |
| Playback.PlayNewKeepsOneVoice | frontend/src/components/Recording.jsx:227-234 | playing a cue keeps at most one audio playing, and silences every earlier one |
| Playback.PauseHeldSilences | frontend/src/components/ScriptEditor.jsx:238-240 | after pausing nothing plays, and pausing again changes nothing |
| Playback.AtMostOnePlaying | frontend/src/components/Recording.jsx:227-234 | at most one audio plays, and one does iff the held one is playing |
| Script.Flatten | frontend/src/components/Reader.jsx:89-91 | the `reduce` that concatenates the lines of the scenes in scene order; `FlattenAppend` is its law |
| Script.FlattenAppend | frontend/src/components/Reader.jsx:89-91 | flattening the scenes is compatible with appending scenes |
| Script.IsPdfFileName | frontend/src/components/ProjectDetail.jsx:58 | `name.toLowerCase().endsWith('.pdf')`, the same test as backend/server.py:346; characterised by `PdfFileNameByLastFour` |
| Script.PdfFileNameByLastFour | backend/server.py:346 | a name is accepted iff its last four characters lower-case to ".pdf" |
| Script.UpperCasePdfAccepted | backend/server.py:346 | ".PDF" and ".pdf" names are both accepted |
| ScriptEditor.LoadLines | frontend/src/components/ScriptEditor.jsx:69-75 | without scenes, no lines; otherwise one editor line per flattened line, in order, with id, character, text, number, performer flag, emotion, audio and parenthetical carried over, typed parenthetical iff its `parenthetical` is truthy |
| ScriptEditor.DropClosing | frontend/src/components/ScriptEditor.jsx:95 | one trailing ")" is removed when present, else the text is unchanged |
| ScriptEditor.WrapParenthetical | frontend/src/components/ScriptEditor.jsx:94-95 | text already starting with "(" is kept; other text loses a trailing ")" and is wrapped in parentheses; `WrapShape` and `ParentheticalTwice` state its properties |
| ScriptEditor.WrapShape | frontend/src/components/ScriptEditor.jsx:92-97 | the result starts with "("; unwrapped text becomes "(" + text minus a trailing ")" + ")"; wrapping twice is wrapping once |
| ScriptEditor.WrapHalfParenthesised | frontend/src/components/ScriptEditor.jsx:94-95 | text that ends with ")" but does not start with "(" gets one opening parenthesis and keeps a single closing one |
| ScriptEditor.ApplyEdit | frontend/src/components/ScriptEditor.jsx:87-102 | an edit changes only its own field, except that a text edit clears the audio URL and switching to parenthetical wraps the text |
| ScriptEditor.ParentheticalTwice | frontend/src/components/ScriptEditor.jsx:92-97 | switching to parenthetical twice is switching once |
| ScriptEditor.RenumberedNumbers | frontend/src/components/ScriptEditor.jsx:124-126 | renumbering sets each `line_number` to its position + 1, touches nothing else, and changes a list iff it was not already numbered |
| ScriptEditor.InsertAt | frontend/src/components/ScriptEditor.jsx:121 | `splice(k, 0, x)`; `InsertAtShape` proves it places `x` at `k` and keeps the rest in order |
| ScriptEditor.RemoveAt | frontend/src/components/ScriptEditor.jsx:138 | `filter((_, idx) => idx !== index)`, with nothing removed for an index off the list; `RemoveAtShape` proves its shape |
| ScriptEditor.Swap | frontend/src/components/ScriptEditor.jsx:154 | the destructuring swap of two positions; `SwapShape` proves only those two change |
| ScriptEditor.Moved | frontend/src/components/ScriptEditor.jsx:149-162 | `moveLine` on the list: no change when the target position is off the list, otherwise the swap, renumbered; `MoveUpThenDown` and `ListOperationsNumber` are about it |
| ScriptEditor.InsertAtShape | frontend/src/components/ScriptEditor.jsx:120-121 | `splice(k, 0, x)` puts x at k, keeps the lines before and shifts the lines after; the lines are the old ones plus x |
| ScriptEditor.RemoveAtShape | frontend/src/components/ScriptEditor.jsx:138 | the filter removes exactly the line at the index, keeping the others in order |
| ScriptEditor.SwapShape | frontend/src/components/ScriptEditor.jsx:154 | a swap exchanges the two slots, keeps all others, is a permutation, and undoes itself |
| ScriptEditor.RenumberSwap | frontend/src/components/ScriptEditor.jsx:153-159 | renumbering before a swap does not change the renumbered result |
| ScriptEditor.MoveUpThenDown | frontend/src/components/ScriptEditor.jsx:149-163 | moving a line up and then down again restores the order |
| ScriptEditor.NewLine | frontend/src/components/ScriptEditor.jsx:109-118 | a new line is empty dialogue, not the performer's, without audio, with a "new-" id and the first character (or "CHARACTER") |
| ScriptEditor.AddOutcomeOf | frontend/src/components/ScriptEditor.jsx:165-171 | a blank input is ignored, an upper-cased trimmed name already present is reported, and any other is added; `AddNameKeepsNamesDistinct` is about the resulting list |
| ScriptEditor.AddNameKeepsNamesDistinct | frontend/src/components/ScriptEditor.jsx:165-178 | the list stays duplicate-free; it grows iff the trimmed name is non-blank and new, and then holds its upper-cased form |
| ScriptEditor.FormatForSave | frontend/src/components/ScriptEditor.jsx:185-194 | one saved line per editor line |
| ScriptEditor.SavedLinesShape | frontend/src/components/ScriptEditor.jsx:185-194 | saved numbers are 1..n, the audio is cleared, a line is the performer's iff its character is the chosen one, "new-" ids are dropped and others kept, text, character and emotion are copied, and `parenthetical` is the text on parenthetical lines and null on the rest |
| ScriptEditor.SavedKindOnReload | frontend/src/components/ScriptEditor.jsx:193 | a saved line reloads as parenthetical iff it was a non-empty parenthetical (the reload side is line 73) |
| ScriptEditor.ListOperationsNumber | frontend/src/components/ScriptEditor.jsx:121-159 | after insert, delete or a move, every `line_number` is its position + 1 |
| ScriptEditor.ScriptEditorPage.constructor | frontend/src/components/ScriptEditor.jsx:69-78 | the editor starts with the loaded lines and characters, without changes |
| ScriptEditor.ScriptEditorPage.Renumber | frontend/src/components/ScriptEditor.jsx:124-126 | the `forEach` loop computes `Renumbered` |
| ScriptEditor.ScriptEditorPage.HandleLineChange | frontend/src/components/ScriptEditor.jsx:87-106 | only the edited line changes, by `ApplyEdit`, and the page is marked changed |
| ScriptEditor.ScriptEditorPage.AddLine | frontend/src/components/ScriptEditor.jsx:108-130 | the new line is inserted after the given index and the list renumbered |
| ScriptEditor.ScriptEditorPage.DeleteLine | frontend/src/components/ScriptEditor.jsx:132-147 | with at most one line, refused and unchanged; otherwise the line is removed and the list renumbered |
| ScriptEditor.ScriptEditorPage.MoveLine | frontend/src/components/ScriptEditor.jsx:149-163 | a move out of range changes nothing; otherwise the adjacent lines swap and the list is renumbered |
| ScriptEditor.ScriptEditorPage.TypeCharacterName | frontend/src/components/ScriptEditor.jsx:510 | the typed name is stored upper-cased |
| ScriptEditor.ScriptEditorPage.OpenAddCharacter | frontend/src/components/ScriptEditor.jsx:491 | only the add-character dialog opens |
| ScriptEditor.ScriptEditorPage.AddCharacter | frontend/src/components/ScriptEditor.jsx:165-178 | blank input is ignored, a duplicate reported, and otherwise the name appended and the dialog closed |
| ScriptEditor.ScriptEditorPage.PlayAudio | frontend/src/components/ScriptEditor.jsx:232-259 | without a URL nothing changes; clicking the playing line stops it; otherwise the old audio pauses and the new line plays |
| ScriptEditor.ScriptEditorPage.OnAudioEnded | frontend/src/components/ScriptEditor.jsx:251 | when the audio ends no line is marked as playing and nothing else changes |
| ScriptEditor.ScriptEditorPage.OnAudioError | frontend/src/components/ScriptEditor.jsx:252-255 | a playback error gives the "Failed to play audio" toast and no line is marked as playing |
| ScriptEditor.ScriptEditorPage.SaveRequest | frontend/src/components/ScriptEditor.jsx:185-199 | the request body is `FormatForSave` of the current lines together with the editor's current character list |
| Server.MatchesCuePattern | backend/server.py:161 | the regular expression `^([A-Z][A-Z\s\-\'\.]+?)(?:\s*\([^)]*\))?\s*$`: a name of an upper-case letter and at least one more name character, then optionally one parenthetical with no ")" inside |
| Server.CueName | backend/server.py:174 | group 1 of the match, stripped: the part before the first "(" with its white space removed; never empty by `CueNameNonEmpty` |
| Server.IsCue | backend/server.py:172-176 | the pattern matches, the line is shorter than 40, `isupper()` holds and the name is not one of the ten excluded words; `PlainNameIsCue` and `LowerCaseParentheticalIsNoCue` are about it |
| Server.ParseStep | backend/server.py:166-195 | one pass of the loop body: blank lines are skipped, a cue sets and adds the speaker, a line with a pending speaker that is no lone parenthetical is recorded and clears the speaker; `CueStep`, `DialogueStep` and `StepKeepsWellFormed` state it case by case |
| Server.ParseLines | backend/server.py:154-195 | the loop state after the given text lines, `ParseStep` applied from the empty state in order; `ParseIsWellFormed` and `OneLinePerCue` are about it |
| Server.IndexOf | backend/server.py:161 | the first index of the character, or the length when it is absent |
| Server.PyTitle | backend/server.py:177 | `str.title()` keeps the length |
| Server.CueNameNonEmpty | backend/server.py:174-178 | a cue's name, and its title-cased form, are never empty |
| Server.LowerCaseParentheticalIsNoCue | backend/server.py:173 | a name followed by a parenthetical with a lower-case letter fails `isupper()` and is no cue |
| Server.PlainNameIsCue | backend/server.py:161-176 | an upper-case name shorter than 40 and not excluded is a cue whose name is itself |
| Server.StepKeepsWellFormed | backend/server.py:166-195 | one iteration keeps the numbering, the speakers and the text shape of all recorded lines |
| Server.ParseIsWellFormed | backend/server.py:166-195 | lines are numbered 1..n in order, each speaker is in the set, none is the performer's, and each text is non-blank, stripped and not a lone parenthetical |
| Server.OneLinePerCue | backend/server.py:177-195 | the lines recorded, plus one for a pending speaker, are at most the cues |
| Server.StrayAndBlankLinesDropped | backend/server.py:167-182 | blank lines, and non-cue lines with no pending speaker, change nothing |
| Server.CueStep | backend/server.py:172-179 | a cue sets the pending speaker to its non-empty title-cased name and adds that name to the characters |
| Server.DialogueStep | backend/server.py:182-195 | with a pending speaker, a non-blank line that is no cue and no lone parenthetical is recorded under the next number, and the speaker is cleared |
| Server.ParseTextLine | backend/server.py:166-195 | one iteration of the loop is `ParseStep` |
| Server.ParseLoop | backend/server.py:154-195 | the loop computes the lines and characters of `ParseLines` |
| Server.ParsedLines | backend/server.py:197-201 | one stored line per line the parse records, in order |
| Server.ParseScriptText | backend/server.py:153-204 | all parsed lines in order go into one scene named "Main Scene", with the character set |
| Server.MarkedScenesMarkExactly | backend/server.py:387-390 | a line is the performer's iff its character is the chosen one, and nothing else changes |
| Server.MarkingReplacesEarlierMarks | backend/server.py:387-390 | marking for a second character overrides the first choice entirely |
| Server.MarkUserLines | backend/server.py:387-390 | the nested loops compute `MarkedScenes` |
| Server.SetUserCharacter | backend/server.py:379-400 | 404 for a missing project, 400 for a name not in its characters; otherwise the choice, the marked script and the timestamp are stored |
| Server.BuildUpdateData | backend/server.py:315-319 | `updated_at` is always set; `title` and `description` are set exactly when given |
| Server.UpdateProject | backend/server.py:311-319 | 404 for a missing project; otherwise only the given fields and the timestamp change |
| Server.SetToList | backend/server.py:204 | `list(characters)` holds each member of the set exactly once |
| Server.UploadPdf | backend/server.py:342-366 | 404 for a missing project, then 400 for a non-".pdf" name; otherwise the stored project is the old one with only three fields replaced: the scenes become one "Main Scene" holding `ParsedLines` in order, the characters become a list of the parsed set, each name once, and the timestamp becomes `now` |
| ProjectDetail.TotalLines | frontend/src/components/ProjectDetail.jsx:96-99 | `getTotalLines`: 0 without scenes, else the line count over all scenes; equal to the flattened length by `TotalIsFlattenedLength` |
| ProjectDetail.UserLines | frontend/src/components/ProjectDetail.jsx:101-106 | `getUserLines`: 0 without scenes or a chosen character, else the lines marked as the performer's; bounded by `UserLinesAtMostTotal` |
| ProjectDetail.UserLinesAtMostTotal | frontend/src/components/ProjectDetail.jsx:96-106 | the performer's line count never exceeds the total |
| ProjectDetail.TotalIsFlattenedLength | frontend/src/components/ProjectDetail.jsx:96-99 | the total is the length of the flattened script |
| ProjectDetail.UserLinesAfterChoosing | frontend/src/components/ProjectDetail.jsx:101-106 | after the backend marks a chosen character, the performer's count is the number of lines that character speaks |
| ProjectDetail.HandleFileUpload | frontend/src/components/ProjectDetail.jsx:54-61 | no file does nothing; a name not ending ".pdf" in any case is rejected before upload; otherwise it is uploaded |
| ProjectDetail.UploadsPassServerGate | frontend/src/components/ProjectDetail.jsx:58-61 | every file the page uploads passes the backend's name check |
| ProjectDetail.SetButtonDisabled | frontend/src/components/ProjectDetail.jsx:262 | the button is disabled with no selection, with the current character selected, or while a request is pending |
| ProjectDetail.HandleSetCharacter | frontend/src/components/ProjectDetail.jsx:80-95 | for a present project and one of its characters, the page shows the server's project with that character chosen, its lines marked and the new timestamp, and says "You're now playing" the character; otherwise it keeps its project and shows "Failed to set character" |
| ProjectDetail.ClickSetButton | frontend/src/components/ProjectDetail.jsx:261-262 | an enabled click with one of the project's characters selected always succeeds, chooses a character different from the old one, and marks exactly that character's lines as the performer's |
| ProjectDetail.ShowsReaderLink | frontend/src/components/ProjectDetail.jsx:134 | the Reader link is shown for a project with at least one scene and a chosen character |
| ProjectDetail.ReaderLinkMeansCounted | frontend/src/components/ProjectDetail.jsx:134 | the Reader link appears only when scenes exist and a character is chosen, and then the performer's lines are counted |
| ProjectDetail.Preview | frontend/src/components/ProjectDetail.jsx:298 | at most the first 20 lines of a scene, all of them when there are at most 20 |
| ProjectDetail.MoreLines | frontend/src/components/ProjectDetail.jsx:319-322 | the "more lines" note appears iff a scene has more than 20 lines, with a positive count |
| ProjectDetail.PreviewAccountsForAll | frontend/src/components/ProjectDetail.jsx:298-322 | the previewed lines and the note's count add up to the scene's lines |
| SharedView.FormatDuration | frontend/src/components/SharedView.jsx:43-47 | unpadded minutes, a colon and seconds zero-padded to two digits; `FormatDurationReadsBack` proves it reads back as the input |
| SharedView.FormatDurationReadsBack | frontend/src/components/SharedView.jsx:43-47 | unpadded minutes, ":", two seconds digits below 60; minutes*60 + seconds is the input |
| SharedView.FormatDurationExamples | frontend/src/components/SharedView.jsx:43-47 | 0 s is "0:00" and 125 s is "2:05" |
| SharedView.ErrorMessage | frontend/src/components/SharedView.jsx:30-33 | the error is the response's `detail` when truthy, else "Failed to load", and never empty |
| SharedView.ErrorHeading | frontend/src/components/SharedView.jsx:65 | "Link Expired" for the server's expiry message, "Not Found" for any other error |
| SharedView.ExpiredOnlyWhenSaid | frontend/src/components/SharedView.jsx:65 | the heading is "Link Expired" iff the server's detail is exactly "Share link has expired"; otherwise "Not Found" (the message comes from lines 30-33) |
| MobileNav.Render | frontend/src/components/MobileNav.jsx:9-20 | nothing renders without a user; otherwise one entry per item, linking to its path and lit by `isActive` |
| MobileNav.IsActive | frontend/src/components/MobileNav.jsx:17-20 | an item is lit when it has a match prefix the path starts with, or when the path equals its own path |
| MobileNav.WhichItemIsActive | frontend/src/components/MobileNav.jsx:11-20 | Home is lit only on "/dashboard"; Projects and Reader also on paths starting "/project" and "/reader" |
| MobileNav.DashboardLightsAll | frontend/src/components/MobileNav.jsx:11-20 | all three items are lit on "/dashboard" |
| MobileNav.ElsewhereAtMostOne | frontend/src/components/MobileNav.jsx:11-20 | away from "/dashboard" at most one item, and never Home, is lit |

## Left out

- The Fuse.js search and its floating-point `score < sensitivity` test are an oracle input, `Matcher.FuseHit`: the top hit's index and whether it passed.
- The Web Speech API, MediaRecorder, `getUserMedia`, `Audio`, timers, `scrollIntoView`, object URLs, downloads and toasts are I/O. They appear as inbound events (method calls, parameters) and outbound values (notices, cue URLs).
- `Reader.OnResult`, `Reader.OnEnd`: the handlers are modelled reading the page's current state, except in the as-written members of the finding below. React's batching of state updates is not modelled.
- Reader: starting a recognizer that is already running throws in browsers. It is modelled as leaving it running.
- Reader: after the script completes, a running recognizer is left running, as in the code.
- Recording: the camera preview element (`videoRef`) is left out.
- Recording: a device change during a take does not end the recorder's tracks in the model.
- Recording: the 500 ms delay before the first cue is left out. The cue is returned at once.
- Recording: the download of a take is left out (a browser download).
- `Recording.RecordingPage.StartCountdown` requires that no take is running or pending and no countdown is running. The page shows its button only in that state.
- `Recording.RecordingPage.Dispose` does not stop a running recorder, countdown or audio. Neither does the unmount handler.
- Recording: the `recordingTime` and countdown values are integers. The timers are not real time.
- `SharedView.FormatDuration` takes whole seconds. A fractional duration from the server is not modelled.
- `str.isupper()`, `str.title()`, `toLowerCase()` and `toUpperCase()` are modelled on ASCII letters only. Other letters count as uncased.
- PDF text extraction (`PdfReader`) and its "Failed to parse PDF" error are not modelled. The parser starts from the extracted text lines.
- `Server.ParseScriptText`: line and scene UUIDs are parameters.
- `Server.SetToList` chooses an arbitrary order. The order of `list(set)` in Python is not specified.
- Backend authentication, database CRUD beyond the fields above, CORS, the health routes, the paste-script, take, share and email endpoints, and the editor's save endpoint (absent from `backend/server.py`) are not modelled.
- Voice generation after saving in the editor, the editor's delete/reload of the project, and all network calls are left out.
- App.js, the login, signup, dashboard, settings and landing pages are network or static UI, and are left out.

## Findings

| source | as written | input that shows it | evidently intended | confidence | as-written member | corrected member |
|---|---|---|---|---|---|---|
| frontend/src/components/Reader.jsx:101-162 | The recognizer's `onresult` (which calls the `handleNextLine` of the same render) and `onend` are closures over the state at the moment `initSpeechRecognition` first ran. The recognizer is created once (lines 218-220, 236-237), by a toggle, while listening or playing is still false. So `onend` never restarts recognition. And `onresult` keeps testing the captured line while incrementing the live cursor, so the cursor can pass the last line. | Lines [own "hello", partner "bye"]; press Play; say "hello" twice. The cursor goes 0 → 1 → 2, past the last line. Separately, press Play and let recognition end: it stays stopped. | The handlers read the current cursor and flags: the partner's line waits for the cue, the cursor stays on the last line, and recognition restarts while listening and playing. | not executed | Reader.OnResultAsWritten, Reader.OnEndAsWritten, Reader.StaleCursorRunsPastEnd, Reader.AsWrittenNeverRestarts, Reader.PlayThenRecognizerEnds | Reader.OnResult, Reader.OnEnd, Reader.CursorStaysInRange |
