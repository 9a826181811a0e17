/** The backend (server.py): turning extracted script text into lines,
    choosing the performer's character, updating a project's title and
    description, and the upload gate. Database reads and writes become
    values in and out; identifiers and timestamps are parameters. */
module Server {
  import opened Wrappers
  import opened Text
  import opened Script

  // ---------------------------------------------------------------- cue detection

  /** A character the cue pattern allows in a name: `[A-Z\s\-\'\.]`. */
  predicate IsNameChar(c: char) {
    IsAsciiUpper(c) || IsPySpace(c) || c == '-' || c == '\'' || c == '.'
  }

  /** Index of the first `c` in `s`, or `|s|`. */
  function IndexOf(s: string, c: char): (k: nat)
    ensures k <= |s| && (k < |s| ==> s[k] == c)
    ensures forall i :: 0 <= i < k ==> s[i] != c
  {
    if s == [] || s[0] == c then 0 else 1 + IndexOf(s[1..], c)
  }

  /** The name part before any parenthesis, `[A-Z][A-Z\s\-\'\.]+?`
      followed by optional whitespace: an upper-case letter and at least
      one more name character. */
  predicate NameHead(h: string) {
    |h| >= 2 && IsAsciiUpper(h[0]) && forall i :: 1 <= i < |h| ==> IsNameChar(h[i])
  }

  /** The part from the first "(" on, `\([^)]*\)\s*$`: the parenthesis
      closes at the first ")" and only whitespace follows. */
  predicate ParenTail(t: string) {
    var m := IndexOf(t, ')');
    |t| >= 1 && t[0] == '(' && m < |t| && forall i :: m < i < |t| ==> IsPySpace(t[i])
  }

  /** `character_pattern.match(s)`. A parenthesis cannot be part of the
      name, so the text before the first "(" is the name part (with the
      optional `\s*` before the parenthesis), and the rest is the
      optional parenthetical. */
  predicate MatchesCuePattern(s: string) {
    var k := IndexOf(s, '(');
    NameHead(s[..k]) && (k == |s| || ParenTail(s[k..]))
  }

  /** `char_match.group(1).strip()`: the lazy group stops where only
      whitespace separates it from the parenthesis or the end, so once
      stripped it is the stripped name part. */
  function CueName(s: string): string {
    PyStrip(s[..IndexOf(s, '(')])
  }

  /** `str.isupper()` on ASCII letters: some upper-case letter and no
      lower-case one. */
  predicate PyIsUpper(s: string) {
    (exists i | 0 <= i < |s| :: IsAsciiUpper(s[i])) && forall i :: 0 <= i < |s| ==> !IsAsciiLower(s[i])
  }

  const Excluded: seq<string> := ["INT", "EXT", "FADE", "CUT", "SCENE", "ACT", "END", "CONTINUED", "CONT", "THE END"]

  /** A stripped line starts a new speaker exactly when it matches the
      pattern, is shorter than 40 characters, is upper-case, and its name
      is not one of the excluded words. */
  predicate IsCue(s: string) {
    MatchesCuePattern(s) && |s| < 40 && PyIsUpper(s) && CueName(s) !in Excluded
  }

  predicate IsAsciiLetter(c: char) { IsAsciiUpper(c) || IsAsciiLower(c) }

  /** `str.title()` on ASCII letters: a letter after a letter is lower-cased,
      any other letter upper-cased. */
  function PyTitle(s: string): (r: string)
    ensures |r| == |s|
  {
    seq(|s|, i requires 0 <= i < |s| =>
      if !IsAsciiLetter(s[i]) then s[i]
      else if i > 0 && IsAsciiLetter(s[i - 1]) then LowerChar(s[i])
      else UpperChar(s[i]))
  }

  /** A cue's name is not blank and begins with its first letter, so the
      speaker the parser records is never empty. */
  lemma CueNameNonEmpty(s: string)
    requires MatchesCuePattern(s)
    ensures CueName(s) != "" && PyTitle(CueName(s)) != ""
  {
    var h := s[..IndexOf(s, '(')];
    var t := TrimStart(h, IsPySpace);
    assert t == h;
    var e := TrimEnd(t, IsPySpace);
    var c := t[0];
    assert |e| == 0 ==> IsPySpace(c);
  }

  /** A parenthetical with a lower-case letter makes the line fail
      `isupper`, so "JOHN (cont'd)" is not a cue. */
  lemma LowerCaseParentheticalIsNoCue(name: string, note: string)
    requires exists i | 0 <= i < |note| :: IsAsciiLower(note[i])
    ensures !IsCue(name + " (" + note + ")")
  {
    var s := name + " (" + note + ")";
    var i :| 0 <= i < |note| && IsAsciiLower(note[i]);
    assert s[|name| + 2 + i] == note[i];
  }

  /** A bare name of upper-case letters and spaces, shorter than 40 and
      not excluded, is a cue, and its name is itself. */
  lemma PlainNameIsCue(s: string)
    requires |s| >= 2 && |s| < 40 && IsAsciiUpper(s[0]) && IsAsciiUpper(s[|s| - 1])
    requires forall i :: 0 <= i < |s| ==> IsAsciiUpper(s[i]) || s[i] == ' '
    requires s !in Excluded
    ensures IsCue(s) && CueName(s) == s
  {
    assert IndexOf(s, '(') == |s|;
    assert s[..|s|] == s;
    TrimKeepsUnpadded(s, IsPySpace);
  }

  // ---------------------------------------------------------------- the parse loop

  /** A line as `parse_script_pdf` records it (its `id` is a fresh UUID). */
  datatype ParsedLine = ParsedLine(character: string, text: string, lineNumber: int, isUserLine: bool)

  datatype ParseState = ParseState(
    lines: seq<ParsedLine>,
    characters: set<string>,
    current: Option<string>,
    lineNumber: nat)

  const Start := ParseState([], {}, None, 0)

  /** One iteration of the loop over the text lines. */
  function ParseStep(st: ParseState, raw: string): ParseState {
    var stripped := PyStrip(raw);
    if stripped == "" then st
    else if IsCue(stripped) then
      var name := PyTitle(CueName(stripped));
      st.(current := Some(name), characters := st.characters + {name})
    else if Truthy(st.current) then
      if StartsWith(stripped, "(") && EndsWith(stripped, ")") then st
      else
        var n := st.lineNumber + 1;
        st.(lineNumber := n, lines := st.lines + [ParsedLine(st.current.value, stripped, n, false)], current := None)
    else st
  }

  /** The loop's state after the given text lines. */
  function ParseLines(raws: seq<string>): ParseState {
    if raws == [] then Start else ParseStep(ParseLines(raws[..|raws| - 1]), raws[|raws| - 1])
  }

  /** What the parse promises of every state it reaches. */
  ghost predicate WellFormed(st: ParseState) {
    st.lineNumber == |st.lines|
    && (st.current.Some? ==> st.current.value in st.characters)
    && forall i :: 0 <= i < |st.lines| ==>
      var l := st.lines[i];
      l.lineNumber == i + 1 && l.character in st.characters && !l.isUserLine
      && l.text != "" && !IsPySpace(l.text[0]) && !IsPySpace(l.text[|l.text| - 1])
      && !(StartsWith(l.text, "(") && EndsWith(l.text, ")"))
  }

  lemma StepKeepsWellFormed(st: ParseState, raw: string)
    requires WellFormed(st)
    ensures WellFormed(ParseStep(st, raw))
  {
    var stripped := PyStrip(raw);
    if stripped == "" {
    } else if IsCue(stripped) {
      CueKeepsWellFormed(st, PyTitle(CueName(stripped)));
    } else if Truthy(st.current) && !(StartsWith(stripped, "(") && EndsWith(stripped, ")")) {
      var n := st.lineNumber + 1;
      AppendKeepsWellFormed(st, ParsedLine(st.current.value, stripped, n, false));
    }
  }

  /** A cue names the pending speaker and adds it to the characters. */
  lemma CueKeepsWellFormed(st: ParseState, name: string)
    requires WellFormed(st)
    ensures WellFormed(st.(current := Some(name), characters := st.characters + {name}))
  {
  }

  /** Recording a line numbered one past the last, spoken by a known
      character, keeps the state well formed. */
  lemma AppendKeepsWellFormed(st: ParseState, l: ParsedLine)
    requires WellFormed(st) && st.current.Some? && l.character == st.current.value
    requires l.lineNumber == st.lineNumber + 1 && !l.isUserLine
    requires l.text != "" && !IsPySpace(l.text[0]) && !IsPySpace(l.text[|l.text| - 1])
    requires !(StartsWith(l.text, "(") && EndsWith(l.text, ")"))
    ensures WellFormed(st.(lineNumber := st.lineNumber + 1, lines := st.lines + [l], current := None))
  {
    var next := st.(lineNumber := st.lineNumber + 1, lines := st.lines + [l], current := None);
    assert forall i :: 0 <= i < |st.lines| ==> next.lines[i] == st.lines[i];
  }

  /** Lines are numbered 1..n in order; each has a known speaker, is not
      the performer's, and is a non-blank stripped text that is not a
      parenthetical on its own. */
  lemma {:induction false} ParseIsWellFormed(raws: seq<string>)
    ensures WellFormed(ParseLines(raws))
  {
    if raws != [] {
      ParseIsWellFormed(raws[..|raws| - 1]);
      StepKeepsWellFormed(ParseLines(raws[..|raws| - 1]), raws[|raws| - 1]);
    }
  }

  /** Lines that are cues, once stripped. */
  function CueCount(raws: seq<string>): nat {
    if raws == [] then 0 else CueCount(raws[..|raws| - 1]) + (if IsCue(PyStrip(raws[|raws| - 1])) then 1 else 0)
  }

  /** Each cue yields at most one line of dialogue: recording a line
      clears the pending speaker, and only a cue sets it. */
  lemma {:induction false} OneLinePerCue(raws: seq<string>)
    ensures |ParseLines(raws).lines| + (if ParseLines(raws).current.Some? then 1 else 0) <= CueCount(raws)
  {
    if raws != [] {
      OneLinePerCue(raws[..|raws| - 1]);
    }
  }

  /** Without a pending speaker a line that is no cue is dropped; blank
      lines never change anything. */
  lemma StrayAndBlankLinesDropped(st: ParseState, raw: string)
    requires PyStrip(raw) == "" || (!IsCue(PyStrip(raw)) && st.current.None?)
    ensures ParseStep(st, raw) == st
  {
  }

  /** A cue sets the pending speaker to its title-cased name, which is
      never empty, and adds it to the characters. */
  lemma CueStep(st: ParseState, cue: string)
    requires IsCue(PyStrip(cue))
    ensures var name := PyTitle(CueName(PyStrip(cue)));
      name != "" && ParseStep(st, cue) == st.(current := Some(name), characters := st.characters + {name})
  {
    CueNameNonEmpty(PyStrip(cue));
  }

  /** A plain line with a pending speaker is recorded under the next
      number, and the speaker is cleared. */
  lemma DialogueStep(st: ParseState, dialogue: string)
    requires Truthy(st.current)
    requires PyStrip(dialogue) != "" && !IsCue(PyStrip(dialogue))
    requires !(StartsWith(PyStrip(dialogue), "(") && EndsWith(PyStrip(dialogue), ")"))
    ensures ParseStep(st, dialogue) == st.(lineNumber := st.lineNumber + 1,
      lines := st.lines + [ParsedLine(st.current.value, PyStrip(dialogue), st.lineNumber + 1, false)], current := None)
  {
  }

  /** The scene `parse_script_pdf` returns. */
  datatype ParsedScene = ParsedScene(id: string, name: string, lines: seq<Line>)

  function ToLine(l: ParsedLine, id: string): Line {
    Line(id, l.character, l.text, l.lineNumber, l.isUserLine, None, None, None)
  }

  lemma ParseLinesSnoc(raws: seq<string>, i: nat)
    requires i < |raws|
    ensures ParseLines(raws[..i + 1]) == ParseStep(ParseLines(raws[..i]), raws[i])
  {
    assert raws[..i + 1][..i] == raws[..i];
  }

  /** The body of the loop of `parse_script_pdf`: one text line against
      the mutable line list, character set, pending speaker and counter. */
  method ParseTextLine(linesData: seq<ParsedLine>, chars: set<string>, currentCharacter: Option<string>,
                       lineNumber: nat, raw: string)
    returns (linesData': seq<ParsedLine>, chars': set<string>, currentCharacter': Option<string>, lineNumber': nat)
    ensures ParseState(linesData', chars', currentCharacter', lineNumber')
      == ParseStep(ParseState(linesData, chars, currentCharacter, lineNumber), raw)
  {
    linesData', chars', currentCharacter', lineNumber' := linesData, chars, currentCharacter, lineNumber;
    var stripped := PyStrip(raw);
    if stripped == "" {
    } else if IsCue(stripped) {
      var name := PyTitle(CueName(stripped));
      currentCharacter' := Some(name);
      chars' := chars + {name};
    } else if Truthy(currentCharacter) {
      if StartsWith(stripped, "(") && EndsWith(stripped, ")") {
      } else {
        lineNumber' := lineNumber + 1;
        linesData' := linesData + [ParsedLine(currentCharacter.value, stripped, lineNumber', false)];
        currentCharacter' := None;
      }
    }
  }

  /** The loop of `parse_script_pdf` over the extracted text lines. */
  method ParseLoop(textLines: seq<string>) returns (linesData: seq<ParsedLine>, chars: set<string>)
    ensures linesData == ParseLines(textLines).lines && chars == ParseLines(textLines).characters
  {
    linesData := [];
    chars := {};
    var currentCharacter: Option<string> := None;
    var lineNumber: nat := 0;
    var i := 0;
    while i < |textLines|
      invariant 0 <= i <= |textLines|
      invariant ParseState(linesData, chars, currentCharacter, lineNumber) == ParseLines(textLines[..i])
    {
      ghost var before := ParseState(linesData, chars, currentCharacter, lineNumber);
      ParseLinesSnoc(textLines, i);
      linesData, chars, currentCharacter, lineNumber := ParseTextLine(linesData, chars, currentCharacter, lineNumber, textLines[i]);
      assert ParseState(linesData, chars, currentCharacter, lineNumber) == ParseStep(before, textLines[i]);
      assert ParseState(linesData, chars, currentCharacter, lineNumber) == ParseLines(textLines[..i + 1]);
      i := i + 1;
    }
    assert textLines[..i] == textLines;
  }

  /** The stored lines of a parse: each parsed line converted with its
      fresh id, in order. */
  function ParsedLines(textLines: seq<string>, lineIds: nat -> string): (r: seq<Line>)
    ensures |r| == |ParseLines(textLines).lines|
  {
    var st := ParseLines(textLines);
    seq(|st.lines|, k requires 0 <= k < |st.lines| => ToLine(st.lines[k], lineIds(k)))
  }

  /** `parse_script_pdf`: the parsed lines in a single "Main Scene", and
      the set of speakers. `sceneId` and `lineIds` stand for the fresh
      UUIDs. */
  method ParseScriptText(textLines: seq<string>, sceneId: string, lineIds: nat -> string)
    returns (scene: ParsedScene, characters: set<string>)
    ensures var st := ParseLines(textLines);
      characters == st.characters && scene.name == "Main Scene" && scene.id == sceneId
      && |scene.lines| == |st.lines|
      && (forall i :: 0 <= i < |st.lines| ==> scene.lines[i] == ToLine(st.lines[i], lineIds(i)))
      && scene.lines == ParsedLines(textLines, lineIds)
  {
    var linesData;
    linesData, characters := ParseLoop(textLines);
    var ls := seq(|linesData|, k requires 0 <= k < |linesData| => ToLine(linesData[k], lineIds(k)));
    scene := ParsedScene(sceneId, "Main Scene", ls);
  }

  // ---------------------------------------------------------------- stored projects

  datatype StoredProject = StoredProject(
    id: string,
    title: string,
    description: string,
    scenes: seq<Scene>,
    characters: seq<string>,
    userCharacter: Option<string>,
    updatedAt: string)

  /** Every line's `is_user_line` set to whether it is spoken by `character`. */
  function MarkedScenes(scenes: seq<Scene>, character: string): seq<Scene> {
    seq(|scenes|, i requires 0 <= i < |scenes| =>
      var sc := scenes[i];
      sc.(lines := seq(|sc.lines|, j requires 0 <= j < |sc.lines| =>
        sc.lines[j].(isUserLine := sc.lines[j].character == character))))
  }

  /** Same scenes, same lines in the same places, and nothing but the flag
      changed. */
  predicate SameShape(a: seq<Scene>, b: seq<Scene>) {
    |a| == |b| && forall i :: 0 <= i < |a| ==>
      b[i].id == a[i].id && b[i].name == a[i].name && |b[i].lines| == |a[i].lines|
      && forall j :: 0 <= j < |a[i].lines| ==> b[i].lines[j] == a[i].lines[j].(isUserLine := b[i].lines[j].isUserLine)
  }

  /** After marking, a line is the performer's exactly when its character
      is the chosen one, and nothing else about the script has changed. */
  lemma MarkedScenesMarkExactly(scenes: seq<Scene>, character: string)
    ensures SameShape(scenes, MarkedScenes(scenes, character))
    ensures var m := MarkedScenes(scenes, character);
      forall i, j :: 0 <= i < |m| && 0 <= j < |m[i].lines| ==>
        (m[i].lines[j].isUserLine <==> m[i].lines[j].character == character)
  {
  }

  /** Marking for the same character again changes nothing, and marking
      for another character replaces the earlier marks entirely. */
  lemma MarkingReplacesEarlierMarks(scenes: seq<Scene>, first: string, second: string)
    ensures MarkedScenes(MarkedScenes(scenes, first), second) == MarkedScenes(scenes, second)
  {
    var a := MarkedScenes(MarkedScenes(scenes, first), second);
    var b := MarkedScenes(scenes, second);
    forall i | 0 <= i < |scenes|
      ensures a[i] == b[i]
    {
      assert a[i].lines == b[i].lines;
    }
  }

  /** The nested loops of `set_user_character`. */
  method MarkUserLines(scenes: seq<Scene>, character: string) returns (r: seq<Scene>)
    ensures r == MarkedScenes(scenes, character)
  {
    r := scenes;
    var i := 0;
    while i < |r|
      invariant 0 <= i <= |r| && |r| == |scenes|
      invariant forall k :: 0 <= k < i ==> r[k] == MarkedScenes(scenes, character)[k]
      invariant forall k :: i <= k < |r| ==> r[k] == scenes[k]
    {
      var ls := r[i].lines;
      var j := 0;
      while j < |ls|
        invariant 0 <= j <= |ls| && |ls| == |scenes[i].lines|
        invariant forall k :: 0 <= k < j ==> ls[k] == scenes[i].lines[k].(isUserLine := scenes[i].lines[k].character == character)
        invariant forall k :: j <= k < |ls| ==> ls[k] == scenes[i].lines[k]
      {
        ls := ls[j := ls[j].(isUserLine := ls[j].character == character)];
        j := j + 1;
      }
      r := r[i := r[i].(lines := ls)];
      i := i + 1;
    }
  }

  /** `set_user_character`: 404 for a missing project, 400 for a name not
      in its character list; otherwise record the choice, mark the lines
      and stamp the update. */
  method SetUserCharacter(project: Option<StoredProject>, character: string, now: string)
    returns (r: Result<StoredProject>)
    ensures project.None? ==> r == Err(HttpError(404, "Project not found"))
    ensures project.Some? && character !in project.value.characters ==> r == Err(HttpError(400, "Character not found in project"))
    ensures project.Some? && character in project.value.characters ==>
      r == Ok(project.value.(userCharacter := Some(character), scenes := MarkedScenes(project.value.scenes, character), updatedAt := now))
  {
    if project.None? {
      return Err(HttpError(404, "Project not found"));
    }
    var p := project.value;
    if character !in p.characters {
      return Err(HttpError(400, "Character not found in project"));
    }
    var scenes := MarkUserLines(p.scenes, character);
    r := Ok(p.(userCharacter := Some(character), scenes := scenes, updatedAt := now));
  }

  // ---------------------------------------------------------------- project update

  datatype ProjectUpdate = ProjectUpdate(title: Option<string>, description: Option<string>)

  /** The `update_data` dict `update_project` builds, field by field. */
  method BuildUpdateData(update: ProjectUpdate, now: string) returns (d: map<string, string>)
    ensures d.Keys == {"updated_at"} + (if update.title.Some? then {"title"} else {})
      + (if update.description.Some? then {"description"} else {})
    ensures d["updated_at"] == now
    ensures update.title.Some? ==> d["title"] == update.title.value
    ensures update.description.Some? ==> d["description"] == update.description.value
  {
    d := map["updated_at" := now];
    if update.title.Some? {
      d := d["title" := update.title.value];
    }
    if update.description.Some? {
      d := d["description" := update.description.value];
    }
  }

  /** `$set` of an update dict on the stored project. */
  function ApplyUpdate(p: StoredProject, d: map<string, string>): StoredProject {
    p.(title := if "title" in d then d["title"] else p.title,
       description := if "description" in d then d["description"] else p.description,
       updatedAt := if "updated_at" in d then d["updated_at"] else p.updatedAt)
  }

  /** `update_project`: 404 for a missing project; otherwise the supplied
      fields and the timestamp change, and nothing else. */
  method UpdateProject(project: Option<StoredProject>, update: ProjectUpdate, now: string)
    returns (r: Result<StoredProject>)
    ensures project.None? ==> r == Err(HttpError(404, "Project not found"))
    ensures project.Some? ==> r.Ok? && r.value == project.value.(
      title := if update.title.Some? then update.title.value else project.value.title,
      description := if update.description.Some? then update.description.value else project.value.description,
      updatedAt := now)
  {
    if project.None? {
      return Err(HttpError(404, "Project not found"));
    }
    var d := BuildUpdateData(update, now);
    r := Ok(ApplyUpdate(project.value, d));
  }

  // ---------------------------------------------------------------- upload

  /** `list(characters)`: the set's members once each, in an order
      the set does not determine. */
  method SetToList(s: set<string>) returns (r: seq<string>)
    ensures |r| == |s| && (forall x :: x in r <==> x in s)
    ensures forall i, j :: 0 <= i < j < |r| ==> r[i] != r[j]
  {
    r := [];
    var rest := s;
    while rest != {}
      invariant rest <= s && |r| + |rest| == |s|
      invariant forall x :: x in r <==> x in s && x !in rest
      invariant forall i, j :: 0 <= i < j < |r| ==> r[i] != r[j]
      decreases |rest|
    {
      var x :| x in rest;
      r := r + [x];
      rest := rest - {x};
    }
  }

  /** `upload_pdf`: 404 for a missing project, then 400 for a file name
      not ending in ".pdf" in any case; otherwise the project's scenes
      become the single parsed scene and its characters the parsed ones.
      `textLines` is the text the PDF library extracts. */
  method UploadPdf(project: Option<StoredProject>, filename: string, textLines: seq<string>,
                   sceneId: string, lineIds: nat -> string, now: string)
    returns (r: Result<StoredProject>)
    ensures project.None? ==> r == Err(HttpError(404, "Project not found"))
    ensures project.Some? && !IsPdfFileName(filename) ==> r == Err(HttpError(400, "Only PDF files are allowed"))
    ensures project.Some? && IsPdfFileName(filename) ==> (r.Ok?
      && r.value == project.value.(scenes := [Scene(sceneId, "Main Scene", ParsedLines(textLines, lineIds))],
           characters := r.value.characters, updatedAt := now)
      && |r.value.characters| == |ParseLines(textLines).characters|
      && (forall x :: x in r.value.characters <==> x in ParseLines(textLines).characters)
      && (forall i, j :: 0 <= i < j < |r.value.characters| ==> r.value.characters[i] != r.value.characters[j]))
  {
    if project.None? {
      return Err(HttpError(404, "Project not found"));
    }
    if !IsPdfFileName(filename) {
      return Err(HttpError(400, "Only PDF files are allowed"));
    }
    var scene, characters := ParseScriptText(textLines, sceneId, lineIds);
    var names := SetToList(characters);
    r := Ok(project.value.(scenes := [Scene(scene.id, scene.name, scene.lines)], characters := names, updatedAt := now));
  }
}
