/** The script editor (ScriptEditor.jsx): a flat, editable list of lines
    with a kind each, a character list, and an audio preview. List
    operations rebuild the list and renumber every line in place; saving
    maps the list back to the server's line shape. */
module ScriptEditor {
  import opened Wrappers
  import opened Text
  import opened Script
  import opened Playback

  datatype LineKind = Dialogue | Parenthetical | Action

  /** A server line plus the editor's `type`. */
  datatype EditorLine = EditorLine(
    id: string,
    character: string,
    text: string,
    lineNumber: int,
    isUserLine: bool,
    emotion: Option<string>,
    audioUrl: Option<string>,
    parenthetical: Option<string>,
    kind: LineKind)

  /** One call of `handleLineChange(index, field, value)`, by field the
      page edits. */
  datatype Edit = SetCharacter(name: string) | SetText(text: string) | SetKind(kind: LineKind)

  /** The line shape `handleSave` sends: `id` is left out for lines the
      editor created. */
  datatype SavedLine = SavedLine(
    id: Option<string>,
    character: string,
    text: string,
    lineNumber: int,
    isUserLine: bool,
    emotion: Option<string>,
    audioUrl: Option<string>,
    parenthetical: Option<string>)

  // ---------------------------------------------------------------- loading

  /** The kind a loaded line gets: parenthetical when its `parenthetical`
      is truthy, dialogue otherwise. */
  function KindOnLoad(parenthetical: Option<string>): LineKind {
    if Truthy(parenthetical) then Parenthetical else Dialogue
  }

  function ToEditorLine(l: Line): EditorLine {
    EditorLine(l.id, l.character, l.text, l.lineNumber, l.isUserLine, l.emotion, l.audioUrl, l.parenthetical,
      KindOnLoad(l.parenthetical))
  }

  /** The flatten in `fetchProject`: every line of every scene, in order,
      with all its fields carried over and its kind derived from its
      parenthetical; a project without scenes gives no lines. */
  function LoadLines(scenes: Option<seq<Scene>>): (r: seq<EditorLine>)
    ensures scenes.None? ==> r == []
    ensures scenes.Some? ==> |r| == |Flatten(scenes.value)|
    ensures scenes.Some? ==> forall i :: 0 <= i < |r| ==>
      var l := Flatten(scenes.value)[i];
      r[i].id == l.id && r[i].text == l.text && r[i].character == l.character
      && r[i].lineNumber == l.lineNumber && r[i].isUserLine == l.isUserLine
      && r[i].emotion == l.emotion && r[i].audioUrl == l.audioUrl && r[i].parenthetical == l.parenthetical
      && (r[i].kind == Parenthetical <==> Truthy(l.parenthetical))
  {
    if scenes.None? then []
    else
      var ls := Flatten(scenes.value);
      seq(|ls|, i requires 0 <= i < |ls| => ToEditorLine(ls[i]))
  }

  // ---------------------------------------------------------------- editing one line

  /** `text.replace(/^\(|\)$/g, '')` on text not starting with "(": one
      trailing ")" goes. */
  function DropClosing(t: string): (r: string)
    ensures EndsWith(t, ")") ==> r + ")" == t
    ensures !EndsWith(t, ")") ==> r == t
  {
    if EndsWith(t, ")") then t[..|t| - 1] else t
  }

  /** Text switched to parenthetical is wrapped unless it already opens
      with "(". */
  function WrapParenthetical(t: string): string {
    if StartsWith(t, "(") then t else "(" + DropClosing(t) + ")"
  }

  /** Wrapped text opens with "(" and, when it was wrapped here, closes
      with ")" around the original text minus one closing parenthesis;
      wrapping twice is wrapping once. */
  lemma WrapShape(t: string)
    ensures StartsWith(WrapParenthetical(t), "(")
    ensures !StartsWith(t, "(") ==> WrapParenthetical(t) == "(" + DropClosing(t) + ")" && EndsWith(WrapParenthetical(t), ")")
    ensures StartsWith(t, "(") ==> WrapParenthetical(t) == t
    ensures WrapParenthetical(WrapParenthetical(t)) == WrapParenthetical(t)
  {
    var w := "(" + DropClosing(t) + ")";
    assert w[..1] == "(";
  }

  /** Text with a closing but no opening parenthesis gets exactly one of each. */
  lemma WrapHalfParenthesised(inner: string)
    requires !StartsWith(inner, "(")
    ensures WrapParenthetical(inner + ")") == "(" + inner + ")"
  {
    var t := inner + ")";
    if inner != [] {
      assert t[..1] == inner[..1];
    } else {
      assert t[..1] == ")";
    }
    assert t[|t| - 1..] == ")";
    assert DropClosing(t) == inner;
  }

  /** The new line for one edit. A text edit drops the recorded audio;
      choosing parenthetical wraps the text. */
  function ApplyEdit(l: EditorLine, e: Edit): (r: EditorLine)
    ensures r.id == l.id && r.lineNumber == l.lineNumber && r.isUserLine == l.isUserLine
      && r.emotion == l.emotion && r.parenthetical == l.parenthetical
    ensures e.SetCharacter? ==> r == l.(character := e.name)
    ensures e.SetText? ==> r.text == e.text && r.audioUrl == None && r.kind == l.kind && r.character == l.character
    ensures e.SetKind? ==> r.kind == e.kind && r.audioUrl == l.audioUrl && r.character == l.character
    ensures e.SetKind? && e.kind == Parenthetical ==> r.text == WrapParenthetical(l.text)
    ensures e.SetKind? && e.kind != Parenthetical ==> r.text == l.text
  {
    match e
    case SetCharacter(name) => l.(character := name)
    case SetText(text) => l.(text := text, audioUrl := None)
    case SetKind(kind) =>
      var l1 := l.(kind := kind);
      if kind == Parenthetical && !StartsWith(l.text, "(") then l1.(text := "(" + DropClosing(l.text) + ")") else l1
  }

  /** Choosing parenthetical twice leaves the line as the first choice did. */
  lemma ParentheticalTwice(l: EditorLine)
    ensures ApplyEdit(ApplyEdit(l, SetKind(Parenthetical)), SetKind(Parenthetical)) == ApplyEdit(l, SetKind(Parenthetical))
  {
    WrapShape(l.text);
  }

  // ---------------------------------------------------------------- list operations

  /** Every line's number is its position plus one. */
  predicate Numbered(ls: seq<EditorLine>) {
    forall i :: 0 <= i < |ls| ==> ls[i].lineNumber == i + 1
  }

  /** The lines as `forEach((line, idx) => line.line_number = idx + 1)` leaves them. */
  function Renumbered(ls: seq<EditorLine>): seq<EditorLine> {
    seq(|ls|, i requires 0 <= i < |ls| => ls[i].(lineNumber := i + 1))
  }

  /** Renumbering numbers lines by position, touches nothing else, and
      leaves a numbered list as it is. */
  lemma RenumberedNumbers(ls: seq<EditorLine>)
    ensures |Renumbered(ls)| == |ls| && Numbered(Renumbered(ls))
    ensures forall i :: 0 <= i < |ls| ==> Renumbered(ls)[i].(lineNumber := ls[i].lineNumber) == ls[i]
    ensures Renumbered(ls) == ls <==> Numbered(ls)
  {
    if Numbered(ls) {
      assert forall i :: 0 <= i < |ls| ==> Renumbered(ls)[i] == ls[i];
    }
  }

  /** `newLines.splice(k, 0, x)`. */
  function InsertAt(ls: seq<EditorLine>, k: nat, x: EditorLine): seq<EditorLine>
    requires k <= |ls|
  {
    ls[..k] + [x] + ls[k..]
  }

  /** Insertion adds exactly the new line, at position `k`, with the lines
      before it in place and the lines after it shifted by one. */
  lemma InsertAtShape(ls: seq<EditorLine>, k: nat, x: EditorLine)
    requires k <= |ls|
    ensures |InsertAt(ls, k, x)| == |ls| + 1 && InsertAt(ls, k, x)[k] == x
    ensures forall i :: 0 <= i < k ==> InsertAt(ls, k, x)[i] == ls[i]
    ensures forall i :: k <= i < |ls| ==> InsertAt(ls, k, x)[i + 1] == ls[i]
    ensures multiset(InsertAt(ls, k, x)) == multiset(ls) + multiset{x}
  {
    assert ls == ls[..k] + ls[k..];
  }

  /** `lines.filter((_, idx) => idx !== index)`: an index outside the list
      removes nothing. */
  function RemoveAt(ls: seq<EditorLine>, index: int): seq<EditorLine> {
    if 0 <= index < |ls| then ls[..index] + ls[index + 1..] else ls
  }

  /** Deletion removes exactly the line at `index` and keeps the order of
      the rest. */
  lemma RemoveAtShape(ls: seq<EditorLine>, index: int)
    requires 0 <= index < |ls|
    ensures |RemoveAt(ls, index)| == |ls| - 1
    ensures forall i :: 0 <= i < index ==> RemoveAt(ls, index)[i] == ls[i]
    ensures forall i :: index <= i < |ls| - 1 ==> RemoveAt(ls, index)[i] == ls[i + 1]
    ensures multiset(RemoveAt(ls, index)) + multiset{ls[index]} == multiset(ls)
  {
    assert ls == ls[..index] + [ls[index]] + ls[index + 1..];
  }

  /** The destructuring swap in `moveLine`. */
  function Swap(ls: seq<EditorLine>, i: nat, j: nat): seq<EditorLine>
    requires i < |ls| && j < |ls|
  {
    ls[i := ls[j]][j := ls[i]]
  }

  /** A swap is a permutation that exchanges exactly two positions. */
  lemma SwapShape(ls: seq<EditorLine>, i: nat, j: nat)
    requires i < |ls| && j < |ls|
    ensures |Swap(ls, i, j)| == |ls| && Swap(ls, i, j)[i] == ls[j] && Swap(ls, i, j)[j] == ls[i]
    ensures forall k :: 0 <= k < |ls| && k != i && k != j ==> Swap(ls, i, j)[k] == ls[k]
    ensures multiset(Swap(ls, i, j)) == multiset(ls)
    ensures Swap(Swap(ls, i, j), j, i) == ls
  {
  }

  /** Renumbering before a swap makes no difference once the result is
      renumbered again. */
  lemma RenumberSwap(ls: seq<EditorLine>, i: nat, j: nat)
    requires i < |ls| && j < |ls|
    ensures Renumbered(Swap(Renumbered(ls), i, j)) == Renumbered(Swap(ls, i, j))
  {
  }

  /** Where `moveLine(index, direction)` moves the line to. */
  function MoveTarget(index: nat, up: bool): int {
    if up then index - 1 else index + 1
  }

  /** `moveLine` on the list: nothing when the target is off the list,
      otherwise the swap, renumbered. */
  function Moved(ls: seq<EditorLine>, index: nat, up: bool): seq<EditorLine>
    requires index < |ls|
  {
    var t := MoveTarget(index, up);
    if t < 0 || t >= |ls| then ls else Renumbered(Swap(ls, index, t))
  }

  /** Moving a line up and then down again restores the order. */
  lemma MoveUpThenDown(ls: seq<EditorLine>, index: nat)
    requires 0 < index < |ls|
    ensures Moved(Moved(ls, index, true), index - 1, false) == Renumbered(ls)
  {
    RenumberSwap(Swap(ls, index, index - 1), index - 1, index);
    SwapShape(ls, index, index - 1);
  }

  /** The line `addLine` inserts. */
  function NewLine(characters: seq<string>, stamp: string, afterIndex: int): (r: EditorLine)
    ensures r.text == "" && r.kind == Dialogue && !r.isUserLine && r.audioUrl == None
    ensures StartsWith(r.id, "new-")
    ensures r.character == (if characters != [] && characters[0] != "" then characters[0] else "CHARACTER")
  {
    var character := if characters != [] && characters[0] != "" then characters[0] else "CHARACTER";
    EditorLine("new-" + stamp, character, "", afterIndex + 2, false, None, None, None, Dialogue)
  }

  // ---------------------------------------------------------------- characters

  predicate NoDuplicates(names: seq<string>) {
    forall i, j :: 0 <= i < j < |names| ==> names[i] != names[j]
  }

  datatype AddOutcome = Ignored | AlreadyExists | Added(name: string)

  /** `addCharacter` on the typed name: blank input is ignored; the stored
      name is trimmed and upper-cased; a name already present is refused. */
  function AddOutcomeOf(characters: seq<string>, input: string): AddOutcome {
    if JsTrim(input) == "" then Ignored
    else
      var name := ToUpper(JsTrim(input));
      if name in characters then AlreadyExists else Added(name)
  }

  function AddName(characters: seq<string>, input: string): seq<string> {
    var o := AddOutcomeOf(characters, input);
    if o.Added? then characters + [o.name] else characters
  }

  /** Adding never creates a duplicate; the list grows by one exactly when
      the trimmed, upper-cased name is new and not blank. */
  lemma AddNameKeepsNamesDistinct(characters: seq<string>, input: string)
    requires NoDuplicates(characters)
    ensures NoDuplicates(AddName(characters, input))
    ensures |AddName(characters, input)| == |characters| + 1
        <==> JsTrim(input) != "" && ToUpper(JsTrim(input)) !in characters
    ensures ToUpper(JsTrim(input)) in AddName(characters, input) || JsTrim(input) == ""
  {
  }

  // ---------------------------------------------------------------- saving

  /** The line map in `handleSave`. */
  function FormatForSave(ls: seq<EditorLine>, userCharacter: Option<string>): (r: seq<SavedLine>)
    ensures |r| == |ls|
  {
    seq(|ls|, i requires 0 <= i < |ls| =>
      var l := ls[i];
      SavedLine(
        if StartsWith(l.id, "new-") then None else Some(l.id),
        l.character, l.text, i + 1,
        userCharacter == Some(l.character),
        l.emotion, None,
        if l.kind == Parenthetical then Some(l.text) else None))
  }

  /** What the saved list promises: numbered by position, the user's
      lines exactly those of the user's character (none without one), no
      audio, ids kept except for new lines, text, character and emotion as
      edited, and the text repeated as `parenthetical` on parenthetical
      lines only. */
  lemma SavedLinesShape(ls: seq<EditorLine>, userCharacter: Option<string>)
    ensures var r := FormatForSave(ls, userCharacter);
      forall i :: 0 <= i < |ls| ==>
        r[i].lineNumber == i + 1 && r[i].audioUrl == None
        && (r[i].isUserLine <==> userCharacter.Some? && ls[i].character == userCharacter.value)
        && (r[i].id.None? <==> StartsWith(ls[i].id, "new-"))
        && (r[i].id.Some? ==> r[i].id.value == ls[i].id)
        && r[i].text == ls[i].text && r[i].character == ls[i].character
        && r[i].emotion == ls[i].emotion
        && r[i].parenthetical == (if ls[i].kind == Parenthetical then Some(ls[i].text) else None)
  {
  }

  /** Loading a saved line back gives it the parenthetical kind exactly
      when it was saved as a non-empty parenthetical; a stage direction
      comes back as dialogue. */
  lemma SavedKindOnReload(ls: seq<EditorLine>, userCharacter: Option<string>, i: nat)
    requires i < |ls|
    ensures KindOnLoad(FormatForSave(ls, userCharacter)[i].parenthetical)
      == (if ls[i].kind == Parenthetical && ls[i].text != "" then Parenthetical else Dialogue)
  {
  }

  // ---------------------------------------------------------------- the page

  datatype Snapshot = Snapshot(
    lines: seq<EditorLine>,
    characters: seq<string>,
    hasChanges: bool,
    showAddCharacter: bool,
    newCharacterName: string,
    playingAudio: Option<string>,
    clips: seq<Clip>)

  datatype Notice = NoNotice | CannotDeleteLastLine | CharacterExists | NoAudio | AudioFailed

  class ScriptEditorPage {
    const userCharacter: Option<string>
    var lines: seq<EditorLine>
    var characters: seq<string>
    var hasChanges: bool
    var showAddCharacter: bool
    var newCharacterName: string
    /** The id of the line whose audio is playing. */
    var playingAudio: Option<string>
    /** Audio objects created by `playAudio`; the last is `audioRef.current`. */
    var clips: seq<Clip>

    function State(): Snapshot
      reads this
    {
      Snapshot(lines, characters, hasChanges, showAddCharacter, newCharacterName, playingAudio, clips)
    }

    predicate Valid()
      reads this
    {
      AtMostLastPlaying(clips)
      && (playingAudio.Some? ==> clips != [] && clips[|clips| - 1].playing)
    }

    /** The editor once the project has loaded. */
    constructor(scenes: Option<seq<Scene>>, loadedCharacters: Option<seq<string>>, user: Option<string>)
      ensures Valid() && userCharacter == user
      ensures State() == Snapshot(LoadLines(scenes), if loadedCharacters.Some? then loadedCharacters.value else [],
        false, false, "", None, [])
    {
      userCharacter := user;
      lines := LoadLines(scenes);
      characters := if loadedCharacters.Some? then loadedCharacters.value else [];
      hasChanges, showAddCharacter, newCharacterName, playingAudio, clips := false, false, "", None, [];
    }

    /** The renumbering loop every list operation ends with. */
    static method Renumber(ls: seq<EditorLine>) returns (r: seq<EditorLine>)
      ensures r == Renumbered(ls)
    {
      r := ls;
      var i := 0;
      while i < |r|
        invariant 0 <= i <= |r| && |r| == |ls|
        invariant forall k :: 0 <= k < i ==> r[k] == ls[k].(lineNumber := k + 1)
        invariant forall k :: i <= k < |r| ==> r[k] == ls[k]
      {
        r := r[i := r[i].(lineNumber := i + 1)];
        i := i + 1;
      }
    }

    /** `handleLineChange`: only the line at `index` changes. */
    method HandleLineChange(index: nat, e: Edit)
      requires Valid() && index < |lines|
      modifies this
      ensures Valid()
      ensures State() == old(State()).(lines := old(lines)[index := ApplyEdit(old(lines)[index], e)], hasChanges := true)
    {
      lines := lines[index := ApplyEdit(lines[index], e)];
      hasChanges := true;
    }

    /** `addLine(afterIndex)`; the "add new line" button passes the last
        index. `stamp` stands for `Date.now()`. */
    method AddLine(afterIndex: int, stamp: string)
      requires Valid() && -1 <= afterIndex < |lines|
      modifies this
      ensures Valid()
      ensures State() == old(State()).(
        lines := Renumbered(InsertAt(old(lines), afterIndex + 1, NewLine(old(characters), stamp, afterIndex))),
        hasChanges := true)
    {
      var newLines := InsertAt(lines, afterIndex + 1, NewLine(characters, stamp, afterIndex));
      lines := Renumber(newLines);
      hasChanges := true;
    }

    /** `deleteLine`: refused on a list of at most one line. */
    method DeleteLine(index: int) returns (notice: Notice)
      requires Valid()
      modifies this
      ensures Valid()
      ensures |old(lines)| <= 1 ==> State() == old(State()) && notice == CannotDeleteLastLine
      ensures |old(lines)| > 1 ==> (notice == NoNotice
        && State() == old(State()).(lines := Renumbered(RemoveAt(old(lines), index)), hasChanges := true))
    {
      if |lines| <= 1 {
        return CannotDeleteLastLine;
      }
      var newLines := RemoveAt(lines, index);
      lines := Renumber(newLines);
      hasChanges := true;
      notice := NoNotice;
    }

    /** `moveLine(index, up ? "up" : "down")`. */
    method MoveLine(index: nat, up: bool)
      requires Valid() && index < |lines|
      modifies this
      ensures Valid()
      ensures var t := MoveTarget(index, up);
        if t < 0 || t >= |old(lines)| then State() == old(State())
        else State() == old(State()).(lines := Moved(old(lines), index, up), hasChanges := true)
    {
      var t := MoveTarget(index, up);
      if t < 0 || t >= |lines| {
        return;
      }
      var newLines := Swap(lines, index, t);
      lines := Renumber(newLines);
      hasChanges := true;
    }

    /** Typing in the name field: the input is upper-cased as typed. */
    method TypeCharacterName(value: string)
      requires Valid()
      modifies this
      ensures Valid() && State() == old(State()).(newCharacterName := ToUpper(value))
    {
      newCharacterName := ToUpper(value);
    }

    method OpenAddCharacter()
      requires Valid()
      modifies this
      ensures Valid() && State() == old(State()).(showAddCharacter := true)
    {
      showAddCharacter := true;
    }

    /** `addCharacter`. */
    method AddCharacter() returns (notice: Notice)
      requires Valid()
      modifies this
      ensures Valid()
      ensures var o := AddOutcomeOf(old(characters), old(newCharacterName));
        (o.Ignored? ==> State() == old(State()) && notice == NoNotice)
        && (o.AlreadyExists? ==> State() == old(State()) && notice == CharacterExists)
        && (o.Added? ==> notice == NoNotice && State() == old(State()).(characters := old(characters) + [o.name],
              newCharacterName := "", showAddCharacter := false, hasChanges := true))
    {
      var o := AddOutcomeOf(characters, newCharacterName);
      notice := NoNotice;
      match o
      case Ignored =>
      case AlreadyExists =>
        notice := CharacterExists;
      case Added(name) =>
        characters := characters + [name];
        newCharacterName := "";
        showAddCharacter := false;
        hasChanges := true;
    }

    /** `playAudio(lineId, audioUrl)`: nothing without audio; the playing
        line's button pauses it; any other line's starts it after pausing
        what was held. */
    method PlayAudio(lineId: string, audioUrl: Option<string>) returns (notice: Notice)
      requires Valid()
      modifies this
      ensures Valid()
      ensures !Truthy(audioUrl) ==> State() == old(State()) && notice == NoAudio
      ensures Truthy(audioUrl) && old(playingAudio) == Some(lineId) ==>
        State() == old(State()).(playingAudio := None, clips := PauseHeld(old(clips))) && notice == NoNotice
      ensures Truthy(audioUrl) && old(playingAudio) != Some(lineId) ==>
        State() == old(State()).(playingAudio := Some(lineId), clips := PlayNew(old(clips), audioUrl.value)) && notice == NoNotice
    {
      if !Truthy(audioUrl) {
        return NoAudio;
      }
      notice := NoNotice;
      if playingAudio == Some(lineId) {
        clips := PauseHeld(clips);
        playingAudio := None;
        return;
      }
      PlayNewKeepsOneVoice(clips, audioUrl.value);
      clips := PlayNew(clips, audioUrl.value);
      playingAudio := Some(lineId);
    }

    /** The held audio's `onended`: nothing is playing. */
    method OnAudioEnded()
      requires Valid()
      modifies this
      ensures Valid()
      ensures State() == old(State()).(playingAudio := None, clips := EndHeld(old(clips)))
    {
      clips := EndHeld(clips);
      playingAudio := None;
    }

    /** The held audio's `onerror`: the failure toast, and nothing is
        playing. */
    method OnAudioError() returns (notice: Notice)
      requires Valid()
      modifies this
      ensures Valid()
      ensures notice == AudioFailed
      ensures State() == old(State()).(playingAudio := None, clips := EndHeld(old(clips)))
    {
      notice := AudioFailed;
      OnAudioEnded();
    }

    /** The body `handleSave` sends: the formatted lines and the editor's
        character list as it stands. */
    method SaveRequest() returns (saved: seq<SavedLine>, savedCharacters: seq<string>)
      ensures saved == FormatForSave(lines, userCharacter)
      ensures savedCharacters == characters
    {
      saved := FormatForSave(lines, userCharacter);
      savedCharacters := characters;
    }
  }

  /** After any list operation the lines are numbered 1..n by position. */
  lemma ListOperationsNumber(ls: seq<EditorLine>, index: nat, up: bool, x: EditorLine)
    requires index < |ls|
    ensures Numbered(Renumbered(InsertAt(ls, index + 1, x)))
    ensures Numbered(Renumbered(RemoveAt(ls, index)))
    ensures Numbered(ls) ==> Numbered(Moved(ls, index, up))
  {
    RenumberedNumbers(InsertAt(ls, index + 1, x));
    RenumberedNumbers(RemoveAt(ls, index));
    var t := MoveTarget(index, up);
    if 0 <= t < |ls| {
      RenumberedNumbers(Swap(ls, index, t));
    }
  }
}
