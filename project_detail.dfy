/** The project page's derived values: line counts, the upload filter,
    the Set-character button, the Reader link and the script preview. */
module ProjectDetail {
  import opened Wrappers
  import opened Script
  import Server

  /** The fields of the loaded project the page reads; `scenes` may be
      missing from the response. */
  datatype ProjectView = ProjectView(scenes: Option<seq<Scene>>, userCharacter: Option<string>, characters: seq<string>)

  function SceneLengths(scenes: seq<Scene>): nat {
    if scenes == [] then 0 else SceneLengths(scenes[..|scenes| - 1]) + |scenes[|scenes| - 1].lines|
  }

  function UserLineCount(ls: seq<Line>): nat {
    if ls == [] then 0 else UserLineCount(ls[..|ls| - 1]) + (if ls[|ls| - 1].isUserLine then 1 else 0)
  }

  function SceneUserLines(scenes: seq<Scene>): nat {
    if scenes == [] then 0 else SceneUserLines(scenes[..|scenes| - 1]) + UserLineCount(scenes[|scenes| - 1].lines)
  }

  /** `getTotalLines`: 0 without a project or scenes, else the number of
      lines over all scenes. */
  function TotalLines(p: Option<ProjectView>): nat {
    if p.None? || p.value.scenes.None? then 0 else SceneLengths(p.value.scenes.value)
  }

  /** `getUserLines`: 0 without scenes or a chosen character, else the
      lines flagged as the performer's. */
  function UserLines(p: Option<ProjectView>): nat {
    if p.None? || p.value.scenes.None? || !Truthy(p.value.userCharacter) then 0
    else SceneUserLines(p.value.scenes.value)
  }

  lemma {:induction false} UserLineCountAtMost(ls: seq<Line>)
    ensures UserLineCount(ls) <= |ls|
  {
    if ls != [] {
      UserLineCountAtMost(ls[..|ls| - 1]);
    }
  }

  lemma {:induction false} SceneUserLinesAtMost(scenes: seq<Scene>)
    ensures SceneUserLines(scenes) <= SceneLengths(scenes)
  {
    if scenes != [] {
      SceneUserLinesAtMost(scenes[..|scenes| - 1]);
      UserLineCountAtMost(scenes[|scenes| - 1].lines);
    }
  }

  /** The performer never has more lines than the script. */
  lemma UserLinesAtMostTotal(p: Option<ProjectView>)
    ensures UserLines(p) <= TotalLines(p)
  {
    if p.Some? && p.value.scenes.Some? {
      SceneUserLinesAtMost(p.value.scenes.value);
    }
  }

  /** The total is the length of the flattened script the Reader and the
      recording page step through. */
  lemma {:induction false} TotalIsFlattenedLength(scenes: seq<Scene>)
    ensures SceneLengths(scenes) == |Flatten(scenes)|
  {
    if scenes != [] {
      TotalIsFlattenedLength(scenes[..|scenes| - 1]);
      assert scenes == scenes[..|scenes| - 1] + [scenes[|scenes| - 1]];
      FlattenAppend(scenes[..|scenes| - 1], [scenes[|scenes| - 1]]);
    }
  }

  /** Lines of one speaker. */
  function SpokenBy(ls: seq<Line>, character: string): nat {
    if ls == [] then 0 else SpokenBy(ls[..|ls| - 1], character) + (if ls[|ls| - 1].character == character then 1 else 0)
  }

  function SceneSpokenBy(scenes: seq<Scene>, character: string): nat {
    if scenes == [] then 0 else SceneSpokenBy(scenes[..|scenes| - 1], character) + SpokenBy(scenes[|scenes| - 1].lines, character)
  }

  lemma {:induction false} MarkedLineCount(ls: seq<Line>, character: string)
    ensures UserLineCount(seq(|ls|, j requires 0 <= j < |ls| => ls[j].(isUserLine := ls[j].character == character)))
      == SpokenBy(ls, character)
  {
    var m := seq(|ls|, j requires 0 <= j < |ls| => ls[j].(isUserLine := ls[j].character == character));
    if ls != [] {
      var init := ls[..|ls| - 1];
      MarkedLineCount(init, character);
      assert m[..|m| - 1] == seq(|init|, j requires 0 <= j < |init| => init[j].(isUserLine := init[j].character == character));
    }
  }

  lemma {:induction false} MarkedSceneCount(scenes: seq<Scene>, character: string)
    ensures SceneUserLines(Server.MarkedScenes(scenes, character)) == SceneSpokenBy(scenes, character)
  {
    if scenes != [] {
      var init := scenes[..|scenes| - 1];
      MarkedSceneCount(init, character);
      assert Server.MarkedScenes(scenes, character)[..|scenes| - 1] == Server.MarkedScenes(init, character);
      var last := scenes[|scenes| - 1].lines;
      MarkedLineCount(last, character);
      assert Server.MarkedScenes(scenes, character)[|scenes| - 1].lines
        == seq(|last|, j requires 0 <= j < |last| => last[j].(isUserLine := last[j].character == character));
    }
  }

  /** Once the backend has marked the script for a (non-empty) character,
      the page's count of the performer's lines is the number of lines
      that character speaks. */
  lemma UserLinesAfterChoosing(scenes: seq<Scene>, character: string, characters: seq<string>)
    requires character != ""
    ensures UserLines(Some(ProjectView(Some(Server.MarkedScenes(scenes, character)), Some(character), characters)))
      == SceneSpokenBy(scenes, character)
  {
    MarkedSceneCount(scenes, character);
  }

  /** What choosing a file does in `handleFileUpload`. */
  datatype UploadOutcome = NoFile | RejectedNotPdf | Uploads(filename: string)

  function HandleFileUpload(file: Option<string>): (r: UploadOutcome)
    ensures file.None? <==> r == NoFile
    ensures file.Some? ==> (r == RejectedNotPdf <==> !IsPdfFileName(file.value))
    ensures r.Uploads? ==> r.filename == file.value
  {
    if file.None? then NoFile
    else if !IsPdfFileName(file.value) then RejectedNotPdf
    else Uploads(file.value)
  }

  /** Every file the page sends passes the backend's own filename gate,
      so the 400 for a non-PDF name is reached only by other clients. */
  lemma UploadsPassServerGate(file: Option<string>)
    ensures HandleFileUpload(file).Uploads? ==> IsPdfFileName(HandleFileUpload(file).filename)
  {
  }

  /** The Set-character button's `disabled`. */
  predicate SetButtonDisabled(selected: string, current: Option<string>, inFlight: bool) {
    selected == "" || current == Some(selected) || inFlight
  }

  /** `handleSetCharacter`: the page posts the choice to the backend's
      `set-character` route. On success it shows the returned project
      and says who the performer now plays; on any error it keeps its
      project and shows the failure toast. */
  method HandleSetCharacter(stored: Option<Server.StoredProject>, character: string, now: string)
    returns (shown: Option<Server.StoredProject>, toast: string)
    ensures stored.Some? && character in stored.value.characters ==>
      shown == Some(stored.value.(userCharacter := Some(character),
        scenes := Server.MarkedScenes(stored.value.scenes, character), updatedAt := now))
      && toast == "You're now playing " + character
    ensures !(stored.Some? && character in stored.value.characters) ==>
      shown == None && toast == "Failed to set character"
  {
    var r := Server.SetUserCharacter(stored, character, now);
    if r.Ok? {
      shown, toast := Some(r.value), "You're now playing " + character;
    } else {
      shown, toast := None, "Failed to set character";
    }
  }

  /** A line is the performer's exactly when `character` speaks it. */
  predicate MarkedFor(scenes: seq<Scene>, character: string) {
    forall i, j :: 0 <= i < |scenes| && 0 <= j < |scenes[i].lines| ==>
      (scenes[i].lines[j].isUserLine <==> scenes[i].lines[j].character == character)
  }

  /** A click on the enabled Set-character button with one of the
      project's characters selected always changes the performer's
      character to the selection, and marks exactly that character's
      lines as the performer's. */
  method ClickSetButton(stored: Server.StoredProject, selected: string, inFlight: bool, now: string)
    returns (shown: Option<Server.StoredProject>, toast: string)
    requires !SetButtonDisabled(selected, stored.userCharacter, inFlight)
    ensures selected in stored.characters ==>
      shown.Some? && shown.value.userCharacter == Some(selected)
      && shown.value.userCharacter != stored.userCharacter
      && MarkedFor(shown.value.scenes, selected)
    ensures selected !in stored.characters ==> shown == None && toast == "Failed to set character"
  {
    shown, toast := HandleSetCharacter(Some(stored), selected, now);
    if selected in stored.characters {
      Server.MarkedScenesMarkExactly(stored.scenes, selected);
    }
  }

  /** The link to the Reader (`scenes?.length > 0 && user_character`). */
  predicate ShowsReaderLink(p: Option<ProjectView>) {
    p.Some? && p.value.scenes.Some? && |p.value.scenes.value| > 0 && Truthy(p.value.userCharacter)
  }

  /** The Reader is offered only for a project with a chosen character,
      which is also when the page counts the performer's lines. */
  lemma ReaderLinkMeansCounted(p: Option<ProjectView>)
    requires ShowsReaderLink(p)
    ensures UserLines(p) == SceneUserLines(p.value.scenes.value)
  {
  }

  /** The lines a scene's preview shows (`slice(0, 20)`). */
  function Preview(ls: seq<Line>): (r: seq<Line>)
    ensures |r| <= 20 && |r| <= |ls| && r == ls[..|r|]
    ensures |ls| <= 20 ==> r == ls
  {
    if |ls| <= 20 then ls else ls[..20]
  }

  /** The "...and n more lines" note, shown only past 20 lines. */
  function MoreLines(ls: seq<Line>): (r: Option<nat>)
    ensures r.Some? <==> |ls| > 20
    ensures r.Some? ==> r.value > 0
  {
    if |ls| > 20 then Some(|ls| - 20) else None
  }

  /** The preview and the note together account for every line. */
  lemma PreviewAccountsForAll(ls: seq<Line>)
    ensures |Preview(ls)| + (if MoreLines(ls).Some? then MoreLines(ls).value else 0) == |ls|
    ensures MoreLines(ls).Some? ==> Preview(ls) + ls[20..] == ls
  {
  }
}
