/** The script as the front end receives it from the server: scenes of
    lines, each line a JSON object. Reader, Recording and the project page
    all read this shape. */
module Script {
  import opened Wrappers
  import Text

  /** A line object. `emotion` is kept opaque; `audioUrl` and
      `parenthetical` are absent from lines the PDF parser creates. */
  datatype Line = Line(
    id: string,
    character: string,
    text: string,
    lineNumber: int,
    isUserLine: bool,
    emotion: Option<string>,
    audioUrl: Option<string>,
    parenthetical: Option<string>)

  datatype Scene = Scene(id: string, name: string, lines: seq<Line>)

  /** JavaScript truthiness of an optional string: present and not empty. */
  predicate Truthy(s: Option<string>) {
    s.Some? && s.value != ""
  }

  /** The line has a cue recording the page can play (`line.audio_url` is truthy). */
  predicate HasAudio(l: Line) {
    Truthy(l.audioUrl)
  }

  /** `scenes.reduce((acc, scene) => [...acc, ...scene.lines], [])`: every
      scene's lines, scene after scene. */
  function Flatten(scenes: seq<Scene>): seq<Line> {
    if scenes == [] then [] else Flatten(scenes[..|scenes| - 1]) + scenes[|scenes| - 1].lines
  }

  /** Flattening keeps every line and its order: the lines of the scenes
      before the last come first, then the last scene's lines. */
  lemma {:induction false} FlattenAppend(a: seq<Scene>, b: seq<Scene>)
    ensures Flatten(a + b) == Flatten(a) + Flatten(b)
  {
    if b != [] {
      assert (a + b)[..|a + b| - 1] == a + b[..|b| - 1];
      FlattenAppend(a, b[..|b| - 1]);
    } else {
      assert a + b == a;
    }
  }

  /** `name.toLowerCase().endsWith('.pdf')` in the browser and
      `filename.lower().endswith('.pdf')` on the server. */
  predicate IsPdfFileName(name: string) {
    Text.EndsWith(Text.ToLower(name), ".pdf")
  }

  /** Any name ending in ".pdf" in any mix of letter cases is accepted, and
      a name is accepted exactly when its last four characters spell
      ".pdf" ignoring case. */
  lemma PdfFileNameByLastFour(name: string)
    ensures IsPdfFileName(name) <==> |name| >= 4 && Text.ToLower(name[|name| - 4..]) == ".pdf"
  {
    var low := Text.ToLower(name);
    if |name| >= 4 {
      assert low[|low| - 4..] == Text.ToLower(name[|name| - 4..]);
    }
  }

  lemma UpperCasePdfAccepted(base: string)
    ensures IsPdfFileName(base + ".PDF") && IsPdfFileName(base + ".pdf")
  {
    PdfFileNameByLastFour(base + ".PDF");
    PdfFileNameByLastFour(base + ".pdf");
    assert (base + ".PDF")[|base|..] == ".PDF";
    assert (base + ".pdf")[|base|..] == ".pdf";
  }
}
