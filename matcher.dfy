/** The transcript matcher of the rehearsal reader (`fuzzyMatch` in
    Reader.jsx): does what the performer just said count as the line the
    reader is waiting on? Three tiers, the first that decides wins. */
module Matcher {
  import opened Wrappers
  import opened Text

  /** The approximate-search library's answer for the cleaned spoken text:
      the script position of its best hit, and whether that hit's score is
      below the sensitivity setting. `None` when no index was built (an
      empty script) or the search found nothing. */
  datatype FuseHit = FuseHit(index: int, belowSensitivity: bool)

  /** `s.replace(/[^\w\s]/g, '')`: drops every character that is neither a
      word character nor whitespace. */
  function StripPunctuation(s: string): (r: string)
    ensures |r| <= |s|
    ensures forall c :: c in r ==> IsJsWordChar(c) || IsJsSpace(c)
    ensures forall c :: c in s && (IsJsWordChar(c) || IsJsSpace(c)) ==> c in r
  {
    if s == [] then []
    else
      var rest := StripPunctuation(s[1..]);
      assert forall c :: c in s ==> c == s[0] || c in s[1..];
      if IsJsWordChar(s[0]) || IsJsSpace(s[0]) then [s[0]] + rest else rest
  }

  /** One character survives the stripping iff it is a word character or
      whitespace. */
  lemma StripPunctuationOfChar(c: char)
    ensures StripPunctuation([c]) == if IsJsWordChar(c) || IsJsSpace(c) then [c] else []
  {
    assert [c][1..] == [];
  }

  /** The stripping is a filter: it works piece by piece and keeps the
      order of what survives. */
  lemma {:induction false} StripPunctuationAppend(a: string, b: string)
    ensures StripPunctuation(a + b) == StripPunctuation(a) + StripPunctuation(b)
  {
    if a == [] {
      assert a + b == b;
    } else {
      assert (a + b)[0] == a[0] && (a + b)[1..] == a[1..] + b;
      StripPunctuationAppend(a[1..], b);
    }
  }

  /** Cleaning applied to both strings before any comparison. Every
      character that survives lies in the Basic Multilingual Plane, so `|r|`
      equals the JavaScript `length` of the cleaned string. */
  function Clean(s: string): string {
    JsTrim(StripPunctuation(s))
  }

  /** One word counts against the other when either contains the other. */
  predicate WordsRelated(word: string, targetWord: string) {
    Contains(targetWord, word) || Contains(word, targetWord)
  }

  predicate HasCounterpart(word: string, targetWords: seq<string>) {
    exists tw :: tw in targetWords && WordsRelated(word, tw)
  }

  /** `spokenWords.filter(word => targetWords.some(...)).length`. */
  function CountMatching(spokenWords: seq<string>, targetWords: seq<string>): (n: nat)
    ensures n <= |spokenWords|
  {
    if spokenWords == [] then 0
    else
      var counted := if HasCounterpart(spokenWords[0], targetWords) then 1 else 0;
      counted + CountMatching(spokenWords[1..], targetWords)
  }

  /** `Math.min(3, Math.floor(targetWords.length * 0.5))`. */
  function Threshold(targetWordCount: nat): nat {
    if targetWordCount / 2 < 3 then targetWordCount / 2 else 3
  }

  /** The word-overlap tier on already cleaned strings. */
  predicate WordOverlap(cleanSpoken: string, cleanTarget: string) {
    var targetWords := SplitJsWhitespace(cleanTarget);
    CountMatching(SplitJsWhitespace(cleanSpoken), targetWords) >= Threshold(|targetWords|)
  }

  /** Either cleaned string contains the other. */
  predicate ContainmentHolds(cleanSpoken: string, cleanTarget: string) {
    Contains(cleanTarget, cleanSpoken) || Contains(cleanSpoken, cleanTarget)
  }

  /** `fuzzyMatch(spoken, target)` with the search library's answer `hit`
      and the reader's cursor `currentLineIndex`. */
  function FuzzyMatch(spoken: string, target: string, hit: Option<FuseHit>, currentLineIndex: int): (r: bool)
    ensures spoken == "" || target == "" ==> !r
    ensures r ==> |Clean(spoken)| > 0
  {
    if spoken == "" || target == "" then false
    else
      var cleanSpoken := Clean(spoken);
      var cleanTarget := Clean(target);
      ContainsEmpty(cleanTarget);
      if ContainmentHolds(cleanSpoken, cleanTarget) then |cleanSpoken| > 3
      else if hit.Some? && hit.value.index == currentLineIndex then hit.value.belowSensitivity
      else WordOverlap(cleanSpoken, cleanTarget)
  }

  // ------------------------------------------------------------ the tiers

  /** Spoken text with nothing left after cleaning (silence, punctuation
      only) never matches: every target contains the empty string, so the
      containment tier decides, and its length gate fails. */
  lemma EmptyCleanedSpokenNeverMatches(spoken: string, target: string, hit: Option<FuseHit>, currentLineIndex: int)
    requires Clean(spoken) == ""
    ensures !FuzzyMatch(spoken, target, hit, currentLineIndex)
  {
    ContainsEmpty(Clean(target));
  }

  /** Containment decides alone: the result is exactly the length gate,
      whatever the search library says and wherever the cursor is. A short
      contained fragment is rejected without consulting later tiers. */
  lemma ContainmentTierDecides(spoken: string, target: string, hit: Option<FuseHit>, currentLineIndex: int)
    requires spoken != "" && target != ""
    requires ContainmentHolds(Clean(spoken), Clean(target))
    ensures FuzzyMatch(spoken, target, hit, currentLineIndex) <==> |Clean(spoken)| > 3
  {
  }

  /** Without containment, a search hit on the current line decides by its
      score alone. */
  lemma SearchTierDecidesOnCurrentLine(spoken: string, target: string, hit: FuseHit, currentLineIndex: int)
    requires spoken != "" && target != ""
    requires !ContainmentHolds(Clean(spoken), Clean(target))
    requires hit.index == currentLineIndex
    ensures FuzzyMatch(spoken, target, Some(hit), currentLineIndex) == hit.belowSensitivity
  {
  }

  /** Without containment, and with no search hit on the current line,
      word overlap decides. */
  lemma OverlapTierDecidesOtherwise(spoken: string, target: string, hit: Option<FuseHit>, currentLineIndex: int)
    requires spoken != "" && target != ""
    requires !ContainmentHolds(Clean(spoken), Clean(target))
    requires hit.None? || hit.value.index != currentLineIndex
    ensures FuzzyMatch(spoken, target, hit, currentLineIndex) == WordOverlap(Clean(spoken), Clean(target))
  {
  }

  /** Saying the line itself matches exactly when its cleaned form is longer
      than three characters. */
  lemma RepeatingTheLineMatches(line: string, hit: Option<FuseHit>, currentLineIndex: int)
    requires line != ""
    ensures FuzzyMatch(line, line, hit, currentLineIndex) <==> |Clean(line)| > 3
  {
    ContainsSelf(Clean(line));
  }

  /** Saying the first four or more (cleaned) characters of the line is
      already a match. */
  lemma SpokenOpeningMatches(spoken: string, target: string, hit: Option<FuseHit>, currentLineIndex: int)
    requires spoken != "" && target != ""
    requires StartsWith(Clean(target), Clean(spoken)) && |Clean(spoken)| > 3
    ensures FuzzyMatch(spoken, target, hit, currentLineIndex)
  {
    assert OccursAt(Clean(target), Clean(spoken), 0);
  }

  // ------------------------------------------------------------ word overlap

  /** The threshold is never above 3, and it is 0 exactly for targets of at
      most one word. */
  lemma ThresholdBounds(n: nat)
    ensures Threshold(n) <= 3
    ensures Threshold(n) == 0 <==> n <= 1
    ensures n >= 6 ==> Threshold(n) == 3
  {
  }

  /** A target of one word passes the overlap tier whatever was said. */
  lemma OneWordTargetPassesOverlap(cleanSpoken: string, cleanTarget: string)
    requires |SplitJsWhitespace(cleanTarget)| == 1
    ensures WordOverlap(cleanSpoken, cleanTarget)
  {
  }

  /** Three matched spoken words always pass the overlap tier. */
  lemma ThreeMatchedWordsPassOverlap(cleanSpoken: string, cleanTarget: string)
    requires CountMatching(SplitJsWhitespace(cleanSpoken), SplitJsWhitespace(cleanTarget)) >= 3
    ensures WordOverlap(cleanSpoken, cleanTarget)
  {
    ThresholdBounds(|SplitJsWhitespace(cleanTarget)|);
  }

  /** The count of matched words splits over a concatenation of spoken words. */
  lemma {:induction false} CountMatchingAppend(a: seq<string>, b: seq<string>, targetWords: seq<string>)
    ensures CountMatching(a + b, targetWords) == CountMatching(a, targetWords) + CountMatching(b, targetWords)
  {
    if a != [] {
      assert (a + b)[1..] == a[1..] + b;
      CountMatchingAppend(a[1..], b, targetWords);
    } else {
      assert a + b == b;
    }
  }

  /** Every spoken word is counted exactly when each has a counterpart: a
      spoken word that is also a target word always counts, repeats included. */
  lemma {:induction false} CountMatchingAll(spokenWords: seq<string>, targetWords: seq<string>)
    ensures CountMatching(spokenWords, targetWords) == |spokenWords|
        <==> forall k :: 0 <= k < |spokenWords| ==> HasCounterpart(spokenWords[k], targetWords)
  {
    if spokenWords != [] {
      CountMatchingAll(spokenWords[1..], targetWords);
      assert forall k :: 1 <= k < |spokenWords| ==> spokenWords[k] == spokenWords[1..][k - 1];
      if !HasCounterpart(spokenWords[0], targetWords) {
        assert CountMatching(spokenWords[1..], targetWords) <= |spokenWords| - 1;
      }
    }
  }

  /** A word always has itself as counterpart. */
  lemma WordIsOwnCounterpart(word: string, targetWords: seq<string>)
    requires word in targetWords
    ensures HasCounterpart(word, targetWords)
  {
    ContainsSelf(word);
    assert WordsRelated(word, word);
  }

  // ------------------------------------------------------------ an example

  /** Text made of word characters and spaces only loses nothing to cleaning. */
  lemma {:induction false} StripPunctuationKeepsPlainText(s: string)
    requires forall i :: 0 <= i < |s| ==> IsJsWordChar(s[i]) || IsJsSpace(s[i])
    ensures StripPunctuation(s) == s
  {
    if s != [] {
      StripPunctuationKeepsPlainText(s[1..]);
      assert [s[0]] + s[1..] == s;
    }
  }

  /** Cleaning leaves a word of word characters as it is. */
  lemma CleanKeepsPlainWord(w: string)
    requires forall i :: 0 <= i < |w| ==> IsJsWordChar(w[i])
    ensures Clean(w) == w
  {
    StripPunctuationKeepsPlainText(w);
    if w != [] {
      var first, last := w[0], w[|w| - 1];
      assert IsJsWordChar(first) && IsJsWordChar(last);
    }
    TrimKeepsUnpadded(w, IsJsSpace);
  }

  /** Splitting a word followed by one space and more text. */
  lemma SplitAfterWord(word: string, rest: string)
    requires forall i :: 0 <= i < |word| ==> !IsJsSpace(word[i])
    requires rest == [] || !IsJsSpace(rest[0])
    ensures SplitJsWhitespace(word + " " + rest) == [word] + SplitJsWhitespace(rest)
  {
    var gap := " " + rest;
    var s := word + gap;
    assert word + " " + rest == s;
    FirstSpaceAfterWord(word, gap);
    SkipOneSpace(rest);
    assert s[..|word|] == word;
    assert s[|word|..] == gap;
  }

  /** Trimming one space off text that does not start with another. */
  lemma SkipOneSpace(rest: string)
    requires rest == [] || !IsJsSpace(rest[0])
    ensures TrimStart(" " + rest, IsJsSpace) == rest
  {
    assert (" " + rest)[1..] == rest;
    assert TrimStart(rest, IsJsSpace) == rest;
  }

  lemma {:induction false} FirstSpaceAfterWord(word: string, rest: string)
    requires forall i :: 0 <= i < |word| ==> !IsJsSpace(word[i])
    requires rest != [] && IsJsSpace(rest[0])
    ensures FirstJsSpace(word + rest) == |word|
  {
    if word != [] {
      assert (word + rest)[1..] == word[1..] + rest;
      FirstSpaceAfterWord(word[1..], rest);
    } else {
      assert word + rest == rest;
    }
  }

  /** A word without whitespace splits into itself alone. */
  lemma SplitSingleWord(word: string)
    requires forall i :: 0 <= i < |word| ==> !IsJsSpace(word[i])
    ensures SplitJsWhitespace(word) == [word]
  {
    var i := FirstJsSpace(word);
    assert i == |word|;
  }

  /** A non-empty word without whitespace. */
  predicate IsWord(w: string) {
    w != [] && forall i :: 0 <= i < |w| ==> !IsJsSpace(w[i])
  }

  /** `words.join(' ')`. */
  function JoinSpaced(words: seq<string>): string
    requires |words| >= 1
  {
    if |words| == 1 then words[0] else words[0] + " " + JoinSpaced(words[1..])
  }

  /** A joined line starts with its first word's first character. */
  lemma JoinSpacedStart(words: seq<string>)
    requires |words| >= 1 && words[0] != []
    ensures |JoinSpaced(words)| >= 1 && JoinSpaced(words)[0] == words[0][0]
  {
    if |words| > 1 {
      var tail := " " + JoinSpaced(words[1..]);
      assert JoinSpaced(words) == words[0] + tail;
      assert (words[0] + tail)[0] == words[0][0];
    }
  }

  /** Splitting words joined by single spaces gives the words back. */
  lemma {:induction false} SplitJoinSpaced(words: seq<string>)
    requires |words| >= 1 && forall k :: 0 <= k < |words| ==> IsWord(words[k])
    ensures SplitJsWhitespace(JoinSpaced(words)) == words
  {
    if |words| == 1 {
      SplitSingleWord(words[0]);
    } else {
      var tail := words[1..];
      assert forall k :: 0 <= k < |tail| ==> tail[k] == words[k + 1];
      var rest := JoinSpaced(tail);
      SplitJoinSpaced(tail);
      JoinSpacedStart(tail);
      assert IsWord(tail[0]) && rest[0] == tail[0][0];
      SplitAfterWord(words[0], rest);
      assert JoinSpaced(words) == words[0] + " " + rest;
      assert [words[0]] + tail == words;
    }
  }

  /** A non-empty word of word characters only. */
  predicate PlainWord(w: string) {
    w != [] && forall i :: 0 <= i < |w| ==> IsJsWordChar(w[i])
  }

  /** Plain words joined by single spaces hold only word characters and
      spaces, and start and end with a word character. */
  lemma {:induction false} JoinSpacedPlain(words: seq<string>)
    requires |words| >= 1 && forall k :: 0 <= k < |words| ==> PlainWord(words[k])
    ensures var j := JoinSpaced(words);
      |j| >= 1 && (forall i :: 0 <= i < |j| ==> IsJsWordChar(j[i]) || j[i] == ' ')
      && IsJsWordChar(j[0]) && IsJsWordChar(j[|j| - 1])
  {
    var w := words[0];
    assert PlainWord(w);
    if |words| == 1 {
      assert JoinSpaced(words) == w;
    } else {
      var tail := words[1..];
      assert forall k :: 0 <= k < |tail| ==> tail[k] == words[k + 1];
      JoinSpacedPlain(tail);
      var rest := JoinSpaced(tail);
      var j := w + " " + rest;
      assert JoinSpaced(words) == j;
      assert forall i :: |w| + 1 <= i < |j| ==> j[i] == rest[i - |w| - 1];
      assert j[0] == w[0] && j[|j| - 1] == rest[|rest| - 1];
    }
  }

  /** Text of word characters and spaces that starts and ends with a word
      character cleans to itself. */
  lemma CleanKeepsPlainLine(j: string)
    requires |j| >= 1 && forall i :: 0 <= i < |j| ==> IsJsWordChar(j[i]) || j[i] == ' '
    requires IsJsWordChar(j[0]) && IsJsWordChar(j[|j| - 1])
    ensures Clean(j) == j
  {
    WordCharIsNoSpace(j[0]);
    WordCharIsNoSpace(j[|j| - 1]);
    TrimKeepsUnpadded(j, IsJsSpace);
    assert forall i :: 0 <= i < |j| ==> IsJsWordChar(j[i]) || IsJsSpace(j[i]);
    StripPunctuationKeepsPlainText(j);
  }

  lemma WordCharIsNoSpace(c: char)
    requires IsJsWordChar(c)
    ensures !IsJsSpace(c)
  {
  }

  /** A line of plain words joined by single spaces cleans to itself and
      splits back into its words. */
  lemma PlainLineSplitsBack(words: seq<string>)
    requires |words| >= 1 && forall k :: 0 <= k < |words| ==> PlainWord(words[k])
    ensures SplitJsWhitespace(Clean(JoinSpaced(words))) == words
  {
    var j := JoinSpaced(words);
    JoinSpacedPlain(words);
    CleanKeepsPlainLine(j);
    forall k | 0 <= k < |words|
      ensures IsWord(words[k])
    {
      PlainWordIsWord(words[k]);
    }
    SplitJoinSpaced(words);
  }

  lemma PlainWordIsWord(w: string)
    requires PlainWord(w)
    ensures IsWord(w)
  {
    forall i | 0 <= i < |w|
      ensures !IsJsSpace(w[i])
    {
      assert IsJsWordChar(w[i]);
    }
  }

  /** The hesitant fragment "uh i think i" reads as its four words. */
  lemma HesitantFragmentWords()
    ensures SplitJsWhitespace(Clean("uh i think i")) == ["uh", "i", "think", "i"]
  {
    var spoken := ["uh", "i", "think", "i"];
    assert PlainWord("uh") && PlainWord("i") && PlainWord("think");
    assert JoinSpaced(spoken) == "uh i think i";
    PlainLineSplitsBack(spoken);
  }

  /** The line "i love you dearly" reads as its four words. */
  lemma TargetLineWords()
    ensures SplitJsWhitespace(Clean("i love you dearly")) == ["i", "love", "you", "dearly"]
  {
    var target := ["i", "love", "you", "dearly"];
    assert PlainWord("i") && PlainWord("love") && PlainWord("you") && PlainWord("dearly");
    assert JoinSpaced(target) == "i love you dearly";
    PlainLineSplitsBack(target);
  }

  /** A hesitant fragment that repeats one short word of the line twice
      passes the overlap tier: "uh i think i" against "i love you dearly"
      counts the spoken "i" at each of its two occurrences, and half of four
      target words is two. */
  lemma HesitantFragmentPassesOverlap()
    ensures WordOverlap(Clean("uh i think i"), Clean("i love you dearly"))
  {
    HesitantFragmentWords();
    TargetLineWords();
    HesitantFragmentCount();
  }

  /** The spoken "i" matches at both of its occurrences. */
  lemma HesitantFragmentCount()
    ensures CountMatching(["uh", "i", "think", "i"], ["i", "love", "you", "dearly"]) >= Threshold(4)
  {
    var spoken := ["uh", "i", "think", "i"];
    var target := ["i", "love", "you", "dearly"];
    WordIsOwnCounterpart("i", target);
    assert CountMatching(spoken[3..], target) == 1;
    assert CountMatching(spoken[1..], target) >= 2;
  }
}
