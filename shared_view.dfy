/** The public page for a shared take: its duration format and the error
    it shows when the link does not resolve. */
module SharedView {
  import opened Wrappers
  import opened Text
  import opened Script

  /** `formatTime` of the shared page: unpadded minutes, two-digit seconds. */
  function FormatDuration(seconds: nat): string {
    NatToString(seconds / 60) + ":" + PadStart2(NatToString(seconds % 60))
  }

  /** The text reads back as the duration: digits, a colon, exactly two
      seconds digits below 60, and minutes*60 + seconds is the input. */
  lemma FormatDurationReadsBack(seconds: nat)
    ensures ReadsAsClock(FormatDuration(seconds), 1, seconds)
  {
    var q, rem := seconds / 60, seconds % 60;
    assert q * 60 + rem == seconds;
    var m := NatToString(q);
    var sec := PadStart2(NatToString(rem));
    TwoDigitsBelowHundred(rem);
    NatToStringRoundTrip(q);
    NatToStringRoundTrip(rem);
    assert DigitsValue(m) == q && DigitsValue(sec) == rem;
    assert FormatDuration(seconds) == m + ":" + sec;
    SplitClock(m, sec);
  }

  lemma FormatDurationExamples()
    ensures FormatDuration(0) == "0:00"
    ensures FormatDuration(125) == "2:05"
  {
    assert NatToString(0) == "0";
    assert NatToString(2) == "2";
    assert NatToString(5) == "5";
  }

  /** The error text after a failed response: the body's `detail` when it
      is a non-empty string, else "Failed to load". */
  function ErrorMessage(detail: Option<string>): (r: string)
    ensures r != ""
    ensures Truthy(detail) ==> r == detail.value
    ensures !Truthy(detail) ==> r == "Failed to load"
  {
    if Truthy(detail) then detail.value else "Failed to load"
  }

  /** The heading over the error. */
  function ErrorHeading(error: string): string {
    if error == "Share link has expired" then "Link Expired" else "Not Found"
  }

  /** A link is reported as expired exactly when the server said so in
      those words; every other failure, including one without a detail,
      reads "Not Found". */
  lemma ExpiredOnlyWhenSaid(detail: Option<string>)
    ensures ErrorHeading(ErrorMessage(detail)) == "Link Expired" <==> detail == Some("Share link has expired")
    ensures ErrorHeading(ErrorMessage(detail)) != "Link Expired" ==> ErrorHeading(ErrorMessage(detail)) == "Not Found"
  {
  }
}
