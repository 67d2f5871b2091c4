/** The recording line in the output of a computer-use run. */
module RecordingOutput {
  import opened Text
  import opened Wrappers

  const RECORD_DIR := "/workspace/.opencuria/computeruse"

  function RecordingPath(runId: string): string {
    RECORD_DIR + "/" + runId + "/session.mp4"
  }

  function RecordingMarker(runId: string): string {
    "![Computer use](" + RecordingPath(runId) + ")"
  }

  function VideoMarkdown(runId: string): string {
    "\n\n" + RecordingMarker(runId)
  }

  function AppendVideo(output: string, runId: string): string {
    if Find(output, RecordingMarker(runId)) != -1 then output
    else TrimRight(output) + VideoMarkdown(runId)
  }

  lemma {:induction false} OccursAt(s: string, sub: string, i: nat)
    requires At(s, sub, i)
    ensures Find(s, sub) != -1
  {
  }

  lemma {:induction false} MarkerOccurs(output: string, runId: string)
    ensures Find(AppendVideo(output, runId), RecordingMarker(runId)) != -1
  {
    var marker, full := RecordingMarker(runId), AppendVideo(output, runId);
    if Find(output, marker) == -1 {
      var i := |TrimRight(output)| + 2;
      assert full[i..i + |marker|] == marker;
      OccursAt(full, marker, i);
    }
  }

  /** The output is kept, but for white space at its end, and the line is added unless it is there. */
  lemma {:induction false} AppendVideoKeepsOutput(output: string, runId: string) returns (n: nat)
    ensures n <= |output| && forall i :: n <= i < |output| ==> IsSpace(output[i])
    ensures var full, line := AppendVideo(output, runId), RecordingMarker(runId);
      if exists i :: At(output, line, i) then full == output
      else full == output[..n] + "\n\n" + line && (n == 0 || !IsSpace(output[n - 1]))
  {
    hide RecordingMarker;
    n := |TrimRight(output)|;
    Regroup3(output[..n], "\n\n", RecordingMarker(runId));
  }

  lemma {:induction false} Regroup3(a: string, b: string, c: string)
    ensures a + (b + c) == a + b + c
  {
  }

  /** Adding the recording line a second time changes nothing. */
  lemma {:induction false} AppendVideoIdempotent(output: string, runId: string)
    ensures AppendVideo(AppendVideo(output, runId), runId) == AppendVideo(output, runId)
  {
    MarkerOccurs(output, runId);
  }

  // ---------------------------------------------------------------- truncation

  /** `s.rfind(sub)`: the last occurrence, or -1. */
  function FindLast(s: string, sub: string, from: int): (r: int)
    requires from <= |s|
    ensures r == -1 || (0 <= r <= from && At(s, sub, r))
    ensures forall i :: r < i <= from ==> !At(s, sub, i)
    decreases from + 1
  {
    if from < 0 then -1
    else if At(s, sub, from) then from
    else FindLast(s, sub, from - 1)
  }

  /** The text before the recording line and the line with what follows it, or neither if it is missing. */
  datatype Split = Split(text: string, suffix: string) | NotFound

  function SplitRecording(full: string, runId: string): Split {
    var suffix := VideoMarkdown(runId);
    if |suffix| <= |full| && full[|full| - |suffix|..] == suffix
    then Split(TrimRight(full[..|full| - |suffix|]), suffix)
    else
      var i := FindLast(full, RecordingMarker(runId), |full|);
      if i == -1 then NotFound else Split(TrimRight(full[..i]), full[i..])
  }

  const NOTICE_RESERVE := 40

  function Notice(length: nat): string {
    "\n…[truncated " + Decimal(length) + " chars total]"
  }

  /** The output for the parent's task card, and whether it was cut. */
  function TruncateTaskOutput(output: string, runId: string, maxChars: int): (string, bool) {
    var full := AppendVideo(output, runId);
    match SplitRecording(full, runId)
    case NotFound => (full, false)
    case Split(text, suffix) =>
      if |text| + |suffix| <= maxChars then (text + suffix, false)
      else
        var room := maxChars - |suffix| - NOTICE_RESERVE;
        (text[..if room < 0 then 0 else room] + Notice(|text|) + suffix, true)
  }

  lemma {:induction false} LineHasMarker(runId: string)
    ensures Find(VideoMarkdown(runId), RecordingMarker(runId)) != -1
  {
    var line, marker := VideoMarkdown(runId), RecordingMarker(runId);
    assert line[2..2 + |marker|] == marker;
    OccursAt(line, marker, 2);
  }

  /** What occurs is found from the end as well, and what follows the last occurrence begins with it. */
  lemma {:induction false} FoundBackwards(s: string, sub: string)
    requires Find(s, sub) != -1
    ensures var i := FindLast(s, sub, |s|); i != -1 && Find(s[i..], sub) != -1
  {
    var first := Find(s, sub);
    assert At(s, sub, first) && first <= |s|;
    var i := FindLast(s, sub, |s|);
    assert s[i..][..|sub|] == s[i..i + |sub|];
    OccursAt(s[i..], sub, 0);
  }

  /** The branch for a missing recording line is never taken, and the suffix holds the line. */
  lemma {:induction false} RecordingIsFound(output: string, runId: string)
    ensures var s := SplitRecording(AppendVideo(output, runId), runId);
      s.Split? && Find(s.suffix, RecordingMarker(runId)) != -1
  {
    var full := AppendVideo(output, runId);
    MarkerOccurs(output, runId);
    FoundBackwards(full, RecordingMarker(runId));
    LineHasMarker(runId);
  }

  lemma {:induction false} OccursAfter(front: string, s: string, sub: string)
    requires Find(s, sub) != -1
    ensures Find(front + s, sub) != -1
  {
    var i := Find(s, sub);
    assert (front + s)[|front| + i..|front| + i + |sub|] == s[i..i + |sub|];
    OccursAt(front + s, sub, |front| + i);
  }

  function Power10(k: nat): nat {
    if k == 0 then 1 else 10 * Power10(k - 1)
  }

  lemma {:induction false} DecimalLength(n: nat, k: nat)
    requires k > 0 && n < Power10(k)
    ensures |Decimal(n)| <= k
  {
    assert Power10(k) == 10 * Power10(k - 1) && Power10(0) == 1;
    if n >= 10 {
      DecimalLength(n / 10, k - 1);
    }
  }

  /**
   * The output always keeps the recording line; it is cut exactly when it does not fit, and while its
   * length has at most 14 digits the reserve is large enough for the notice.
   */
  lemma {:induction false} TruncationKeepsRecording(output: string, runId: string, maxChars: int)
    ensures var (cut, truncated) := TruncateTaskOutput(output, runId, maxChars);
      var s := SplitRecording(AppendVideo(output, runId), runId);
      && Find(cut, RecordingMarker(runId)) != -1
      && s.Split? && cut[Max(0, |cut| - |s.suffix|)..] == s.suffix
      && (truncated <==> |s.text| + |s.suffix| > maxChars)
      && (|output| < Power10(14) ==> |cut| <= Max(maxChars, |s.suffix| + NOTICE_RESERVE))
  {
    hide RecordingMarker, AppendVideo, SplitRecording, Decimal;
    RecordingIsFound(output, runId);
    var s := SplitRecording(AppendVideo(output, runId), runId);
    var cut := TruncateTaskOutput(output, runId, maxChars).0;
    var front := cut[..|cut| - |s.suffix|];
    assert cut == front + s.suffix;
    OccursAfter(front, s.suffix, RecordingMarker(runId));
    TextIsShort(output, runId);
    if |s.text| + |s.suffix| > maxChars && |output| < Power10(14) {
      DecimalLength(|s.text|, 14);
    }
  }

  lemma {:induction false} LastOccurrence(full: string, marker: string)
    requires FindLast(full, marker, |full|) != -1
    ensures var rest := full[FindLast(full, marker, |full|)..];
      marker <= rest && forall i :: i > 0 ==> !At(rest, marker, i)
  {
    var at := FindLast(full, marker, |full|);
    var rest := full[at..];
    forall i | i > 0
      ensures !At(rest, marker, i)
    {
      if At(rest, marker, i) {
        assert full[at + i..at + i + |marker|] == rest[i..i + |marker|];
        assert At(full, marker, at + i);
      }
    }
  }

  /** Where the split is made. */
  lemma {:induction false} SplitAt(full: string, runId: string, s: Split) returns (at: nat)
    requires s == SplitRecording(full, runId) && s.Split?
    ensures at <= |full| && s.suffix == full[at..] && s.text == TrimRight(full[..at])
    ensures s.suffix == "\n\n" + RecordingMarker(runId) || at == FindLast(full, RecordingMarker(runId), |full|)
  {
    hide RecordingMarker, FindLast, TrimRight, At, IsSpace;
    var line := VideoMarkdown(runId);
    at := if |line| <= |full| && full[|full| - |line|..] == line then |full| - |line|
          else FindLast(full, RecordingMarker(runId), |full|);
  }

  lemma {:induction false} TrimmedIsBlank(s: string) returns (blank: string)
    ensures s == TrimRight(s) + blank && forall c :: c in blank ==> IsSpace(c)
  {
    hide IsSpace;
    blank := s[|TrimRight(s)|..];
  }

  /** The split gives back the output: a text, white space, and what begins with the last recording line. */
  lemma {:induction false} SplitReads(full: string, runId: string, s: Split) returns (blank: string)
    requires s == SplitRecording(full, runId) && s.Split?
    ensures full == s.text + blank + s.suffix
    ensures (forall c :: c in blank ==> IsSpace(c)) && (s.text == "" || !IsSpace(s.text[|s.text| - 1]))
    ensures s.suffix == "\n\n" + RecordingMarker(runId) ||
            (RecordingMarker(runId) <= s.suffix && forall i :: i > 0 ==> !At(s.suffix, RecordingMarker(runId), i))
  {
    hide RecordingMarker, SplitRecording, IsSpace, At;
    var at := SplitAt(full, runId, s);
    blank := TrimmedIsBlank(full[..at]);
    assert full == full[..at] + full[at..];
    if s.suffix != "\n\n" + RecordingMarker(runId) {
      LastOccurrence(full, RecordingMarker(runId));
    }
  }

  /**
   * The output with its recording line is a text, white space, and what begins with the last such line.
   * Without the white space it is given out whole if it fits; else only the front of the text is, and a remark.
   */
  lemma {:induction false} TruncationKeepsTheFront(output: string, runId: string, maxChars: int)
    returns (text: string, blank: string, suffix: string)
    ensures AppendVideo(output, runId) == text + blank + suffix
    ensures (forall c :: c in blank ==> IsSpace(c)) && (text == "" || !IsSpace(text[|text| - 1]))
    ensures suffix == "\n\n" + RecordingMarker(runId) ||
            (RecordingMarker(runId) <= suffix && forall i :: i > 0 ==> !At(suffix, RecordingMarker(runId), i))
    ensures TruncateTaskOutput(output, runId, maxChars) ==
            if |text| + |suffix| <= maxChars then (text + suffix, false)
            else (text[..Max(0, maxChars - |suffix| - 40)] +
                  ("\n…[truncated " + Decimal(|text|) + " chars total]") + suffix, true)
  {
    hide SplitRecording, AppendVideo, RecordingMarker, Decimal;
    RecordingIsFound(output, runId);
    var s := SplitRecording(AppendVideo(output, runId), runId);
    text, suffix := s.text, s.suffix;
    blank := SplitReads(AppendVideo(output, runId), runId, s);
  }

  lemma {:induction false} TextIsShort(output: string, runId: string)
    ensures var s := SplitRecording(AppendVideo(output, runId), runId); s.Split? ==> |s.text| <= |output|
  {
    var full, suffix := AppendVideo(output, runId), VideoMarkdown(runId);
    if full != output {
      assert full[|full| - |suffix|..] == suffix;
    }
  }
}
