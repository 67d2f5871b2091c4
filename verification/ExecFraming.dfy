/** Separating stdout from stderr of a harness command by tagged base64 frames. */
module ExecFraming {
  import opened Wrappers
  import opened Text
  import Base64

  const MARKER_OUT := "OPENCURIA_STDOUT"
  const MARKER_ERR := "OPENCURIA_STDERR"
  const EXIT := "EXIT:"

  // ---------------------------------------------------------------- printing

  const LINE_WIDTH := 76

  /** How `base64` breaks its output into lines. */
  function Wrap(text: string): string {
    if text == "" then ""
    else if |text| <= LINE_WIDTH then text + "\n"
    else text[..LINE_WIDTH] + "\n" + Wrap(text[LINE_WIDTH..])
  }

  /** What the shell wrapper prints around the two encoded files. */
  function Frame(stdout64: string, stderr64: string, exitCode: int): string {
    MARKER_OUT + "\n" + stdout64 + MARKER_ERR + "\n" + stderr64 + EXIT + IntText(exitCode) + "\n"
  }

  // ---------------------------------------------------------------- parsing

  /** `"".join(text.split())`. */
  function Compact(text: string): (r: string)
    ensures forall c :: c in r ==> !IsSpace(c)
  {
    if text == "" then ""
    else (if IsSpace(text[0]) then "" else [text[0]]) + Compact(text[1..])
  }

  /** `text.split(mark, 1)[0]`. */
  function Before(text: string, mark: string): string {
    var i := Find(text, mark);
    if i == -1 then text else text[..i]
  }

  /** `text.split(mark, 1)[1]`. */
  function After(text: string, mark: string): string
    requires Find(text, mark) != -1
  {
    text[Find(text, mark) + |mark|..]
  }

  /** One payload; `utf8` stands for decoding UTF-8 with replacement characters. */
  function DecodePayload(payload: string, utf8: seq<Base64.Byte> -> string): Result<string, Base64.DecodeError> {
    var cleaned := Compact(payload);
    if cleaned == "" then Success("")
    else
      match Base64.Decode(cleaned)
      case Success(bytes) => Success(utf8(bytes))
      case Failure(error) => Failure(error)
  }

  /** The two streams of a framed output; output without both markers is all stdout. */
  function Parse(output: string, utf8: seq<Base64.Byte> -> string): Result<(string, string), Base64.DecodeError> {
    if Find(output, MARKER_OUT) == -1 || Find(output, MARKER_ERR) == -1 then Success((output, ""))
    else
      var stdout := DecodePayload(Before(After(output, MARKER_OUT), MARKER_ERR), utf8);
      var stderr := DecodePayload(Before(After(output, MARKER_ERR), EXIT), utf8);
      match (stdout, stderr)
      case (Success(o), Success(e)) => Success((o, e))
      case (Failure(error), _) => Failure(error)
      case (_, Failure(error)) => Failure(error)
  }

  // ---------------------------------------------------------------- round trip

  /** `text` is some wrapping of a base64 payload. */
  predicate Wraps(text: string, payload: string) {
    Compact(text) == payload && Base64.IsPayload(payload)
  }

  lemma {:induction false} WrapsChars(text: string, payload: string, i: nat)
    requires Wraps(text, payload) && i < |text|
    ensures IsSpace(text[i]) || Base64.IsDigit(text[i]) || text[i] == Base64.PAD
  {
    if !IsSpace(text[i]) {
      CompactKeeps(text, i);
    }
  }

  lemma {:induction false} CompactKeeps(text: string, i: nat)
    requires i < |text| && !IsSpace(text[i])
    ensures text[i] in Compact(text)
  {
    if i > 0 {
      CompactKeeps(text[1..], i - 1);
    }
  }

  lemma {:induction false} CompactConcat(a: string, b: string)
    ensures Compact(a + b) == Compact(a) + Compact(b)
  {
    if a == "" {
      assert a + b == b;
    } else {
      assert (a + b)[1..] == a[1..] + b;
      CompactConcat(a[1..], b);
    }
  }

  lemma {:induction false} CompactSolid(text: string)
    requires Base64.IsPayload(text)
    ensures Compact(text) == text
  {
    if text != "" {
      assert text[0] in text;
      CompactSolid(text[1..]);
    }
  }

  /** The lines `base64` prints are a wrapping of the payload. */
  lemma {:induction false} WrapWraps(payload: string)
    requires Base64.IsPayload(payload)
    ensures Wraps(Wrap(payload), payload)
  {
    if payload == "" {
    } else if |payload| <= LINE_WIDTH {
      CompactConcat(payload, "\n");
      CompactSolid(payload);
    } else {
      var first, rest := payload[..LINE_WIDTH], payload[LINE_WIDTH..];
      CompactConcat(first + "\n", Wrap(rest));
      CompactConcat(first, "\n");
      CompactSolid(first);
      WrapWraps(rest);
      assert Wrap(payload) == first + "\n" + Wrap(rest);
      assert payload == first + rest;
    }
  }

  /** The first occurrence is where an occurrence is and none is before. */
  lemma {:induction false} FindIs(s: string, sub: string, i: nat)
    requires At(s, sub, i)
    requires forall j :: 0 <= j < i ==> !At(s, sub, j)
    ensures Find(s, sub) == i
  {
  }

  /** No character of a payload, of the text from `k` on before it or of the mark's beginning is the signal. */
  lemma {:induction false} NoSignal(
      front: string, text: string, payload: string, mark: string, signal: nat, rest: string, k: nat)
    requires Wraps(text, payload) && Signals(mark, signal)
    requires k < |front| ==> front[k] != mark[signal]
    requires k < |front| + |text| + signal
    ensures (front + text + mark + rest)[k] != mark[signal]
  {
    if |front| <= k < |front| + |text| {
      WrapsChars(text, payload, k - |front|);
    }
  }

  /** The mark's first character that no base64 payload holds. */
  predicate Signals(mark: string, signal: nat) {
    && signal < |mark| && !IsSpace(mark[signal]) && !Base64.IsDigit(mark[signal]) && mark[signal] != Base64.PAD
    && forall k :: 0 <= k < signal ==> mark[k] != mark[signal]
  }

  lemma {:induction false} AtChar(s: string, sub: string, i: nat, k: nat)
    requires At(s, sub, i) && k < |sub|
    ensures s[i + k] == sub[k]
  {
    assert s[i..i + |sub|][k] == s[i + k];
  }

  /** A mark cannot start inside a payload. */
  lemma {:induction false} NoMarkInside(
      front: string, text: string, payload: string, mark: string, signal: nat, rest: string, j: nat)
    requires Wraps(text, payload) && Signals(mark, signal)
    requires j + signal < |front| ==> front[j + signal] != mark[signal]
    requires j < |front| + |text|
    ensures !At(front + text + mark + rest, mark, j)
  {
    var s := front + text + mark + rest;
    NoSignal(front, text, payload, mark, signal, rest, j + signal);
    if At(s, mark, j) {
      AtChar(s, mark, j, signal);
    }
  }

  lemma {:induction false} MarkFoundAfterPayload(text: string, payload: string, mark: string, signal: nat, rest: string)
    requires Wraps(text, payload) && Signals(mark, signal)
    ensures Find("\n" + text + mark + rest, mark) == 1 + |text|
  {
    var s := "\n" + text + mark + rest;
    assert s[1 + |text|..1 + |text| + |mark|] == mark;
    forall j | 0 <= j < 1 + |text|
      ensures !At(s, mark, j)
    {
      NoMarkInside("\n", text, payload, mark, signal, rest, j);
    }
    FindIs(s, mark, 1 + |text|);
  }

  /** What precedes the frame neither holds a marker nor makes one together with the first marker. */
  predicate Harmless(noise: string) {
    && Find(noise + MARKER_OUT, MARKER_OUT) == |noise|
    && Find(noise + MARKER_OUT, MARKER_ERR) == -1
  }

  lemma {:induction false} FirstMarker(noise: string, rest: string)
    requires Harmless(noise)
    ensures Find(noise + MARKER_OUT + rest, MARKER_OUT) == |noise|
  {
    var s, head := noise + MARKER_OUT + rest, noise + MARKER_OUT;
    assert s[|noise|..|noise| + |MARKER_OUT|] == MARKER_OUT;
    forall j | 0 <= j < |noise|
      ensures !At(s, MARKER_OUT, j)
    {
      assert s[j..j + |MARKER_OUT|] == head[j..j + |MARKER_OUT|];
      assert !At(head, MARKER_OUT, j);
    }
    FindIs(s, MARKER_OUT, |noise|);
  }

  lemma {:induction false} NotInHead(noise: string, rest: string, j: nat)
    requires Harmless(noise) && j <= |noise|
    ensures !At(noise + MARKER_OUT + rest, MARKER_ERR, j)
  {
    var s, head := noise + MARKER_OUT + rest, noise + MARKER_OUT;
    assert s[j..j + |MARKER_ERR|] == head[j..j + |MARKER_ERR|];
    assert !At(head, MARKER_ERR, j);
  }

  lemma {:induction false} FrontWithoutSignal(noise: string, j: nat)
    requires |noise| < j
    ensures
      var front := noise + MARKER_OUT + "\n";
      j + 9 < |front| ==> front[j + 9] != MARKER_ERR[9]
  {
    var front := noise + MARKER_OUT + "\n";
    if j + 9 < |front| - 1 {
      assert front[j + 9] == MARKER_OUT[j + 9 - |noise|];
    }
  }

  lemma {:induction false} ErrSignals()
    ensures Signals(MARKER_ERR, 9)
  {
  }

  lemma {:induction false} ExitSignals()
    ensures Signals(EXIT, 4)
  {
  }

  lemma {:induction false} SecondMarker(noise: string, text: string, payload: string, rest: string)
    requires Harmless(noise) && Wraps(text, payload)
    ensures Find(noise + MARKER_OUT + "\n" + text + MARKER_ERR + rest, MARKER_ERR) ==
              |noise| + |MARKER_OUT| + 1 + |text|
  {
    var front := noise + MARKER_OUT + "\n";
    var s := front + text + MARKER_ERR + rest;
    var at := |front| + |text|;
    assert s[at..at + |MARKER_ERR|] == MARKER_ERR;
    assert s == noise + MARKER_OUT + ("\n" + text + MARKER_ERR + rest);
    ErrSignals();
    forall j | 0 <= j < at
      ensures !At(s, MARKER_ERR, j)
    {
      hide Signals, At, Wraps;
      if j <= |noise| {
        NotInHead(noise, "\n" + text + MARKER_ERR + rest, j);
      } else {
        FrontWithoutSignal(noise, j);
        NoMarkInside(front, text, payload, MARKER_ERR, 9, rest, j);
      }
    }
    FindIs(s, MARKER_ERR, at);
  }

  lemma {:induction false} PayloadRoundTrip(text: string, bytes: seq<Base64.Byte>, utf8: seq<Base64.Byte> -> string)
    requires Wraps(text, Base64.Encode(bytes)) && utf8([]) == ""
    ensures DecodePayload("\n" + text, utf8) == Success(utf8(bytes))
  {
    CompactConcat("\n", text);
    assert Compact("\n" + text) == Base64.Encode(bytes);
    Base64.RoundTrip(bytes);
  }

  function Second(stderr64: string, exit: string): string {
    "\n" + stderr64 + EXIT + exit
  }

  function First(stdout64: string, stderr64: string, exit: string): string {
    "\n" + stdout64 + MARKER_ERR + Second(stderr64, exit)
  }

  lemma {:induction false} SplitsAtMarkers(
      noise: string, stdout64: string, payload: string, stderr64: string, exit: string)
    requires Harmless(noise) && Wraps(stdout64, payload)
    ensures
      var first, second := First(stdout64, stderr64, exit), Second(stderr64, exit);
      var output := noise + MARKER_OUT + first;
      && Find(output, MARKER_OUT) != -1 && After(output, MARKER_OUT) == first
      && Find(output, MARKER_ERR) != -1 && After(output, MARKER_ERR) == second
  {
    var first, second := First(stdout64, stderr64, exit), Second(stderr64, exit);
    var output := noise + MARKER_OUT + first;
    FirstMarker(noise, first);
    SecondMarker(noise, stdout64, payload, second);
    Regroup(noise, stdout64, second);
  }

  lemma {:induction false} Regroup(noise: string, stdout64: string, second: string)
    ensures noise + MARKER_OUT + ("\n" + stdout64 + MARKER_ERR + second) ==
            noise + MARKER_OUT + "\n" + stdout64 + MARKER_ERR + second
  {
  }

  lemma {:induction false} BeforeMark(text: string, payload: string, mark: string, signal: nat, rest: string)
    requires Wraps(text, payload) && Signals(mark, signal)
    ensures Before("\n" + text + mark + rest, mark) == "\n" + text
  {
    MarkFoundAfterPayload(text, payload, mark, signal, rest);
  }

  lemma {:induction false} StreamRoundTrip(
    text: string, bytes: seq<Base64.Byte>, mark: string, signal: nat, rest: string, utf8: seq<Base64.Byte> -> string)
    requires Wraps(text, Base64.Encode(bytes)) && Signals(mark, signal) && utf8([]) == ""
    ensures DecodePayload(Before("\n" + text + mark + rest, mark), utf8) == Success(utf8(bytes))
  {
    BeforeMark(text, Base64.Encode(bytes), mark, signal, rest);
    PayloadRoundTrip(text, bytes, utf8);
  }

  lemma {:induction false} FrameSplits(noise: string, stdout64: string, stderr64: string, exitCode: int)
    ensures noise + Frame(stdout64, stderr64, exitCode) ==
            noise + MARKER_OUT + First(stdout64, stderr64, IntText(exitCode) + "\n")
  {
  }

  lemma {:induction false} ParseParts(
    output: string, first: string, second: string, utf8: seq<Base64.Byte> -> string, o: string, e: string)
    requires Find(output, MARKER_OUT) != -1 && After(output, MARKER_OUT) == first
    requires Find(output, MARKER_ERR) != -1 && After(output, MARKER_ERR) == second
    requires DecodePayload(Before(first, MARKER_ERR), utf8) == Success(o)
    requires DecodePayload(Before(second, EXIT), utf8) == Success(e)
    ensures Parse(output, utf8) == Success((o, e))
  {
  }

  lemma {:induction false} PartsRoundTrip(
    stdout: seq<Base64.Byte>, stderr: seq<Base64.Byte>, stdout64: string, stderr64: string, exit: string,
    utf8: seq<Base64.Byte> -> string)
    requires Wraps(stdout64, Base64.Encode(stdout)) && Wraps(stderr64, Base64.Encode(stderr)) && utf8([]) == ""
    ensures DecodePayload(Before(First(stdout64, stderr64, exit), MARKER_ERR), utf8) == Success(utf8(stdout))
    ensures DecodePayload(Before(Second(stderr64, exit), EXIT), utf8) == Success(utf8(stderr))
  {
    hide Signals, Wraps, DecodePayload, Before, Base64.Encode;
    ErrSignals();
    ExitSignals();
    StreamRoundTrip(stdout64, stdout, MARKER_ERR, 9, Second(stderr64, exit), utf8);
    StreamRoundTrip(stderr64, stderr, EXIT, 4, exit, utf8);
  }

  lemma {:induction false} SplitRoundTrip(
    noise: string, stdout: seq<Base64.Byte>, stderr: seq<Base64.Byte>, stdout64: string, stderr64: string, exit: string,
    utf8: seq<Base64.Byte> -> string)
    requires Harmless(noise) && utf8([]) == ""
    requires Wraps(stdout64, Base64.Encode(stdout)) && Wraps(stderr64, Base64.Encode(stderr))
    ensures Parse(noise + MARKER_OUT + First(stdout64, stderr64, exit), utf8) == Success((utf8(stdout), utf8(stderr)))
  {
    var first, second := First(stdout64, stderr64, exit), Second(stderr64, exit);
    SplitsAtMarkers(noise, stdout64, Base64.Encode(stdout), stderr64, exit);
    PartsRoundTrip(stdout, stderr, stdout64, stderr64, exit, utf8);
    ParseParts(noise + MARKER_OUT + first, first, second, utf8, utf8(stdout), utf8(stderr));
  }

  /** Any bytes on both streams come back, whatever the exit code, the line wrapping and harmless noise in front. */
  lemma {:induction false} FramingRoundTrip(
    noise: string, stdout: seq<Base64.Byte>, stderr: seq<Base64.Byte>, exitCode: int,
    stdout64: string, stderr64: string, utf8: seq<Base64.Byte> -> string)
    requires Harmless(noise) && utf8([]) == ""
    requires Wraps(stdout64, Base64.Encode(stdout)) && Wraps(stderr64, Base64.Encode(stderr))
    ensures Parse(noise + Frame(stdout64, stderr64, exitCode), utf8) == Success((utf8(stdout), utf8(stderr)))
  {
    FrameSplits(noise, stdout64, stderr64, exitCode);
    SplitRoundTrip(noise, stdout, stderr, stdout64, stderr64, IntText(exitCode) + "\n", utf8);
  }

  /** Output that lacks a marker comes from elsewhere and is all stdout. */
  lemma {:induction false} UnframedIsStdout(output: string, utf8: seq<Base64.Byte> -> string)
    requires (forall i :: !At(output, "OPENCURIA_STDOUT", i)) || (forall i :: !At(output, "OPENCURIA_STDERR", i))
    ensures Parse(output, utf8) == Success((output, ""))
  {
    assert Find(output, MARKER_OUT) == -1 || Find(output, MARKER_ERR) == -1;
  }

  /** The frame the wrapper prints, as `base64` wraps it, parses back to the two streams. */
  lemma {:induction false} ExecRoundTrip(
    stdout: seq<Base64.Byte>, stderr: seq<Base64.Byte>, exitCode: int, utf8: seq<Base64.Byte> -> string)
    requires utf8([]) == ""
    ensures Parse(Frame(Wrap(Base64.Encode(stdout)), Wrap(Base64.Encode(stderr)), exitCode), utf8) ==
            Success((utf8(stdout), utf8(stderr)))
  {
    WrapWraps(Base64.Encode(stdout));
    WrapWraps(Base64.Encode(stderr));
    assert "" + MARKER_OUT == MARKER_OUT;
    assert MARKER_OUT[..16] == MARKER_OUT;
    FindIs(MARKER_OUT, MARKER_OUT, 0);
    var frame := Frame(Wrap(Base64.Encode(stdout)), Wrap(Base64.Encode(stderr)), exitCode);
    assert "" + frame == frame;
    FramingRoundTrip("", stdout, stderr, exitCode, Wrap(Base64.Encode(stdout)), Wrap(Base64.Encode(stderr)), utf8);
  }
}
