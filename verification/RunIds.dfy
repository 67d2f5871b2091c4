/** Identifiers of computer-use runs, and the names of lease holders, as backend and runner read them. */
module RunIds {
  import Text

  const VIEWER_KIND := "viewer"
  const COMPUTER_USE_KIND := "computeruse"

  function LowerChar(c: char): char {
    if 'A' <= c <= 'Z' then (c as int + 32) as char else c
  }

  function Lower(s: string): string {
    seq(|s|, i requires 0 <= i < |s| => LowerChar(s[i]))
  }

  function NormalKind(kind: string): string {
    Lower(Text.Strip(kind))
  }

  /** The holder kinds the runner knows. */
  predicate ValidKind(kind: string) {
    NormalKind(kind) == VIEWER_KIND || NormalKind(kind) == COMPUTER_USE_KIND
  }

  lemma {:induction false} StripSolid(s: string)
    requires s != "" && !Text.IsSpace(s[0]) && !Text.IsSpace(s[|s| - 1])
    ensures Text.Strip(s) == s
  {
    assert Text.TrimLeft(s) == s && Text.TrimRight(s) == s;
  }

  lemma {:induction false} LowerSpace(c: char)
    ensures Text.IsSpace(LowerChar(c)) == Text.IsSpace(c)
  {
  }

  lemma {:induction false} LowerParts(s: string)
    requires s != ""
    ensures Lower(s) != "" && Lower(s)[0] == LowerChar(s[0]) && Lower(s)[1..] == Lower(s[1..])
    ensures var n := |s| - 1; |Lower(s)| == |s| && Lower(s)[n] == LowerChar(s[n]) && Lower(s)[..n] == Lower(s[..n])
  {
    hide LowerChar;
  }

  lemma {:induction false} LowerTrimsLeft(s: string)
    ensures Text.TrimLeft(Lower(s)) == Lower(Text.TrimLeft(s))
  {
    hide Text.IsSpace, LowerChar, Lower;
    if s != "" {
      LowerParts(s);
      LowerSpace(s[0]);
      LowerTrimsLeft(s[1..]);
    } else {
      LowerNothing();
    }
  }

  lemma {:induction false} LowerTrimsRight(s: string)
    ensures Text.TrimRight(Lower(s)) == Lower(Text.TrimRight(s))
  {
    hide Text.IsSpace, LowerChar, Lower;
    if s != "" {
      LowerParts(s);
      LowerSpace(s[|s| - 1]);
      LowerTrimsRight(s[..|s| - 1]);
    } else {
      LowerNothing();
    }
  }

  lemma {:induction false} LowerNothing()
    ensures Lower("") == ""
  {
  }

  /** Neither white space around a kind nor the case of its letters matters. */
  lemma {:induction false} KindIsReadLoosely(front: string, kind: string, back: string)
    requires Text.IsBlank(front) && Text.IsBlank(back)
    ensures NormalKind(front + kind + back) == NormalKind(kind) == NormalKind(Lower(kind))
  {
    hide Text.Strip;
    Text.StripBlanks(front, kind, back);
    StripLowers(kind);
    assert Lower(Lower(Text.Strip(kind))) == Lower(Text.Strip(kind));
  }

  lemma {:induction false} StripLowers(s: string)
    ensures Text.Strip(Lower(s)) == Lower(Text.Strip(s))
  {
    LowerTrimsLeft(s);
    LowerTrimsRight(Text.TrimLeft(s));
  }

  lemma {:induction false} LowerSolid(s: string)
    requires forall i :: 0 <= i < |s| ==> 'a' <= s[i] <= 'z'
    ensures Lower(s) == s
  {
  }

  lemma {:induction false} LowerCaseIsNormal(kind: string)
    requires kind != "" && forall i :: 0 <= i < |kind| ==> 'a' <= kind[i] <= 'z'
    ensures NormalKind(kind) == kind
  {
    StripSolid(kind);
    LowerSolid(kind);
  }

  // ---------------------------------------------------------------- run ids

  predicate IsAlnum(c: char) {
    'a' <= c <= 'z' || 'A' <= c <= 'Z' || '0' <= c <= '9'
  }

  predicate IsIdChar(c: char) {
    IsAlnum(c) || c == '.' || c == '_' || c == '-'
  }

  /** An alphanumeric character followed by id characters. */
  predicate IsRunId(id: string) {
    id != "" && IsAlnum(id[0]) && forall i :: 0 <= i < |id| ==> IsIdChar(id[i])
  }

  /** What the runner's regular expression accepts: its `$` also matches before a final newline. */
  predicate AcceptedRunId(id: string) {
    IsRunId(id) || (id != "" && id[|id| - 1] == '\n' && IsRunId(id[..|id| - 1]))
  }

  // ---------------------------------------------------------------- sanitizing a session id

  function Hyphenate(s: string): (r: string)
    ensures |r| == |s|
    ensures forall i :: 0 <= i < |s| ==> r[i] == if IsIdChar(s[i]) then s[i] else '-'
  {
    seq(|s|, i requires 0 <= i < |s| => if IsIdChar(s[i]) then s[i] else '-')
  }

  predicate NoDoubleHyphen(s: string) {
    forall i :: 0 <= i < |s| - 1 ==> !(s[i] == '-' && s[i + 1] == '-')
  }

  /** Runs of hyphens become one hyphen. */
  function Collapse(s: string): (r: string)
    ensures NoDoubleHyphen(r)
    ensures forall c :: c in r ==> c in s
    ensures s != "" ==> r != "" && r[0] == s[0]
    ensures NoDoubleHyphen(s) ==> r == s
  {
    if |s| <= 1 then s
    else if s[0] == '-' && s[1] == '-' then Collapse(s[1..])
    else
      assert NoDoubleHyphen(s) ==> NoDoubleHyphen(s[1..]);
      [s[0]] + Collapse(s[1..])
  }

  function TrimHyphensLeft(s: string): (r: string)
    ensures r == "" || r[0] != '-'
    ensures |r| <= |s| && r == s[|s| - |r|..]
    ensures s != "" && s[0] != '-' ==> r == s
  {
    if s != "" && s[0] == '-' then TrimHyphensLeft(s[1..]) else s
  }

  function TrimHyphensRight(s: string): (r: string)
    ensures r == "" || r[|r| - 1] != '-'
    ensures |r| <= |s| && r == s[..|r|]
    ensures s != "" && s[|s| - 1] != '-' ==> r == s
    ensures s != "" && s[0] != '-' ==> r != ""
  {
    if s != "" && s[|s| - 1] == '-' then TrimHyphensRight(s[..|s| - 1]) else s
  }

  /** `s.strip("-")`. */
  function TrimHyphens(s: string): (r: string)
    ensures r == "" || (r[0] != '-' && r[|r| - 1] != '-')
    ensures forall i :: 0 <= i < |r| ==> r[i] in s
    ensures s != "" && s[0] != '-' ==> r != "" && r[0] == s[0]
    ensures s != "" && s[0] != '-' && s[|s| - 1] != '-' ==> r == s
  {
    TrimHyphensRight(TrimHyphensLeft(s))
  }

  /** What is left of a session id once odd characters have become single, inner hyphens. */
  function Cleaned(sessionId: string): string {
    TrimHyphens(Collapse(Hyphenate(Text.Strip(sessionId))))
  }

  function Named(cleaned: string, token: string): string {
    if cleaned != "" && IsAlnum(cleaned[0]) then cleaned
    else if cleaned != "" then "run-" + cleaned
    else "run-" + token
  }

  /** `token` stands for the random suffix used when nothing of the id is left. */
  function SanitizeRunId(sessionId: string, token: string): string {
    var trimmed := TrimHyphens(Named(Cleaned(sessionId), token));
    if AcceptedRunId(trimmed) then trimmed else "run-" + token
  }

  lemma {:induction false} CleanedIsIdChars(sessionId: string)
    ensures forall i :: 0 <= i < |Cleaned(sessionId)| ==> IsIdChar(Cleaned(sessionId)[i])
  {
    var h := Hyphenate(Text.Strip(sessionId));
    assert forall c :: c in h ==> IsIdChar(c);
    forall i | 0 <= i < |Cleaned(sessionId)|
      ensures IsIdChar(Cleaned(sessionId)[i])
    {
      assert Cleaned(sessionId)[i] in Collapse(h);
    }
  }

  lemma {:induction false} PrefixedIsRunId(tail: string)
    requires tail != "" && forall i :: 0 <= i < |tail| ==> IsIdChar(tail[i])
    ensures IsRunId("run-" + tail)
  {
    var s := "run-" + tail;
    forall i | 0 <= i < |s|
      ensures IsIdChar(s[i])
    {
      if i >= 4 {
        assert s[i] == tail[i - 4];
      }
    }
  }

  lemma {:induction false} TrimHyphensSolid(s: string)
    requires s != "" && s[0] != '-' && s[|s| - 1] != '-'
    ensures TrimHyphens(s) == s
  {
  }

  lemma {:induction false} NamedIsRunId(cleaned: string, token: string)
    requires token != "" && forall i :: 0 <= i < |token| ==> IsAlnum(token[i])
    requires cleaned != "" ==> cleaned[|cleaned| - 1] != '-'
    requires forall i :: 0 <= i < |cleaned| ==> IsIdChar(cleaned[i])
    ensures IsRunId(Named(cleaned, token)) && TrimHyphens(Named(cleaned, token)) == Named(cleaned, token)
  {
    hide TrimHyphens;
    var named := Named(cleaned, token);
    if cleaned == "" || !IsAlnum(cleaned[0]) {
      var tail := if cleaned == "" then token else cleaned;
      assert forall i :: 0 <= i < |tail| ==> IsIdChar(tail[i]);
      PrefixedIsRunId(tail);
      assert named == "run-" + tail && named[|named| - 1] == tail[|tail| - 1];
    }
    TrimHyphensSolid(named);
  }

  /** Every sanitized session id passes the runner's own check, and the last fallback is never needed. */
  lemma {:induction false} SanitizedIsAccepted(sessionId: string, token: string)
    requires token != "" && forall i :: 0 <= i < |token| ==> IsAlnum(token[i])
    ensures AcceptedRunId(SanitizeRunId(sessionId, token)) && IsRunId(SanitizeRunId(sessionId, token))
    ensures SanitizeRunId(sessionId, token) == Named(Cleaned(sessionId), token)
  {
    CleanedIsIdChars(sessionId);
    NamedIsRunId(Cleaned(sessionId), token);
  }

  /** Ids that are already well-formed, UUIDs among them, are left alone. */
  lemma {:induction false} SanitizeKeepsCleanIds(id: string, token: string)
    requires IsRunId(id) && NoDoubleHyphen(id) && id[|id| - 1] != '-'
    ensures SanitizeRunId(id, token) == id
  {
    hide Text.Strip, Collapse, TrimHyphens;
    StripSolid(id);
    assert Hyphenate(id) == id;
    TrimHyphensSolid(id);
  }
}
