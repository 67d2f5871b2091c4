/** The Python string operations the harness relies on. */
module Text {

  /** The characters removed by `str.strip()` and `str.split()` without arguments. */
  predicate IsSpace(c: char) {
    || '\t' <= c <= '\r'
    || '\U{001c}' <= c <= ' '
    || c == '\U{0085}' || c == '\U{00a0}' || c == '\U{1680}'
    || '\U{2000}' <= c <= '\U{200a}'
    || c == '\U{2028}' || c == '\U{2029}' || c == '\U{202f}' || c == '\U{205f}' || c == '\U{3000}'
  }

  /** `str.lstrip()`. */
  function TrimLeft(s: string): (r: string)
    ensures |r| <= |s| && r == s[|s| - |r|..]
    ensures r == "" || !IsSpace(r[0])
    ensures forall i :: 0 <= i < |s| - |r| ==> IsSpace(s[i])
  {
    hide IsSpace;
    if s != "" && IsSpace(s[0]) then TrimLeft(s[1..]) else s
  }

  /** `str.rstrip()`. */
  function TrimRight(s: string): (r: string)
    ensures |r| <= |s| && r == s[..|r|]
    ensures r == "" || !IsSpace(r[|r| - 1])
    ensures forall i :: |r| <= i < |s| ==> IsSpace(s[i])
  {
    hide IsSpace;
    if s != "" && IsSpace(s[|s| - 1]) then TrimRight(s[..|s| - 1]) else s
  }

  /** `str.strip()`. */
  function Strip(s: string): (r: string)
    ensures r == "" || (!IsSpace(r[0]) && !IsSpace(r[|r| - 1]))
    ensures |r| <= |s|
  {
    TrimRight(TrimLeft(s))
  }

  lemma {:induction false} StripNothing()
    ensures Strip("") == ""
  {
  }

  lemma {:induction false} StripIdempotent(s: string)
    ensures Strip(Strip(s)) == Strip(s)
  {
    var r := Strip(s);
    assert TrimLeft(r) == r;
    assert TrimRight(r) == r;
  }

  predicate IsBlank(s: string) {
    forall i :: 0 <= i < |s| ==> IsSpace(s[i])
  }

  lemma {:induction false} TrimLeftBlank(front: string, s: string)
    requires IsBlank(front)
    ensures TrimLeft(front + s) == TrimLeft(s)
  {
    hide IsSpace;
    if front == "" {
      assert front + s == s;
    } else {
      assert (front + s)[1..] == front[1..] + s;
      TrimLeftBlank(front[1..], s);
    }
  }

  lemma {:induction false} TrimRightBlank(s: string, back: string)
    requires IsBlank(back)
    ensures TrimRight(s + back) == TrimRight(s)
  {
    hide IsSpace;
    if back == "" {
      assert s + back == s;
    } else {
      assert (s + back)[..|s + back| - 1] == s + back[..|back| - 1];
      TrimRightBlank(s, back[..|back| - 1]);
    }
  }

  lemma {:induction false} TrimLeftSolid(s: string, back: string)
    requires TrimLeft(s) != ""
    ensures TrimLeft(s + back) == TrimLeft(s) + back
  {
    hide IsSpace;
    assert (s + back)[0] == s[0];
    if IsSpace(s[0]) {
      assert (s + back)[1..] == s[1..] + back;
      TrimLeftSolid(s[1..], back);
      assert TrimLeft(s + back) == TrimLeft(s[1..] + back);
    } else {
      assert TrimLeft(s + back) == s + back;
    }
  }

  /** White space around a text does not matter. */
  lemma {:induction false} StripBlanks(front: string, s: string, back: string)
    requires IsBlank(front) && IsBlank(back)
    ensures Strip(front + s + back) == Strip(s)
  {
    hide IsSpace, TrimLeft, TrimRight;
    assert front + s + back == front + (s + back);
    TrimLeftBlank(front, s + back);
    if TrimLeft(s) != "" {
      TrimLeftSolid(s, back);
      TrimRightBlank(TrimLeft(s), back);
    } else {
      TrimLeftBlank(s, back);
      TrimLeftBlank(back, "");
      assert back + "" == back;
    }
  }

  /** `sub` occurs in `s` at position `i`. */
  predicate At(s: string, sub: string, i: int) {
    0 <= i && i + |sub| <= |s| && s[i..i + |sub|] == sub
  }

  /** `str.find(sub, from)`: the first occurrence at or after `from`, or -1. */
  function FindFrom(s: string, sub: string, from: nat): (r: int)
    requires from <= |s|
    ensures r == -1 || (from <= r && At(s, sub, r))
    ensures forall i :: from <= i && (r == -1 || i < r) ==> !At(s, sub, i)
    decreases |s| - from
  {
    if At(s, sub, from) then from
    else if from == |s| then -1
    else FindFrom(s, sub, from + 1)
  }

  /** `str.find(sub)`. */
  function Find(s: string, sub: string): (r: int)
    ensures r == -1 || (0 <= r && At(s, sub, r))
    ensures forall i :: 0 <= i && (r == -1 || i < r) ==> !At(s, sub, i)
  {
    FindFrom(s, sub, 0)
  }

  /** Decimal digits of a natural number, as `str(n)` writes them. */
  function Decimal(n: nat): (s: string)
    ensures s != ""
    ensures forall c :: c in s ==> '0' <= c <= '9'
  {
    var digit := ['0' + (n % 10) as char];
    if n < 10 then digit else Decimal(n / 10) + digit
  }

  /** The number a string of digits stands for. */
  function Value(s: string): nat {
    if s == "" || !('0' <= s[|s| - 1] <= '9') then 0
    else 10 * Value(s[..|s| - 1]) + (s[|s| - 1] - '0') as nat
  }

  /** The digits at the end of a text are read back, whatever non-digit stands before them. */
  lemma {:induction false} ValueAfter(front: string, n: nat)
    requires front == "" || !('0' <= front[|front| - 1] <= '9')
    ensures Value(front + Decimal(n)) == n
  {
    var s := front + Decimal(n);
    if n < 10 {
      assert s[..|s| - 1] == front;
    } else {
      assert s[..|s| - 1] == front + Decimal(n / 10);
      ValueAfter(front, n / 10);
    }
  }

  /** `str(n)` for any integer. */
  function IntText(n: int): string {
    if n < 0 then "-" + Decimal(-n) else Decimal(n)
  }

  /** Different integers are written differently. */
  lemma {:induction false} IntTextsDiffer(m: int, n: int)
    requires m != n
    ensures IntText(m) != IntText(n)
  {
    hide Value, Decimal;
    ReadsBack(m);
    ReadsBack(n);
  }

  lemma {:induction false} ReadsBack(n: int)
    ensures Value(IntText(n)) == (if n < 0 then -n else n) && IntText(n) != ""
    ensures IntText(n)[0] == '-' <==> n < 0
  {
    hide Value;
    if n < 0 {
      ValueAfter("-", -n);
    } else {
      ValueAfter("", n);
      assert "" + Decimal(n) == Decimal(n);
      assert Decimal(n)[0] in Decimal(n);
    }
  }
}
