/** The name given to a copy of an organization's image definition. */
module CopyName {
  import opened Text

  const NAME_LIMIT := 255

  /** Python's `s[:n]`: a negative bound counts from the end. */
  function Slice(s: string, n: int): (r: string)
    ensures r <= s
    ensures n >= 0 ==> |r| <= n
  {
    if n >= |s| then s else if n >= 0 then s[..n] else if |s| + n > 0 then s[..|s| + n] else ""
  }

  function Base(name: string): (r: string)
    ensures r != "" && |r| <= NAME_LIMIT
  {
    var stripped := Strip(name);
    var base := if stripped == "" then "image" else stripped;
    if |base| > NAME_LIMIT then base[..NAME_LIMIT] else base
  }

  /** The suffixes in the order they are tried. */
  function Suffix(index: nat): string {
    if index == 0 then "" else if index == 1 then " (Copy)" else " (Copy " + Decimal(index) + ")"
  }

  function Candidate(base: string, index: nat): string {
    Slice(base, NAME_LIMIT - |Suffix(index)|) + Suffix(index)
  }

  lemma {:induction false} BeforeTheBracket(part: string, digits: string)
    ensures var c := part + (" (Copy " + digits + ")"); c != "" && c[..|c| - 1] == part + " (Copy " + digits
  {
    var c := part + (" (Copy " + digits + ")");
    assert c == part + " (Copy " + digits + ")";
  }

  /** A numbered candidate tells its number, however much of the base was cut off. */
  lemma {:induction false} CandidateTellsIndex(base: string, index: nat)
    requires index >= 2
    ensures var c := Candidate(base, index); c != "" && Value(c[..|c| - 1]) == index
  {
    hide Value, Decimal, Slice;
    var part := Slice(base, NAME_LIMIT - |Suffix(index)|);
    ValueAfter(part + " (Copy ", index);
    BeforeTheBracket(part, Decimal(index));
  }

  /** Different indices give different candidates. */
  lemma {:induction false} CandidatesDiffer(base: string, i: nat, j: nat)
    requires 2 <= i && 2 <= j && i != j
    ensures Candidate(base, i) != Candidate(base, j)
  {
    CandidateTellsIndex(base, i);
    CandidateTellsIndex(base, j);
  }

  /** A candidate is within the limit exactly when its suffix is. */
  lemma {:induction false} CandidateFits(base: string, index: nat)
    requires |base| <= NAME_LIMIT
    ensures |Candidate(base, index)| <= NAME_LIMIT <==> |Suffix(index)| <= NAME_LIMIT
  {
  }

  /** A candidate is the trimmed name, or `image`, cut off where need be, and what numbers it. */
  lemma {:induction false} CandidateReads(name: string, index: nat) returns (front: string)
    ensures var suffix := if index == 0 then "" else if index == 1 then " (Copy)" else " (Copy " + Decimal(index) + ")";
      var whole := if Strip(name) == "" then "image" else Strip(name);
      && Candidate(Base(name), index) == front + suffix && front <= whole
      && (|suffix| <= 255 ==> |front| == if |whole| + |suffix| <= 255 then |whole| else 255 - |suffix|)
  {
    hide Decimal, Strip;
    front := Slice(Base(name), NAME_LIMIT - |Suffix(index)|);
  }

  /** The numbered candidates below `index`. */
  function Tried(base: string, index: nat): set<string> {
    if index <= 2 then {} else Tried(base, index - 1) + {Candidate(base, index - 1)}
  }

  lemma {:induction false} NotTriedYet(base: string, i: nat, index: nat)
    requires 2 <= i <= index
    ensures Candidate(base, index) !in Tried(base, i)
    ensures |Tried(base, i)| == i - 2
  {
    if i > 2 {
      NotTriedYet(base, i - 1, index);
      NotTriedYet(base, i - 1, i - 1);
      CandidatesDiffer(base, i - 1, index);
    }
  }

  lemma {:induction false} SubsetSize<T>(a: set<T>, b: set<T>)
    requires a <= b
    ensures |a| <= |b|
  {
    assert b == a + (b - a);
  }

  /** The loop over the numbered candidates, entered when the unnumbered ones are taken. */
  method FirstFreeNumber(base: string, taken: set<string>) returns (name: string, ghost index: nat)
    requires |base| <= NAME_LIMIT && Candidate(base, 0) in taken && Candidate(base, 1) in taken
    ensures name !in taken && name == Candidate(base, index)
    ensures forall k: nat :: k < index ==> Candidate(base, k) in taken
    ensures index <= |taken| + 2
  {
    var number := 2;
    while true
      invariant number >= 2
      invariant forall k: nat :: k < number ==> Candidate(base, k) in taken
      invariant Tried(base, number) <= taken
      decreases taken - Tried(base, number)
    {
      var candidate := Candidate(base, number);
      NotTriedYet(base, number, number);
      if candidate !in taken {
        SubsetSize(Tried(base, number), taken);
        return candidate, number;
      }
      assert candidate in taken - Tried(base, number);
      number := number + 1;
    }
  }

  /** The first candidate that is not taken; among finitely many names the search ends. */
  method OrgImageDefinitionCopyName(baseName: string, taken: set<string>) returns (name: string, ghost index: nat)
    ensures name !in taken && name == Candidate(Base(baseName), index)
    ensures forall k: nat :: k < index ==> Candidate(Base(baseName), k) in taken
    ensures index <= |taken| + 2
    ensures |name| <= NAME_LIMIT <==> |Suffix(index)| <= NAME_LIMIT
  {
    var base := Base(baseName);
    FirstIsBase(base);
    if base !in taken {
      name, index := base, 0;
    } else if Candidate(base, 1) !in taken {
      name, index := Candidate(base, 1), 1;
    } else {
      name, index := FirstFreeNumber(base, taken);
    }
    CandidateFits(base, index);
  }

  lemma {:induction false} FirstIsBase(base: string)
    requires |base| <= NAME_LIMIT
    ensures Candidate(base, 0) == base
  {
  }
}
