/** What a provider streams back, and how it can fail. */
module Providers {
  import opened Wrappers

  /** Token counts and the cost, counted in some smallest unit of the provider's bill. */
  datatype Usage = Usage(prompt: int, completion: int, total: int, cost: int) {
    function Merge(other: Usage): Usage {
      Usage(prompt + other.prompt, completion + other.completion, total + other.total, cost + other.cost)
    }
  }

  const NO_USAGE := Usage(0, 0, 0, 0)

  /** The usage of a sequence of steps, merged in order. */
  function SumUsage(us: seq<Usage>): Usage {
    if us == [] then NO_USAGE else SumUsage(us[..|us| - 1]).Merge(us[|us| - 1])
  }

  /** `total` with the usages of some more steps merged in, one after the other. */
  function Accumulate(total: Usage, us: seq<Usage>): Usage {
    if us == [] then total else Accumulate(total, us[..|us| - 1]).Merge(us[|us| - 1])
  }

  lemma {:induction false} AccumulateSum(usages: seq<Usage>, us: seq<Usage>)
    ensures Accumulate(SumUsage(usages), us) == SumUsage(usages + us)
  {
    if us == [] {
      assert usages + us == usages;
    } else {
      assert (usages + us)[..|usages + us| - 1] == usages + us[..|us| - 1];
      AccumulateSum(usages, us[..|us| - 1]);
    }
  }

  lemma {:induction false} AccumulateNone(total: Usage)
    ensures Accumulate(total, []) == total
  {
  }

  lemma {:induction false} AccumulateOne(total: Usage, u: Usage)
    ensures Accumulate(total, [u]) == total.Merge(u)
  {
    assert [u][..0] == [];
  }

  lemma {:induction false} AccumulateConcat(total: Usage, a: seq<Usage>, b: seq<Usage>)
    ensures Accumulate(Accumulate(total, a), b) == Accumulate(total, a + b)
  {
    if b == [] {
      assert a + b == a;
    } else {
      assert (a + b)[..|a + b| - 1] == a + b[..|b| - 1];
      AccumulateConcat(total, a, b[..|b| - 1]);
    }
  }

  /** A piece of a streamed tool call. */
  datatype Fragment = Fragment(index: int, id: string, name: string, arguments: string)

  datatype Delta = Delta(
    text: string, reasoning: string, fragments: seq<Fragment>, usage: Option<Usage>, finish: string)

  datatype ErrorKind = AuthError | TimeoutError | RateLimitError | ResponseError(status: Option<int>) | OtherError

  /** A provider failure, with the outcome of each text classifier and the server's retry hint. */
  datatype ProviderError = ProviderError(
    kind: ErrorKind,
    overflowText: bool,
    retryableText: bool,
    nonRetryableText: bool,
    hint: Option<bool>)

  datatype Ending = Finished | Raised(error: ProviderError) | Cancelled

  /** One reply: some deltas, then a normal end, an exception, or the cancellation of the run. */
  datatype Reply = Reply(deltas: seq<Delta>, ending: Ending)
}
