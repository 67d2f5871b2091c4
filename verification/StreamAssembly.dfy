/** Assembling streamed deltas into text, usage and tool calls. */
module StreamAssembly {
  import opened Providers
  import Text

  datatype Slot = Slot(id: string, name: string, arguments: string)

  datatype PendingCall = PendingCall(callId: string, name: string, rawArguments: string)

  datatype PartUpdate = TextDelta(text: string) | ReasoningDelta(text: string)

  datatype StepOutput = StepOutput(text: string, calls: seq<PendingCall>, usage: Usage, finish: string)

  // ---------------------------------------------------------------- declarative reading of a stream

  function Join(parts: seq<string>): string {
    if parts == [] then "" else Join(parts[..|parts| - 1]) + parts[|parts| - 1]
  }

  /** The last entry that is not empty. */
  function LastGiven(values: seq<string>): string {
    if values == [] then ""
    else if values[|values| - 1] != "" then values[|values| - 1]
    else LastGiven(values[..|values| - 1])
  }

  /** The fragments of one call, in arrival order. */
  function OfIndex(fs: seq<Fragment>, index: int): seq<Fragment> {
    if fs == [] then []
    else
      var before := OfIndex(fs[..|fs| - 1], index);
      if fs[|fs| - 1].index == index then before + [fs[|fs| - 1]] else before
  }

  function Ids(fs: seq<Fragment>): seq<string> { seq(|fs|, i requires 0 <= i < |fs| => fs[i].id) }
  function Names(fs: seq<Fragment>): seq<string> { seq(|fs|, i requires 0 <= i < |fs| => fs[i].name) }
  function Arguments(fs: seq<Fragment>): seq<string> { seq(|fs|, i requires 0 <= i < |fs| => fs[i].arguments) }

  /** The call a sequence of fragments of one index describes. */
  function Assembled(fs: seq<Fragment>): Slot {
    Slot(LastGiven(Ids(fs)), LastGiven(Names(fs)), Join(Arguments(fs)))
  }

  /** The fragments of all deltas, in arrival order. */
  function AllFragments(deltas: seq<Delta>): seq<Fragment> {
    if deltas == [] then [] else AllFragments(deltas[..|deltas| - 1]) + deltas[|deltas| - 1].fragments
  }

  function Texts(deltas: seq<Delta>): seq<string> { seq(|deltas|, i requires 0 <= i < |deltas| => deltas[i].text) }
  function Finishes(deltas: seq<Delta>): seq<string> { seq(|deltas|, i requires 0 <= i < |deltas| => deltas[i].finish) }

  function Usages(deltas: seq<Delta>): seq<Usage> {
    if deltas == [] then []
    else
      var last := deltas[|deltas| - 1];
      Usages(deltas[..|deltas| - 1]) + if last.usage.Some? then [last.usage.value] else []
  }

  // ---------------------------------------------------------------- slots, as the loop fills them

  function Absorb(slots: map<int, Slot>, f: Fragment): map<int, Slot> {
    var slot := if f.index in slots then slots[f.index] else Slot("", "", "");
    slots[f.index := Slot(
      if f.id != "" then f.id else slot.id,
      if f.name != "" then f.name else slot.name,
      slot.arguments + f.arguments)]
  }

  function Slots(fs: seq<Fragment>): map<int, Slot> {
    if fs == [] then map[] else Absorb(Slots(fs[..|fs| - 1]), fs[|fs| - 1])
  }

  lemma {:induction false} SlotsSnoc(fs: seq<Fragment>, f: Fragment)
    ensures Slots(fs + [f]) == Absorb(Slots(fs), f)
  {
    assert (fs + [f])[..|fs|] == fs;
  }

  /** A slot exists for exactly the indices seen, and holds what its own fragments describe. */
  lemma {:induction false} SlotsAreAssembled(fs: seq<Fragment>, index: int)
    ensures index in Slots(fs) <==> OfIndex(fs, index) != []
    ensures index in Slots(fs) ==> Slots(fs)[index] == Assembled(OfIndex(fs, index))
  {
    if fs != [] {
      var before, last := fs[..|fs| - 1], fs[|fs| - 1];
      SlotsAreAssembled(before, index);
      if last.index == index {
        var own := OfIndex(before, index);
        AssembledSnoc(own, last);
      }
    }
  }

  lemma {:induction false} AssembledSnoc(own: seq<Fragment>, f: Fragment)
    ensures Assembled(own + [f]) == Slot(
              if f.id != "" then f.id else Assembled(own).id,
              if f.name != "" then f.name else Assembled(own).name,
              Assembled(own).arguments + f.arguments)
  {
    var all := own + [f];
    assert Ids(all)[..|own|] == Ids(own);
    assert Names(all)[..|own|] == Names(own);
    assert Arguments(all)[..|own|] == Arguments(own);
  }

  // ---------------------------------------------------------------- calls in index order

  ghost predicate IsMin(s: set<int>, m: int) {
    m in s && forall x :: x in s ==> m <= x
  }

  lemma {:induction false} MinExists(s: set<int>)
    requires s != {}
    ensures exists m :: IsMin(s, m)
  {
    assert exists x :: x in s by {
      if forall x :: x !in s {
        assert false;
      }
    }
    var x :| x in s;
    var others := s - {x};
    if others == {} {
      assert forall y :: y in s ==> y == x || y in others;
      assert IsMin(s, x);
    } else {
      MinExists(others);
      var m :| IsMin(others, m);
      assert forall y :: y in s ==> y == x || y in others;
      assert IsMin(s, if x < m then x else m);
    }
  }

  function Sorted(s: set<int>): (r: seq<int>)
    ensures forall x :: x in r <==> x in s
    ensures Increasing(r)
  {
    if s == {} then []
    else
      MinExists(s);
      var m :| m in s && forall x :: x in s ==> m <= x;
      var rest := Sorted(s - {m});
      ConsIncreases(m, rest);
      [m] + rest
  }

  predicate Increasing(r: seq<int>) {
    forall i, j :: 0 <= i < j < |r| ==> r[i] < r[j]
  }

  lemma {:induction false} ConsIncreases(m: int, rest: seq<int>)
    requires Increasing(rest) && forall x :: x in rest ==> m < x
    ensures Increasing([m] + rest)
  {
    var r := [m] + rest;
    forall i, j | 0 <= i < j < |r|
      ensures r[i] < r[j]
    {
      assert r[j] == rest[j - 1] && rest[j - 1] in rest;
      assert i > 0 ==> r[i] == rest[i - 1];
    }
  }

  /** The call of one slot; slots without a name are dropped and a missing id is made up. */
  function CallOf(slot: Slot, step: int, index: int): seq<PendingCall> {
    if slot.name == "" then []
    else
      var id := if slot.id != "" then slot.id else "call-" + Text.IntText(step) + "-" + Text.IntText(index);
      [PendingCall(id, slot.name, slot.arguments)]
  }

  function CallsOf(slots: map<int, Slot>, order: seq<int>, step: int): seq<PendingCall>
    requires forall k :: 0 <= k < |order| ==> order[k] in slots
  {
    if order == [] then []
    else
      CallsOf(slots, order[..|order| - 1], step) + CallOf(slots[order[|order| - 1]], step, order[|order| - 1])
  }

  function CallsFrom(fs: seq<Fragment>, step: int): seq<PendingCall> {
    var slots := Slots(fs);
    CallsOf(slots, Sorted(slots.Keys), step)
  }

  /** What one completed provider stream yields. */
  function OutputOf(deltas: seq<Delta>, step: int): StepOutput {
    StepOutput(
      Join(Texts(deltas)),
      CallsFrom(AllFragments(deltas), step),
      SumUsage(Usages(deltas)),
      LastGiven(Finishes(deltas)))
  }

  /** The events the stream causes: every non-empty text and reasoning delta, in order. */
  function Updates(deltas: seq<Delta>): seq<PartUpdate> {
    if deltas == [] then []
    else
      var last := deltas[|deltas| - 1];
      Updates(deltas[..|deltas| - 1])
        + (if last.text != "" then [TextDelta(last.text)] else [])
        + (if last.reasoning != "" then [ReasoningDelta(last.reasoning)] else [])
  }

  lemma {:induction false} StreamSnoc(deltas: seq<Delta>, d: nat)
    requires d < |deltas|
    ensures var upTo, before, delta := deltas[..d + 1], deltas[..d], deltas[d];
      && Join(Texts(upTo)) == Join(Texts(before)) + delta.text
      && LastGiven(Finishes(upTo)) == (if delta.finish != "" then delta.finish else LastGiven(Finishes(before)))
      && AllFragments(upTo) == AllFragments(before) + delta.fragments
      && SumUsage(Usages(upTo))
         == (if delta.usage.Some? then SumUsage(Usages(before)).Merge(delta.usage.value) else SumUsage(Usages(before)))
  {
    var upTo, before, delta := deltas[..d + 1], deltas[..d], deltas[d];
    assert upTo[..d] == before;
    assert Texts(upTo)[..d] == Texts(before);
    assert Finishes(upTo)[..d] == Finishes(before);
    if delta.usage.Some? {
      assert Usages(upTo) == Usages(before) + [delta.usage.value];
      assert Usages(upTo)[..|Usages(before)|] == Usages(before);
    } else {
      assert Usages(upTo) == Usages(before);
    }
  }

  lemma {:induction false} StreamNone()
    ensures Join(Texts([])) == "" && LastGiven(Finishes([])) == "" && SumUsage(Usages([])) == NO_USAGE
    ensures Slots(AllFragments([])) == map[] && Updates([]) == []
  {
  }

  /** Adds the fragments of one delta to the slots. */
  method AbsorbAll(seen: seq<Fragment>, slots: map<int, Slot>, fragments: seq<Fragment>)
    returns (r: map<int, Slot>)
    requires slots == Slots(seen)
    ensures r == Slots(seen + fragments)
  {
    hide Absorb, Slots;
    r := slots;
    assert seen + fragments[..0] == seen;
    for f := 0 to |fragments|
      invariant r == Slots(seen + fragments[..f])
    {
      SlotsSnoc(seen + fragments[..f], fragments[f]);
      assert seen + fragments[..f + 1] == seen + fragments[..f] + [fragments[f]];
      r := Absorb(r, fragments[f]);
    }
    assert fragments[..|fragments|] == fragments;
  }

  method CollectCalls(slots: map<int, Slot>, step: int) returns (calls: seq<PendingCall>)
    ensures calls == CallsOf(slots, Sorted(slots.Keys), step)
  {
    hide Sorted, CallOf;
    var order := Sorted(slots.Keys);
    calls := [];
    for i := 0 to |order|
      invariant calls == CallsOf(slots, order[..i], step)
    {
      assert order[..i + 1][..i] == order[..i];
      calls := calls + CallOf(slots[order[i]], step, order[i]);
    }
    assert order[..|order|] == order;
  }

  /** The streaming loop. */
  method Consume(deltas: seq<Delta>, step: int) returns (output: StepOutput, updates: seq<PartUpdate>)
    ensures output == OutputOf(deltas, step)
    ensures updates == Updates(deltas)
  {
    hide Join, Texts, LastGiven, Finishes, SumUsage, Usages, Slots, AllFragments, CallsOf, Sorted;
    StreamNone();
    var slots: map<int, Slot> := map[];
    var text, finish, usage := "", "", NO_USAGE;
    updates := [];
    assert deltas[..0] == [];
    for d := 0 to |deltas|
      invariant updates == Updates(deltas[..d])
      invariant text == Join(Texts(deltas[..d]))
      invariant finish == LastGiven(Finishes(deltas[..d]))
      invariant usage == SumUsage(Usages(deltas[..d]))
      invariant slots == Slots(AllFragments(deltas[..d]))
    {
      var delta := deltas[d];
      StreamSnoc(deltas, d);
      assert deltas[..d + 1][..d] == deltas[..d];
      if delta.usage.Some? {
        usage := usage.Merge(delta.usage.value);
      }
      if delta.finish != "" {
        finish := delta.finish;
      }
      if delta.text != "" {
        text := text + delta.text;
        updates := updates + [TextDelta(delta.text)];
      }
      if delta.reasoning != "" {
        updates := updates + [ReasoningDelta(delta.reasoning)];
      }
      slots := AbsorbAll(AllFragments(deltas[..d]), slots, delta.fragments);
    }
    assert deltas[..|deltas|] == deltas;
    var calls := CollectCalls(slots, step);
    output := StepOutput(text, calls, usage, finish);
  }

  // ---------------------------------------------------------------- the calls of a stream

  lemma {:induction false} SomeNameGiven(fs: seq<Fragment>, index: int)
    ensures LastGiven(Names(OfIndex(fs, index))) != "" <==> exists f :: f in fs && f.index == index && f.name != ""
  {
    if fs != [] {
      var before, last := fs[..|fs| - 1], fs[|fs| - 1];
      SomeNameGiven(before, index);
      assert fs == before + [last];
      if last.index == index {
        AssembledSnoc(OfIndex(before, index), last);
      }
    }
  }

  /** The id of a call without one. */
  function MadeUpId(step: int, index: int): string {
    "call-" + Text.IntText(step) + "-" + Text.IntText(index)
  }

  /** Two calls of a step never share a made-up id. */
  lemma {:induction false} MadeUpIdsDiffer(step: int, i: int, j: int)
    requires i != j
    ensures MadeUpId(step, i) != MadeUpId(step, j)
  {
    hide Text.IntText;
    Text.IntTextsDiffer(i, j);
    var front := "call-" + Text.IntText(step) + "-";
    assert MadeUpId(step, i)[|front|..] == Text.IntText(i) && MadeUpId(step, j)[|front|..] == Text.IntText(j);
  }

  /** The call is made of these fragments, which arrived under this index. */
  predicate MadeOf(call: PendingCall, own: seq<Fragment>, step: int, index: int) {
    && call.name == LastGiven(Names(own))
    && call.rawArguments == Join(Arguments(own))
    && call.callId == if LastGiven(Ids(own)) != "" then LastGiven(Ids(own)) else MadeUpId(step, index)
  }

  /** The slots of `order` that have a name, in this order, and their calls. */
  lemma {:induction false} CallsOfSlots(fs: seq<Fragment>, order: seq<int>, step: int) returns (named: seq<int>)
    requires Increasing(order) && forall k :: 0 <= k < |order| ==> order[k] in Slots(fs)
    ensures Increasing(named) && forall k :: k in named <==> k in order && LastGiven(Names(OfIndex(fs, k))) != ""
    ensures var calls := CallsOf(Slots(fs), order, step);
      |named| == |calls| && forall i :: 0 <= i < |named| ==> MadeOf(calls[i], OfIndex(fs, named[i]), step, named[i])
  {
    hide Slots, MadeOf, OfIndex, LastGiven;
    named := [];
    if order != [] {
      var init, last := order[..|order| - 1], order[|order| - 1];
      assert order == init + [last];
      named := CallsOfSlots(fs, init, step);
      SlotsAreAssembled(fs, last);
      CallOfSlot(fs, step, last);
      if LastGiven(Names(OfIndex(fs, last))) != "" {
        named := named + [last];
      }
    }
  }

  lemma {:induction false} CallOfSlot(fs: seq<Fragment>, step: int, index: int)
    requires index in Slots(fs)
    ensures var own, calls := OfIndex(fs, index), CallOf(Slots(fs)[index], step, index);
      if LastGiven(Names(own)) == "" then calls == [] else |calls| == 1 && MadeOf(calls[0], own, step, index)
  {
    hide Slots, OfIndex, LastGiven, Join;
    SlotsAreAssembled(fs, index);
  }

  /**
   * The calls of a stream correspond, in increasing order, to the indices that are given a name. Each has
   * the last name and the joined arguments of the fragments of its index, and their last id or, without
   * one, an id of its own.
   */
  lemma {:induction false} CallsAreAssembled(deltas: seq<Delta>, step: int) returns (named: seq<int>)
    ensures Increasing(named)
    ensures forall k :: k in named <==> exists f :: f in AllFragments(deltas) && f.index == k && f.name != ""
    ensures var calls := OutputOf(deltas, step).calls;
      && |named| == |calls|
      && forall i :: 0 <= i < |named| ==> MadeOf(calls[i], OfIndex(AllFragments(deltas), named[i]), step, named[i])
  {
    hide Slots, MadeOf, OfIndex, LastGiven, CallsOf, AllFragments;
    var fs := AllFragments(deltas);
    named := CallsOfSlots(fs, Sorted(Slots(fs).Keys), step);
    forall k
      ensures k in named <==> exists f :: f in fs && f.index == k && f.name != ""
    {
      SomeNameGiven(fs, k);
      SlotsAreAssembled(fs, k);
      NothingGiven(fs, k);
    }
  }

  lemma {:induction false} NothingGiven(fs: seq<Fragment>, index: int)
    ensures OfIndex(fs, index) == [] ==> LastGiven(Names(OfIndex(fs, index))) == ""
  {
  }

  // ---------------------------------------------------------------- confluence

  /** The calls depend only on each index's own fragments: any interleaving gives the same calls. */
  lemma {:induction false} InterleavingIrrelevant(a: seq<Fragment>, b: seq<Fragment>, step: int)
    requires forall index :: OfIndex(a, index) == OfIndex(b, index)
    ensures CallsFrom(a, step) == CallsFrom(b, step)
  {
    forall index
      ensures index in Slots(a) <==> index in Slots(b)
      ensures index in Slots(a) ==> Slots(a)[index] == Slots(b)[index]
    {
      SlotsAreAssembled(a, index);
      SlotsAreAssembled(b, index);
    }
    assert Slots(a) == Slots(b);
  }

  lemma {:induction false} SplitLast(a: seq<Fragment>, b: seq<Fragment>)
    requires b != []
    ensures a + b == a + b[..|b| - 1] + [b[|b| - 1]]
  {
  }

  lemma {:induction false} SlotsAppend(a: seq<Fragment>, b: seq<Fragment>, rest: seq<Fragment>)
    requires Slots(a) == Slots(b)
    ensures Slots(a + rest) == Slots(b + rest)
  {
    if rest == [] {
      assert a + rest == a && b + rest == b;
    } else {
      var init := rest[..|rest| - 1];
      var last := rest[|rest| - 1];
      hide Absorb, Slots;
      SlotsAppend(a, b, init);
      SlotsSnoc(a + init, last);
      SlotsSnoc(b + init, last);
      SplitLast(a, rest);
      SplitLast(b, rest);
    }
  }

  /** Cutting an argument text into two fragments anywhere changes no call. */
  lemma {:induction false} RechunkingIrrelevant(
      before: seq<Fragment>, f: Fragment, x: string, y: string, rest: seq<Fragment>, step: int)
    requires f.arguments == x + y
    ensures CallsFrom(before + [f] + rest, step)
         == CallsFrom(before + [f.(arguments := x), Fragment(f.index, "", "", y)] + rest, step)
  {
    var one := before + [f];
    var head := before + [f.(arguments := x)];
    var two := head + [Fragment(f.index, "", "", y)];
    assert one[..|before|] == before && head[..|before|] == before && two[..|head|] == head;
    var slot := if f.index in Slots(before) then Slots(before)[f.index] else Slot("", "", "");
    assert slot.arguments + (x + y) == slot.arguments + x + y;
    assert Slots(one) == Slots(two);
    SlotsAppend(one, two, rest);
    assert two == before + [f.(arguments := x), Fragment(f.index, "", "", y)];
  }

  function TextOf(updates: seq<PartUpdate>): string {
    if updates == [] then ""
    else
      var last := updates[|updates| - 1];
      TextOf(updates[..|updates| - 1]) + if last.TextDelta? then last.text else ""
  }

  lemma {:induction false} TextOfConcat(a: seq<PartUpdate>, b: seq<PartUpdate>)
    ensures TextOf(a + b) == TextOf(a) + TextOf(b)
  {
    if b == [] {
      assert a + b == a;
    } else {
      TextOfConcat(a, b[..|b| - 1]);
      assert (a + b)[..|a + b| - 1] == a + b[..|b| - 1];
    }
  }

  /** What one delta is streamed as. */
  function UpdatesOfOne(d: Delta): seq<PartUpdate> {
    (if d.text != "" then [TextDelta(d.text)] else []) +
    (if d.reasoning != "" then [ReasoningDelta(d.reasoning)] else [])
  }

  lemma {:induction false} UpdatesSnoc(init: seq<Delta>, d: Delta)
    ensures Updates(init + [d]) == Updates(init) + UpdatesOfOne(d)
  {
    assert (init + [d])[..|init|] == init;
  }

  lemma {:induction false} TextOfOne(d: Delta)
    ensures TextOf(UpdatesOfOne(d)) == d.text
  {
    var t := if d.text != "" then [TextDelta(d.text)] else [];
    var r := if d.reasoning != "" then [ReasoningDelta(d.reasoning)] else [];
    TextOfConcat(t, r);
    assert t != [] ==> t[..0] == [];
    assert r != [] ==> r[..0] == [];
  }

  lemma {:induction false} JoinSnoc(init: seq<Delta>, d: Delta)
    ensures Join(Texts(init + [d])) == Join(Texts(init)) + d.text
  {
    assert Texts(init + [d])[..|init|] == Texts(init);
  }

  lemma {:induction false} UpdatesJoin(deltas: seq<Delta>)
    ensures TextOf(Updates(deltas)) == Join(Texts(deltas))
  {
    hide Updates, TextOf, Join, Texts;
    if deltas == [] {
      NoUpdates();
    } else {
      var init, last := deltas[..|deltas| - 1], deltas[|deltas| - 1];
      assert deltas == init + [last];
      UpdatesJoin(init);
      UpdatesSnoc(init, last);
      TextOfConcat(Updates(init), UpdatesOfOne(last));
      TextOfOne(last);
      JoinSnoc(init, last);
    }
  }

  lemma {:induction false} NoUpdates()
    ensures TextOf(Updates([])) == Join(Texts([]))
  {
  }

  /** The emitted text deltas concatenate to the returned text. */
  lemma {:induction false} EmittedTextIsText(deltas: seq<Delta>, step: int)
    ensures TextOf(Updates(deltas)) == OutputOf(deltas, step).text
  {
    UpdatesJoin(deltas);
  }
}
