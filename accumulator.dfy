/**
 * The streaming accumulation of worker/chat.ts (handleStreamResponse): text fragments are
 * concatenated and forwarded; indexed tool-call fragments are merged by index into a map whose
 * iteration order is the order in which each index first appeared (a JavaScript `Map`).
 * Everything here is the specification the imperative loop in module Chat is proved against.
 */
module StreamAccumulator {
  import opened Wrappers
  import opened Strings
  import opened Types

  // ---------------------------------------------------------------- text

  /** The accumulated text of a chunk sequence (`fullContent`). */
  function TextOf(chunks: seq<Chunk>): string {
    if chunks == [] then "" else TextOf(chunks[..|chunks| - 1]) + chunks[|chunks| - 1].content
  }

  /** The fragments handed to `onChunk`: every non-empty `delta.content`, in order. */
  function Forwarded(chunks: seq<Chunk>): seq<string> {
    if chunks == [] then []
    else
      var last := chunks[|chunks| - 1].content;
      Forwarded(chunks[..|chunks| - 1]) + (if last != "" then [last] else [])
  }

  /** The forwarded fragments are non-empty and concatenate to exactly the accumulated text. */
  lemma {:induction false} ForwardedSpellsText(chunks: seq<Chunk>)
    ensures Concat(Forwarded(chunks)) == TextOf(chunks)
    ensures forall i :: 0 <= i < |Forwarded(chunks)| ==> Forwarded(chunks)[i] != ""
  {
    if chunks != [] {
      var init := chunks[..|chunks| - 1];
      ForwardedSpellsText(init);
      var last := chunks[|chunks| - 1].content;
      assert TextOf(chunks) == TextOf(init) + last;
      if last != "" {
        var fw := Forwarded(init) + [last];
        assert Forwarded(chunks) == fw;
        assert fw[..|fw| - 1] == Forwarded(init);
        assert Concat(fw) == Concat(Forwarded(init)) + last;
      } else {
        assert Forwarded(chunks) == Forwarded(init);
        assert TextOf(init) + last == TextOf(init);
      }
    }
  }

  // ------------------------------------------------------- tool fragments

  /** Every tool-call fragment of a chunk sequence, in arrival order. */
  function Fragments(chunks: seq<Chunk>): seq<ToolFragment> {
    if chunks == [] then [] else Fragments(chunks[..|chunks| - 1]) + chunks[|chunks| - 1].toolCalls
  }

  /** One `toolCallMap` entry: `{ id, function: { name, arguments } }`. */
  datatype PartialCall = PartialCall(id: string, name: string, arguments: string)

  /** The `toolCallMap`: its entries and their insertion order. */
  datatype Accumulation = Accumulation(entries: map<int, PartialCall>, order: seq<int>)

  const Empty := Accumulation(map[], [])

  predicate Distinct(s: seq<int>) {
    forall i, j :: 0 <= i < j < |s| ==> s[i] != s[j]
  }

  /** The insertion order lists each key of the map exactly once. */
  predicate WellFormed(acc: Accumulation) {
    && (forall i :: 0 <= i < |acc.order| ==> acc.order[i] in acc.entries)
    && (forall k :: k in acc.entries ==> k in acc.order)
    && Distinct(acc.order)
  }

  /** One iteration of the inner loop over `delta.tool_calls`. */
  function Absorb(acc: Accumulation, f: ToolFragment): Accumulation {
    match f.index
    case None => acc
    case Some(k) =>
      if k in acc.entries then
        var e := acc.entries[k];
        Accumulation(acc.entries[k := e.(arguments := e.arguments + f.arguments)], acc.order)
      else
        Accumulation(acc.entries[k := PartialCall(f.id, f.name, f.arguments)], acc.order + [k])
  }

  /** The map after absorbing a whole fragment sequence. */
  function Accumulate(fs: seq<ToolFragment>): (acc: Accumulation)
    ensures WellFormed(acc)
  {
    if fs == [] then Empty else Absorb(Accumulate(fs[..|fs| - 1]), fs[|fs| - 1])
  }

  /** Absorbing one more fragment is one more step of the loop. */
  lemma AccumulateSnoc(fs: seq<ToolFragment>, f: ToolFragment)
    ensures Accumulate(fs + [f]) == Absorb(Accumulate(fs), f)
  {
    assert (fs + [f])[..|fs|] == fs;
  }

  /** `Array.from(toolCallMap.values())`, as the wire calls echoed back in the tool round. */
  function Finalize(acc: Accumulation): (calls: seq<WireCall>)
    requires WellFormed(acc)
    ensures |calls| == |acc.order|
  {
    seq(|acc.order|, i requires 0 <= i < |acc.order| =>
      var p := acc.entries[acc.order[i]]; WireCall(p.id, p.name, p.arguments))
  }

  // ----------------------------------------------- reference definition

  /** The fragments that carry index `k`, in arrival order. */
  function Select(fs: seq<ToolFragment>, k: int): seq<ToolFragment> {
    if fs == [] then []
    else Select(fs[..|fs| - 1], k) + (if fs[|fs| - 1].index == Some(k) then [fs[|fs| - 1]] else [])
  }

  /** The concatenated `arguments` of a fragment sequence. */
  function Joined(fs: seq<ToolFragment>): string {
    if fs == [] then "" else Joined(fs[..|fs| - 1]) + fs[|fs| - 1].arguments
  }

  /** The entry one index should end with: the first fragment's id and name, all arguments joined. */
  function MergeOf(sel: seq<ToolFragment>): PartialCall
    requires sel != []
  {
    PartialCall(sel[0].id, sel[0].name, Joined(sel))
  }

  /** The distinct indices, in the order each first appears. */
  function FirstAppearance(fs: seq<ToolFragment>): seq<int> {
    if fs == [] then []
    else
      var prev := FirstAppearance(fs[..|fs| - 1]);
      var f := fs[|fs| - 1];
      if f.index.Some? && f.index.value !in prev then prev + [f.index.value] else prev
  }

  lemma MergeOfSnoc(sel: seq<ToolFragment>, f: ToolFragment)
    requires sel != []
    ensures MergeOf(sel + [f]) == MergeOf(sel).(arguments := MergeOf(sel).arguments + f.arguments)
  {
    assert (sel + [f])[..|sel|] == sel;
  }

  /** One step of the accumulator at one index: if the entry for `k` is the merge of `sel`, then
      after absorbing `f` it is the merge of `sel` extended by `f` when `f` carries `k`. */
  lemma AbsorbAt(prev: Accumulation, sel: seq<ToolFragment>, f: ToolFragment, k: int)
    requires k in prev.entries <==> sel != []
    requires k in prev.entries ==> prev.entries[k] == MergeOf(sel)
    ensures var next, sel' := Absorb(prev, f), sel + (if f.index == Some(k) then [f] else []);
      && (k in next.entries <==> sel' != [])
      && (k in next.entries ==> next.entries[k] == MergeOf(sel'))
  {
    if f.index == Some(k) {
      if sel != [] {
        MergeOfSnoc(sel, f);
      } else {
        assert sel + [f] == [f];
        assert Joined([f]) == Joined([]) + f.arguments;
      }
    } else {
      assert sel + [] == sel;
    }
  }

  /** The entries part of the characterization, by induction. */
  lemma {:induction false} AccumulateEntries(fs: seq<ToolFragment>)
    ensures forall k :: k in Accumulate(fs).entries <==> Select(fs, k) != []
    ensures forall k :: k in Accumulate(fs).entries ==> Accumulate(fs).entries[k] == MergeOf(Select(fs, k))
  {
    if fs != [] {
      var init, f := fs[..|fs| - 1], fs[|fs| - 1];
      AccumulateEntries(init);
      assert Accumulate(fs) == Absorb(Accumulate(init), f);
      forall k ensures (k in Accumulate(fs).entries <==> Select(fs, k) != [])
        && (k in Accumulate(fs).entries ==> Accumulate(fs).entries[k] == MergeOf(Select(fs, k)))
      {
        assert Select(fs, k) == Select(init, k) + (if f.index == Some(k) then [f] else []);
        AbsorbAt(Accumulate(init), Select(init, k), f, k);
      }
    }
  }

  /** The order part of the characterization, by induction. */
  lemma {:induction false} AccumulateOrder(fs: seq<ToolFragment>)
    ensures Accumulate(fs).order == FirstAppearance(fs)
  {
    if fs != [] {
      var init, f := fs[..|fs| - 1], fs[|fs| - 1];
      AccumulateOrder(init);
      var prev := Accumulate(init);
      assert Accumulate(fs) == Absorb(prev, f);
      if f.index.Some? {
        assert f.index.value in prev.entries <==> f.index.value in prev.order;
      }
    }
  }

  /**
   * The accumulator agrees with the reference definition: there is an entry for index `k`
   * exactly when some fragment carries `k`; its id and name are the first such fragment's and
   * its arguments are all of their arguments in order; the iteration order is first appearance.
   */
  lemma AccumulateCharacterized(fs: seq<ToolFragment>)
    ensures Accumulate(fs).order == FirstAppearance(fs)
    ensures forall k :: k in Accumulate(fs).entries <==> Select(fs, k) != []
    ensures forall k :: k in Accumulate(fs).entries ==> Accumulate(fs).entries[k] == MergeOf(Select(fs, k))
  {
    AccumulateOrder(fs);
    AccumulateEntries(fs);
  }

  /** The characterization at one index. */
  lemma AccumulateAt(fs: seq<ToolFragment>, k: int)
    ensures k in Accumulate(fs).entries <==> Select(fs, k) != []
    ensures k in Accumulate(fs).entries ==> Accumulate(fs).entries[k] == MergeOf(Select(fs, k))
  {
    AccumulateCharacterized(fs);
  }

  // ---------------------------------------------------------- properties

  lemma {:induction false} SelectNonEmptyIff(fs: seq<ToolFragment>, k: int)
    ensures Select(fs, k) != [] <==> exists p :: 0 <= p < |fs| && fs[p].index == Some(k)
  {
    if fs != [] {
      var init := fs[..|fs| - 1];
      SelectNonEmptyIff(init, k);
      if exists p :: 0 <= p < |init| && init[p].index == Some(k) {
        var p :| 0 <= p < |init| && init[p].index == Some(k);
        assert fs[p] == init[p];
      }
      if exists p :: 0 <= p < |fs| && fs[p].index == Some(k) {
        var p :| 0 <= p < |fs| && fs[p].index == Some(k);
        if p < |init| { assert init[p] == fs[p]; }
      }
    }
  }

  lemma {:induction false} InFirstAppearanceIff(fs: seq<ToolFragment>, k: int)
    ensures k in FirstAppearance(fs) <==> exists p :: 0 <= p < |fs| && fs[p].index == Some(k)
  {
    if fs != [] {
      var init := fs[..|fs| - 1];
      InFirstAppearanceIff(init, k);
      if exists p :: 0 <= p < |init| && init[p].index == Some(k) {
        var p :| 0 <= p < |init| && init[p].index == Some(k);
        assert fs[p] == init[p];
      }
      if exists p :: 0 <= p < |fs| && fs[p].index == Some(k) {
        var p :| 0 <= p < |fs| && fs[p].index == Some(k);
        if p < |init| { assert init[p] == fs[p]; }
      }
    }
  }

  /** One finalized call per distinct index: an index has an entry exactly when some fragment
      carries it, and fragments without an index leave no trace. */
  lemma OneEntryPerIndex(fs: seq<ToolFragment>, k: int)
    ensures k in Accumulate(fs).entries <==> exists p :: 0 <= p < |fs| && fs[p].index == Some(k)
    ensures k in Accumulate(fs).order <==> k in Accumulate(fs).entries
  {
    AccumulateCharacterized(fs);
    SelectNonEmptyIff(fs, k);
  }

  /** Index `a` occurs in `fs` before any fragment with index `b`. */
  predicate EarlierFirst(fs: seq<ToolFragment>, a: int, b: int) {
    exists p :: 0 <= p < |fs| && fs[p].index == Some(a) && forall q :: 0 <= q <= p ==> fs[q].index != Some(b)
  }

  /** The finalized calls come in first-appearance order: of two finalized calls, the earlier one's
      index occurs in the stream before any fragment of the later one's index. */
  lemma OrderIsFirstAppearance(fs: seq<ToolFragment>)
    ensures forall i, j :: 0 <= i < j < |Accumulate(fs).order| ==>
      EarlierFirst(fs, Accumulate(fs).order[i], Accumulate(fs).order[j])
  {
    AccumulateCharacterized(fs);
    FirstAppearanceOrdered(fs);
  }

  lemma EarlierFirstExtends(fs: seq<ToolFragment>, f: ToolFragment, a: int, b: int)
    requires EarlierFirst(fs, a, b)
    ensures EarlierFirst(fs + [f], a, b)
  {
    var p :| 0 <= p < |fs| && fs[p].index == Some(a) && forall q :: 0 <= q <= p ==> fs[q].index != Some(b);
    var g := fs + [f];
    assert g[p] == fs[p];
    assert forall q :: 0 <= q <= p ==> g[q] == fs[q];
  }

  lemma {:induction false} FirstAppearanceOrdered(fs: seq<ToolFragment>)
    ensures forall i, j :: 0 <= i < j < |FirstAppearance(fs)| ==>
      EarlierFirst(fs, FirstAppearance(fs)[i], FirstAppearance(fs)[j])
  {
    if fs != [] {
      var init := fs[..|fs| - 1];
      var f := fs[|fs| - 1];
      assert fs == init + [f];
      FirstAppearanceOrdered(init);
      var prev := FirstAppearance(init);
      var order := FirstAppearance(fs);
      assert order == if f.index.Some? && f.index.value !in prev then prev + [f.index.value] else prev;
      forall i, j | 0 <= i < j < |order| ensures EarlierFirst(fs, order[i], order[j]) {
        if j < |prev| {
          assert order[i] == prev[i] && order[j] == prev[j];
          EarlierFirstExtends(init, f, prev[i], prev[j]);
        } else {
          var k := order[j];
          assert order == prev + [k] && k !in prev;
          assert order[i] == prev[i];
          InFirstAppearanceIff(init, prev[i]);
          InFirstAppearanceIff(init, k);
          var p :| 0 <= p < |init| && init[p].index == Some(prev[i]);
          assert fs[p] == init[p];
          assert forall q :: 0 <= q <= p ==> fs[q] == init[q];
        }
      }
    }
  }

  /** No tool call is finalized exactly when no fragment carries an index. */
  lemma NoCallsIffNoIndexedFragment(fs: seq<ToolFragment>)
    ensures |Finalize(Accumulate(fs))| == 0 <==> forall p :: 0 <= p < |fs| ==> fs[p].index.None?
  {
    AccumulateCharacterized(fs);
    if |FirstAppearance(fs)| == 0 {
      forall p | 0 <= p < |fs| ensures fs[p].index.None? {
        if fs[p].index.Some? {
          InFirstAppearanceIff(fs, fs[p].index.value);
        }
      }
    } else {
      var k := FirstAppearance(fs)[0];
      InFirstAppearanceIff(fs, k);
    }
  }

  lemma {:induction false} DistinctCardinality(s: seq<int>)
    requires Distinct(s)
    ensures |set x | x in s| == |s|
  {
    if s != [] {
      var init := s[..|s| - 1];
      DistinctCardinality(init);
      assert (set x | x in s) == (set x | x in init) + {s[|s| - 1]};
      assert s[|s| - 1] !in init;
    }
  }

  /** A well-formed map has as many finalized calls as keys, and a call is finalized exactly when
      it is the wire form of some entry. */
  lemma FinalizeCoversEntries(acc: Accumulation)
    requires WellFormed(acc)
    ensures |Finalize(acc)| == |acc.entries|
    ensures forall c :: c in Finalize(acc) <==>
      exists k :: k in acc.entries && c == WireCall(acc.entries[k].id, acc.entries[k].name, acc.entries[k].arguments)
  {
    forall x ensures x in (set y | y in acc.order) <==> x in acc.entries.Keys {
      if x in acc.order {
        var i :| 0 <= i < |acc.order| && acc.order[i] == x;
      }
    }
    assert (set x | x in acc.order) == acc.entries.Keys;
    DistinctCardinality(acc.order);
    forall c | exists k :: k in acc.entries && c == WireCall(acc.entries[k].id, acc.entries[k].name, acc.entries[k].arguments)
      ensures c in Finalize(acc)
    {
      var k :| k in acc.entries && c == WireCall(acc.entries[k].id, acc.entries[k].name, acc.entries[k].arguments);
      var i :| 0 <= i < |acc.order| && acc.order[i] == k;
      assert Finalize(acc)[i] == c;
    }
  }

  /**
   * Order-independence of the merge: two streams whose fragments for each index arrive in the same
   * relative order, however they are interleaved with each other, yield the same entry for every
   * index, and the same finalized calls (in possibly another order).
   */
  lemma InterleavingInvariant(a: seq<ToolFragment>, b: seq<ToolFragment>)
    requires forall k :: Select(a, k) == Select(b, k)
    ensures Accumulate(a).entries == Accumulate(b).entries
    ensures multiset(Finalize(Accumulate(a))) == multiset(Finalize(Accumulate(b)))
  {
    var ea, eb := Accumulate(a).entries, Accumulate(b).entries;
    forall k ensures (k in ea <==> k in eb) && (k in ea ==> ea[k] == eb[k]) {
      AccumulateAt(a, k);
      AccumulateAt(b, k);
      assert Select(a, k) == Select(b, k);
    }
    assert ea == eb;
    var oa, ob := Accumulate(a).order, Accumulate(b).order;
    DistinctMultiset(oa);
    DistinctMultiset(ob);
    forall x ensures multiset(oa)[x] == multiset(ob)[x] {
      if x in oa {
        var i :| 0 <= i < |oa| && oa[i] == x;
      }
      if x in ob {
        var i :| 0 <= i < |ob| && ob[i] == x;
      }
    }
    assert multiset(oa) == multiset(ob);
    FinalizeIsProject(Accumulate(a));
    FinalizeIsProject(Accumulate(b));
    ProjectPermutes(ea, oa, ob);
  }

  /** A sequence without repetitions holds each of its elements once. */
  lemma {:induction false} DistinctMultiset(s: seq<int>)
    requires Distinct(s)
    ensures forall x :: multiset(s)[x] == if x in s then 1 else 0
  {
    if s != [] {
      var init := s[..|s| - 1];
      DistinctMultiset(init);
      assert s == init + [s[|s| - 1]];
      assert s[|s| - 1] !in init;
    }
  }

  predicate KeysIn(entries: map<int, PartialCall>, order: seq<int>) {
    forall i :: 0 <= i < |order| ==> order[i] in entries
  }

  /** `Finalize` restated by recursion on the key list, for the permutation argument below. */
  function Project(entries: map<int, PartialCall>, order: seq<int>): seq<WireCall>
    requires KeysIn(entries, order)
  {
    if order == [] then []
    else var p := entries[order[0]]; [WireCall(p.id, p.name, p.arguments)] + Project(entries, order[1..])
  }

  lemma {:induction false} ProjectAt(entries: map<int, PartialCall>, order: seq<int>)
    requires KeysIn(entries, order)
    ensures |Project(entries, order)| == |order|
    ensures forall i :: 0 <= i < |order| ==>
      var p := entries[order[i]]; Project(entries, order)[i] == WireCall(p.id, p.name, p.arguments)
  {
    if order != [] {
      ProjectAt(entries, order[1..]);
    }
  }

  lemma FinalizeIsProject(acc: Accumulation)
    requires WellFormed(acc)
    ensures Finalize(acc) == Project(acc.entries, acc.order)
  {
    ProjectAt(acc.entries, acc.order);
  }

  lemma {:induction false} ProjectAppend(entries: map<int, PartialCall>, u: seq<int>, v: seq<int>)
    requires KeysIn(entries, u) && KeysIn(entries, v)
    ensures KeysIn(entries, u + v)
    ensures Project(entries, u + v) == Project(entries, u) + Project(entries, v)
  {
    forall i | 0 <= i < |u + v| ensures (u + v)[i] in entries {
      if i < |u| { assert (u + v)[i] == u[i]; } else { assert (u + v)[i] == v[i - |u|]; }
    }
    if u != [] {
      ProjectAppend(entries, u[1..], v);
      var p := entries[u[0]];
      assert (u + v)[0] == u[0];
      assert (u + v)[1..] == u[1..] + v;
      calc {
        Project(entries, u + v);
        [WireCall(p.id, p.name, p.arguments)] + Project(entries, u[1..] + v);
        [WireCall(p.id, p.name, p.arguments)] + (Project(entries, u[1..]) + Project(entries, v));
        Project(entries, u) + Project(entries, v);
      }
    } else {
      assert u + v == v;
    }
  }

  /** Taking out one element takes one occurrence out of the multiset. */
  lemma MultisetTakeOut<T>(u: seq<T>, x: T, v: seq<T>)
    ensures multiset(u + [x] + v) == multiset(u + v) + multiset{x}
  {
    assert multiset(u + [x] + v) == multiset(u) + multiset{x} + multiset(v);
    assert multiset(u + v) == multiset(u) + multiset(v);
  }

  lemma MultisetCancel<T>(a: multiset<T>, b: multiset<T>, x: T)
    requires a + multiset{x} == b + multiset{x}
    ensures a == b
  {
    forall y ensures a[y] == b[y] {
      assert (a + multiset{x})[y] == (b + multiset{x})[y];
    }
  }

  /** Projecting a key list with the key at `j` split off. */
  lemma ProjectSplit(entries: map<int, PartialCall>, s: seq<int>, j: nat)
    requires j < |s| && KeysIn(entries, s)
    ensures KeysIn(entries, s[..j]) && KeysIn(entries, s[j + 1..]) && KeysIn(entries, s[..j] + s[j + 1..])
    ensures var p := entries[s[j]];
      && Project(entries, s) == Project(entries, s[..j]) + [WireCall(p.id, p.name, p.arguments)] + Project(entries, s[j + 1..])
      && Project(entries, s[..j] + s[j + 1..]) == Project(entries, s[..j]) + Project(entries, s[j + 1..])
  {
    var u, v := s[..j], s[j + 1..];
    assert s == u + ([s[j]] + v);
    assert KeysIn(entries, u) && KeysIn(entries, v) && KeysIn(entries, [s[j]]);
    ProjectAppend(entries, [s[j]], v);
    ProjectAppend(entries, u, [s[j]] + v);
    ProjectAppend(entries, u, v);
  }

  /** Taking the first key of `s1` out of both lists keeps their multisets equal. */
  lemma TakeOutKey(s1: seq<int>, s2: seq<int>, j: nat)
    requires s1 != [] && j < |s2| && s2[j] == s1[0]
    requires multiset(s1) == multiset(s2)
    ensures multiset(s1[1..]) == multiset(s2[..j] + s2[j + 1..])
  {
    assert s1 == [] + [s1[0]] + s1[1..];
    MultisetTakeOut([], s1[0], s1[1..]);
    assert s2 == s2[..j] + [s2[j]] + s2[j + 1..];
    MultisetTakeOut(s2[..j], s2[j], s2[j + 1..]);
    MultisetCancel(multiset(s1[1..]), multiset(s2[..j] + s2[j + 1..]), s1[0]);
  }

  /** Equal multisets of projected calls stay equal when one call is put back into both. */
  lemma PutBackCall(entries: map<int, PartialCall>, s1: seq<int>, s2: seq<int>, j: nat)
    requires s1 != [] && j < |s2| && s2[j] == s1[0]
    requires KeysIn(entries, s1) && KeysIn(entries, s2)
    requires KeysIn(entries, s1[1..]) && KeysIn(entries, s2[..j] + s2[j + 1..])
    requires multiset(Project(entries, s1[1..])) == multiset(Project(entries, s2[..j] + s2[j + 1..]))
    ensures multiset(Project(entries, s1)) == multiset(Project(entries, s2))
  {
    var p := entries[s1[0]];
    var w := WireCall(p.id, p.name, p.arguments);
    assert Project(entries, s1) == [w] + Project(entries, s1[1..]);
    ProjectSplit(entries, s2, j);
    MultisetTakeOut(Project(entries, s2[..j]), w, Project(entries, s2[j + 1..]));
  }

  /** Listing the same keys in another order permutes the projected calls. */
  lemma {:induction false} ProjectPermutes(entries: map<int, PartialCall>, s1: seq<int>, s2: seq<int>)
    requires KeysIn(entries, s1) && KeysIn(entries, s2)
    requires multiset(s1) == multiset(s2)
    ensures multiset(Project(entries, s1)) == multiset(Project(entries, s2))
    decreases |s1|
  {
    if s1 == [] {
      assert |multiset(s2)| == 0;
      assert s2 == [];
    } else {
      assert s1[0] in multiset(s2);
      var j :| 0 <= j < |s2| && s2[j] == s1[0];
      TakeOutKey(s1, s2, j);
      ProjectSplit(entries, s2, j);
      assert KeysIn(entries, s1[1..]);
      ProjectPermutes(entries, s1[1..], s2[..j] + s2[j + 1..]);
      PutBackCall(entries, s1, s2, j);
    }
  }
}
