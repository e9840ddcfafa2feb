/** The merge loop of `process_audio_with_rhubarb`: the cue lists of the
    chunk documents that have a "mouthCues" key are concatenated in chunk
    order and sorted stably by `start`. Timestamps are taken verbatim: no
    chunk offset is added. */
module Merge {
  import opened Wrappers
  import opened Cues
  import opened StableSort
  import Analyzer

  /** `str(KeyError('start'))`, raised by the sort when a cue has no start. */
  const MissingStartError: string := "'start'"

  /** What one chunk document adds to the merge: its cue list, or nothing
      when it has no "mouthCues" key. */
  function Contribution(r: ChunkResult): seq<Cue>
  {
    match r.mouthCues
    case Some(cues) => cues
    case None => []
  }

  /** All contributions, in chunk order. */
  function Concat(rs: seq<ChunkResult>): seq<Cue>
  {
    if |rs| == 0 then [] else Contribution(rs[0]) + Concat(rs[1..])
  }

  /** Every concatenated cue comes from the document of some chunk. */
  lemma {:induction false} ConcatMember(rs: seq<ChunkResult>, c: Cue)
    requires c in Concat(rs)
    ensures exists i :: 0 <= i < |rs| && c in Contribution(rs[i])
  {
    if c !in Contribution(rs[0]) {
      ConcatMember(rs[1..], c);
      var i :| 0 <= i < |rs[1..]| && c in Contribution(rs[1..][i]);
      assert rs[1..][i] == rs[i + 1];
    }
  }

  /** The sort key; every cue it is applied to in a successful merge has a
      start, so the default is never used there. */
  function StartKey(c: Cue): real
  {
    match c.start
    case Some(t) => t
    case None => 0.0
  }

  predicate AllTimed(cues: seq<Cue>)
  {
    forall i :: 0 <= i < |cues| ==> cues[i].start.Some?
  }

  /** The merged cue list, or the KeyError the sort raises when some cue
      lacks a start (Python computes every key before comparing any). */
  function MergeResults(rs: seq<ChunkResult>): (r: Result<seq<Cue>, string>)
    ensures r.Success? <==> AllTimed(Concat(rs))
    ensures r.Failure? ==> r.error == MissingStartError
    ensures r.Success? ==> AllTimed(r.value) && SortedBy(r.value, StartKey)
    ensures r.Success? ==> multiset(r.value) == multiset(Concat(rs))
    ensures r.Success? ==> SameKeyOrder(r.value, Concat(rs), StartKey)
  {
    var all := Concat(rs);
    if AllTimed(all) then
      var sorted := Sort(all, StartKey);
      SortStable(all, StartKey);
      assert forall i :: 0 <= i < |sorted| ==> sorted[i] in multiset(all);
      Success(sorted)
    else
      Failure(MissingStartError)
  }

  lemma {:induction false} ConcatAppend(a: seq<ChunkResult>, b: seq<ChunkResult>)
    ensures Concat(a + b) == Concat(a) + Concat(b)
  {
    if |a| == 0 {
      assert a + b == b;
    } else {
      assert (a + b)[0] == a[0];
      assert (a + b)[1..] == a[1..] + b;
      ConcatAppend(a[1..], b);
    }
  }

  /** A chunk that contributes no cues, wherever it stands, leaves the merge
      equal to the merge of the other chunks. */
  lemma EmptyContributionNeutral(rs: seq<ChunkResult>, i: nat, x: ChunkResult)
    requires i <= |rs|
    requires Contribution(x) == []
    ensures MergeResults(rs[..i] + [x] + rs[i..]) == MergeResults(rs)
  {
    ConcatAppend(rs[..i] + [x], rs[i..]);
    ConcatAppend(rs[..i], [x]);
    ConcatAppend(rs[..i], rs[i..]);
    assert Concat([x]) == [];
    assert rs[..i] + rs[i..] == rs;
    assert Concat(rs[..i] + [x] + rs[i..]) == Concat(rs);
  }

  /** A chunk on which the analyzer failed drops out of the merge: the result
      is that of the remaining chunks, with no crash, duplicate or reordering. */
  lemma FailedChunkDropped(rs: seq<ChunkResult>, i: nat, o: Analyzer.Outcome)
    requires i < |rs|
    requires !o.Parsed?
    ensures MergeResults(rs[i := Analyzer.ChunkResultOf(o)]) == MergeResults(rs[..i] + rs[i + 1..])
  {
    var others := rs[..i] + rs[i + 1..];
    assert rs[i := Analyzer.ChunkResultOf(o)] == others[..i] + [EmptyResult] + others[i..];
    EmptyContributionNeutral(others, i, EmptyResult);
  }

  /** No cue is created, rebased or altered: every merged cue, start time
      included, is a cue of some chunk's own document. */
  lemma MergeKeepsCuesVerbatim(rs: seq<ChunkResult>)
    requires MergeResults(rs).Success?
    ensures forall c :: c in MergeResults(rs).value ==>
      exists i :: 0 <= i < |rs| && c in Contribution(rs[i])
  {
    var merged := MergeResults(rs).value;
    forall c | c in merged
      ensures exists i :: 0 <= i < |rs| && c in Contribution(rs[i])
    {
      assert c in multiset(merged);
      ConcatMember(rs, c);
    }
  }

  /** Chunk results whose concatenation is already in start order come out
      of the merge unchanged. */
  lemma MergeOfOrderedIsConcat(rs: seq<ChunkResult>)
    requires AllTimed(Concat(rs))
    requires SortedBy(Concat(rs), StartKey)
    ensures MergeResults(rs) == Success(Concat(rs))
  {
    SortOfSorted(Concat(rs), StartKey);
  }
}
