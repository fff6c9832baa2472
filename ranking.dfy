/**
 * The top-5 report of ModelProcess::OutputModelResult: every score of an
 * output buffer is inserted into an ordered map keyed by score (greatest
 * first) with the score's position as value, and the first five entries of
 * the map are reported.  Scores are modelled as integers, an abstract total
 * order standing in for the source's floats.
 */
module Ranking {
  import opened AclModel

  /** One reported line: a score and the position recorded for it. */
  datatype Entry = Entry(score: int, index: nat)

  /** How many entries are reported. */
  const TopCount: nat := 5

  /** Bytes per score (sizeof(float)). */
  const ScoreBytes: nat := 4

  /** The len / sizeof(float) scores held by a buffer of len bytes, each read
      from four bytes (little-endian), standing in for a float. */
  function Scores(bytes: seq<byte>): (vals: seq<int>)
    ensures |vals| == |bytes| / ScoreBytes
  {
    seq(|bytes| / ScoreBytes, i requires 0 <= i < |bytes| / ScoreBytes =>
      (bytes[4 * i] as int) + 0x100 * (bytes[4 * i + 1] as int)
        + 0x1_0000 * (bytes[4 * i + 2] as int) + 0x100_0000 * (bytes[4 * i + 3] as int))
  }

  /** The ordered map after `resultMap[vals[j]] = j` for j = 0 .. |vals|-1:
      a later position overwrites an earlier one with the same score. */
  function RankMap(vals: seq<int>): map<int, nat>
    decreases |vals|
  {
    if vals == [] then map[]
    else RankMap(vals[..|vals| - 1])[vals[|vals| - 1] := |vals| - 1]
  }

  /** `k` is the last position of `vals` that holds `v`. */
  ghost predicate LastIndexOf(vals: seq<int>, v: int, k: nat) {
    k < |vals| && vals[k] == v && forall j :: k < j < |vals| ==> vals[j] != v
  }

  /** The map holds exactly one entry per distinct score, and its value is
      the last position holding that score. */
  lemma {:induction false} RankMapContents(vals: seq<int>)
    ensures RankMap(vals).Keys == set v | v in vals
    ensures forall v :: v in RankMap(vals) ==> LastIndexOf(vals, v, RankMap(vals)[v])
    decreases |vals|
  {
    if vals != [] {
      var n := |vals| - 1;
      var init := vals[..n];
      RankMapContents(init);
      assert vals == init + [vals[n]];
      var m := RankMap(vals);
      forall v | v in m
        ensures LastIndexOf(vals, v, m[v])
      {
        if v != vals[n] {
          assert v in RankMap(init);
          assert LastIndexOf(init, v, RankMap(init)[v]);
        }
      }
    }
  }

  /** The greatest key of a non-empty set: the first key the ordered map's
      descending iteration visits. */
  ghost function SetMax(ks: set<int>): (v: int)
    requires ks != {}
    ensures v in ks && forall w :: w in ks ==> w <= v
    decreases ks
  {
    assert exists w :: w in ks by {
      if forall w :: w !in ks {
        assert false;
      }
    }
    var x :| x in ks;
    if ks == {x} then x
    else
      var y := SetMax(ks - {x});
      assert forall w :: w in ks ==> w == x || w in ks - {x};
      if x < y then y else x
  }

  /** The distinct scores of a sequence. */
  ghost function Distinct(vals: seq<int>): set<int> {
    set w | w in vals
  }

  /** The first `k` entries of the ordered map `m` restricted to the keys
      `ks`, iterated greatest key first. */
  ghost function Listing(m: map<int, nat>, ks: set<int>, k: nat): seq<Entry>
    requires ks <= m.Keys
    decreases ks
  {
    if k == 0 || ks == {} then []
    else
      var v := SetMax(ks);
      [Entry(v, m[v])] + Listing(m, ks - {v}, k - 1)
  }

  /** What OutputModelResult reports for one buffer's scores. */
  ghost function TopFive(vals: seq<int>): seq<Entry> {
    Listing(RankMap(vals), RankMap(vals).Keys, TopCount)
  }

  /** Strictly descending scores (hence no score twice). */
  ghost predicate Descending(r: seq<Entry>) {
    forall i, j :: 0 <= i < j < |r| ==> r[i].score > r[j].score
  }

  /** A listing holds min(k, number of keys) entries. */
  lemma {:induction false} ListingLength(m: map<int, nat>, ks: set<int>, k: nat)
    requires ks <= m.Keys
    ensures |Listing(m, ks, k)| == if k < |ks| then k else |ks|
    decreases ks
  {
    if k > 0 && ks != {} {
      var v := SetMax(ks);
      ListingLength(m, ks - {v}, k - 1);
    }
  }

  /** Every entry of `r` is an entry of the map for a key in `ks`. */
  ghost predicate EntriesOf(m: map<int, nat>, ks: set<int>, r: seq<Entry>) {
    forall i :: 0 <= i < |r| ==> r[i].score in ks && r[i].score in m && r[i].index == m[r[i].score]
  }

  /** Every listed entry is an entry of the map for a key in `ks`. */
  lemma {:induction false} ListingScores(m: map<int, nat>, ks: set<int>, k: nat)
    requires ks <= m.Keys
    ensures EntriesOf(m, ks, Listing(m, ks, k))
    decreases ks
  {
    if k > 0 && ks != {} {
      var v := SetMax(ks);
      ListingScores(m, ks - {v}, k - 1);
      var t := Listing(m, ks - {v}, k - 1);
      var r := Listing(m, ks, k);
      assert r == [Entry(v, m[v])] + t;
      forall i | 0 < i < |r|
        ensures r[i].score in ks && r[i].score in m && r[i].index == m[r[i].score]
      {
        assert r[i] == t[i - 1];
      }
    }
  }

  /** The listed scores strictly descend. */
  lemma {:induction false} ListingDescending(m: map<int, nat>, ks: set<int>, k: nat)
    requires ks <= m.Keys
    ensures Descending(Listing(m, ks, k))
    decreases ks
  {
    if k > 0 && ks != {} {
      var v := SetMax(ks);
      ListingDescending(m, ks - {v}, k - 1);
      ListingScores(m, ks - {v}, k - 1);
      var t := Listing(m, ks - {v}, k - 1);
      var r := Listing(m, ks, k);
      assert r == [Entry(v, m[v])] + t;
      forall i, j | 0 <= i < j < |r|
        ensures r[i].score > r[j].score
      {
        assert r[j] == t[j - 1];
        if i > 0 {
          assert r[i] == t[i - 1];
        }
      }
    }
  }

  /** No entry of `r` carries the score `v`. */
  ghost predicate Unlisted(r: seq<Entry>, v: int) {
    forall i :: 0 <= i < |r| ==> r[i].score != v
  }

  /** A key of `ks` left out of a listing is below every listed key, and keys
      are only left out when k entries are listed. */
  lemma {:induction false} ListingComplete(m: map<int, nat>, ks: set<int>, k: nat, v: int)
    requires ks <= m.Keys
    requires v in ks && Unlisted(Listing(m, ks, k), v)
    ensures |Listing(m, ks, k)| == k
    ensures forall i :: 0 <= i < |Listing(m, ks, k)| ==> v < Listing(m, ks, k)[i].score
    decreases ks
  {
    if k > 0 {
      var r := Listing(m, ks, k);
      var top := SetMax(ks);
      var t := Listing(m, ks - {top}, k - 1);
      assert r == [Entry(top, m[top])] + t;
      assert v != top by {
        assert r[0].score == top;
      }
      assert Unlisted(t, v) by {
        forall i | 0 <= i < |t|
          ensures t[i].score != v
        {
          assert t[i] == r[i + 1];
        }
      }
      ListingComplete(m, ks - {top}, k - 1, v);
      forall i | 0 < i < |r|
        ensures v < r[i].score
      {
        assert r[i] == t[i - 1];
      }
    }
  }

  /** The report over a buffer's scores: min(5, number of distinct scores)
      entries, strictly descending, one per distinct score, each carrying the
      last position of its score; a score left out is below every reported
      one. */
  lemma TopFiveSpec(vals: seq<int>)
    ensures var r := TopFive(vals);
      && |r| == (if TopCount < |Distinct(vals)| then TopCount else |Distinct(vals)|)
      && Descending(r)
      && (forall i :: 0 <= i < |r| ==> LastIndexOf(vals, r[i].score, r[i].index))
      && (forall k :: 0 <= k < |vals| && Unlisted(r, vals[k]) ==>
            |r| == TopCount && forall i :: 0 <= i < |r| ==> vals[k] < r[i].score)
  {
    var m := RankMap(vals);
    RankMapContents(vals);
    assert m.Keys == Distinct(vals);
    ListingLength(m, m.Keys, TopCount);
    ListingScores(m, m.Keys, TopCount);
    ListingDescending(m, m.Keys, TopCount);
    var r := TopFive(vals);
    forall k | 0 <= k < |vals| && Unlisted(r, vals[k])
      ensures |r| == TopCount && forall i :: 0 <= i < |r| ==> vals[k] < r[i].score
    {
      ListingComplete(m, m.Keys, TopCount, vals[k]);
    }
  }

  /** Equal scores are not both reported: the map keeps one entry per score,
      so a score seen at positions 0 and 1 is reported once, at position 1. */
  lemma EqualScoresCollapse(x: int)
    ensures TopFive([x, x]) == [Entry(x, 1)]
  {
    var m := RankMap([x, x]);
    assert [x, x][..1] == [x];
    assert [x][..0] == [];
    assert RankMap([x]) == map[x := 0];
    assert m == map[x := 1];
    assert SetMax({x}) == x;
    assert Listing(m, {x}, TopCount) == [Entry(x, 1)] + Listing(m, {}, TopCount - 1);
  }

  /** The ranking loop of OutputModelResult: insert every score into the map,
      then walk the map greatest key first, stopping when the counter passes
      five. */
  method RankTopFive(vals: seq<int>) returns (top: seq<Entry>)
    ensures top == TopFive(vals)
  {
    var resultMap: map<int, nat> := map[];
    var j := 0;
    while j < |vals|
      invariant 0 <= j <= |vals|
      invariant resultMap == RankMap(vals[..j])
    {
      assert vals[..j + 1][..j] == vals[..j];
      resultMap := resultMap[vals[j] := j];
      j := j + 1;
    }
    assert vals[..|vals|] == vals;
    top := [];
    var cnt := 0;
    var keys := resultMap.Keys;
    while keys != {}
      invariant 0 <= cnt <= TopCount
      invariant keys <= resultMap.Keys
      invariant top + Listing(resultMap, keys, TopCount - cnt) == TopFive(vals)
      decreases keys
    {
      cnt := cnt + 1;
      if cnt > TopCount {
        break;
      }
      var v :| v in keys && forall w :: w in keys ==> w <= v;
      assert v == SetMax(keys);
      top := top + [Entry(v, resultMap[v])];
      keys := keys - {v};
    }
  }
}
