/**
 * The bulk block/unblock executor: every address registered under a name is
 * tried once, in order, and lands in the success list or the failure list.
 *
 * `Select` keeps the addresses whose call had a given outcome; `Merge` is its
 * inverse, interleaving the two lists back by the outcomes. The lemmas show
 * that the two lists partition the attempts: together they hold every
 * address exactly as often as it was tried, each keeps the input order, and
 * nothing else appears in them.
 */
module Bulk {
  import opened Controller

  /** The controller calls a bulk action makes: one per address, in order. */
  function Attempts(action: Action, macs: seq<MAC>): seq<Call>
  {
    seq(|macs|, i requires 0 <= i < |macs| => Control(action, macs[i]))
  }

  /** The outcomes of `n` control calls made from position `start` of the controller's log. */
  function Outcomes(refused: set<nat>, start: nat, n: nat): seq<bool>
  {
    seq(n, i requires 0 <= i < n => start + i !in refused)
  }

  /** How many of the outcomes equal `b`. */
  function Count(outs: seq<bool>, b: bool): (r: nat)
    ensures r <= |outs|
  {
    if outs == [] then 0
    else Count(outs[..|outs| - 1], b) + (if outs[|outs| - 1] == b then 1 else 0)
  }

  /** Every outcome is either a success or a failure. */
  lemma {:induction false} CountSplit(outs: seq<bool>)
    ensures Count(outs, true) + Count(outs, false) == |outs|
  {
    if outs != [] {
      CountSplit(outs[..|outs| - 1]);
    }
  }

  /** The addresses whose call had outcome `keep`, in attempt order. */
  function Select(macs: seq<MAC>, outs: seq<bool>, keep: bool): (r: seq<MAC>)
    requires |outs| == |macs|
    ensures |r| == Count(outs, keep)
  {
    if macs == [] then []
    else
      var n := |macs| - 1;
      assert macs == macs[..n] + [macs[n]];
      var rest := Select(macs[..n], outs[..n], keep);
      if outs[n] == keep then rest + [macs[n]] else rest
  }

  /** Interleaves the success and failure lists back into attempt order. */
  function Merge(ok: seq<MAC>, failed: seq<MAC>, outs: seq<bool>): (r: seq<MAC>)
    requires |ok| == Count(outs, true) && |failed| == Count(outs, false)
    ensures |r| == |outs|
    ensures multiset(r) == multiset(ok) + multiset(failed)
  {
    if outs == [] then []
    else
      var n := |outs| - 1;
      assert outs == outs[..n] + [outs[n]];
      if outs[n] then
        var k := |ok| - 1;
        assert ok == ok[..k] + [ok[k]];
        Merge(ok[..k], failed, outs[..n]) + [ok[k]]
      else
        var k := |failed| - 1;
        assert failed == failed[..k] + [failed[k]];
        Merge(ok, failed[..k], outs[..n]) + [failed[k]]
  }

  lemma SelectSnoc(macs: seq<MAC>, outs: seq<bool>, x: MAC, b: bool, keep: bool)
    requires |outs| == |macs|
    ensures Select(macs + [x], outs + [b], keep)
            == if b == keep then Select(macs, outs, keep) + [x] else Select(macs, outs, keep)
  {
    assert (macs + [x])[..|macs|] == macs;
    assert (outs + [b])[..|outs|] == outs;
  }

  lemma CountSnoc(outs: seq<bool>, b: bool, c: bool)
    ensures Count(outs + [b], c) == Count(outs, c) + (if b == c then 1 else 0)
  {
    assert (outs + [b])[..|outs|] == outs;
  }

  lemma MergeSnoc(ok: seq<MAC>, failed: seq<MAC>, outs: seq<bool>, x: MAC, b: bool)
    requires |ok| == Count(outs, true) && |failed| == Count(outs, false)
    requires Count(outs + [b], true) == Count(outs, true) + (if b then 1 else 0)
    requires Count(outs + [b], false) == Count(outs, false) + (if b then 0 else 1)
    ensures Merge(if b then ok + [x] else ok, if b then failed else failed + [x], outs + [b]) == Merge(ok, failed, outs) + [x]
  {
    assert (outs + [b])[..|outs|] == outs;
    if b {
      assert (ok + [x])[..|ok|] == ok;
    } else {
      assert (failed + [x])[..|failed|] == failed;
    }
  }

  /** One more attempt extends the log and one of the two lists. */
  lemma AttemptStep(action: Action, macs: seq<MAC>, outs: seq<bool>, i: nat)
    requires |outs| == |macs| && i < |macs|
    ensures Attempts(action, macs[..i + 1]) == Attempts(action, macs[..i]) + [Control(action, macs[i])]
    ensures Select(macs[..i + 1], outs[..i + 1], true)
            == if outs[i] then Select(macs[..i], outs[..i], true) + [macs[i]] else Select(macs[..i], outs[..i], true)
    ensures Select(macs[..i + 1], outs[..i + 1], false)
            == if outs[i] then Select(macs[..i], outs[..i], false) else Select(macs[..i], outs[..i], false) + [macs[i]]
  {
    assert macs[..i + 1] == macs[..i] + [macs[i]] && outs[..i + 1] == outs[..i] + [outs[i]];
    SelectSnoc(macs[..i], outs[..i], macs[i], outs[i], true);
    SelectSnoc(macs[..i], outs[..i], macs[i], outs[i], false);
  }

  /** Merging the two lists gives back the attempted addresses: nothing lost, added or reordered. */
  lemma {:induction false} MergeSelect(macs: seq<MAC>, outs: seq<bool>)
    requires |outs| == |macs|
    ensures Merge(Select(macs, outs, true), Select(macs, outs, false), outs) == macs
  {
    if macs != [] {
      var n := |macs| - 1;
      var m0, o0, x, b := macs[..n], outs[..n], macs[n], outs[n];
      var ok0, failed0 := Select(m0, o0, true), Select(m0, o0, false);
      var ok, failed := if b then ok0 + [x] else ok0, if b then failed0 else failed0 + [x];
      assert macs == m0 + [x] && outs == o0 + [b];
      SelectSnoc(m0, o0, x, b, true);
      SelectSnoc(m0, o0, x, b, false);
      CountSnoc(o0, b, true);
      CountSnoc(o0, b, false);
      MergeSnoc(ok0, failed0, o0, x, b);
      MergeSelect(m0, o0);
      assert Merge(ok, failed, outs) == macs;
    }
  }

  /** Splitting an interleaving by its outcomes gives back both lists. */
  lemma {:induction false} SelectMerge(ok: seq<MAC>, failed: seq<MAC>, outs: seq<bool>)
    requires |ok| == Count(outs, true) && |failed| == Count(outs, false)
    ensures Select(Merge(ok, failed, outs), outs, true) == ok
    ensures Select(Merge(ok, failed, outs), outs, false) == failed
  {
    if outs != [] {
      var n := |outs| - 1;
      assert outs == outs[..n] + [outs[n]];
      var m := Merge(ok, failed, outs);
      if outs[n] {
        var k := |ok| - 1;
        assert ok == ok[..k] + [ok[k]];
        SelectMerge(ok[..k], failed, outs[..n]);
        assert m[..n] == Merge(ok[..k], failed, outs[..n]);
      } else {
        var k := |failed| - 1;
        assert failed == failed[..k] + [failed[k]];
        SelectMerge(ok, failed[..k], outs[..n]);
        assert m[..n] == Merge(ok, failed[..k], outs[..n]);
      }
    }
  }

  /** Both lists together hold every attempted address as often as it was tried. */
  lemma PartitionCovers(macs: seq<MAC>, outs: seq<bool>)
    requires |outs| == |macs|
    ensures multiset(Select(macs, outs, true)) + multiset(Select(macs, outs, false)) == multiset(macs)
    ensures |Select(macs, outs, true)| + |Select(macs, outs, false)| == |macs|
  {
    MergeSelect(macs, outs);
    CountSplit(outs);
  }

  /** An address is in the list for `keep` exactly when some attempt on it had that outcome. */
  lemma {:induction false} InSelect(macs: seq<MAC>, outs: seq<bool>, keep: bool, x: MAC)
    requires |outs| == |macs|
    ensures x in Select(macs, outs, keep) <==> exists i :: 0 <= i < |macs| && macs[i] == x && outs[i] == keep
  {
    if macs != [] {
      var n := |macs| - 1;
      InSelect(macs[..n], outs[..n], keep, x);
      if exists i :: 0 <= i < |macs| && macs[i] == x && outs[i] == keep {
        var i :| 0 <= i < |macs| && macs[i] == x && outs[i] == keep;
        if i < n {
          assert macs[..n][i] == x && outs[..n][i] == keep;
        }
      }
    }
  }

  /** When the addresses are distinct, no address is in both lists. */
  lemma Disjoint(macs: seq<MAC>, outs: seq<bool>)
    requires |outs| == |macs|
    requires forall i, j :: 0 <= i < j < |macs| ==> macs[i] != macs[j]
    ensures forall x :: x in Select(macs, outs, true) ==> x !in Select(macs, outs, false)
  {
    forall x | x in Select(macs, outs, true)
      ensures x !in Select(macs, outs, false)
    {
      InSelect(macs, outs, true, x);
      InSelect(macs, outs, false, x);
    }
  }
}
