/**
 * The waiting queue of backend/index.js (`waitingQueue`): the array search
 * and splice `removeFromQueues` performs, and the search for the first live
 * head that `addToQueueAndMatch` performs by shifting dead ids off the front.
 */
module Queue {
  import opened Wrappers
  import opened Types

  /**
   * No id occurs twice, stated position by position. The lobby invariant
   * uses the head-by-head form `Distinct` below, which suits induction over
   * `shift`; this form suits the reasoning about the positions `splice`
   * moves, and `DistinctIsNoDup` joins the two.
   */
  ghost predicate NoDup(q: seq<ConnId>) {
    forall i, j :: 0 <= i < j < |q| ==> q[i] != q[j]
  }

  /** No id occurs twice, stated head by head. */
  predicate Distinct(q: seq<ConnId>)
    decreases |q|
  {
    |q| == 0 || (q[0] !in q[1..] && Distinct(q[1..]))
  }

  /** The two statements of "no id occurs twice" agree. */
  lemma {:induction false} DistinctIsNoDup(q: seq<ConnId>)
    ensures Distinct(q) <==> NoDup(q)
    decreases |q|
  {
    if |q| > 0 {
      var t := q[1..];
      DistinctIsNoDup(t);
      if NoDup(q) {
        forall i, j | 0 <= i < j < |t| ensures t[i] != t[j] {
          assert t[i] == q[i + 1] && t[j] == q[j + 1];
        }
        forall j | 0 <= j < |t| ensures t[j] != q[0] {
          assert t[j] == q[j + 1];
        }
      }
      if Distinct(q) {
        forall i, j | 0 <= i < j < |q| ensures q[i] != q[j] {
          assert q[j] == t[j - 1];
          if i > 0 {
            assert q[i] == t[i - 1];
          }
        }
      }
    }
  }

  /** `Array.prototype.indexOf`: the first position holding `x`, or -1. */
  function IndexOf(q: seq<ConnId>, x: ConnId): (r: int)
    ensures -1 <= r < |q|
    ensures r == -1 <==> x !in q
    ensures r >= 0 ==> q[r] == x && forall j :: 0 <= j < r ==> q[j] != x
  {
    IndexFrom(q, x, 0)
  }

  /** The search of `IndexOf` from position `k` on. */
  function IndexFrom(q: seq<ConnId>, x: ConnId, k: nat): (r: int)
    requires k <= |q|
    ensures r == -1 || k <= r < |q|
    ensures r == -1 <==> forall j :: k <= j < |q| ==> q[j] != x
    ensures r >= 0 ==> q[r] == x && forall j :: k <= j < r ==> q[j] != x
    decreases |q| - k
  {
    if k == |q| then -1
    else if q[k] == x then k
    else IndexFrom(q, x, k + 1)
  }

  /**
   * `removeFromQueues`: the queue with the first occurrence of `x` spliced
   * out, the others keeping their order. On a queue without duplicates no
   * occurrence of `x` is left.
   */
  function Without(q: seq<ConnId>, x: ConnId): (r: seq<ConnId>)
    ensures x !in q ==> r == q
    ensures x in q ==> |r| == |q| - 1
    ensures var i := IndexOf(q, x);
      i >= 0 ==> r[..i] == q[..i] && r[i..] == q[i + 1..]
  {
    var i := IndexOf(q, x);
    if i == -1 then q
    else
      q[..i] + q[i + 1..]
  }

  /** `Without` keeps every other id and adds none. */
  lemma WithoutMembers(q: seq<ConnId>, x: ConnId, y: ConnId)
    ensures y in Without(q, x) ==> y in q
    ensures y in q && y != x ==> y in Without(q, x)
  {
    var i := IndexOf(q, x);
    if i >= 0 {
      assert q == q[..i] + [x] + q[i + 1..];
    }
  }

  /** On a queue without duplicates, no occurrence of `x` is left and none appears. */
  lemma WithoutDistinct(q: seq<ConnId>, x: ConnId)
    requires Distinct(q)
    ensures Distinct(Without(q, x)) && x !in Without(q, x)
  {
    var r := Without(q, x);
    DistinctIsNoDup(q);
    var i := IndexOf(q, x);
    if i >= 0 {
      forall j | 0 <= j < |r| ensures r[j] != x {
        if j < i {
          assert r[j] == q[..i][j];
        } else {
          assert r[j] == q[j + 1] && q[i] == x;
        }
      }
      forall a, b | 0 <= a < b < |r| ensures r[a] != r[b] {
        var a' := if a < i then a else a + 1;
        var b' := if b < i then b else b + 1;
        assert r[a] == q[a'] && r[b] == q[b'] && a' < b';
      }
    }
    DistinctIsNoDup(r);
  }

  /** Shifting ids off the front keeps the rest free of duplicates. */
  lemma {:induction false} DistinctDrop(q: seq<ConnId>, k: nat)
    requires Distinct(q) && k <= |q|
    ensures Distinct(q[k..])
    decreases k
  {
    if k > 0 {
      assert q[k..] == q[1..][k - 1..];
      DistinctDrop(q[1..], k - 1);
    }
  }

  /**
   * The position of the first id of `q` that is in `live`: every id before it
   * is dead. `None` when every id is dead.
   */
  function FirstLive(q: seq<ConnId>, live: set<ConnId>): (r: Option<nat>)
    ensures r.None? <==> forall j :: 0 <= j < |q| ==> q[j] !in live
    ensures r.Some? ==> r.value < |q| && q[r.value] in live
    ensures r.Some? ==> forall j :: 0 <= j < r.value ==> q[j] !in live
  {
    if q == [] then None
    else if q[0] in live then Some(0)
    else
      match FirstLive(q[1..], live)
      case None => None
      case Some(k) => Some(k + 1)
  }

  /** The first live position is the one before which every id is dead. */
  lemma FirstLiveAt(q: seq<ConnId>, live: set<ConnId>, k: nat)
    requires k < |q| && q[k] in live
    requires forall j :: 0 <= j < k ==> q[j] !in live
    ensures FirstLive(q, live) == Some(k)
  {
  }
}
