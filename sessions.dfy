/**
 * The session table of backend/index.js (`activeMatches`): every entry names
 * the partner, and a match is written from both sides (`createMatch`) and
 * deleted from both sides (`removeFromMatch`).
 */
module Sessions {
  import opened Types

  /** The entry of `a` names a partner other than `a` whose entry names `a` back. */
  ghost predicate Mirrored(m: map<ConnId, Session>, a: ConnId)
    requires a in m
  {
    var b := m[a].partnerId;
    b != a && b in m && m[b].partnerId == a
  }

  /** The table is mirrored: every entry is. */
  ghost predicate Symmetric(m: map<ConnId, Session>) {
    forall a :: a in m ==> Mirrored(m, a)
  }

  /**
   * `createMatch`: both mirrored records, stamped with the same time; all
   * other entries are kept.
   */
  function Pair(m: map<ConnId, Session>, a: ConnId, b: ConnId, now: int): (r: map<ConnId, Session>)
    ensures r.Keys == m.Keys + {a, b}
    ensures r[a] == Session(b, now) && r[b] == Session(a, now)
    ensures forall c :: c in m && c != a && c != b ==> r[c] == m[c]
  {
    m[a := Session(b, now)][b := Session(a, now)]
  }

  /** Pairing two distinct ids that have no session keeps the table mirrored. */
  lemma PairSymmetric(m: map<ConnId, Session>, a: ConnId, b: ConnId, now: int)
    requires Symmetric(m) && a != b && a !in m && b !in m
    ensures Symmetric(Pair(m, a, b, now))
  {
    var r := Pair(m, a, b, now);
    forall c | c in r ensures Mirrored(r, c) {
      if c != a && c != b {
        assert Mirrored(m, c);
        var d := m[c].partnerId;
        assert d != a && d != b;
      }
    }
  }

  /**
   * `removeFromMatch`: the entry of `a` and the entry of its partner are
   * deleted and nothing else changes.
   */
  function Unpair(m: map<ConnId, Session>, a: ConnId): (r: map<ConnId, Session>)
    ensures a !in r
    ensures a in m ==> m[a].partnerId !in r
    ensures r.Keys <= m.Keys
    ensures forall c :: c in r ==> r[c] == m[c]
    ensures forall c :: c in m && c != a && (a in m ==> c != m[a].partnerId) ==> c in r
  {
    if a in m then m - {m[a].partnerId} - {a} else m - {a}
  }

  /** Tearing down a session keeps the table mirrored. */
  lemma UnpairSymmetric(m: map<ConnId, Session>, a: ConnId)
    requires Symmetric(m)
    ensures Symmetric(Unpair(m, a))
  {
    var r := Unpair(m, a);
    forall c | c in r ensures Mirrored(r, c) {
      assert Mirrored(m, c);
      var d := m[c].partnerId;
      if a in m {
        assert Mirrored(m, a);
      }
      assert d in r;
    }
  }

  /** `handleStop` deletes the own entry before the partner's: the same table. */
  lemma UnpairEitherOrder(m: map<ConnId, Session>, a: ConnId)
    ensures a in m ==> Unpair(m, a) == m - {a} - {m[a].partnerId}
    ensures a !in m ==> Unpair(m, a) == m
  {
  }

  /** Tearing a session down twice is tearing it down once. */
  lemma UnpairIdempotent(m: map<ConnId, Session>, a: ConnId)
    ensures Unpair(Unpair(m, a), a) == Unpair(m, a)
  {
  }

  /** Tearing down a session of a mirrored table removes exactly two entries. */
  lemma UnpairRemovesTwo(m: map<ConnId, Session>, a: ConnId)
    requires Symmetric(m) && a in m
    ensures |Unpair(m, a)| == |m| - 2
  {
    var b := m[a].partnerId;
    assert Mirrored(m, a);
    var rest := m.Keys - {a, b};
    assert Unpair(m, a).Keys == rest;
    assert m.Keys == rest + {a} + {b};
    assert |rest + {a}| == |rest| + 1;
  }

  /** Tearing down one session of a non-empty mirrored table leaves a mirrored table two entries smaller. */
  lemma UnpairShrinks(m: map<ConnId, Session>)
    requires Symmetric(m) && m != map[]
    ensures exists r :: Symmetric(r) && |r| + 2 == |m|
  {
    var a :| a in m;
    UnpairRemovesTwo(m, a);
    UnpairSymmetric(m, a);
    assert Symmetric(Unpair(m, a));
  }

  /**
   * A mirrored table holds an even number of entries, so the
   * `activeMatches.size / 2` the status endpoints report is exact.
   */
  lemma {:induction false} SymmetricEven(m: map<ConnId, Session>)
    requires Symmetric(m)
    ensures |m| % 2 == 0
    decreases |m|
  {
    if m != map[] {
      UnpairShrinks(m);
      var r :| Symmetric(r) && |r| + 2 == |m|;
      SymmetricEven(r);
    }
  }
}
