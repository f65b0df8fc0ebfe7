/** GitHub release ids (Java `long`) and the maximum of a set of them, as `stream().max(Long::compareTo)` computes it. */
module ReleaseIds {
  import opened Wrappers

  const MIN_LONG: int := -0x8000_0000_0000_0000
  const MAX_LONG: int := 0x7fff_ffff_ffff_ffff

  /** A Java `long`. The model only compares ids, so no arithmetic can wrap. */
  type Long = x: int | MIN_LONG <= x <= MAX_LONG

  predicate IsMaxOf(m: Long, s: set<Long>) {
    m in s && forall x :: x in s ==> x <= m
  }

  /** Every non-empty finite set of ids has a greatest element. */
  lemma {:induction false} MaxExists(s: set<Long>)
    requires s != {}
    ensures exists m :: IsMaxOf(m, s)
    decreases |s|
  {
    var x :| x in s;
    var rest := s - {x};
    if rest == {} {
      assert s == {x};
      assert IsMaxOf(x, s);
    } else {
      MaxExists(rest);
      var m :| IsMaxOf(m, rest);
      assert s == rest + {x};
      if m < x {
        assert IsMaxOf(x, s);
      } else {
        assert IsMaxOf(m, s);
      }
    }
  }

  /** The greatest id of a non-empty set. */
  function Max(s: set<Long>): (m: Long)
    requires s != {}
    ensures IsMaxOf(m, s)
  {
    MaxExists(s);
    var m :| IsMaxOf(m, s);
    m
  }

  /** `seenReleases.stream().max(Long::compareTo)`: empty exactly when the set is empty, otherwise its maximum. */
  function LatestOf(s: set<Long>): (r: Option<Long>)
    ensures r.None? <==> s == {}
    ensures r.Some? ==> IsMaxOf(r.value, s)
  {
    if s == {} then None else Some(Max(s))
  }

  /** The larger of an optional high-water mark and a new id. */
  function RaiseTo(latest: Option<Long>, id: Long): Long {
    match latest
    case None => id
    case Some(m) => if m < id then id else m
  }

  /** Inserting id into a set moves its maximum to the larger of the old maximum and id. */
  lemma LatestOfInsert(s: set<Long>, id: Long)
    ensures LatestOf(s + {id}) == Some(RaiseTo(LatestOf(s), id))
  {
    var m := RaiseTo(LatestOf(s), id);
    assert IsMaxOf(m, s + {id});
    MaxUnique(LatestOf(s + {id}).value, m, s + {id});
  }

  lemma MaxUnique(a: Long, b: Long, s: set<Long>)
    requires IsMaxOf(a, s) && IsMaxOf(b, s)
    ensures a == b
  {
  }

  /** The order on optional high-water marks: nothing seen is below everything. */
  predicate AtMost(a: Option<Long>, b: Option<Long>) {
    a.None? || (b.Some? && a.value <= b.value)
  }

  /** A superset never has a smaller maximum: the high-water mark of an append-only set never decreases. */
  lemma LatestOfMonotone(s: set<Long>, t: set<Long>)
    requires s <= t
    ensures AtMost(LatestOf(s), LatestOf(t))
  {
    if s != {} {
      assert Max(s) in t;
    }
  }
}
