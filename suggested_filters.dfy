/**
 * The suggestion buttons: each bucket of the "common levels" and "common
 * user ids" aggregations becomes a button that adds a filter on that value.
 */
module SuggestedFilters {
  import opened Wrappers
  import opened LogModel

  const LevelKey: string := "level"
  const UserIdKey: string := "metadata.user_id"

  /** `aggregation?.buckets || []`: an absent aggregation offers no buckets. */
  function BucketsOf(aggregation: Option<seq<Bucket>>): (buckets: seq<Bucket>)
    ensures aggregation.None? ==> buckets == []
    ensures aggregation.Some? ==> buckets == aggregation.value
  {
    aggregation.GetOr([])
  }

  /** One filter per bucket, in bucket order, on field `key` with the bucket's value. */
  function FiltersFor(key: string, buckets: seq<Bucket>): (filters: seq<Filter>)
    ensures |filters| == |buckets|
    ensures forall i :: 0 <= i < |buckets| ==> filters[i] == Filter(key, buckets[i].key)
    decreases |buckets|
  {
    if buckets == [] then [] else [Filter(key, buckets[0].key)] + FiltersFor(key, buckets[1..])
  }

  /** The filters the buttons offer: every level suggestion, then every user suggestion. */
  function OfferedFilters(suggestions: Suggestions): (filters: seq<Filter>)
    ensures var levels, users := BucketsOf(suggestions.commonLevels), BucketsOf(suggestions.commonUserIds);
      && |filters| == |levels| + |users|
      && (forall i :: 0 <= i < |levels| ==> filters[i] == Filter(LevelKey, levels[i].key))
      && (forall j :: 0 <= j < |users| ==> filters[|levels| + j] == Filter(UserIdKey, users[j].key))
  {
    FiltersFor(LevelKey, BucketsOf(suggestions.commonLevels)) + FiltersFor(UserIdKey, BucketsOf(suggestions.commonUserIds))
  }

  /** Bucket lists that agree on their values, in order, whatever their counts. */
  predicate SameValues(b1: seq<Bucket>, b2: seq<Bucket>) {
    |b1| == |b2| && forall i :: 0 <= i < |b1| ==> b1[i].key == b2[i].key
  }

  /** The filters of a bucket list depend on the bucket values alone. */
  lemma {:induction false} FiltersForIgnoresCounts(key: string, b1: seq<Bucket>, b2: seq<Bucket>)
    requires SameValues(b1, b2)
    ensures FiltersFor(key, b1) == FiltersFor(key, b2)
    decreases |b1|
  {
    if b1 != [] {
      assert SameValues(b1[1..], b2[1..]) by {
        forall i | 0 <= i < |b1| - 1 ensures b1[1..][i].key == b2[1..][i].key {
          assert b1[1..][i] == b1[i + 1] && b2[1..][i] == b2[i + 1];
        }
      }
      FiltersForIgnoresCounts(key, b1[1..], b2[1..]);
    }
  }

  /** Document counts play no part: suggestions that differ only in counts offer the same filters. */
  lemma DocCountIsIgnored(s1: Suggestions, s2: Suggestions)
    requires SameValues(BucketsOf(s1.commonLevels), BucketsOf(s2.commonLevels))
    requires SameValues(BucketsOf(s1.commonUserIds), BucketsOf(s2.commonUserIds))
    ensures OfferedFilters(s1) == OfferedFilters(s2)
  {
    FiltersForIgnoresCounts(LevelKey, BucketsOf(s1.commonLevels), BucketsOf(s2.commonLevels));
    FiltersForIgnoresCounts(UserIdKey, BucketsOf(s1.commonUserIds), BucketsOf(s2.commonUserIds));
  }

  /** Every offered filter is on the level field or on the user-id metadata field, and only present aggregations contribute. */
  lemma OfferedFilterKeys(suggestions: Suggestions, f: Filter)
    requires f in OfferedFilters(suggestions)
    ensures f.key == LevelKey ==> suggestions.commonLevels.Some?
    ensures f.key == UserIdKey ==> suggestions.commonUserIds.Some?
    ensures f.key == LevelKey || f.key == UserIdKey
  {
    var levels := FiltersFor(LevelKey, BucketsOf(suggestions.commonLevels));
    var users := FiltersFor(UserIdKey, BucketsOf(suggestions.commonUserIds));
    assert f in levels + users;
    if f in levels {
      var i :| 0 <= i < |levels| && levels[i] == f;
      assert f.key == LevelKey;
    } else {
      assert f in users;
      var j :| 0 <= j < |users| && users[j] == f;
      assert f.key == UserIdKey;
    }
  }

}
