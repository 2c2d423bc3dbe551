/**
 Usage statistics: one scan over the request log fills four breakdowns, which are then listed
 in the arbitrary order of a map. Costs are exact sums here.
 */
module UsageStats {

  datatype Row = Row(
    instance: nat, provider: nat, model: string, bucket: string,
    input: int, cachedInput: int, output: int, cost: real)

  datatype ModelKey = ModelKey(model: string, provider: nat)

  datatype Agg = Agg(requests: int, input: int, cachedInput: int, output: int, cost: real)

  const Zero := Agg(0, 0, 0, 0, 0.0)

  function Plus(a: Agg, b: Agg): Agg {
    Agg(a.requests + b.requests, a.input + b.input, a.cachedInput + b.cachedInput, a.output + b.output, a.cost + b.cost)
  }

  function Single(r: Row): Agg {
    Agg(1, r.input, r.cachedInput, r.output, r.cost)
  }

  /** The sums over the rows of one group. */
  function SumOf<K(==)>(rows: seq<Row>, key: Row -> K, k: K): Agg {
    if rows == [] then Zero
    else
      var rest := SumOf(rows[..|rows| - 1], key, k);
      var last := rows[|rows| - 1];
      if key(last) == k then Plus(rest, Single(last)) else rest
  }

  /** The sums over all rows. */
  function Sum(rows: seq<Row>): Agg {
    if rows == [] then Zero else Plus(Sum(rows[..|rows| - 1]), Single(rows[|rows| - 1]))
  }

  // The columns, each summed on its own.

  function InputTokens(rows: seq<Row>): int {
    if rows == [] then 0 else InputTokens(rows[..|rows| - 1]) + rows[|rows| - 1].input
  }

  function CachedInputTokens(rows: seq<Row>): int {
    if rows == [] then 0 else CachedInputTokens(rows[..|rows| - 1]) + rows[|rows| - 1].cachedInput
  }

  function OutputTokens(rows: seq<Row>): int {
    if rows == [] then 0 else OutputTokens(rows[..|rows| - 1]) + rows[|rows| - 1].output
  }

  function Cost(rows: seq<Row>): real {
    if rows == [] then 0.0 else Cost(rows[..|rows| - 1]) + rows[|rows| - 1].cost
  }

  /** Every column of the sums is the sum of the rows' field of that name. */
  ghost predicate Columns(a: Agg, rows: seq<Row>) {
    && a.requests == |rows| && a.input == InputTokens(rows) && a.cachedInput == CachedInputTokens(rows)
    && a.output == OutputTokens(rows) && a.cost == Cost(rows)
  }

  lemma {:induction false} SumHasColumns(rows: seq<Row>)
    ensures Columns(Sum(rows), rows)
  {
    if rows != [] {
      SumHasColumns(rows[..|rows| - 1]);
    }
  }

  /** The rows of one group, in their order. */
  function Where<K(==)>(rows: seq<Row>, key: Row -> K, k: K): (group: seq<Row>)
    ensures forall r :: r in group <==> r in rows && key(r) == k
  {
    if rows == [] then []
    else
      var last := rows[|rows| - 1];
      assert forall r :: r in rows <==> r in rows[..|rows| - 1] || r == last;
      Where(rows[..|rows| - 1], key, k) + if key(last) == k then [last] else []
  }

  lemma {:induction false} GroupHasColumns<K>(rows: seq<Row>, key: Row -> K, k: K)
    ensures Columns(SumOf(rows, key, k), Where(rows, key, k))
  {
    if rows != [] {
      var last := rows[|rows| - 1];
      GroupHasColumns(rows[..|rows| - 1], key, k);
      var group := Where(rows[..|rows| - 1], key, k);
      assert (group + [last])[..|group|] == group;
      assert key(last) != k ==> Where(rows, key, k) == group;
    }
  }

  /** The keys of the four breakdowns. */
  lemma KeysAreFields(r: Row)
    ensures ByInstance(r) == r.instance && ByProvider(r) == r.provider
    ensures ByModel(r) == ModelKey(r.model, r.provider) && ByTime(r) == r.bucket
  {}

  /** The keys that occur. */
  ghost function KeysOf<K(!new)>(rows: seq<Row>, key: Row -> K): set<K> {
    set r <- rows :: key(r)
  }

  lemma KeysOfMore<K(!new)>(rows: seq<Row>, r: Row, key: Row -> K)
    ensures KeysOf(rows + [r], key) == KeysOf(rows, key) + {key(r)}
  {
    assert r in rows + [r];
    forall q <- rows ensures q in rows + [r] {}
  }

  /** A breakdown has one entry per key that occurs, and the entry is that key's sums. */
  ghost predicate Breakdown<K(!new)>(m: map<K, Agg>, rows: seq<Row>, key: Row -> K) {
    && m.Keys == KeysOf(rows, key)
    && (forall k <- m :: m[k] == SumOf(rows, key, k))
  }

  const ByInstance := (r: Row) => r.instance
  const ByProvider := (r: Row) => r.provider
  const ByModel := (r: Row) => ModelKey(r.model, r.provider)
  const ByTime := (r: Row) => r.bucket

  method Add<K(==,!new)>(m: map<K, Agg>, k: K, r: Row, ghost rows: seq<Row>, ghost key: Row -> K)
    returns (after: map<K, Agg>)
    requires Breakdown(m, rows, key) && key(r) == k
    ensures Breakdown(after, rows + [r], key)
  {
    after := if k in m then m else m[k := Zero];
    after := after[k := Plus(after[k], Single(r))];
    AbsentSumsToZero(rows, key, k);
    assert (rows + [r])[..|rows|] == rows;
    KeysOfMore(rows, r, key);
    assert after.Keys == m.Keys + {k};
  }

  lemma {:induction false} AbsentSumsToZero<K>(rows: seq<Row>, key: Row -> K, k: K)
    ensures (forall r <- rows :: key(r) != k) ==> SumOf(rows, key, k) == Zero
  {
    if rows != [] && forall r <- rows :: key(r) != k {
      assert rows[|rows| - 1] in rows;
      AbsentSumsToZero(rows[..|rows| - 1], key, k);
    }
  }

  method Aggregate(rows: seq<Row>)
    returns (byInstance: map<nat, Agg>, byProvider: map<nat, Agg>,
             byModel: map<ModelKey, Agg>, byTime: map<string, Agg>)
    ensures Breakdown(byInstance, rows, ByInstance) && Breakdown(byProvider, rows, ByProvider)
    ensures Breakdown(byModel, rows, ByModel) && Breakdown(byTime, rows, ByTime)
  {
    byInstance, byProvider, byModel, byTime := map[], map[], map[], map[];
    for i := 0 to |rows|
      invariant Breakdown(byInstance, rows[..i], ByInstance) && Breakdown(byProvider, rows[..i], ByProvider)
      invariant Breakdown(byModel, rows[..i], ByModel) && Breakdown(byTime, rows[..i], ByTime)
    {
      hide Breakdown;
      var r := rows[i];
      assert rows[..i + 1] == rows[..i] + [r];
      byInstance := Add(byInstance, r.instance, r, rows[..i], ByInstance);
      byProvider := Add(byProvider, r.provider, r, rows[..i], ByProvider);
      byModel := Add(byModel, ModelKey(r.model, r.provider), r, rows[..i], ByModel);
      byTime := Add(byTime, r.bucket, r, rows[..i], ByTime);
    }
    assert rows[..|rows|] == rows;
  }

  // ----- Listing a breakdown -------------------------------------------------------------------

  datatype Stat<K> = Stat(key: K, agg: Agg)

  predicate DistinctKeys<K(==)>(stats: seq<Stat<K>>) {
    forall i, j :: 0 <= i < j < |stats| ==> stats[i].key != stats[j].key
  }

  function Total<K(!new)>(stats: seq<Stat<K>>): Agg {
    if stats == [] then Zero else Plus(Total(stats[..|stats| - 1]), stats[|stats| - 1].agg)
  }

  ghost function Listed<K(!new)>(stats: seq<Stat<K>>): set<K> {
    set s <- stats :: s.key
  }

  lemma ListedMore<K(!new)>(stats: seq<Stat<K>>, last: Stat<K>)
    ensures Listed(stats + [last]) == Listed(stats) + {last.key}
  {
    assert last in stats + [last];
    forall s <- stats ensures s in stats + [last] {}
  }

  /** The listing of a breakdown: every group once, with the sums over its rows. */
  ghost predicate Lists<K(!new)>(stats: seq<Stat<K>>, rows: seq<Row>, key: Row -> K) {
    && DistinctKeys(stats)
    && (forall s <- stats :: s.agg == SumOf(rows, key, s.key))
    && Listed(stats) == KeysOf(rows, key)
  }

  /** Ranges over the map in arbitrary order; `total` is accumulated along the way. */
  method List<K(==,!new)>(m: map<K, Agg>, ghost rows: seq<Row>, ghost key: Row -> K)
    returns (stats: seq<Stat<K>>, total: Agg)
    requires Breakdown(m, rows, key)
    ensures Lists(stats, rows, key) && total == Total(stats) == Sum(rows)
  {
    stats, total := [], Zero;
    var rest := m.Keys;
    while rest != {}
      invariant DistinctKeys(stats) && rest !! Listed(stats) && rest + Listed(stats) == m.Keys
      invariant forall s <- stats :: s.key in m && s.agg == m[s.key]
      invariant total == Total(stats)
      decreases rest
    {
      var k :| k in rest;
      rest := rest - {k};
      ghost var before := stats;
      stats := stats + [Stat(k, m[k])];
      total := Plus(total, m[k]);
      assert stats[..|before|] == before;
      ListedMore(before, Stat(k, m[k]));
      forall s <- before ensures s.key != k {
        assert s.key in Listed(before);
      }
    }
    GroupsSumToAll(stats, rows, key);
  }

  /** The sums of the groups whose keys are listed, each group being summed over the rows. */
  ghost function GroupSums<K(!new)>(stats: seq<Stat<K>>, rows: seq<Row>, key: Row -> K): Agg {
    if stats == [] then Zero
    else Plus(GroupSums(stats[..|stats| - 1], rows, key), SumOf(rows, key, stats[|stats| - 1].key))
  }

  /** One more row changes the sums of exactly one listed group, or of none. */
  lemma {:induction false} GroupSumsOfMore<K(!new)>(stats: seq<Stat<K>>, rows: seq<Row>, r: Row, key: Row -> K)
    requires DistinctKeys(stats)
    ensures GroupSums(stats, rows + [r], key) ==
            if key(r) in Listed(stats) then Plus(GroupSums(stats, rows, key), Single(r))
            else GroupSums(stats, rows, key)
  {
    if stats != [] {
      var front, last := stats[..|stats| - 1], stats[|stats| - 1];
      GroupSumsOfMore(front, rows, r, key);
      assert (rows + [r])[..|rows|] == rows;
      assert stats == front + [last];
      ListedMore(front, last);
      assert last.key !in Listed(front);
    }
  }

  lemma {:induction false} GroupSumsOfAll<K(!new)>(stats: seq<Stat<K>>, rows: seq<Row>, key: Row -> K)
    requires DistinctKeys(stats) && KeysOf(rows, key) <= Listed(stats)
    ensures GroupSums(stats, rows, key) == Sum(rows)
  {
    if rows == [] {
      EmptyGroups(stats, key);
    } else {
      var front, last := rows[..|rows| - 1], rows[|rows| - 1];
      assert rows == front + [last];
      KeysOfMore(front, last, key);
      GroupSumsOfAll(stats, front, key);
      GroupSumsOfMore(stats, front, last, key);
    }
  }

  lemma {:induction false} EmptyGroups<K(!new)>(stats: seq<Stat<K>>, key: Row -> K)
    ensures GroupSums(stats, [], key) == Zero
  {
    if stats != [] {
      EmptyGroups(stats[..|stats| - 1], key);
    }
  }

  lemma {:induction false} TotalIsGroupSums<K(!new)>(stats: seq<Stat<K>>, rows: seq<Row>, key: Row -> K)
    requires forall s <- stats :: s.agg == SumOf(rows, key, s.key)
    ensures Total(stats) == GroupSums(stats, rows, key)
  {
    if stats != [] {
      assert stats[|stats| - 1] in stats;
      TotalIsGroupSums(stats[..|stats| - 1], rows, key);
    }
  }

  /** Whatever the grouping, the groups' sums add up to the sums over the rows. */
  lemma GroupsSumToAll<K(!new)>(stats: seq<Stat<K>>, rows: seq<Row>, key: Row -> K)
    requires Lists(stats, rows, key)
    ensures Total(stats) == Sum(rows)
  {
    TotalIsGroupSums(stats, rows, key);
    GroupSumsOfAll(stats, rows, key);
  }

  /** In a listing, each group's columns are the sums over the rows of that group. */
  lemma ListedGroupsHaveColumns<K(!new)>(stats: seq<Stat<K>>, rows: seq<Row>, key: Row -> K)
    requires Lists(stats, rows, key)
    ensures forall s <- stats :: Columns(s.agg, Where(rows, key, s.key))
  {
    hide Columns;
    forall s <- stats ensures Columns(s.agg, Where(rows, key, s.key)) {
      GroupHasColumns(rows, key, s.key);
    }
  }

  datatype Response = Response(
    total: Agg, byInstance: seq<Stat<nat>>, byProvider: seq<Stat<nat>>, byModel: seq<Stat<ModelKey>>,
    timeSeries: seq<Stat<string>>)

  /** All four breakdowns, and the totals, which are accumulated over the first. */
  method GetUsageStats(rows: seq<Row>) returns (resp: Response)
    ensures Lists(resp.byInstance, rows, ByInstance) && Lists(resp.byProvider, rows, ByProvider)
    ensures Lists(resp.byModel, rows, ByModel) && Lists(resp.timeSeries, rows, ByTime)
    ensures resp.total == Sum(rows) && Columns(resp.total, rows)
    ensures forall s <- resp.byInstance :: Columns(s.agg, Where(rows, ByInstance, s.key))
    ensures forall s <- resp.byProvider :: Columns(s.agg, Where(rows, ByProvider, s.key))
    ensures forall s <- resp.byModel :: Columns(s.agg, Where(rows, ByModel, s.key))
    ensures forall s <- resp.timeSeries :: Columns(s.agg, Where(rows, ByTime, s.key))
    ensures Total(resp.byInstance) == Total(resp.byProvider) == Total(resp.byModel) == Total(resp.timeSeries)
    ensures Total(resp.timeSeries) == Sum(rows)
  {
    hide Lists, Breakdown, Columns, Where, Sum, Total;
    SumHasColumns(rows);
    var byInstance, byProvider, byModel, byTime := Aggregate(rows);
    var instances, total := List(byInstance, rows, ByInstance);
    var providers, _ := List(byProvider, rows, ByProvider);
    var models, _ := List(byModel, rows, ByModel);
    var series, _ := List(byTime, rows, ByTime);
    ListedGroupsHaveColumns(instances, rows, ByInstance);
    ListedGroupsHaveColumns(providers, rows, ByProvider);
    ListedGroupsHaveColumns(models, rows, ByModel);
    ListedGroupsHaveColumns(series, rows, ByTime);
    resp := Response(total, instances, providers, models, series);
  }
}
