/**
  The launch table the dashboard reads, and the group-by aggregations it
  takes over the `Launch Site` column: the per-site sum of `class`
  (`groupby('Launch Site')['class'].sum()`), the per-site row count
  (`.size()`) and the rows of one site (`get_group`).
 */
module LaunchTable {
  import opened Filtering

  /** One row: `Launch Site`, `Payload Mass (kg)`, `class` (the outcome) and `Booster Version`. */
  datatype Record = Record(site: string, payload: real, outcome: int, booster: string)

  /** The distinct values of the `Launch Site` column. */
  function Sites(rs: seq<Record>): set<string>
  {
    if rs == [] then {} else {rs[0].site} + Sites(rs[1..])
  }

  /** The rows of one launch site, in table order. */
  function OfSite(rs: seq<Record>, site: string): seq<Record>
  {
    Filter(rs, (r: Record) => r.site == site)
  }

  /** The rows whose `class` equals `c`, in table order. */
  function WithOutcome(rs: seq<Record>, c: int): seq<Record>
  {
    Filter(rs, (r: Record) => r.outcome == c)
  }

  /** The sum of the `class` column. */
  function ClassSum(rs: seq<Record>): int
  {
    if rs == [] then 0 else rs[0].outcome + ClassSum(rs[1..])
  }

  /** A site has rows exactly when it is one of the table's sites. */
  lemma {:induction false} OfSiteEmpty(rs: seq<Record>, site: string)
    ensures OfSite(rs, site) == [] <==> site !in Sites(rs)
  {
    if rs != [] {
      OfSiteEmpty(rs[1..], site);
      assert Sites(rs) == {rs[0].site} + Sites(rs[1..]);
    }
  }

  /** Taking the first row off the table: what it adds to one site's rows. */
  lemma OfSiteStep(rs: seq<Record>)
    requires rs != []
    ensures Sites(rs) == {rs[0].site} + Sites(rs[1..])
    ensures forall k :: OfSite(rs, k) == (if rs[0].site == k then [rs[0]] else []) + OfSite(rs[1..], k)
  {
  }

  /** Taking the first row off the table: what it adds to one site's `class` sum. */
  lemma SiteSumStep(rs: seq<Record>, k: string)
    requires rs != []
    ensures ClassSum(OfSite(rs, k)) == (if rs[0].site == k then rs[0].outcome else 0) + ClassSum(OfSite(rs[1..], k))
  {
    OfSiteStep(rs);
    var t := OfSite(rs[1..], k);
    if rs[0].site == k {
      assert ([rs[0]] + t)[1..] == t;
    } else {
      assert [] + t == t;
    }
  }

  /** SiteSumStep for every site at once. */
  lemma SiteSumSteps(rs: seq<Record>)
    requires rs != []
    ensures forall k :: ClassSum(OfSite(rs, k)) == (if rs[0].site == k then rs[0].outcome else 0) + ClassSum(OfSite(rs[1..], k))
  {
    forall k ensures ClassSum(OfSite(rs, k)) == (if rs[0].site == k then rs[0].outcome else 0) + ClassSum(OfSite(rs[1..], k)) {
      SiteSumStep(rs, k);
    }
  }

  /** Adds weight `w` to the entry of `key`, creating the entry when it is missing. */
  function Tally(m: map<string, int>, key: string, w: int): map<string, int>
  {
    m[key := w + (if key in m then m[key] else 0)]
  }

  /**
    `groupby('Launch Site')['class'].sum()`, built in one pass over the
    table: one key per distinct site, each holding the sum of `class`
    over that site's rows.
   */
  function GroupSum(rs: seq<Record>): (m: map<string, int>)
    ensures m.Keys == Sites(rs)
    ensures forall k :: k in m ==> m[k] == ClassSum(OfSite(rs, k))
  {
    if rs == [] then map[]
    else
      var rest := GroupSum(rs[1..]);
      var s := rs[0].site;
      var m := Tally(rest, s, rs[0].outcome);
      OfSiteStep(rs);
      assert m[s] == ClassSum(OfSite(rs, s)) by {
        SiteSumStep(rs, s);
        OfSiteEmpty(rs[1..], s);
      }
      assert forall k :: k in m && k != s ==> m[k] == ClassSum(OfSite(rs, k)) by {
        SiteSumSteps(rs);
      }
      m
  }

  /**
    `groupby('Launch Site')['class'].size()`: one key per distinct site,
    each holding the number of that site's rows, which is never zero.
   */
  function GroupSize(rs: seq<Record>): (m: map<string, int>)
    ensures m.Keys == Sites(rs)
    ensures forall k :: k in m ==> m[k] == |OfSite(rs, k)| > 0
  {
    if rs == [] then map[]
    else
      var rest := GroupSize(rs[1..]);
      OfSiteStep(rs);
      OfSiteEmpty(rs[1..], rs[0].site);
      Tally(rest, rs[0].site, 1)
  }

  /** The sum of a map's values, in no particular key order. */
  ghost function MapTotal(m: map<string, int>): int
    decreases |m.Keys|
  {
    if m == map[] then 0
    else
      var k :| k in m;
      assert |(m - {k}).Keys| < |m.Keys| by { assert (m - {k}).Keys < m.Keys; }
      m[k] + MapTotal(m - {k})
  }

  /** The total does not depend on which key is taken out first. */
  lemma {:induction false} MapTotalRemove(m: map<string, int>, k: string)
    requires k in m
    ensures MapTotal(m) == m[k] + MapTotal(m - {k})
    decreases |m.Keys|
  {
    var j :| j in m && MapTotal(m) == m[j] + MapTotal(m - {j});
    if j != k {
      assert (m - {j}).Keys < m.Keys;
      assert (m - {k}).Keys < m.Keys;
      MapTotalRemove(m - {j}, k);
      MapTotalRemove(m - {k}, j);
      assert m - {j} - {k} == m - {k} - {j};
    }
  }

  /** Tallying a weight adds exactly that weight to the total. */
  lemma TallyTotal(m: map<string, int>, key: string, w: int)
    ensures MapTotal(Tally(m, key, w)) == MapTotal(m) + w
  {
    var t := Tally(m, key, w);
    MapTotalRemove(t, key);
    if key in m {
      MapTotalRemove(m, key);
      assert t - {key} == m - {key};
    } else {
      assert t - {key} == m;
    }
  }

  /** The per-site sums add up to the sum of `class` over the whole table. */
  lemma {:induction false} GroupSumTotal(rs: seq<Record>)
    ensures MapTotal(GroupSum(rs)) == ClassSum(rs)
  {
    if rs != [] {
      GroupSumTotal(rs[1..]);
      TallyTotal(GroupSum(rs[1..]), rs[0].site, rs[0].outcome);
    }
  }

  /** The per-site row counts add up to the number of rows. */
  lemma {:induction false} GroupSizeTotal(rs: seq<Record>)
    ensures MapTotal(GroupSize(rs)) == |rs|
  {
    if rs != [] {
      GroupSizeTotal(rs[1..]);
      TallyTotal(GroupSize(rs[1..]), rs[0].site, 1);
    }
  }

  /**
    When every `class` is 0 or 1, the `class` sum counts the successful
    rows and the row count minus the sum counts the failed ones.
   */
  lemma {:induction false} BinaryOutcomeCounts(rs: seq<Record>)
    requires forall r :: r in rs ==> r.outcome == 0 || r.outcome == 1
    ensures ClassSum(rs) == |WithOutcome(rs, 1)|
    ensures |rs| - ClassSum(rs) == |WithOutcome(rs, 0)|
  {
    if rs != [] {
      BinaryOutcomeCounts(rs[1..]);
    }
  }
}
