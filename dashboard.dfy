/**
  The `chart_plot` callback of the launch dashboard: from the launch table,
  the site chosen in the dropdown and the payload range chosen on the
  slider, it computes the data behind the pie chart, the selection label
  and the scatter chart. Only the data handed to the charting library is
  modelled, not the figures themselves.
 */
module Dashboard {
  import opened Filtering
  import opened LaunchTable

  /** The dropdown value that selects every launch site. */
  const AllSites: string := "All Sites"

  /** A failed key lookup on a pandas object (`KeyError`). */
  datatype Error = KeyError(key: string)

  datatype Result<T> = Ok(value: T) | Err(error: Error) {
    predicate IsFailure() { Err? }

    function PropagateFailure<U>(): Result<U>
      requires Err?
    {
      Err(error)
    }

    function Extract(): T
      requires Ok?
    {
      value
    }
  }

  /** The table handed to the pie chart. */
  datatype Pie =
    | SiteTotals(totals: map<string, int>)   // names: Launch Site, values: sum of class
    | Outcomes(success: int, failure: int)   // names: Success / Failure, values: counts

  /** The column the scatter chart colours its points by. */
  datatype Colour = BySite | ByBooster

  /** The table handed to the scatter chart, and its colour column. */
  datatype Scatter = Scatter(rows: seq<Record>, colour: Colour)

  /** One scatter point: payload on x, `class` on y, and the colour key. */
  datatype Point = Point(payload: real, outcome: int, key: string)

  datatype Charts = Charts(pie: Pie, selection: string, scatter: Scatter)

  /** The points the scatter chart draws, one per row, in row order. */
  function Points(sc: Scatter): seq<Point>
  {
    seq(|sc.rows|, i requires 0 <= i < |sc.rows| =>
      var r := sc.rows[i];
      Point(r.payload, r.outcome, if sc.colour == BySite then r.site else r.booster))
  }

  /** Indexing a per-site series by a site name. */
  function Lookup(series: map<string, int>, key: string): Result<int>
  {
    if key in series then Ok(series[key]) else Err(KeyError(key))
  }

  /** Element-wise difference of two series over their common sites. */
  function Minus(a: map<string, int>, b: map<string, int>): map<string, int>
  {
    map k | k in a.Keys * b.Keys :: a[k] - b[k]
  }

  /** `get_group(site)`: the rows of one site, or a `KeyError` for a site with no rows. */
  function GetGroup(rs: seq<Record>, site: string): (r: Result<seq<Record>>)
    ensures r.Ok? <==> site in Sites(rs)
    ensures r.Ok? ==> r.value == OfSite(rs, site) && r.value != []
    ensures r.Err? ==> r.error == KeyError(site)
  {
    OfSiteEmpty(rs, site);
    if site in Sites(rs) then Ok(OfSite(rs, site)) else Err(KeyError(site))
  }

  /** The slider's mask: rows whose payload lies strictly between `lo` and `hi`. */
  function InPayloadRange(rs: seq<Record>, lo: real, hi: real): seq<Record>
  {
    Filter(rs, (r: Record) => lo < r.payload < hi)
  }

  /** The text echoed back under the dropdown. */
  function Label(site: string): string
  {
    "You have selected " + site
  }

  /**
    `chart_plot(site_i, payLD)`. With "All Sites" the pie holds the sum of
    `class` per site and the scatter holds every row in the payload range,
    coloured by site. With one site the pie holds its success and failure
    counts and the scatter holds that site's rows in the payload range,
    coloured by booster version; a site the table does not hold fails with
    the `KeyError` of its first lookup.
   */
  function ChartPlot(rs: seq<Record>, site: string, payLD: (real, real)): (out: Result<Charts>)
    ensures out.Err? <==> site != AllSites && site !in Sites(rs)
    ensures out.Err? ==> out.error == KeyError(site)
    ensures out.Ok? ==> out.value.selection == "You have selected " + site
  {
    var (lo, hi) := payLD;
    if site == AllSites then
      var totals := GroupSum(rs);
      var inRange := InPayloadRange(rs, lo, hi);
      Ok(Charts(SiteTotals(totals), Label(site), Scatter(inRange, BySite)))
    else
      var ones := GroupSum(rs);
      var all := GroupSize(rs);
      var zeros := Minus(all, ones);
      var success :- Lookup(ones, site);
      // Once `ones` holds the site, so do `zeros` and the group.
      var failure := Lookup(zeros, site).value;
      var group := GetGroup(rs, site).value;
      var inRange := InPayloadRange(group, lo, hi);
      Ok(Charts(Outcomes(success, failure), Label(site), Scatter(inRange, ByBooster)))
  }

  /**
    With "All Sites" the pie has one slice per distinct launch site, each
    slice is the sum of `class` over that site's rows, and the slices add
    up to the sum of `class` over the whole table.
   */
  lemma AllSitesPie(rs: seq<Record>, payLD: (real, real))
    ensures ChartPlot(rs, AllSites, payLD).Ok?
    ensures ChartPlot(rs, AllSites, payLD).value.pie.SiteTotals?
    ensures var t := ChartPlot(rs, AllSites, payLD).value.pie.totals;
      && t.Keys == Sites(rs)
      && (forall k :: k in t ==> t[k] == ClassSum(OfSite(rs, k)))
      && MapTotal(t) == ClassSum(rs)
  {
    GroupSumTotal(rs);
  }

  /**
    For a site the table holds, Success is the sum of `class` over its rows
    and Failure is its row count minus that sum, so the two add up to the
    site's row count.
   */
  lemma SitePie(rs: seq<Record>, site: string, payLD: (real, real))
    requires site != AllSites && site in Sites(rs)
    ensures ChartPlot(rs, site, payLD).Ok?
    ensures ChartPlot(rs, site, payLD).value.pie.Outcomes?
    ensures var p := ChartPlot(rs, site, payLD).value.pie;
      && p.success == ClassSum(OfSite(rs, site))
      && p.success + p.failure == |OfSite(rs, site)|
  {
  }

  /**
    When every `class` of the site is 0 or 1, Success counts the site's
    rows with `class` 1 and Failure those with `class` 0.
   */
  lemma SitePieBinary(rs: seq<Record>, site: string, payLD: (real, real))
    requires site != AllSites && site in Sites(rs)
    requires forall r :: r in OfSite(rs, site) ==> r.outcome == 0 || r.outcome == 1
    ensures ChartPlot(rs, site, payLD).Ok?
    ensures ChartPlot(rs, site, payLD).value.pie.Outcomes?
    ensures var p := ChartPlot(rs, site, payLD).value.pie;
      && p.success == |WithOutcome(OfSite(rs, site), 1)|
      && p.failure == |WithOutcome(OfSite(rs, site), 0)|
  {
    SitePie(rs, site, payLD);
    BinaryOutcomeCounts(OfSite(rs, site));
  }

  /** A site other than "All Sites" that the table does not hold is a `KeyError`, not an empty chart. */
  lemma UnknownSite(rs: seq<Record>, site: string, payLD: (real, real))
    requires site != AllSites && site !in Sites(rs)
    ensures ChartPlot(rs, site, payLD) == Err(KeyError(site))
  {
  }

  /** The rows the scatter chart starts from: the whole table, or the chosen site's rows. */
  function ScatterSource(rs: seq<Record>, site: string): seq<Record>
  {
    if site == AllSites then rs else OfSite(rs, site)
  }

  /**
    Every scatter row lies strictly inside the payload range, so a row whose
    payload equals either bound never appears; in particular an empty or
    single-point range (`lo >= hi`) gives an empty scatter.
   */
  lemma ScatterStrictlyInRange(rs: seq<Record>, site: string, payLD: (real, real))
    requires ChartPlot(rs, site, payLD).Ok?
    ensures forall r :: r in ChartPlot(rs, site, payLD).value.scatter.rows ==> payLD.0 < r.payload < payLD.1
    ensures payLD.0 >= payLD.1 ==> ChartPlot(rs, site, payLD).value.scatter.rows == []
  {
    var (lo, hi) := payLD;
    if lo >= hi {
      var p := (r: Record) => lo < r.payload < hi;
      assert ChartPlot(rs, site, payLD).value.scatter.rows == Filter(ScatterSource(rs, site), p);
      FilterNone(ScatterSource(rs, site), p);
    }
  }

  /**
    The scatter rows are the in-range rows of the source (the whole table
    with "All Sites", otherwise the chosen site's rows): a subsequence of
    it that keeps every in-range row, as often as it occurs.
   */
  lemma ScatterKeepsInRangeRows(rs: seq<Record>, site: string, payLD: (real, real))
    requires ChartPlot(rs, site, payLD).Ok?
    ensures Subsequence(ChartPlot(rs, site, payLD).value.scatter.rows, ScatterSource(rs, site))
    ensures forall r :: r in ScatterSource(rs, site) && payLD.0 < r.payload < payLD.1 ==>
      multiset(ChartPlot(rs, site, payLD).value.scatter.rows)[r] == multiset(ScatterSource(rs, site))[r]
  {
    var (lo, hi) := payLD;
    var src := ScatterSource(rs, site);
    var p := (r: Record) => lo < r.payload < hi;
    assert ChartPlot(rs, site, payLD).value.scatter.rows == Filter(src, p);
    FilterSubsequence(src, p);
    forall r | r in src && lo < r.payload < hi
      ensures multiset(Filter(src, p))[r] == multiset(src)[r]
    {
      FilterMultiplicity(src, p, r);
    }
  }

  /**
    The scatter colours by launch site with "All Sites"; for one site every
    scatter row belongs to that site and the colour is the booster version.
   */
  lemma ScatterOfOneSite(rs: seq<Record>, site: string, payLD: (real, real))
    requires ChartPlot(rs, site, payLD).Ok?
    ensures site == AllSites ==> ChartPlot(rs, site, payLD).value.scatter.colour == BySite
    ensures site != AllSites ==> ChartPlot(rs, site, payLD).value.scatter.colour == ByBooster
    ensures site != AllSites ==> forall r :: r in ChartPlot(rs, site, payLD).value.scatter.rows ==> r.site == site
  {
  }

  /**
    The scatter draws one point per scatter row, every point's payload lies
    strictly inside the range, and for one site every point is keyed by the
    booster version of one of that site's rows.
   */
  lemma ScatterPoints(rs: seq<Record>, site: string, payLD: (real, real))
    requires ChartPlot(rs, site, payLD).Ok?
    ensures var sc := ChartPlot(rs, site, payLD).value.scatter;
      |Points(sc)| == |sc.rows|
    ensures forall pt :: pt in Points(ChartPlot(rs, site, payLD).value.scatter) ==> payLD.0 < pt.payload < payLD.1
    ensures site != AllSites ==> forall pt :: pt in Points(ChartPlot(rs, site, payLD).value.scatter) ==>
      exists r :: r in OfSite(rs, site) && r.booster == pt.key && r.payload == pt.payload
  {
    var sc := ChartPlot(rs, site, payLD).value.scatter;
    var pts := Points(sc);
    ScatterStrictlyInRange(rs, site, payLD);
    ScatterOfOneSite(rs, site, payLD);
    forall pt | pt in pts
      ensures payLD.0 < pt.payload < payLD.1
      ensures site != AllSites ==> exists r :: r in OfSite(rs, site) && r.booster == pt.key && r.payload == pt.payload
    {
      var i :| 0 <= i < |pts| && pts[i] == pt;
      var r := sc.rows[i];
      assert r in sc.rows;
      if site != AllSites {
        assert r in OfSite(rs, site);
      }
    }
  }
}
