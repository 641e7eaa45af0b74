# SpaceX launch dashboard: the chart callback

This project models the data side of the `chart_plot` callback of the SpaceX
launch records dashboard (`spacex_dash_app2.py`). The callback receives the
site chosen in the dropdown and the `[lo, hi]` payload range of the slider.
It reads the launch table and returns three things:

- the pie data: with "All Sites", the sum of `class` per launch site; with one
  site, that site's Success count and Failure count;
- the selection label `You have selected <site>`;
- the scatter data: the rows whose payload lies strictly between `lo` and `hi`.
  With "All Sites" the rows come from the whole table and are coloured by
  launch site. With one site they come from that site only and are coloured
  by booster version.

The model is pure, like the callback. There are three modules:

- `Filtering` (filtering.dfy): row selection by a boolean mask (`df[mask]`),
  with its soundness, completeness, order and multiplicity lemmas.
- `LaunchTable` (launch_table.dfy): the launch record and the group-by
  aggregations over `Launch Site`: `sum()` of `class`, `size()` and the rows of
  one site (`get_group`). It also proves that the per-site values add up to
  the whole-table totals.
- `Dashboard` (dashboard.dfy): `ChartPlot`, the callback itself, returning
  `Result<Charts>`. It returns `Err(KeyError(site))` where pandas raises
  `KeyError`. Lemmas state what each of the three outputs holds.

The launch table is a parameter of `ChartPlot` rather than module-level state
read from a CSV file. A payload is a `real` and `class` is an `int`. `class` is
not assumed to be 0 or 1: the facts that hold only for 0/1 outcomes carry that
as a `requires`.

Unknown sites: the code raises `KeyError` at the first lookup, `df_1[site_i]`
on line 71. The model follows the code: any site other than "All Sites" that has
no rows yields `Err(KeyError(site))`, never an empty chart.

## Model

| member | source | states |
|---|---|---|
| `Filtering.Filter` | spacex_dash_app2.py:65-76 | a boolean-mask selection keeps only input rows that satisfy the mask and is never longer than its input |
| `Filtering.FilterConcat` | spacex_dash_app2.py:65-76 | masking a concatenation masks each part, so kept rows stay in table order |
| `Filtering.FilterMultiplicity` | spacex_dash_app2.py:65-76 | a row satisfying the mask is kept exactly as many times as it occurs; a row failing it is dropped |
| `Filtering.FilterComplete` | spacex_dash_app2.py:65-76 | every input row that satisfies the mask appears in the selection |
| `Filtering.FilterSubsequence` | spacex_dash_app2.py:65-76 | the selection is a subsequence of its input |
| `Filtering.FilterNone` | spacex_dash_app2.py:65-76 | a mask that no row satisfies selects nothing |
| `LaunchTable.OfSiteEmpty` | spacex_dash_app2.py:75 | a site has no rows exactly when it is not among the table's Launch Site values, the case where `get_group` raises |
| `LaunchTable.GroupSum` | spacex_dash_app2.py:61 | `groupby('Launch Site')['class'].sum()` has one key per distinct site, each holding the sum of `class` over that site's rows |
| `LaunchTable.GroupSize` | spacex_dash_app2.py:69 | `groupby('Launch Site')['class'].size()` has one key per distinct site, each holding that site's row count, which is positive |
| `LaunchTable.GroupSumTotal` | spacex_dash_app2.py:61-63 | the per-site sums add up to the sum of `class` over the whole table |
| `LaunchTable.GroupSizeTotal` | spacex_dash_app2.py:69 | the per-site row counts add up to the number of rows |
| `LaunchTable.BinaryOutcomeCounts` | spacex_dash_app2.py:68-70 | when every `class` is 0 or 1, the sum counts the class-1 rows and the count minus the sum counts the class-0 rows |
| `Dashboard.GetGroup` | spacex_dash_app2.py:75 | `get_group(site)` returns that site's non-empty rows when the site occurs, and otherwise raises `KeyError` |
| `Dashboard.ChartPlot` | spacex_dash_app2.py:59-78 | the callback fails exactly when the site is neither "All Sites" nor a site of the table, failing with `KeyError(site)`; otherwise the label is `You have selected <site>` |
| `Dashboard.AllSitesPie` | spacex_dash_app2.py:60-63 | with "All Sites" the pie has exactly one slice per distinct site, each the sum of `class` over that site's rows, and the slices add up to the table's total `class` |
| `Dashboard.SitePie` | spacex_dash_app2.py:68-71 | for a known site, Success is the sum of `class` over its rows and Success + Failure is its row count |
| `Dashboard.SitePieBinary` | spacex_dash_app2.py:68-71 | for a known site whose `class` values are 0 or 1, Success is the number of class-1 rows and Failure the number of class-0 rows |
| `Dashboard.UnknownSite` | spacex_dash_app2.py:71-75 | a site other than "All Sites" with no rows gives `KeyError(site)`, not an empty chart |
| `Dashboard.ScatterStrictlyInRange` | spacex_dash_app2.py:65-76 | every scatter row has `lo < payload < hi`, and `lo >= hi` (including `lo == hi`) gives an empty scatter |
| `Dashboard.ScatterKeepsInRangeRows` | spacex_dash_app2.py:65-76 | the scatter rows are a subsequence of the whole table (for "All Sites") or of the site's rows, and keep every in-range row of that source as often as it occurs |
| `Dashboard.ScatterOfOneSite` | spacex_dash_app2.py:66-77 | with "All Sites" the scatter is coloured by site; with one site it is coloured by booster version and every scatter row belongs to that site |
| `Dashboard.ScatterPoints` | spacex_dash_app2.py:66-77 | there is one scatter point per scatter row, every point's payload is strictly inside the range, and for one site every point carries the booster version of one of that site's rows |

## Left out

- CSV loading (line 10) and the slider's bounds and step (lines 11-12, 41-42): file I/O and UI configuration. The table is a parameter, and the payload range arrives as a pair of reals.
- The Dash app, the page layout, the dropdown and slider widgets (lines 15-48), the callback wiring (lines 52-58) and `app.run_server()` (line 86): framework and web server.
- The `px.pie` and `px.scatter` figure objects and their titles (lines 63, 66, 73, 77). Only the data handed to them is modelled: the pie's site-to-value map or its Success/Failure pair, and the scatter rows with their colour column.
- The key order of pandas group-by output (sorted sites): the "All Sites" pie is a map from site to value, with no order.
- Floating-point payloads: payloads and bounds are exact reals, with no NaN. In pandas a NaN payload fails both comparisons and is dropped; that case is not modelled.
- Dropdown values other than strings (a cleared dropdown sends no value): the site is always a string.
- Pandas alignment of two series with different indexes (NaN for the missing keys) in `df_all - df_1`: both series have the same sites here, so `Minus` is defined on the common sites only.
- Calling the callback twice with the same inputs gives the same result: this holds by construction, because `ChartPlot` is a Dafny function of its inputs. No lemma states it.
