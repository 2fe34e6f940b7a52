# Global steel plants dashboard — a Dafny model of its data logic

The dashboard is a single Streamlit script, `dashboard.py`. It reads a table of steel plants and cleans it:

- it derives the crude-steel capacity in Mtpa from the ttpa column;
- it splits the composite coordinate text into latitude and longitude;
- it drops the plants that cannot be placed on a map.

It then narrows the table by the sidebar selection: companies, countries, and a capacity range whose bounds come from the data. For the rows that remain it computes four key figures and the style of each map marker (a clamped radius and a colour looked up by region).

This project models that data path and proves what it promises. The modules follow the script's stages:

| module | file | stage |
|---|---|---|
| `Table` | table.dfy | the plant record and boolean-mask row selection (`Keep`) |
| `Numbers` | numbers.dfy | rounding to two decimals, half to even as numpy's `round` does |
| `Cleaning` | cleaning.dfy | `load_and_clean_data` |
| `Filters` | filters.dfy | capacity-range bounds and the three filter stages |
| `Metrics` | metrics.dfy | the KPIs |
| `MapStyle` | map_style.dfy | marker radius and region colour |
| `Dashboard` | dashboard.dfy | one run of the script, from raw rows to what is shown |

Modelling choices:

- The script rebinds its dataframes step by step. The steps that do so are methods: `Cleaning.LoadAndClean`, `Filters.ApplyFilters`, `MapStyle.BuildMapData` and `Dashboard.Render`. Each one is proved against a specification function (`Cleaned`, `Filtered`, `Keep`). The script has no explicit loops, and neither do these methods: each column operation is a sequence comprehension or a `Keep`.
- The per-row rules and the aggregates are pure functions.
- A table is a `seq<Row>`. A missing value (pandas NaN) is `None`.
- Capacities and coordinates are exact `real`s.
- The library's numeric parser `pd.to_numeric(..., errors='coerce')` is a parameter `parse: string -> Option<real>`. It is `None` where the library gives NaN.
- The sidebar selection is a `Filters.Selection` value handed to the model, as the widgets hand it to the script.

## Model

| member | source | states |
|---|---|---|
| Table.Keep | dashboard.py:101-111 | mask selection keeps only rows that pass the mask and never grows the table |
| Table.KeepMembers | dashboard.py:101-111 | a row is in the selection iff it is in the table and passes the mask |
| Table.KeepSubsequence | dashboard.py:101-111 | a selection only deletes rows; it neither alters nor reorders them |
| Table.SubsequenceShorter | dashboard.py:99-111 | a subsequence of a table has at most as many rows |
| Table.KeepAll | dashboard.py:107-111 | a mask every row passes selects the whole table |
| Table.KeepSame | dashboard.py:101-105 | two masks that agree on every row of the table select the same rows |
| Table.KeepKeep | dashboard.py:99-111 | narrowing by one mask and then another is narrowing once by their conjunction |
| Table.KeepIdempotent | dashboard.py:99-111 | selecting twice with the same mask gives the same table as selecting once |
| Table.KeepPartition | dashboard.py:45 | the rows kept and the rows dropped by a mask together number the whole table |
| Numbers.Round2 | dashboard.py:85-86 | `round(2)` gives a whole number of hundredths within 0.005 of its argument |
| Numbers.Round2OfCents | dashboard.py:126 | rounding a value already in hundredths leaves it unchanged |
| Numbers.FloorCents | dashboard.py:85 | the greatest multiple of 0.01 not above the value, less than 0.01 below it |
| Numbers.CeilCents | dashboard.py:86 | the least multiple of 0.01 not below the value, less than 0.01 above it |
| Cleaning.Split | dashboard.py:38 | splitting on ", " gives at least one part, no part contains the separator, and joining the parts with ", " gives back the text |
| Cleaning.SplitWithoutSeparator | dashboard.py:38 | text without the separator splits into itself alone |
| Cleaning.SplitAfterPart | dashboard.py:38 | a separator-free head followed by ", " splits off as the first part |
| Cleaning.SplitJoin | dashboard.py:38 | split undoes join when no part contains the separator |
| Cleaning.FirstPartIsPrefix | dashboard.py:38 | the first part of a split is a prefix of the text |
| Cleaning.SeparatorAfterFirstPart | dashboard.py:38 | with two or more parts, the separator follows right after the first part |
| Cleaning.NoCommaNoSeparator | dashboard.py:38 | text without a comma contains no separator |
| Cleaning.SplitExample | dashboard.py:37-38 | the dataset's coordinate text "36.7539610, 6.2444200" splits into "36.7539610" and "6.2444200" |
| Cleaning.DeriveCapacity | dashboard.py:35 | capacity is present iff the raw cell is present and parses; it is then the parsed ttpa value divided by 1000 |
| Cleaning.DeriveCapacityExamples | dashboard.py:34-35 | raw 1500 gives 1.5 Mtpa; "unknown" and an empty cell give no capacity |
| Cleaning.ParseCoordinates | dashboard.py:38-42 | a longitude exists only when the text has a separator; text without one yields the parsed whole text as latitude and no longitude |
| Cleaning.ParseFormattedCoordinates | dashboard.py:38-42 | "lat, lon" with separator-free halves parses each half into its own coordinate |
| Cleaning.Prepare | dashboard.py:35-42 | only the three derived columns of a row change, and they are the derived capacity and the parsed coordinates |
| Cleaning.Prepared | dashboard.py:35-42 | row i of the result is row i with its derived columns; the row count is kept |
| Cleaning.LoadAndClean | dashboard.py:30-47 | the cleaned table is the prepared table without the rows missing a coordinate; every kept row has both coordinates; rows keep their order; a prepared row is kept iff it has both coordinates |
| Cleaning.UnseparatedCoordinatesDropped | dashboard.py:37-45 | a plant whose coordinate text has no ", " is dropped by cleaning |
| Filters.ApplyFilters | dashboard.py:99-111 | the three successive narrowings give the rows of the table that satisfy the combined selection, in order; a row survives iff it is in the table and selected |
| Filters.FilterIdempotent | dashboard.py:99-111 | applying the same filters to the filtered table changes nothing |
| Filters.EmptyOwnersMeansAll | dashboard.py:101-102 | an empty company selection filters as selecting every company of the table |
| Filters.EmptyCountriesMeansAll | dashboard.py:104-105 | an empty country selection filters as selecting every country of the table |
| Filters.RangeEndsIncluded | dashboard.py:107-111 | a row whose capacity equals either end of the range survives the filter |
| Filters.UnknownCapacityNeverExcluded | dashboard.py:108 | a row without capacity passes the capacity stage for every range |
| Filters.CapacityAdmits | dashboard.py:108-110 | the capacity stage admits every row without capacity; with an inverted range it admits exactly those; a capacity at either end is admitted iff the range is not inverted |
| Filters.Selected | dashboard.py:101-111 | the ANDed rule; with no company and no country selected it is the capacity stage alone, and a selected row's known capacity lies inside the range |
| Filters.CountriesOf | dashboard.py:128 | the set of country values behind `nunique`: every row's country is in it, and it is empty iff the table is |
| Filters.Capacities | dashboard.py:83 | the known capacities are exactly the capacities of rows that have one; the list is empty iff no row has a capacity |
| Filters.CapacitiesCount | dashboard.py:83 | there is one known capacity per row that has one, so the list is as long as the rows with a capacity |
| Filters.Min | dashboard.py:85 | the least element of a non-empty list of capacities |
| Filters.Max | dashboard.py:86 | the greatest element of a non-empty list of capacities |
| Filters.CapacityBounds | dashboard.py:83-96 | the range is (0, 0) when no capacity is known; otherwise both bounds are whole hundredths, the lower within 0.005 of the least known capacity and the upper within 0.005 of the greatest, so every known capacity lies within 0.005 of the range |
| Filters.NoCapacityKeepsEveryRow | dashboard.py:94-96 | with no known capacity the range is (0, 0) and the capacity stage keeps every row |
| Filters.CapacityBoundsOutward | dashboard.py:85-86 | the corrected bounds are (0, 0) when no capacity is known; otherwise they are whole hundredths, the lower not above the least capacity and less than 0.01 below it, the upper not below the greatest capacity and less than 0.01 above it; they admit every row of the table |
| Filters.OutwardBoundsKeepEveryRow | dashboard.py:85-86 | at the outward-rounded default range the capacity stage keeps the whole table |
| Filters.RoundedBoundsDropSmallestPlant | dashboard.py:85-86 | plants of 0.126 and 5 Mtpa get the range (0.13, 5.0), and the default filter drops the smaller plant |
| Metrics.CapacitySumSkipsUnknown | dashboard.py:126 | the capacity total is the sum of the known capacities, absent values skipped |
| Metrics.CapacitySumAppend | dashboard.py:126 | the total over two blocks of rows is the sum of their totals |
| Metrics.CapacitySumPartition | dashboard.py:126 | the totals of the rows a mask keeps and drops add up to the total of the table |
| Metrics.CountriesAtMostRows | dashboard.py:128 | the number of distinct countries is at most the number of rows |
| Metrics.CapacitySum | dashboard.py:126 | the NaN-skipping column sum: 0 when no capacity is known, and never negative when no known capacity is negative |
| Metrics.Kpis | dashboard.py:125-128 | the count is the row count; the total and a present average are whole hundredths; the total is within 0.005 of the sum of known capacities; the average is absent iff no capacity is known, is 0 for an empty table, and otherwise lies within 0.005 of the sum of known capacities divided by the number of rows that have one; the country figure is the number of distinct countries, at most the count |
| Metrics.KpisFromTotals | dashboard.py:125-128 | any four rows whose known capacities are 1, 2 and 3, all in one country, give 4 plants, a total of 6, a mean of 2 and 1 country |
| Metrics.KpiExample | dashboard.py:125-128 | capacities [1, 2, absent, 3] give 4 plants, total 6.0, average 2.0 and 1 country |
| MapStyle.Radius | dashboard.py:154 | the radius always lies in [5000, 80000]; it equals capacity × 20000 inside that band and the nearer end outside it |
| MapStyle.RadiusMonotone | dashboard.py:154 | a larger capacity never gets a smaller radius |
| MapStyle.RadiusExamples | dashboard.py:154 | capacity 0.0001 gives 5000, 1 gives 20000 and 10 gives 80000 |
| MapStyle.PaletteAvoidsGrey | dashboard.py:158-166 | no palette colour is the fallback grey, and every palette colour has alpha 160 |
| MapStyle.RegionColour | dashboard.py:169-171 | a region that is a palette key gets its palette colour; the colour is grey iff the region is missing or not an exact key |
| MapStyle.CentralSouthAmericaColour | dashboard.py:164 | "Central & South America" without the trailing blank is drawn grey; the key as written is purple |
| MapStyle.Plottable | dashboard.py:149 | the `dropna` subset of the map: a plottable row has both coordinates and a capacity, so its radius lies in [5000, 80000] |
| MapStyle.BuildMapData | dashboard.py:148-171 | there is one marker per plottable row of the filtered table, in order, with that row's clamped radius and region colour; every marker's plant is in the filtered table |
| Dashboard.Render | dashboard.py:49-171 | the run stops with "no match" iff the filtered clean table is empty; otherwise it shows that table, the KPIs computed from it (at least one plant), and exactly one marker per plottable plant of the table, in order, each with that plant's clamped radius and region colour |
| Dashboard.FixtureEndToEnd | dashboard.py:30-47 | for five plants, one with the coordinate text "bad" and one with capacity "unknown", cleaning keeps four plants, three of them with a capacity |
| Dashboard.FixtureCleaned | dashboard.py:44-45 | the cleaned five-plant fixture is its first, second, third and fifth plant, prepared |
| Dashboard.CleanedDropsFourth | dashboard.py:44-45 | five rows of which only the fourth lacks a coordinate clean to the other four, in order |

## Left out

- Reading the CSV file and the `FileNotFoundError` branch (dashboard.py:32, 49-53): file I/O. The model starts from the raw rows.
- `@st.cache_data` (dashboard.py:29): memoisation with no effect on the result.
- Page setup, the sidebar widgets, the metric display, the data table and the `st.error`/`st.stop` calls are framework calls. The stop is modelled as the `NoMatch` view.
- The selection values come from the widgets. They are a parameter.
- The sorted option lists and the "first ten companies" default (dashboard.py:67-80): UI defaulting.
- The pydeck layer, the tooltip and the view state, including the mean map centre (dashboard.py:174-206): foreign rendering code.
- `pd.to_numeric` itself is the parameter `parse`; which texts it accepts is not modelled.
- A coordinate text with two or more separators makes the column assignment at dashboard.py:38 fail for the whole table, because pandas then produces more than two columns. Text with no separator anywhere in the column likewise yields a single column. The model takes the first part and, when present, the second part of each row's split, without the table-wide failure.
- The owner and country cells are always text. An empty cell among text cells makes `sorted` at dashboard.py:67/75 raise TypeError before any filter runs; the model assumes every owner and country cell is text and does not model that crash.
- Floating point: capacities, sums, means and radii are exact reals. Binary rounding of decimal values such as 0.126 is not modelled.
- Numbers.Round2: a tie is settled on the exact decimal value. numpy decides it on the nearest binary double, so a written tie can round differently in the script: 1.015 is stored just below 1.015, numpy gives 1.01, while `Round2(1.015)` is 1.02.
- The `map_data.get("Region", "Unknown")` branch for a table with no Region column (dashboard.py:169) is not modelled. The Region column is assumed present; an empty cell is `None`.
- The Streamlit slider rejects a range whose minimum equals its maximum. By dashboard.py:85-86 that happens whenever the least and the greatest known capacity round to the same hundredth: a single known capacity, two plants of 1.5 Mtpa, or plants of 1.501 and 1.504 Mtpa. This is framework behaviour and is not modelled.

## Findings

| source | as written | input that shows it | evidently intended | confidence | as-written member | corrected member |
|---|---|---|---|---|---|---|
| dashboard.py:85-86 | the slider bounds are the least and greatest known capacity, each rounded to two decimals, so the least can round up and the greatest can round down | plants of 0.126 and 5.0 Mtpa: the range becomes (0.13, 5.0) and the default filter drops the 0.126 Mtpa plant | the default range keeps every plant: round the least capacity down and the greatest up to hundredths | not executed | Filters.RoundedBoundsDropSmallestPlant | Filters.OutwardBoundsKeepEveryRow |
