# Geo chart data and drill eventing, in Dafny

This project models three parts of the GoodData React components library.

- **Geo chart helpers** (`src/helpers/geoChart.ts`), in module `GeoChart`:
  - how the buckets of a visualization are resolved to bucket roles (`location`, `segmentBy`, `tooltipText`, `size`, `color`);
  - how each role finds its position and name in the attribute headers or in the measure group header;
  - which dimension holds the attribute header items;
  - the "reasonable size" test on the location column;
  - the average of a list of numbers;
  - how a colour series is cut into six colour-axis classes.
- **Pushpin data source** (`src/components/core/geoChart/geoChartDataSource.ts`), in module `GeoChartDataSource`:
  - parsing `"lat;lng"` location names;
  - building one GeoJSON point feature per row whose location parses, with its location name, colour, size and segment properties taken from the same row;
  - clustering pushpins when there is no size measure;
  - the six-item colour legend.
- **Drill eventing** (`src/components/visualizations/utils/drilldownEventing.ts`), in module `DrilldownEventing`:
  - mapping a chart type to its clickable element;
  - composing point, group ("label") and table ("cell") drill contexts;
  - choosing the series type in combo charts;
  - building drill intersection elements;
  - `fireEvent`, which calls the user's callback once and then dispatches a bubbling `"drill"` event unless the callback returned `false`.

Two support modules hold shared definitions:
- `Wrappers` holds `Option` and JavaScript's `undefined`/truthiness conventions.
- `Execution` holds the shapes of an execution result and its headers.

Modelling choices:
- Numbers are `real`. `undefined` and `NaN` are `None`.
- Collaborators whose code is not part of this model are parameters. These are `stringToFloat`, `getHeaderItemName`, `getPushpinColors`, the colour palette, the colour strategy's `getColorByIndex`, rounding to 15 significant digits, and `Number.prototype.toString`.
- The geo data object is a map from role to `RoleRef(index, name)`.
- Two functions work by mutating step by step and are methods with loop invariants: `getGeoData` (two `forEach` loops filling the geo data) and `getColorAxisData` (a `for` loop pushing classes).
- `composeDrillContextPoint` fills optional fields one condition at a time, so it is a method specified by the predicate `IsPointContext`.
- The callback and the event target are classes. `DrillCallback` records the events it received. `DrillTarget` records the events dispatched on it.
- An `invariant(false, …)` failure, or a `TypeError` on a missing clicked point, is an exception. The model shows it as nothing being called and nothing being dispatched.

## Model

| member | source | states |
|---|---|---|
| GeoChart.ItemInfoOf | src/helpers/geoChart.ts:31-36 | A bucket with no items has no uri and no identifier. For a first item that is a measure, the info is its item uri (possibly undefined) and `Some` of its local identifier, even an empty one. For an attribute, the uri is its display-form uri when that is truthy, else undefined (the measure path it falls through to is absent). Its identifier is its local identifier when non-empty, else undefined. |
| GeoChart.BucketItemInfos | src/helpers/geoChart.ts:27-40 | There is one entry per bucket local identifier, and no other keys. |
| GeoChart.LastBucketWins | src/helpers/geoChart.ts:27-40 | The entry under a bucket's name is that bucket's own info when no later bucket has the same name. The object spread lets later buckets override earlier ones. |
| GeoChart.FindAttributeHeader | src/helpers/geoChart.ts:50-54 | `findIndex`: -1 exactly when no attribute header matches by local identifier or uri. Otherwise the result is the first matching index. |
| GeoChart.FindMeasureHeader | src/helpers/geoChart.ts:70-74 | The same, over the measure group header. |
| GeoChart.ResolveRole | src/helpers/geoChart.ts:44-82 | A role resolves only if its bucket exists and some header of the role's own kind matches. Location, segmentBy and tooltipText use the attribute headers; size and color use the measure headers. The index is the first match, and the name is that header's name. |
| GeoChart.AttributeRolesIgnoreMeasures | src/helpers/geoChart.ts:44-62 | Attribute roles resolve the same whatever the measure headers are. |
| GeoChart.MeasureRolesIgnoreAttributes | src/helpers/geoChart.ts:64-82 | Measure roles resolve the same whatever the attribute headers are. |
| GeoChart.GetGeoData | src/helpers/geoChart.ts:16-85 | A role is a key of the geo data exactly when it resolves, and then it holds the resolved index and name. |
| GeoChart.AttributeDimension | src/helpers/geoChart.ts:91-95 | The attribute items are in dimension 1 exactly when a colour or size measure is present, and in dimension 0 otherwise. |
| GeoChart.GeoAttributeHeaderItems | src/helpers/geoChart.ts:87-99 | The result is `headerItems[1]` when colour or size is present, and `headerItems[0]` otherwise (undefined when missing). |
| GeoChart.AttributeColumn | src/helpers/geoChart.ts:109 | An absent role gives `[]`. A present role gives the header items at its index. |
| GeoChart.IsDataOfReasonableSize | src/helpers/geoChart.ts:101-112 | True exactly when the location column has at most `limit` rows. Without a location role this reduces to `0 <= limit`. |
| GeoChart.Min | src/helpers/geoChart.ts:141 | `Math.min` of a non-empty list is one of its values and no larger than any value. |
| GeoChart.Max | src/helpers/geoChart.ts:142 | `Math.max` of a non-empty list is one of its values and no smaller than any value. |
| GeoChart.SumBetween | src/helpers/geoChart.ts:118 | The left-fold sum of values in [lo, hi] lies in [n·lo, n·hi]. |
| GeoChart.CalculateAverage | src/helpers/geoChart.ts:114-119 | 0 for an empty list. Otherwise average × length equals the sum, and the average lies between the minimum and the maximum. |
| GeoChart.Numbers | src/helpers/geoChart.ts:135 | `without(…, null, undefined, NaN)` keeps exactly the numbers of the series and is empty exactly when the series has none. |
| GeoChart.PartitionStart | src/helpers/geoChart.ts:154-163 | In an equal partition, range i starts at lo + i·width. |
| GeoChart.PartitionBounds | src/helpers/geoChart.ts:154-163 | Range i of an equal partition spans [lo + i·width, lo + i·width + width]. |
| GeoChart.PartitionCovers | src/helpers/geoChart.ts:154-163 | Every value of [lo, hi] lies in some range. |
| GeoChart.PartitionWidthPositive | src/helpers/geoChart.ts:154-163 | When lo < hi, every range has positive width. |
| GeoChart.PartitionOrdered | src/helpers/geoChart.ts:154-163 | When lo < hi, the ranges are strictly ordered and do not overlap. |
| GeoChart.SixStepsPartition | src/helpers/geoChart.ts:154-163 | Six contiguous ranges from lo, each one step wide except the last, which ends at hi, form an equal partition of [lo, hi]. |
| GeoChart.StepClasses | src/helpers/geoChart.ts:153-163 | The `min !== max` loop yields six classes of equal width, contiguous from safeMin to safeMax, and class i has colour index i. |
| GeoChart.GetColorAxisData | src/helpers/geoChart.ts:131-167 | No numbers give `[]`. When min = max there is one class {min, max} with colour index 1. Otherwise there are six classes of equal width, contiguous from safeMin to safeMax, and class i has colour index i. |
| GeoChartDataSource.Split | src/components/core/geoChart/geoChartDataSource.ts:24 | `split(";")` yields at least one part, and no part contains the separator. |
| GeoChartDataSource.JoinSplit | src/components/core/geoChart/geoChartDataSource.ts:24 | Joining the parts with the separator gives back the original name. |
| GeoChartDataSource.SplitWithoutSeparator | src/components/core/geoChart/geoChartDataSource.ts:24 | A name without `;` is a single part. |
| GeoChartDataSource.SplitAtFirstSeparator | src/components/core/geoChart/geoChartDataSource.ts:24 | The text before the first `;` is the first part, and the rest is split in turn. |
| GeoChartDataSource.GetLocation | src/components/core/geoChart/geoChartDataSource.ts:21-33 | Only attribute header items can give a location. |
| GeoChartDataSource.LocationSwapsHalves | src/components/core/geoChart/geoChartDataSource.ts:21-33 | `"lat;lng…"` gives `[lng, lat]` exactly when both halves parse, and null otherwise. Anything after a second `;` is ignored. |
| GeoChartDataSource.LocationNeedsSeparator | src/components/core/geoChart/geoChartDataSource.ts:21-33 | A name without `;` is never a location. |
| GeoChartDataSource.Title | src/components/core/geoChart/geoChartDataSource.ts:41-44 | A title is the role's resolved name, or `""` when the role is absent. |
| GeoChartDataSource.MeasureSeries | src/components/core/geoChart/geoChartDataSource.ts:46-68 | For two-dimensional data and a present role, the result is that role's data row mapped through `stringToFloat`, cell by cell. Otherwise it is `[]`. |
| GeoChartDataSource.NumberAt | src/components/core/geoChart/geoChartDataSource.ts:82-83 | The entry at the index, or undefined when the index is outside the series. |
| GeoChartDataSource.PushpinColorAt | src/components/core/geoChart/geoChartDataSource.ts:87 | The result is `pushpinColors[index]`, else `pushpinColors[0]`, else `{}`. |
| GeoChartDataSource.ValidRows | src/components/core/geoChart/geoChartDataSource.ts:71-80 | Exactly the rows whose location parses, in strictly ascending order. |
| GeoChartDataSource.Features | src/components/core/geoChart/geoChartDataSource.ts:71-120 | The reduce yields one feature per valid row, in row order. Feature j is the step's result for the j-th valid row. |
| GeoChartDataSource.TransformPushpinDataSource | src/components/core/geoChart/geoChartDataSource.ts:35-123 | There are as many features as location rows whose location parses. |
| GeoChartDataSource.FeatureOfRow | src/components/core/geoChart/geoChartDataSource.ts:77-116 | Feature j comes from valid row k, and every part of it is read at row k: coordinates from that row's location; the tooltip, segment, colour and size values; and the pushpin colour. Titles are the role names. Size defaults to `DEFAULT_PUSHPIN_SIZE_VALUE` without a size role. The colour value is undefined without a colour role. |
| GeoChartDataSource.ValidRowsCount | src/components/core/geoChart/geoChartDataSource.ts:71-80 | Valid rows and malformed rows together account for every row. |
| GeoChartDataSource.MalformedRowsAreDropped | src/components/core/geoChart/geoChartDataSource.ts:71-120 | The feature count is the row count minus the number of malformed rows. |
| GeoChartDataSource.CreatePushpinDataSource | src/components/core/geoChart/geoChartDataSource.ts:125-145 | The source holds the transformed features. It is clustered, with the default max zoom and radius, exactly when there is no size role. |
| GeoChartDataSource.GetColorSeries | src/components/core/geoChart/geoChartDataSource.ts:178-185 | A colour index of 0 (falsy) or data that is not two-dimensional gives `[]`. Otherwise the result is that data row mapped through `stringToFloat`. |
| GeoChartDataSource.LegendSeriesIsPushpinSeries | src/components/core/geoChart/geoChartDataSource.ts:178-185 | The legend reads the same series as the pushpins' colour values, except that a colour measure at index 0 gives the legend nothing. |
| GeoChartDataSource.CalculateColorData | src/components/core/geoChart/geoChartDataSource.ts:147-176 | There are exactly six items. Their ranges cut [min, max] of the colour numbers into equal contiguous steps. Item i has palette colour i, is visible, and has legend index 0. |
| GeoChartDataSource.LegendItemsPartition | src/components/core/geoChart/geoChartDataSource.ts:159-175 | The items `from = min + offset·i`, `to = from + offset` with `offset = (max − min)/6` form an equal partition of [min, max]. |
| GeoChartDataSource.ConstantSeriesGivesEmptyRanges | src/components/core/geoChart/geoChartDataSource.ts:157-167 | When min = max, all six legend ranges are the empty range at that value. |
| DrilldownEventing.ClickableElementName | src/components/visualizations/utils/drilldownEventing.ts:28-49 | line/area/scatter/bubble give "point". column/bar give "bar". pie/treemap/donut/funnel give "slice". heatmap gives "cell". Any other type fails the invariant. All five cases are stated as if-and-only-if. |
| DrilldownEventing.DrillPoints | src/components/visualizations/utils/drilldownEventing.ts:68-74 | One `{x, y, intersection}` per point, in order. |
| DrilldownEventing.ComposeDrillContextGroup | src/components/visualizations/utils/drilldownEventing.ts:64-80 | A group context of the given type with element "label". It has one entry per input point, in order, carrying that point's x, y and intersection. |
| DrilldownEventing.ValueLabel | src/components/visualizations/utils/drilldownEventing.ts:102 | A non-zero number gives its string form. 0, NaN and undefined give `""`. |
| DrilldownEventing.ComposeDrillContextPoint | src/components/visualizations/utils/drilldownEventing.ts:82-106 | A context exists exactly when the chart type has a clickable element. It has x and y exactly when the chart is not a treemap, and z exactly when `point.z` is a number. It has a value exactly for treemaps and heatmaps. |
| DrilldownEventing.PointContextIsDetermined | src/components/visualizations/utils/drilldownEventing.ts:82-106 | These conditions fix the point context completely. |
| DrilldownEventing.LinePointContext | src/components/visualizations/utils/drilldownEventing.ts:82-106 | A line chart point has element "point", x and y, and no value. |
| DrilldownEventing.TreemapPointContext | src/components/visualizations/utils/drilldownEventing.ts:82-106 | A treemap point has element "slice", no x or y, and a value label. |
| DrilldownEventing.UsedChartType | src/components/visualizations/utils/drilldownEventing.ts:122-125 | Combo charts use the clicked series' type, falling back to the chart type. Other charts keep their type. |
| DrilldownEventing.CreateDrillIntersectionElement | src/components/visualizations/utils/drilldownEventing.ts:207-226 | `id` and `title` default to `""`. The header is present exactly when uri or identifier is truthy, and its missing half is `""`. |
| DrilldownEventing.DrillCallback.Call | src/components/visualizations/utils/drilldownEventing.ts:52 | The callback receives the event once and returns its answer. |
| DrilldownEventing.DrillTarget.DispatchEvent | src/components/visualizations/utils/drilldownEventing.ts:60 | The event is appended to those dispatched on the target. |
| DrilldownEventing.DefaultEvents | src/components/visualizations/utils/drilldownEventing.ts:55-61 | No DOM event when the callback returned `false`. Otherwise one bubbling "drill" event carrying the data. |
| DrilldownEventing.FireEvent | src/components/visualizations/utils/drilldownEventing.ts:51-62 | The callback receives the data exactly once. A "drill" event is dispatched exactly when its return value is not `false`. |
| DrilldownEventing.ChartClick | src/components/visualizations/utils/drilldownEventing.ts:108-138 | A group event fires the group context of the used chart type. A point event fires a point context that satisfies `IsPointContext`. The execution context is the AFM. Without a clicked point, or with an unknown chart type on a point event, nothing is called or dispatched. A group event fires even for an unknown chart type, because the group context never looks up an element name. |
| DrilldownEventing.TickLabelClick | src/components/visualizations/utils/drilldownEventing.ts:149-176 | The label's points fire the same "label" context that `composeDrillContextGroup` builds, followed by the `fireEvent` decision. |
| DrilldownEventing.CellClick | src/components/visualizations/utils/drilldownEventing.ts:187-205 | A "table"/"cell" context copying the column index, row index, row and intersection unchanged, followed by the `fireEvent` decision. |

## Left out

- Debouncing (`lodash/debounce` around the chart click and the tick label click): only the body that runs after the debounce window is modelled. The timer is not.
- DOM: `CustomEvent` and `dispatchEvent` are recorded as values on `DrillTarget`. Event propagation is not modelled.
- `console.warn` in `getLocation` has no counterpart, because it is output only.
- `getFormatFromExecutionResponse` (src/helpers/geoChart.ts:121-129) is a single `lodash/get` path lookup into the response and is not modelled.
- `isTreemap`, `isHeatmap` and `isComboChart` are defined here as equality with the chart type names; the file that defines them (`src/components/visualizations/utils/common`) is not part of this model.
- `isGroupHighchartsDrillEvent` is defined here as "the event has a `points` list"; the file that defines it (`src/interfaces/DrillEvents`) is not part of this model.
- `isTwoDimensionsData` is the predicate `IsTwoDimensionsData`, which tests the data's shape tag; the file that defines it (`src/helpers/executionResultHelper`) is not part of this model.
- `getAttributeHeadersInDimension`, `getMeasureGroupHeaderItemsInDimension`, `stringToFloat`, `getHeaderItemName`, `getPushpinColors`, `getColorPalette`, the colour strategy and `toPrecision(15)` are not part of this model. They are parameters, so nothing is assumed about them.
- `DEFAULT_PUSHPIN_SIZE_VALUE`, `DEFAULT_CLUSTER_MAX_ZOOM` and `DEFAULT_CLUSTER_RADIUS` are fields of `External`, because their values are defined outside this model.
- Floating point: arithmetic is exact on `real`. Rounding in the step sums, the ±Infinity results of `Math.min`/`Math.max` on an empty list, and `NaN` (modelled as `None`) are not modelled.
- Null or undefined header items and data cells are not modelled: header items and cells are always present values.
- GeoChartDataSource.CalculateColorData: requires a colour role and a colour series with at least one number. Without a colour role the source throws a `TypeError` when it destructures `geoData.color`. With no numbers it produces ranges built from ±Infinity and NaN, which the model does not represent.
- GeoChart.AttributeColumn: requires that the role's column of header items exists. The source would throw a `TypeError` otherwise.
- GeoChartDataSource.MeasureSeries: requires that the role's data row exists. The source would map over `undefined` and throw otherwise.
- GeoChartDataSource.TransformPushpinDataSource: requires that every column it reads exists, for the same reason.
- GeoChart.GetColorAxisData: the source reads `item.value` from each series point; the model takes the list of those values directly.
- The rendering files (`GeoChartLegendRenderer.tsx`, `Table.tsx`, `chart/events/load.ts`) are React and DOM glue and are not modelled.
