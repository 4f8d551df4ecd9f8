/**
 * The pushpin layer of the geo chart: one GeoJSON feature per located row of
 * the execution result, and the six-item colour legend.
 */
module GeoChartDataSource {
  import opened Wrappers
  import opened Execution
  import opened GeoChart

  /**
   * The collaborators this module calls but does not define: number parsing
   * (`None` is NaN), header item naming, the pushpin palette assignment, and
   * the constants of the geo chart configuration.
   */
  datatype External = External(
    stringToFloat: string -> Option<real>,
    headerItemName: Option<HeaderItem> -> string,
    pushpinColors: (seq<Option<real>>, seq<HeaderItem>) -> seq<PushpinColor>,
    defaultPushpinSizeValue: real,
    clusterMaxZoom: int,
    clusterRadius: int)

  // ---------------------------------------------------------------------------
  // Parsing "lat;lng"
  // ---------------------------------------------------------------------------

  /** `String.prototype.split` with a one-character separator. */
  function Split(s: string, sep: char): (parts: seq<string>)
    ensures |parts| >= 1
    ensures forall k :: 0 <= k < |parts| ==> sep !in parts[k]
  {
    if s == [] then [""]
    else
      var rest := Split(s[1..], sep);
      if s[0] == sep then [""] + rest else [[s[0]] + rest[0]] + rest[1..]
  }

  /** `Array.prototype.join` with a one-character separator. */
  function Join(parts: seq<string>, sep: char): string
    requires |parts| >= 1
  {
    if |parts| == 1 then parts[0] else parts[0] + [sep] + Join(parts[1..], sep)
  }

  /** Splitting loses nothing: joining the parts again gives back the string. */
  lemma {:induction false} JoinSplit(s: string, sep: char)
    ensures Join(Split(s, sep), sep) == s
  {
    if s != [] {
      JoinSplit(s[1..], sep);
      var rest := Split(s[1..], sep);
      if s[0] != sep {
        if |rest| == 1 {
          assert Split(s, sep) == [[s[0]] + rest[0]];
        } else {
          assert Split(s, sep)[1..] == rest[1..];
        }
      }
    }
  }

  /** A string without the separator is its own single part. */
  lemma {:induction false} SplitWithoutSeparator(s: string, sep: char)
    requires sep !in s
    ensures Split(s, sep) == [s]
  {
    if s != [] {
      SplitWithoutSeparator(s[1..], sep);
      assert s[0] != sep;
      assert [s[0]] + s[1..] == s;
    }
  }

  /** The text before the first separator is the first part. */
  lemma {:induction false} SplitAtFirstSeparator(a: string, sep: char, b: string)
    requires sep !in a
    ensures Split(a + [sep] + b, sep) == [a] + Split(b, sep)
  {
    if a != [] {
      assert (a + [sep] + b)[1..] == a[1..] + [sep] + b;
      SplitAtFirstSeparator(a[1..], sep, b);
      assert (a + [sep] + b)[0] == a[0] != sep;
      assert [a[0]] + a[1..] == a;
    } else {
      assert a + [sep] + b == [sep] + b;
    }
  }

  /** A GeoJSON position: longitude first. */
  datatype Coordinates = Coordinates(longitude: real, latitude: real)

  /**
   * `getLocation`: an attribute header item named "lat;lng" gives
   * [lng, lat]; anything else, or a half that does not parse, gives null.
   */
  function GetLocation(item: HeaderItem, stringToFloat: string -> Option<real>): (coordinates: Option<Coordinates>)
    ensures coordinates.Some? ==> item.AttributeHeaderItem?
  {
    match item
    case AttributeHeaderItem(latlng, _) =>
      var parts := Split(latlng, ';');
      var latitude := stringToFloat(parts[0]);
      var longitude := if |parts| > 1 then stringToFloat(parts[1]) else None;
      if latitude.None? || longitude.None? then None
      else Some(Coordinates(longitude.value, latitude.value))
    case _ => None
  }

  /**
   * The two halves of "lat;lng" come back swapped, and only when both parse;
   * anything after a second ';' is ignored.
   */
  lemma LocationSwapsHalves(lat: string, lng: string, tail: string, uri: string,
                            stringToFloat: string -> Option<real>)
    requires ';' !in lat && ';' !in lng
    requires tail == [] || tail[0] == ';'
    ensures GetLocation(AttributeHeaderItem(lat + ";" + lng + tail, uri), stringToFloat)
         == if stringToFloat(lat).Some? && stringToFloat(lng).Some?
            then Some(Coordinates(stringToFloat(lng).value, stringToFloat(lat).value))
            else None
  {
    assert lat + ";" + lng + tail == lat + [';'] + (lng + tail);
    SplitAtFirstSeparator(lat, ';', lng + tail);
    if tail == [] {
      assert lng + tail == lng;
      SplitWithoutSeparator(lng, ';');
    } else {
      assert lng + tail == lng + [';'] + tail[1..];
      SplitAtFirstSeparator(lng, ';', tail[1..]);
    }
  }

  /** A name without ';' is never a location. */
  lemma LocationNeedsSeparator(name: string, uri: string, stringToFloat: string -> Option<real>)
    requires ';' !in name
    ensures GetLocation(AttributeHeaderItem(name, uri), stringToFloat) == None
  {
    SplitWithoutSeparator(name, ';');
  }

  // ---------------------------------------------------------------------------
  // Features
  // ---------------------------------------------------------------------------

  datatype PushpinColor = PushpinColor(border: string, background: string)

  datatype Property<T> = Property(title: string, value: T)

  /** The colour property spreads the pushpin colour (if any) and adds title and value. */
  datatype ColorProperty = ColorProperty(pushpin: Option<PushpinColor>, title: string, value: Option<real>)

  /** A "Feature" whose geometry is a "Point" at `coordinates`. */
  datatype Feature = Feature(
    coordinates: Coordinates,
    locationName: Property<string>,
    color: ColorProperty,
    size: Property<Option<real>>,
    segmentBy: Property<string>)

  /** `role ? role.name : ""`. */
  function Title(geoData: GeoData, role: Role): (title: string)
    ensures role !in geoData ==> title == ""
    ensures role in geoData ==> title == geoData[role].name
  {
    if role in geoData then geoData[role].name else ""
  }

  /** The measure series a role reads can be indexed without a TypeError. */
  predicate HasMeasureSeries(result: ExecutionResult, geoData: GeoData, role: Role)
  {
    IsTwoDimensionsData(result.data) && role in geoData ==> geoData[role].index < |result.data.series|
  }

  /** `data[role.index].map(stringToFloat)` for two-dimensional data and a present role, otherwise []. */
  function MeasureSeries(result: ExecutionResult, geoData: GeoData, role: Role,
                         stringToFloat: string -> Option<real>): (values: seq<Option<real>>)
    requires HasMeasureSeries(result, geoData, role)
    ensures !(IsTwoDimensionsData(result.data) && role in geoData) ==> values == []
    ensures IsTwoDimensionsData(result.data) && role in geoData ==>
              var cells := result.data.series[geoData[role].index];
              |values| == |cells| && forall k :: 0 <= k < |cells| ==> values[k] == stringToFloat(cells[k])
  {
    if IsTwoDimensionsData(result.data) && role in geoData then
      var cells := result.data.series[geoData[role].index];
      seq(|cells|, k requires 0 <= k < |cells| => stringToFloat(cells[k]))
    else []
  }

  /** Every column the pushpin builder reads exists. */
  predicate CanTransform(result: ExecutionResult, geoData: GeoData)
  {
    && HasMeasureSeries(result, geoData, Color)
    && HasMeasureSeries(result, geoData, Size)
    && HasAttributeColumn(result, geoData, Location)
    && HasAttributeColumn(result, geoData, TooltipText)
    && HasAttributeColumn(result, geoData, SegmentBy)
  }

  /** What the builder computes once, before folding over the rows. */
  datatype PushpinColumns = PushpinColumns(
    locationNameTitle: string,
    colorTitle: string,
    sizeTitle: string,
    segmentByTitle: string,
    hasColorMeasure: bool,
    hasSizeMeasure: bool,
    colorsInNumber: seq<Option<real>>,
    sizesInNumber: seq<Option<real>>,
    locationData: seq<HeaderItem>,
    locationNameData: seq<HeaderItem>,
    segmentByData: seq<HeaderItem>,
    pushpinColors: seq<PushpinColor>)

  function Columns(result: ExecutionResult, geoData: GeoData, ext: External): PushpinColumns
    requires CanTransform(result, geoData)
  {
    var colorsInNumber := MeasureSeries(result, geoData, Color, ext.stringToFloat);
    var segmentByData := AttributeColumn(result, geoData, SegmentBy);
    PushpinColumns(
      Title(geoData, TooltipText), Title(geoData, Color), Title(geoData, Size), Title(geoData, SegmentBy),
      Color in geoData, Size in geoData,
      colorsInNumber, MeasureSeries(result, geoData, Size, ext.stringToFloat),
      AttributeColumn(result, geoData, Location), AttributeColumn(result, geoData, TooltipText), segmentByData,
      ext.pushpinColors(colorsInNumber, segmentByData))
  }

  /** `numbers[index]`, where a missing entry is `undefined`. */
  function NumberAt(numbers: seq<Option<real>>, index: int): (value: Option<real>)
    ensures 0 <= index < |numbers| ==> value == numbers[index]
    ensures !(0 <= index < |numbers|) ==> value == None
  {
    if 0 <= index < |numbers| then numbers[index] else None
  }

  /** `pushpinColors[index] || pushpinColors[0] || {}`. */
  function PushpinColorAt(pushpinColors: seq<PushpinColor>, index: nat): (color: Option<PushpinColor>)
    ensures index < |pushpinColors| ==> color == Some(pushpinColors[index])
    ensures |pushpinColors| <= index && pushpinColors != [] ==> color == Some(pushpinColors[0])
    ensures pushpinColors == [] ==> color == None
  {
    match At(pushpinColors, index)
    case Some(c) => Some(c)
    case None => At(pushpinColors, 0)
  }

  /** The reducer's step for row `index`: a feature, or nothing for an invalid location. */
  function FeatureAt(cols: PushpinColumns, ext: External, index: nat): Option<Feature>
    requires index < |cols.locationData|
  {
    match GetLocation(cols.locationData[index], ext.stringToFloat)
    case None => None
    case Some(coordinates) =>
      var colorValue := if cols.hasColorMeasure then NumberAt(cols.colorsInNumber, index) else None;
      var sizeValue := if cols.hasSizeMeasure then NumberAt(cols.sizesInNumber, index) else Some(ext.defaultPushpinSizeValue);
      var locationNameValue := ext.headerItemName(At(cols.locationNameData, index));
      var segmentByValue := ext.headerItemName(At(cols.segmentByData, index));
      var pushpinColor := PushpinColorAt(cols.pushpinColors, index);
      Some(Feature(
        coordinates,
        Property(cols.locationNameTitle, locationNameValue),
        ColorProperty(pushpinColor, cols.colorTitle, colorValue),
        Property(cols.sizeTitle, sizeValue),
        Property(cols.segmentByTitle, segmentByValue)))
  }

  predicate IsValidRow(column: seq<HeaderItem>, stringToFloat: string -> Option<real>, k: int)
  {
    0 <= k < |column| && GetLocation(column[k], stringToFloat).Some?
  }

  /** The rows among the first `n` whose location parses, in ascending order. */
  function ValidRows(column: seq<HeaderItem>, stringToFloat: string -> Option<real>, n: nat): (rows: seq<nat>)
    requires n <= |column|
    ensures forall j :: 0 <= j < |rows| ==> rows[j] < n && IsValidRow(column, stringToFloat, rows[j])
    ensures forall j, j' :: 0 <= j < j' < |rows| ==> rows[j] < rows[j']
    ensures forall k :: 0 <= k < n && IsValidRow(column, stringToFloat, k) ==> k in rows
  {
    if n == 0 then []
    else
      var earlier := ValidRows(column, stringToFloat, n - 1);
      if IsValidRow(column, stringToFloat, n - 1) then earlier + [n - 1] else earlier
  }

  /** The reduce over the first `n` rows: one feature per valid row, in row order. */
  function Features(cols: PushpinColumns, ext: External, n: nat): (features: seq<Feature>)
    requires n <= |cols.locationData|
    ensures var rows := ValidRows(cols.locationData, ext.stringToFloat, n);
            && |features| == |rows|
            && forall j :: 0 <= j < |rows| ==> FeatureAt(cols, ext, rows[j]) == Some(features[j])
  {
    if n == 0 then []
    else
      var result := Features(cols, ext, n - 1);
      match FeatureAt(cols, ext, n - 1)
      case None => result
      case Some(feature) => result + [feature]
  }

  /** `transformPushpinDataSource`. */
  function TransformPushpinDataSource(result: ExecutionResult, geoData: GeoData, ext: External): (features: seq<Feature>)
    requires CanTransform(result, geoData)
    ensures |features| == |ValidRows(AttributeColumn(result, geoData, Location), ext.stringToFloat,
                                     |AttributeColumn(result, geoData, Location)|)|
  {
    var cols := Columns(result, geoData, ext);
    Features(cols, ext, |cols.locationData|)
  }

  /**
   * Feature j comes from the j-th valid row k: its coordinates are row k's
   * location, and every property value is read at the same row k, with the
   * titles taken from the resolved role names.
   */
  lemma FeatureOfRow(result: ExecutionResult, geoData: GeoData, ext: External, j: nat)
    requires CanTransform(result, geoData)
    requires j < |TransformPushpinDataSource(result, geoData, ext)|
    ensures var location := AttributeColumn(result, geoData, Location);
            var rows := ValidRows(location, ext.stringToFloat, |location|);
            var k := rows[j];
            var f := TransformPushpinDataSource(result, geoData, ext)[j];
            var colors := MeasureSeries(result, geoData, Color, ext.stringToFloat);
            var segments := AttributeColumn(result, geoData, SegmentBy);
            && Some(f.coordinates) == GetLocation(location[k], ext.stringToFloat)
            && f.locationName == Property(Title(geoData, TooltipText),
                                          ext.headerItemName(At(AttributeColumn(result, geoData, TooltipText), k)))
            && f.segmentBy == Property(Title(geoData, SegmentBy), ext.headerItemName(At(segments, k)))
            && f.size.title == Title(geoData, Size)
            && f.size.value == (if Size in geoData
                                then NumberAt(MeasureSeries(result, geoData, Size, ext.stringToFloat), k)
                                else Some(ext.defaultPushpinSizeValue))
            && f.color.title == Title(geoData, Color)
            && f.color.value == (if Color in geoData then NumberAt(colors, k) else None)
            && f.color.pushpin == PushpinColorAt(ext.pushpinColors(colors, segments), k)
  {
    var cols := Columns(result, geoData, ext);
    var rows := ValidRows(cols.locationData, ext.stringToFloat, |cols.locationData|);
    assert FeatureAt(cols, ext, rows[j]) == Some(Features(cols, ext, |cols.locationData|)[j]);
  }

  /** The rows among the first `n` whose location does not parse. */
  function InvalidRows(column: seq<HeaderItem>, stringToFloat: string -> Option<real>, n: nat): set<int>
  {
    set k | 0 <= k < n && !IsValidRow(column, stringToFloat, k)
  }

  /** Every row among the first `n` either yields a feature or is counted as malformed. */
  lemma {:induction false} ValidRowsCount(column: seq<HeaderItem>, stringToFloat: string -> Option<real>, n: nat)
    requires n <= |column|
    ensures |ValidRows(column, stringToFloat, n)| + |InvalidRows(column, stringToFloat, n)| == n
  {
    if n > 0 {
      ValidRowsCount(column, stringToFloat, n - 1);
      var before := InvalidRows(column, stringToFloat, n - 1);
      var now := InvalidRows(column, stringToFloat, n);
      if IsValidRow(column, stringToFloat, n - 1) {
        assert forall k :: k in now <==> k in before;
        assert now == before;
      } else {
        assert forall k :: k in now <==> k in before || k == n - 1;
        assert now == before + {n - 1};
        assert n - 1 !in before;
      }
    }
  }

  /** The feature count is the row count less the malformed rows. */
  lemma MalformedRowsAreDropped(result: ExecutionResult, geoData: GeoData, ext: External)
    requires CanTransform(result, geoData)
    ensures var location := AttributeColumn(result, geoData, Location);
            |TransformPushpinDataSource(result, geoData, ext)|
            == |location| - |InvalidRows(location, ext.stringToFloat, |location|)|
  {
    var location := AttributeColumn(result, geoData, Location);
    ValidRowsCount(location, ext.stringToFloat, |location|);
  }

  // ---------------------------------------------------------------------------
  // The GeoJSON source
  // ---------------------------------------------------------------------------

  datatype ClusterOptions = ClusterOptions(clusterMaxZoom: int, clusterRadius: int)

  /** A "geojson" source holding a "FeatureCollection", clustered or not. */
  datatype GeoJsonSource = GeoJsonSource(features: seq<Feature>, cluster: Option<ClusterOptions>)

  /** `createPushpinDataSource`: pushpins are clustered exactly when there is no size measure. */
  function CreatePushpinDataSource(result: ExecutionResult, geoData: GeoData, ext: External): (source: GeoJsonSource)
    requires CanTransform(result, geoData)
    ensures source.features == TransformPushpinDataSource(result, geoData, ext)
    ensures source.cluster.Some? <==> Size !in geoData
    ensures source.cluster.Some? ==> source.cluster.value == ClusterOptions(ext.clusterMaxZoom, ext.clusterRadius)
  {
    var source := GeoJsonSource(TransformPushpinDataSource(result, geoData, ext), None);
    if Size !in geoData then source.(cluster := Some(ClusterOptions(ext.clusterMaxZoom, ext.clusterRadius)))
    else source
  }

  // ---------------------------------------------------------------------------
  // The colour legend
  // ---------------------------------------------------------------------------

  /** `getColorSeries`: a colour index of 0 is falsy and reads no series. */
  function GetColorSeries(result: ExecutionResult, colorIndex: nat, stringToFloat: string -> Option<real>): (values: seq<Option<real>>)
    requires IsTwoDimensionsData(result.data) && colorIndex != 0 ==> colorIndex < |result.data.series|
    ensures !IsTwoDimensionsData(result.data) || colorIndex == 0 ==> values == []
    ensures IsTwoDimensionsData(result.data) && colorIndex != 0 ==>
              var cells := result.data.series[colorIndex];
              |values| == |cells| && forall k :: 0 <= k < |cells| ==> values[k] == stringToFloat(cells[k])
  {
    var colorData := if IsTwoDimensionsData(result.data) && colorIndex != 0 then result.data.series[colorIndex] else [];
    seq(|colorData|, k requires 0 <= k < |colorData| => stringToFloat(colorData[k]))
  }

  /**
   * The legend reads the same numbers as the pushpins' colour values, except
   * when the colour measure is the first one: then the legend reads nothing.
   */
  lemma LegendSeriesIsPushpinSeries(result: ExecutionResult, geoData: GeoData, stringToFloat: string -> Option<real>)
    requires Color in geoData
    requires HasMeasureSeries(result, geoData, Color)
    ensures geoData[Color].index != 0 ==>
              GetColorSeries(result, geoData[Color].index, stringToFloat)
              == MeasureSeries(result, geoData, Color, stringToFloat)
    ensures geoData[Color].index == 0 ==> GetColorSeries(result, geoData[Color].index, stringToFloat) == []
  {
  }

  /** One item of the heat-map legend. */
  datatype LegendItem = LegendItem(range: Range, color: Option<string>, isVisible: bool, legendIndex: int)

  /**
   * The ranges of the legend items, the legend's counterpart of `ClassRanges`:
   * a legend item and a colour-axis class are different records (the legend
   * item also carries visibility and a legend index), so each has its own
   * projection onto the `Range`s that `EqualPartition` describes.
   */
  function LegendRanges(items: seq<LegendItem>): (ranges: seq<Range>)
    ensures |ranges| == |items|
    ensures forall i :: 0 <= i < |items| ==> ranges[i] == items[i].range
  {
    seq(|items|, i requires 0 <= i < |items| => items[i].range)
  }

  /** The colour legend can be computed: there is a colour role and its series has a number. */
  predicate HasColorLegend(result: ExecutionResult, geoData: GeoData, stringToFloat: string -> Option<real>)
  {
    && Color in geoData
    && (IsTwoDimensionsData(result.data) && geoData[Color].index != 0 ==> geoData[Color].index < |result.data.series|)
    && Numbers(GetColorSeries(result, geoData[Color].index, stringToFloat)) != []
  }

  /** `range(0, 6).map(...)`'s item for `index`: from = min + offset * index, to = from + offset. */
  function LegendItemAt(min: real, offset: real, colorPalette: seq<string>, index: nat): LegendItem
  {
    var from := min + offset * index as real;
    LegendItem(Range(from, from + offset), At(colorPalette, index), true, 0)
  }

  /**
   * `calculateColorData`: six legend items of equal width from the smallest to
   * the largest colour value, coloured by the palette in order.
   */
  function CalculateColorData(result: ExecutionResult, geoData: GeoData, stringToFloat: string -> Option<real>,
                              colorPalette: seq<string>): (items: seq<LegendItem>)
    requires HasColorLegend(result, geoData, stringToFloat)
    ensures |items| == 6
    ensures var values := Numbers(GetColorSeries(result, geoData[Color].index, stringToFloat));
            EqualPartition(LegendRanges(items), Min(values), Max(values), 6)
    ensures forall i :: 0 <= i < 6 ==>
              items[i].color == At(colorPalette, i) && items[i].isVisible && items[i].legendIndex == 0
  {
    var values := Numbers(GetColorSeries(result, geoData[Color].index, stringToFloat));
    var min := Min(values);
    var max := Max(values);
    var offset := (max - min) / 6.0;
    var items := seq(6, index requires 0 <= index < 6 => LegendItemAt(min, offset, colorPalette, index));
    LegendItemsPartition(items, min, max, offset, colorPalette);
    items
  }

  /** The six items `LegendItemAt(lo, (hi - lo) / 6, _, i)` cut [lo, hi] into equal steps. */
  lemma LegendItemsPartition(items: seq<LegendItem>, lo: real, hi: real, offset: real, colorPalette: seq<string>)
    requires offset == (hi - lo) / 6.0
    requires |items| == 6
    requires forall i :: 0 <= i < 6 ==> items[i] == LegendItemAt(lo, offset, colorPalette, i)
    ensures EqualPartition(LegendRanges(items), lo, hi, 6)
  {
    var ranges := LegendRanges(items);
    assert ranges[0] == Range(lo, lo + offset) by { assert items[0] == LegendItemAt(lo, offset, colorPalette, 0); }
    assert ranges[1] == Range(lo + offset, lo + 2.0 * offset) by { assert items[1] == LegendItemAt(lo, offset, colorPalette, 1); }
    assert ranges[2] == Range(lo + 2.0 * offset, lo + 3.0 * offset) by { assert items[2] == LegendItemAt(lo, offset, colorPalette, 2); }
    assert ranges[3] == Range(lo + 3.0 * offset, lo + 4.0 * offset) by { assert items[3] == LegendItemAt(lo, offset, colorPalette, 3); }
    assert ranges[4] == Range(lo + 4.0 * offset, lo + 5.0 * offset) by { assert items[4] == LegendItemAt(lo, offset, colorPalette, 4); }
    assert ranges[5] == Range(lo + 5.0 * offset, hi) by { assert items[5] == LegendItemAt(lo, offset, colorPalette, 5); }
  }

  /** With a constant colour series every legend item is the empty range at that value. */
  lemma ConstantSeriesGivesEmptyRanges(result: ExecutionResult, geoData: GeoData,
                                       stringToFloat: string -> Option<real>, colorPalette: seq<string>)
    requires HasColorLegend(result, geoData, stringToFloat)
    requires var values := Numbers(GetColorSeries(result, geoData[Color].index, stringToFloat));
             Min(values) == Max(values)
    ensures var values := Numbers(GetColorSeries(result, geoData[Color].index, stringToFloat));
            forall i :: 0 <= i < 6 ==>
              CalculateColorData(result, geoData, stringToFloat, colorPalette)[i].range == Range(Min(values), Min(values))
  {
    var values := Numbers(GetColorSeries(result, geoData[Color].index, stringToFloat));
    var items := CalculateColorData(result, geoData, stringToFloat, colorPalette);
    PartitionStart(LegendRanges(items), Min(values), Max(values), 6, 0);
    forall i | 0 <= i < 6
      ensures items[i].range == Range(Min(values), Min(values))
    {
      PartitionStart(LegendRanges(items), Min(values), Max(values), 6, i);
    }
  }
}
