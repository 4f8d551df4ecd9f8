/**
 * Geo chart helpers: resolving bucket roles to header positions, picking the
 * attribute header items, and partitioning a colour series into classes.
 */
module GeoChart {
  import opened Wrappers
  import opened Execution

  const DEFAULT_COLOR_INDEX: nat := 1
  const DEFAULT_COLOR_COUNT: nat := 6

  // ---------------------------------------------------------------------------
  // Buckets and roles
  // ---------------------------------------------------------------------------

  /** The five bucket roles a geo pushpin chart understands. */
  datatype Role = Location | SegmentBy | TooltipText | Size | Color

  /** The bucket local identifier that carries each role (also the key in the geo data). */
  function BucketName(role: Role): string
  {
    match role
    case Location => "location"
    case SegmentBy => "segmentBy"
    case TooltipText => "tooltipText"
    case Size => "size"
    case Color => "color"
  }

  /** Location, segment-by and tooltip text are attributes; size and colour are measures. */
  predicate IsAttributeRole(role: Role)
  {
    role.Location? || role.SegmentBy? || role.TooltipText?
  }

  /** Where a role's column sits in its header list, and that header's name. */
  datatype RoleRef = RoleRef(index: nat, name: string)

  /** A role is a key exactly when the chart uses it. */
  type GeoData = map<Role, RoleRef>

  /**
   * A bucket item: an attribute (its display form may be qualified by uri or not)
   * or a measure (only a simple measure has an item uri).
   */
  datatype BucketItem =
    | VisualizationAttribute(localIdentifier: string, displayFormUri: Option<string>)
    | Measure(localIdentifier: string, itemUri: Option<string>)

  datatype Bucket = Bucket(localIdentifier: string, items: seq<BucketItem>)

  /** What a bucket is matched by: the uri and local identifier of its first item. */
  datatype ItemInfo = ItemInfo(uri: Option<string>, localIdentifier: Option<string>)

  /**
   * The attribute path is read first and the measure path only when it is falsy,
   * so an attribute with an empty uri or identifier ends up with none at all,
   * while a measure keeps whatever it has.
   */
  function ItemInfoOf(bucket: Bucket): (info: ItemInfo)
    ensures bucket.items == [] ==> info == ItemInfo(None, None)
    ensures bucket.items != [] && bucket.items[0].VisualizationAttribute? ==>
              var item := bucket.items[0];
              && info.uri == (if Truthy(item.displayFormUri) then item.displayFormUri else None)
              && info.localIdentifier == (if item.localIdentifier != "" then Some(item.localIdentifier) else None)
    ensures bucket.items != [] && bucket.items[0].Measure? ==>
              info == ItemInfo(bucket.items[0].itemUri, Some(bucket.items[0].localIdentifier))
    ensures info.uri.Some? && bucket.items[0].VisualizationAttribute? ==> info.uri.value != ""
    ensures info.localIdentifier.Some? ==> info.localIdentifier.value == bucket.items[0].localIdentifier
  {
    if bucket.items == [] then ItemInfo(None, None)
    else
      match bucket.items[0]
      case VisualizationAttribute(id, uri) =>
        ItemInfo(if Truthy(uri) then uri else None, if id != "" then Some(id) else None)
      case Measure(id, uri) =>
        ItemInfo(uri, Some(id))
  }

  /** No later bucket has the same local identifier as bucket `i`. */
  predicate LastWithName(buckets: seq<Bucket>, i: int)
    requires 0 <= i < |buckets|
  {
    forall j :: i < j < |buckets| ==> buckets[j].localIdentifier != buckets[i].localIdentifier
  }

  /**
   * The bucket infos keyed by bucket local identifier. The buckets are folded
   * from the left into an object, so a later bucket overrides an earlier one.
   */
  function BucketItemInfos(buckets: seq<Bucket>): (infos: map<string, ItemInfo>)
    ensures infos.Keys == set i | 0 <= i < |buckets| :: buckets[i].localIdentifier
    decreases |buckets|
  {
    if buckets == [] then map[]
    else
      var n := |buckets| - 1;
      var earlier := BucketItemInfos(buckets[..n]);
      assert forall i :: 0 <= i < n ==> buckets[..n][i] == buckets[i];
      earlier[buckets[n].localIdentifier := ItemInfoOf(buckets[n])]
  }

  /** The info stored under a bucket's name is its own unless a later bucket has the same name. */
  lemma {:induction false} LastBucketWins(buckets: seq<Bucket>, i: nat)
    requires i < |buckets|
    requires LastWithName(buckets, i)
    ensures BucketItemInfos(buckets)[buckets[i].localIdentifier] == ItemInfoOf(buckets[i])
    decreases |buckets|
  {
    var n := |buckets| - 1;
    var earlier := BucketItemInfos(buckets[..n]);
    assert BucketItemInfos(buckets) == earlier[buckets[n].localIdentifier := ItemInfoOf(buckets[n])];
    if i < n {
      assert buckets[n].localIdentifier != buckets[i].localIdentifier;
      assert buckets[..n][i] == buckets[i];
      assert LastWithName(buckets[..n], i);
      LastBucketWins(buckets[..n], i);
    }
  }

  // ---------------------------------------------------------------------------
  // Header matching (`findIndex` with an identifier-or-uri predicate)
  // ---------------------------------------------------------------------------

  predicate AttributeMatches(header: AttributeHeader, info: ItemInfo)
  {
    Some(header.localIdentifier) == info.localIdentifier || Some(header.uri) == info.uri
  }

  /** A measure header without a uri is matched by a bucket item without one. */
  predicate MeasureMatches(header: MeasureHeader, info: ItemInfo)
  {
    Some(header.localIdentifier) == info.localIdentifier || header.uri == info.uri
  }

  /** `attributeHeaders.findIndex(...)`: the first match, or -1. */
  function FindAttributeHeader(headers: seq<AttributeHeader>, info: ItemInfo): (index: int)
    ensures -1 <= index < |headers|
    ensures index == -1 <==> forall i :: 0 <= i < |headers| ==> !AttributeMatches(headers[i], info)
    ensures index != -1 ==> AttributeMatches(headers[index], info)
    ensures forall i :: 0 <= i < index ==> !AttributeMatches(headers[i], info)
  {
    if headers == [] then -1
    else if AttributeMatches(headers[0], info) then 0
    else
      var rest := FindAttributeHeader(headers[1..], info);
      if rest == -1 then -1 else rest + 1
  }

  /** `measureGroupHeader.findIndex(...)`: the first match, or -1. */
  function FindMeasureHeader(headers: seq<MeasureHeader>, info: ItemInfo): (index: int)
    ensures -1 <= index < |headers|
    ensures index == -1 <==> forall i :: 0 <= i < |headers| ==> !MeasureMatches(headers[i], info)
    ensures index != -1 ==> MeasureMatches(headers[index], info)
    ensures forall i :: 0 <= i < index ==> !MeasureMatches(headers[i], info)
  {
    if headers == [] then -1
    else if MeasureMatches(headers[0], info) then 0
    else
      var rest := FindMeasureHeader(headers[1..], info);
      if rest == -1 then -1 else rest + 1
  }

  /**
   * How one role is resolved: its bucket's info is looked up, and the first
   * header of the role's own list (attributes or measures) that matches it by
   * local identifier or by uri gives the index and the name.
   */
  function ResolveRole(role: Role, infos: map<string, ItemInfo>,
                       attributeHeaders: seq<AttributeHeader>,
                       measureGroupHeader: seq<MeasureHeader>): (r: Option<RoleRef>)
    ensures BucketName(role) !in infos ==> r == None
    ensures BucketName(role) in infos && IsAttributeRole(role) ==>
              var info := infos[BucketName(role)];
              && (r.Some? <==> exists i :: 0 <= i < |attributeHeaders| && AttributeMatches(attributeHeaders[i], info))
              && (r.Some? ==>
                    && r.value.index < |attributeHeaders|
                    && AttributeMatches(attributeHeaders[r.value.index], info)
                    && (forall i :: 0 <= i < r.value.index ==> !AttributeMatches(attributeHeaders[i], info))
                    && r.value.name == attributeHeaders[r.value.index].name)
    ensures BucketName(role) in infos && !IsAttributeRole(role) ==>
              var info := infos[BucketName(role)];
              && (r.Some? <==> exists i :: 0 <= i < |measureGroupHeader| && MeasureMatches(measureGroupHeader[i], info))
              && (r.Some? ==>
                    && r.value.index < |measureGroupHeader|
                    && MeasureMatches(measureGroupHeader[r.value.index], info)
                    && (forall i :: 0 <= i < r.value.index ==> !MeasureMatches(measureGroupHeader[i], info))
                    && r.value.name == measureGroupHeader[r.value.index].name)
  {
    var name := BucketName(role);
    if name !in infos then None
    else if IsAttributeRole(role) then
      var index := FindAttributeHeader(attributeHeaders, infos[name]);
      if index == -1 then None else Some(RoleRef(index, attributeHeaders[index].name))
    else
      var index := FindMeasureHeader(measureGroupHeader, infos[name]);
      if index == -1 then None else Some(RoleRef(index, measureGroupHeader[index].name))
  }

  /** Attribute roles never look at the measure headers. */
  lemma {:induction false} AttributeRolesIgnoreMeasures(role: Role, infos: map<string, ItemInfo>,
                                                       attributeHeaders: seq<AttributeHeader>,
                                                       m1: seq<MeasureHeader>, m2: seq<MeasureHeader>)
    requires IsAttributeRole(role)
    ensures ResolveRole(role, infos, attributeHeaders, m1) == ResolveRole(role, infos, attributeHeaders, m2)
  {
  }

  /** Measure roles never look at the attribute headers. */
  lemma {:induction false} MeasureRolesIgnoreAttributes(role: Role, infos: map<string, ItemInfo>,
                                                       a1: seq<AttributeHeader>, a2: seq<AttributeHeader>,
                                                       measureGroupHeader: seq<MeasureHeader>)
    requires !IsAttributeRole(role)
    ensures ResolveRole(role, infos, a1, measureGroupHeader) == ResolveRole(role, infos, a2, measureGroupHeader)
  {
  }

  /**
   * `getGeoData`. The header lists are what `getAttributeHeadersInDimension` and
   * `getMeasureGroupHeaderItemsInDimension` return for the response's dimensions.
   */
  method GetGeoData(buckets: seq<Bucket>, attributeHeaders: seq<AttributeHeader>,
                    measureGroupHeader: seq<MeasureHeader>) returns (geoData: GeoData)
    ensures forall role :: role in geoData <==>
              ResolveRole(role, BucketItemInfos(buckets), attributeHeaders, measureGroupHeader).Some?
    ensures forall role :: role in geoData ==>
              geoData[role] == ResolveRole(role, BucketItemInfos(buckets), attributeHeaders, measureGroupHeader).value
  {
    var infos := BucketItemInfos(buckets);
    geoData := map[];

    var attributeRoles := [Location, SegmentBy, TooltipText];
    for k := 0 to |attributeRoles|
      invariant forall role :: role in geoData <==>
                  role in attributeRoles[..k] && ResolveRole(role, infos, attributeHeaders, measureGroupHeader).Some?
      invariant forall role :: role in geoData ==>
                  geoData[role] == ResolveRole(role, infos, attributeHeaders, measureGroupHeader).value
    {
      var role := attributeRoles[k];
      assert attributeRoles[..k + 1] == attributeRoles[..k] + [role];
      var name := BucketName(role);
      if name !in infos {
        continue;
      }
      var info := infos[name];
      var index := FindAttributeHeader(attributeHeaders, info);
      assert ResolveRole(role, infos, attributeHeaders, measureGroupHeader)
          == if index == -1 then None else Some(RoleRef(index, attributeHeaders[index].name));
      if index != -1 {
        geoData := geoData[role := RoleRef(index, attributeHeaders[index].name)];
      }
    }

    assert attributeRoles[..|attributeRoles|] == attributeRoles;
    assert forall role :: role in attributeRoles <==> IsAttributeRole(role);
    var measureRoles := [Size, Color];
    for k := 0 to |measureRoles|
      invariant forall role :: role in geoData <==>
                  (IsAttributeRole(role) || role in measureRoles[..k])
                  && ResolveRole(role, infos, attributeHeaders, measureGroupHeader).Some?
      invariant forall role :: role in geoData ==>
                  geoData[role] == ResolveRole(role, infos, attributeHeaders, measureGroupHeader).value
    {
      var role := measureRoles[k];
      assert measureRoles[..k + 1] == measureRoles[..k] + [role];
      var name := BucketName(role);
      if name !in infos {
        continue;
      }
      var info := infos[name];
      var index := FindMeasureHeader(measureGroupHeader, info);
      assert ResolveRole(role, infos, attributeHeaders, measureGroupHeader)
          == if index == -1 then None else Some(RoleRef(index, measureGroupHeader[index].name));
      if index != -1 {
        geoData := geoData[role := RoleRef(index, measureGroupHeader[index].name)];
      }
    }
    assert measureRoles[..|measureRoles|] == measureRoles;
    assert forall role :: IsAttributeRole(role) || role in measureRoles;
  }

  // ---------------------------------------------------------------------------
  // Attribute header items and the location column
  // ---------------------------------------------------------------------------

  /** With a measure in the chart the attributes sit in dimension 1, otherwise in dimension 0. */
  function AttributeDimension(geoData: GeoData): (d: nat)
    ensures d == 1 <==> Color in geoData || Size in geoData
    ensures d <= 1
  {
    if Color in geoData || Size in geoData then 1 else 0
  }

  /** `getGeoAttributeHeaderItems`: `headerItems[1]` or `headerItems[0]` (None when absent). */
  function GeoAttributeHeaderItems(result: ExecutionResult, geoData: GeoData): (items: Option<seq<seq<HeaderItem>>>)
    ensures (Color in geoData || Size in geoData) ==> items == At(result.headerItems, 1)
    ensures !(Color in geoData || Size in geoData) ==> items == At(result.headerItems, 0)
  {
    At(result.headerItems, AttributeDimension(geoData))
  }

  /** The role's column of attribute header items can be read without a TypeError. */
  predicate HasAttributeColumn(result: ExecutionResult, geoData: GeoData, role: Role)
  {
    role in geoData ==>
      var items := GeoAttributeHeaderItems(result, geoData);
      items.Some? && geoData[role].index < |items.value|
  }

  /** `role !== undefined ? attributeHeaderItems[role.index] : []`. */
  function AttributeColumn(result: ExecutionResult, geoData: GeoData, role: Role): (column: seq<HeaderItem>)
    requires HasAttributeColumn(result, geoData, role)
    ensures role !in geoData ==> column == []
    ensures role in geoData ==>
              column == result.headerItems[AttributeDimension(geoData)][geoData[role].index]
  {
    if role in geoData then GeoAttributeHeaderItems(result, geoData).value[geoData[role].index] else []
  }

  /** `isDataOfReasonableSize`: the location column has at most `limit` rows. */
  function IsDataOfReasonableSize(result: ExecutionResult, geoData: GeoData, limit: real): (ok: bool)
    requires HasAttributeColumn(result, geoData, Location)
    ensures Location !in geoData ==> (ok <==> 0.0 <= limit)
    ensures Location in geoData ==>
              (ok <==> |result.headerItems[AttributeDimension(geoData)][geoData[Location].index]| as real <= limit)
  {
    |AttributeColumn(result, geoData, Location)| as real <= limit
  }

  // ---------------------------------------------------------------------------
  // Averages, minima and maxima
  // ---------------------------------------------------------------------------

  /** `values.reduce((a, b) => a + b, 0)`, folded from the left. */
  function Sum(values: seq<real>): real
  {
    if values == [] then 0.0 else Sum(values[..|values| - 1]) + values[|values| - 1]
  }

  /** `Math.min(...values)` on a non-empty list. */
  function Min(values: seq<real>): (m: real)
    requires values != []
    ensures m in values
    ensures forall v :: v in values ==> m <= v
  {
    if |values| == 1 then values[0]
    else
      var rest := Min(values[1..]);
      assert forall v :: v in values ==> v == values[0] || v in values[1..];
      if values[0] <= rest then values[0] else rest
  }

  /** `Math.max(...values)` on a non-empty list. */
  function Max(values: seq<real>): (m: real)
    requires values != []
    ensures m in values
    ensures forall v :: v in values ==> v <= m
  {
    if |values| == 1 then values[0]
    else
      var rest := Max(values[1..]);
      assert forall v :: v in values ==> v == values[0] || v in values[1..];
      if values[0] >= rest then values[0] else rest
  }

  /** The sum of values that all lie in [lo, hi] lies between n * lo and n * hi. */
  lemma {:induction false} SumBetween(values: seq<real>, lo: real, hi: real)
    requires forall v :: v in values ==> lo <= v <= hi
    ensures |values| as real * lo <= Sum(values) <= |values| as real * hi
    decreases |values|
  {
    if values != [] {
      var init := values[..|values| - 1];
      assert forall v :: v in init ==> v in values;
      SumBetween(init, lo, hi);
      assert values[|values| - 1] in values;
      assert |values| as real * lo == |init| as real * lo + lo;
      assert |values| as real * hi == |init| as real * hi + hi;
    }
  }

  /** Multiplying by a positive factor keeps the order. */
  lemma ScaleKeepsOrder(a: real, b: real, n: real)
    requires n > 0.0
    requires a * n <= b * n
    ensures a <= b
  {
  }

  /** `calculateAverage`: 0 for no values, otherwise their mean, which lies between their extremes. */
  function CalculateAverage(values: seq<real>): (average: real)
    ensures values == [] ==> average == 0.0
    ensures values != [] ==> average * |values| as real == Sum(values)
    ensures values != [] ==> Min(values) <= average <= Max(values)
  {
    if |values| == 0 then 0.0
    else
      var n := |values| as real;
      var average := Sum(values) / n;
      assert average * n == Sum(values);
      SumBetween(values, Min(values), Max(values));
      ScaleKeepsOrder(Min(values), average, n);
      ScaleKeepsOrder(average, Max(values), n);
      average
  }

  // ---------------------------------------------------------------------------
  // Colour classes
  // ---------------------------------------------------------------------------

  /**
   * `without(values, null, undefined, NaN)`: the numbers of a series, in order.
   * `None` stands for a null, undefined or NaN entry.
   */
  function Numbers(series: seq<Option<real>>): (values: seq<real>)
    ensures |values| <= |series|
    ensures forall v :: v in values <==> Some(v) in series
    ensures values == [] <==> forall k :: 0 <= k < |series| ==> series[k].None?
  {
    if series == [] then []
    else
      var rest := Numbers(series[1..]);
      assert forall x :: x in series <==> x == series[0] || x in series[1..];
      match series[0]
      case None => rest
      case Some(v) => [v] + rest
  }

  datatype Range = Range(from: real, to: real)

  /**
   * `ranges` cuts [lo, hi] into `n` pieces of equal width that follow each
   * other without gaps: the first starts at lo, the last ends at hi.
   */
  predicate EqualPartition(ranges: seq<Range>, lo: real, hi: real, n: nat)
  {
    && |ranges| == n
    && n > 0
    && ranges[0].from == lo
    && ranges[n - 1].to == hi
    && (forall i :: 0 < i < n ==> ranges[i].from == ranges[i - 1].to)
    && (forall i :: 0 <= i < n ==> ranges[i].to - ranges[i].from == (hi - lo) / n as real)
  }

  /** Range i of an equal partition starts at lo + i * width. */
  lemma {:induction false} PartitionStart(ranges: seq<Range>, lo: real, hi: real, n: nat, i: nat)
    requires EqualPartition(ranges, lo, hi, n)
    requires i < n
    ensures ranges[i].from == lo + i as real * ((hi - lo) / n as real)
  {
    if i > 0 {
      PartitionStart(ranges, lo, hi, n, i - 1);
      assert ranges[i].from == ranges[i - 1].to;
    }
  }

  /** Range i of an equal partition spans [lo + i * width, lo + (i + 1) * width]. */
  lemma PartitionBounds(ranges: seq<Range>, lo: real, hi: real, n: nat, i: nat)
    requires EqualPartition(ranges, lo, hi, n)
    requires i < n
    ensures var width := (hi - lo) / n as real;
            ranges[i].from == lo + i as real * width && ranges[i].to == ranges[i].from + width
  {
    PartitionStart(ranges, lo, hi, n, i);
  }

  /** Every value of [lo, hi] falls into some range of an equal partition. */
  lemma PartitionCovers(ranges: seq<Range>, lo: real, hi: real, n: nat, v: real)
    requires EqualPartition(ranges, lo, hi, n)
    requires lo <= v <= hi
    ensures exists i :: 0 <= i < n && ranges[i].from <= v <= ranges[i].to
  {
    var w := (hi - lo) / n as real;
    assert w >= 0.0;
    var i := 0;
    PartitionStart(ranges, lo, hi, n, 0);
    while i < n - 1 && ranges[i].to < v
      invariant 0 <= i < n
      invariant ranges[i].from <= v
      decreases n - i
    {
      i := i + 1;
    }
  }

  /** When lo < hi every range of an equal partition has positive width. */
  lemma PartitionWidthPositive(ranges: seq<Range>, lo: real, hi: real, n: nat)
    requires EqualPartition(ranges, lo, hi, n)
    requires lo < hi
    ensures forall i :: 0 <= i < n ==> ranges[i].from < ranges[i].to
  {
    assert (hi - lo) / n as real > 0.0;
  }

  /** When lo < hi the ranges of an equal partition do not overlap: each ends before the next begins. */
  lemma {:induction false} PartitionOrdered(ranges: seq<Range>, lo: real, hi: real, n: nat, i: nat, j: nat)
    requires EqualPartition(ranges, lo, hi, n)
    requires lo < hi
    requires i < j < n
    ensures ranges[i].from < ranges[i].to <= ranges[j].from < ranges[j].to
    decreases j
  {
    PartitionWidthPositive(ranges, lo, hi, n);
    if j > i + 1 {
      PartitionOrdered(ranges, lo, hi, n, i, j - 1);
    }
  }

  /**
   * Six ranges that start at lo, follow each other, have width `step` except
   * the last, and end at hi, where 6 * step == hi - lo, form an equal partition.
   */
  lemma SixStepsPartition(ranges: seq<Range>, lo: real, hi: real, step: real)
    requires |ranges| == 6 && step == (hi - lo) / 6.0
    requires ranges[0].from == lo && ranges[5].to == hi
    requires forall k :: 0 < k < 6 ==> ranges[k].from == ranges[k - 1].to
    requires forall k :: 0 <= k < 5 ==> ranges[k].to == ranges[k].from + step
    ensures EqualPartition(ranges, lo, hi, 6)
  {
    assert ranges[1].from == lo + step;
    assert ranges[2].from == lo + 2.0 * step;
    assert ranges[3].from == lo + 3.0 * step;
    assert ranges[4].from == lo + 4.0 * step;
    assert ranges[5].from == lo + 5.0 * step;
  }

  /** One class of a chart's colour axis. */
  datatype ColorClass = ColorClass(range: Range, color: string)

  function ClassRanges(classes: seq<ColorClass>): (ranges: seq<Range>)
    ensures |ranges| == |classes|
    ensures forall i :: 0 <= i < |classes| ==> ranges[i] == classes[i].range
  {
    seq(|classes|, i requires 0 <= i < |classes| => classes[i].range)
  }

  /**
   * The `min !== max` branch of `getColorAxisData`: six classes stepping from
   * `safeMin` by a sixth of the span, the last one ending exactly at `safeMax`.
   */
  method StepClasses(safeMin: real, safeMax: real, colorByIndex: nat -> string) returns (classes: seq<ColorClass>)
    ensures EqualPartition(ClassRanges(classes), safeMin, safeMax, DEFAULT_COLOR_COUNT)
    ensures forall i :: 0 <= i < |classes| ==> classes[i].color == colorByIndex(i)
  {
    classes := [];
    var step := (safeMax - safeMin) / DEFAULT_COLOR_COUNT as real;
    var currentSum := safeMin;
    for i := 0 to DEFAULT_COLOR_COUNT
      invariant |classes| == i
      invariant i == 0 ==> currentSum == safeMin
      invariant 0 < i ==> classes[0].range.from == safeMin
      invariant 0 < i ==> currentSum == classes[i - 1].range.from + step
      invariant forall k :: 0 <= k < i ==> classes[k].color == colorByIndex(k)
      invariant forall k :: 0 < k < i ==> classes[k].range.from == classes[k - 1].range.to
      invariant forall k :: 0 <= k < i && k < DEFAULT_COLOR_COUNT - 1 ==>
                  classes[k].range.to == classes[k].range.from + step
      invariant i == DEFAULT_COLOR_COUNT ==> classes[i - 1].range.to == safeMax
    {
      var to := if i == DEFAULT_COLOR_COUNT - 1 then safeMax else currentSum + step;
      classes := classes + [ColorClass(Range(currentSum, to), colorByIndex(i))];
      currentSum := currentSum + step;
    }
    SixStepsPartition(ClassRanges(classes), safeMin, safeMax, step);
  }

  /**
   * `getColorAxisData`. `seriesData` holds the points' values; `colorByIndex`
   * is the colour strategy's palette lookup and `toPrecision15` the rounding of
   * a number to 15 significant digits.
   */
  method GetColorAxisData(seriesData: seq<Option<real>>, colorByIndex: nat -> string,
                          toPrecision15: real -> real) returns (classes: seq<ColorClass>)
    ensures Numbers(seriesData) == [] ==> classes == []
    ensures Numbers(seriesData) != [] && Min(Numbers(seriesData)) == Max(Numbers(seriesData)) ==>
              var v := Min(Numbers(seriesData));
              classes == [ColorClass(Range(v, v), colorByIndex(DEFAULT_COLOR_INDEX))]
    ensures Numbers(seriesData) != [] && Min(Numbers(seriesData)) != Max(Numbers(seriesData)) ==>
              && EqualPartition(ClassRanges(classes), toPrecision15(Min(Numbers(seriesData))),
                                toPrecision15(Max(Numbers(seriesData))), DEFAULT_COLOR_COUNT)
              && forall i :: 0 <= i < |classes| ==> classes[i].color == colorByIndex(i)
  {
    var values := Numbers(seriesData);
    if values == [] {
      return [];
    }
    var min := Min(values);
    var max := Max(values);
    var safeMin := toPrecision15(min);
    var safeMax := toPrecision15(max);
    if min == max {
      classes := [ColorClass(Range(min, max), colorByIndex(DEFAULT_COLOR_INDEX))];
    } else {
      classes := StepClasses(safeMin, safeMax, colorByIndex);
    }
  }
}
