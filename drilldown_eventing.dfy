/**
 * Drill eventing: turning a click on a chart point, a group of points, an axis
 * label or a table cell into a drill event, handing it to the user's callback,
 * and dispatching it as a "drill" DOM event unless the callback returns false.
 */
module DrilldownEventing {
  import opened Wrappers

  // ---------------------------------------------------------------------------
  // Chart types and clickable element names
  // ---------------------------------------------------------------------------

  const LINE := "line"
  const AREA := "area"
  const SCATTER := "scatter"
  const BUBBLE := "bubble"
  const COLUMN := "column"
  const BAR := "bar"
  const PIE := "pie"
  const TREEMAP := "treemap"
  const DONUT := "donut"
  const FUNNEL := "funnel"
  const HEATMAP := "heatmap"
  const TABLE := "table"
  const COMBO := "combo"
  const COMBO2 := "combo2"

  predicate IsTreemap(chartType: string) { chartType == TREEMAP }

  predicate IsHeatmap(chartType: string) { chartType == HEATMAP }

  predicate IsComboChart(chartType: string) { chartType == COMBO || chartType == COMBO2 }

  /**
   * `getClickableElementNameByChartType`. Any other type fails the invariant
   * (an exception), modelled as `None`.
   */
  function ClickableElementName(chartType: string): (element: Option<string>)
    ensures element == Some("point") <==> chartType in {LINE, AREA, SCATTER, BUBBLE}
    ensures element == Some("bar") <==> chartType in {COLUMN, BAR}
    ensures element == Some("slice") <==> chartType in {PIE, TREEMAP, DONUT, FUNNEL}
    ensures element == Some("cell") <==> chartType == HEATMAP
    ensures element.None? <==>
              chartType !in {LINE, AREA, SCATTER, BUBBLE, COLUMN, BAR, PIE, TREEMAP, DONUT, FUNNEL, HEATMAP}
  {
    if chartType == LINE || chartType == AREA || chartType == SCATTER || chartType == BUBBLE then Some("point")
    else if chartType == COLUMN || chartType == BAR then Some("bar")
    else if chartType == PIE || chartType == TREEMAP || chartType == DONUT || chartType == FUNNEL then Some("slice")
    else if chartType == HEATMAP then Some("cell")
    else None
  }

  // ---------------------------------------------------------------------------
  // Drill events
  // ---------------------------------------------------------------------------

  datatype IntersectionHeader = IntersectionHeader(uri: string, identifier: string)

  datatype IntersectionElement = IntersectionElement(id: string, title: string, header: Option<IntersectionHeader>)

  /** The query the chart was executed with; the composers pass it through untouched. */
  datatype Afm = Afm(definition: string)

  /**
   * A clicked Highcharts point. `z` and `value` are `None` when undefined or
   * NaN; `seriesType` is the point's `series.options.type`.
   */
  datatype HighchartsPoint = HighchartsPoint(
    x: real,
    y: real,
    z: Option<real>,
    value: Option<real>,
    drillIntersection: seq<IntersectionElement>,
    seriesType: Option<string>)

  /** A Highcharts drilldown event: a single point, or (for a group) a list of points. */
  datatype HighchartsDrillEvent = HighchartsDrillEvent(point: Option<HighchartsPoint>, points: Option<seq<HighchartsPoint>>)

  /** `isGroupHighchartsDrillEvent`: the event carries a `points` list. */
  predicate IsGroupHighchartsDrillEvent(event: HighchartsDrillEvent)
  {
    event.points.Some?
  }

  datatype DrillPoint = DrillPoint(x: real, y: real, intersection: seq<IntersectionElement>)

  /** The three kinds of drill context; optional fields are `None` when the key is absent. */
  datatype DrillContext =
    | PointContext(chartType: string, element: string, intersection: seq<IntersectionElement>,
                   x: Option<real>, y: Option<real>, z: Option<real>, value: Option<string>)
    | GroupContext(chartType: string, element: string, points: seq<DrillPoint>)
    | TableContext(chartType: string, element: string, columnIndex: int, rowIndex: int,
                   row: seq<string>, intersection: seq<IntersectionElement>)

  datatype DrillEvent = DrillEvent(executionContext: Afm, drillContext: DrillContext)

  /** A table cell click. */
  datatype CellDrillEvent = CellDrillEvent(columnIndex: int, rowIndex: int, row: seq<string>,
                                           intersection: seq<IntersectionElement>)

  // ---------------------------------------------------------------------------
  // Contexts
  // ---------------------------------------------------------------------------

  /** A point's drill coordinates, in the order of the points. */
  function DrillPoints(points: seq<HighchartsPoint>): (drillPoints: seq<DrillPoint>)
    ensures |drillPoints| == |points|
    ensures forall i :: 0 <= i < |points| ==>
              drillPoints[i] == DrillPoint(points[i].x, points[i].y, points[i].drillIntersection)
  {
    seq(|points|, i requires 0 <= i < |points| => DrillPoint(points[i].x, points[i].y, points[i].drillIntersection))
  }

  /** `composeDrillContextGroup`: a "label" context with one entry per point, in order. */
  function ComposeDrillContextGroup(points: seq<HighchartsPoint>, chartType: string): (context: DrillContext)
    ensures context.GroupContext? && context.chartType == chartType && context.element == "label"
    ensures |context.points| == |points|
    ensures forall i :: 0 <= i < |points| ==>
              && context.points[i].x == points[i].x
              && context.points[i].y == points[i].y
              && context.points[i].intersection == points[i].drillIntersection
  {
    GroupContext(chartType, "label", DrillPoints(points))
  }

  /** `point.value ? point.value.toString() : ""`: 0, NaN and undefined are falsy. */
  function ValueLabel(value: Option<real>, numberToString: real -> string): (text: string)
    ensures value.Some? && value.value != 0.0 ==> text == numberToString(value.value)
    ensures value.None? || value.value == 0.0 ==> text == ""
  {
    if value.Some? && value.value != 0.0 then numberToString(value.value) else ""
  }

  /**
   * What a point context must look like: the clickable element of the chart
   * type, x and y unless it is a treemap, z when it is a number, and a value
   * label only for treemaps and heatmaps.
   */
  predicate IsPointContext(context: DrillContext, point: HighchartsPoint, chartType: string,
                           numberToString: real -> string)
  {
    && context.PointContext?
    && ClickableElementName(chartType).Some?
    && context.chartType == chartType
    && context.element == ClickableElementName(chartType).value
    && context.intersection == point.drillIntersection
    && (context.x.Some? <==> !IsTreemap(chartType))
    && (context.y.Some? <==> !IsTreemap(chartType))
    && (context.x.Some? ==> context.x.value == point.x && context.y.value == point.y)
    && context.z == point.z
    && (context.value.Some? <==> IsTreemap(chartType) || IsHeatmap(chartType))
    && (context.value.Some? ==> context.value.value == ValueLabel(point.value, numberToString))
  }

  /** The description above leaves no freedom: at most one context fits it. */
  lemma PointContextIsDetermined(c1: DrillContext, c2: DrillContext, point: HighchartsPoint, chartType: string,
                                 numberToString: real -> string)
    requires IsPointContext(c1, point, chartType, numberToString)
    requires IsPointContext(c2, point, chartType, numberToString)
    ensures c1 == c2
  {
  }

  /**
   * `composeDrillContextPoint`: the record is built and its optional fields
   * are filled in one condition at a time. `None` when the chart type fails the
   * element-name invariant.
   */
  method ComposeDrillContextPoint(point: HighchartsPoint, chartType: string, numberToString: real -> string)
    returns (context: Option<DrillContext>)
    ensures context.Some? <==> ClickableElementName(chartType).Some?
    ensures context.Some? ==> IsPointContext(context.value, point, chartType, numberToString)
  {
    var element := ClickableElementName(chartType);
    if element.None? {
      return None;
    }
    var c := PointContext(chartType, element.value, point.drillIntersection, None, None, None, None);
    if !IsTreemap(chartType) {
      c := c.(x := Some(point.x), y := Some(point.y));
    }
    if point.z.Some? {
      c := c.(z := point.z);
    }
    if IsTreemap(chartType) || IsHeatmap(chartType) {
      c := c.(value := Some(ValueLabel(point.value, numberToString)));
    }
    context := Some(c);
  }

  /** A line chart point: element "point", x and y present, no value. */
  lemma LinePointContext(context: DrillContext, point: HighchartsPoint, numberToString: real -> string)
    requires IsPointContext(context, point, LINE, numberToString)
    ensures context.element == "point"
    ensures context.x == Some(point.x) && context.y == Some(point.y)
    ensures context.value == None
  {
  }

  /** A treemap point: element "slice", no x or y, and a value label. */
  lemma TreemapPointContext(context: DrillContext, point: HighchartsPoint, numberToString: real -> string)
    requires IsPointContext(context, point, TREEMAP, numberToString)
    ensures context.element == "slice"
    ensures context.x == None && context.y == None
    ensures context.value == Some(ValueLabel(point.value, numberToString))
  {
  }

  /** The chart type a click is attributed to: in a combo chart, the clicked series' own type. */
  function UsedChartType(event: HighchartsDrillEvent, chartType: string): (used: string)
    ensures !IsComboChart(chartType) ==> used == chartType
    ensures IsComboChart(chartType) && event.point.Some? && event.point.value.seriesType.Some? ==>
              used == event.point.value.seriesType.value
    ensures IsComboChart(chartType) && (event.point.None? || event.point.value.seriesType.None?) ==>
              used == chartType
  {
    if IsComboChart(chartType) && event.point.Some? && event.point.value.seriesType.Some?
    then event.point.value.seriesType.value
    else chartType
  }

  /** `createDrillIntersectionElement`: missing strings become "", the header only when uri or identifier is set. */
  method CreateDrillIntersectionElement(id: Option<string>, title: Option<string>,
                                        uri: Option<string>, identifier: Option<string>)
    returns (element: IntersectionElement)
    ensures element.id == (if Truthy(id) then id.value else "")
    ensures element.title == (if Truthy(title) then title.value else "")
    ensures element.header.Some? <==> Truthy(uri) || Truthy(identifier)
    ensures element.header.Some? ==>
              && element.header.value.uri == (if Truthy(uri) then uri.value else "")
              && element.header.value.identifier == (if Truthy(identifier) then identifier.value else "")
  {
    element := IntersectionElement(OrEmpty(id), OrEmpty(title), None);
    if Truthy(uri) || Truthy(identifier) {
      element := element.(header := Some(IntersectionHeader(OrEmpty(uri), OrEmpty(identifier))));
    }
  }

  // ---------------------------------------------------------------------------
  // Firing
  // ---------------------------------------------------------------------------

  /** What the user's callback returned: exactly `false`, or anything else (undefined included). */
  datatype CallbackResult = ReturnedFalse | ReturnedOther

  /** A DOM CustomEvent carrying a drill event as its detail. */
  datatype CustomEvent = CustomEvent(name: string, detail: DrillEvent, bubbles: bool)

  /** The user's `onFiredDrillEvent`: what it returns for each event, and the events it has received. */
  class DrillCallback {
    const respond: DrillEvent -> CallbackResult
    var received: seq<DrillEvent>

    constructor (respond: DrillEvent -> CallbackResult)
      ensures this.respond == respond && received == []
    {
      this.respond := respond;
      received := [];
    }

    method Call(data: DrillEvent) returns (r: CallbackResult)
      modifies this
      ensures received == old(received) + [data]
      ensures r == respond(data)
    {
      received := received + [data];
      r := respond(data);
    }
  }

  /** The element the interaction happened on, with the events dispatched on it. */
  class DrillTarget {
    var dispatched: seq<CustomEvent>

    constructor ()
      ensures dispatched == []
    {
      dispatched := [];
    }

    method DispatchEvent(event: CustomEvent)
      modifies this
      ensures dispatched == old(dispatched) + [event]
    {
      dispatched := dispatched + [event];
    }
  }

  /** The event `fireEvent` dispatches after the callback returned `r`, if any. */
  function DefaultEvents(r: CallbackResult, data: DrillEvent): (events: seq<CustomEvent>)
    ensures r == ReturnedFalse ==> events == []
    ensures r != ReturnedFalse ==> events == [CustomEvent("drill", data, true)]
  {
    if r != ReturnedFalse then [CustomEvent("drill", data, true)] else []
  }

  /** `fireEvent`: the callback once, then a bubbling "drill" event unless it returned `false`. */
  method FireEvent(onFiredDrillEvent: DrillCallback, data: DrillEvent, target: DrillTarget)
    modifies onFiredDrillEvent, target
    ensures onFiredDrillEvent.received == old(onFiredDrillEvent.received) + [data]
    ensures target.dispatched == old(target.dispatched) + DefaultEvents(onFiredDrillEvent.respond(data), data)
  {
    var returnValue := onFiredDrillEvent.Call(data);
    if returnValue != ReturnedFalse {
      var event := CustomEvent("drill", data, true);
      target.DispatchEvent(event);
    }
  }

  /**
   * The body of `chartClickDebounced` (run once the debounce window closes):
   * a group context for a group event, a point context otherwise, then
   * `fireEvent`. An exception (no clicked point, an unknown chart type)
   * fires nothing.
   */
  method ChartClick(afm: Afm, onFiredDrillEvent: DrillCallback, event: HighchartsDrillEvent,
                    target: DrillTarget, chartType: string, numberToString: real -> string)
    modifies onFiredDrillEvent, target
    ensures var usedChartType := UsedChartType(event, chartType);
            var fires := IsGroupHighchartsDrillEvent(event)
                         || (event.point.Some? && ClickableElementName(usedChartType).Some?);
            && (!fires ==> onFiredDrillEvent.received == old(onFiredDrillEvent.received)
                           && target.dispatched == old(target.dispatched))
            && (fires ==>
                  && |onFiredDrillEvent.received| == |old(onFiredDrillEvent.received)| + 1
                  && onFiredDrillEvent.received[..|old(onFiredDrillEvent.received)|] == old(onFiredDrillEvent.received)
                  && var data := onFiredDrillEvent.received[|old(onFiredDrillEvent.received)|];
                     && data.executionContext == afm
                     && (IsGroupHighchartsDrillEvent(event) ==>
                           data.drillContext == ComposeDrillContextGroup(event.points.value, usedChartType))
                     && (!IsGroupHighchartsDrillEvent(event) ==>
                           IsPointContext(data.drillContext, event.point.value, usedChartType, numberToString))
                     && target.dispatched == old(target.dispatched)
                                             + DefaultEvents(onFiredDrillEvent.respond(data), data))
  {
    var isDrillGroupContext := IsGroupHighchartsDrillEvent(event);
    var usedChartType := UsedChartType(event, chartType);
    var drillContext: DrillContext;
    if isDrillGroupContext {
      drillContext := ComposeDrillContextGroup(event.points.value, usedChartType);
    } else {
      if event.point.None? {
        return;
      }
      var pointContext := ComposeDrillContextPoint(event.point.value, usedChartType, numberToString);
      if pointContext.None? {
        return;
      }
      drillContext := pointContext.value;
    }
    var data := DrillEvent(afm, drillContext);
    FireEvent(onFiredDrillEvent, data, target);
  }

  /**
   * The body of `tickLabelClickDebounce`: the label's points become a "label"
   * context, the same one a group click on those points composes.
   */
  method TickLabelClick(afm: Afm, onFiredDrillEvent: DrillCallback, points: seq<HighchartsPoint>,
                        target: DrillTarget, chartType: string)
    modifies onFiredDrillEvent, target
    ensures var data := DrillEvent(afm, ComposeDrillContextGroup(points, chartType));
            && onFiredDrillEvent.received == old(onFiredDrillEvent.received) + [data]
            && target.dispatched == old(target.dispatched) + DefaultEvents(onFiredDrillEvent.respond(data), data)
  {
    var contextPoints := seq(|points|, i requires 0 <= i < |points| =>
      DrillPoint(points[i].x, points[i].y, points[i].drillIntersection));
    var drillContext := GroupContext(chartType, "label", contextPoints);
    assert contextPoints == DrillPoints(points);
    var data := DrillEvent(afm, drillContext);
    FireEvent(onFiredDrillEvent, data, target);
  }

  /** `cellClick`: a "table" / "cell" context copying the cell's position, row and intersection. */
  method CellClick(afm: Afm, onFiredDrillEvent: DrillCallback, event: CellDrillEvent, target: DrillTarget)
    modifies onFiredDrillEvent, target
    ensures var data := DrillEvent(afm, TableContext(TABLE, "cell", event.columnIndex, event.rowIndex,
                                                     event.row, event.intersection));
            && onFiredDrillEvent.received == old(onFiredDrillEvent.received) + [data]
            && target.dispatched == old(target.dispatched) + DefaultEvents(onFiredDrillEvent.respond(data), data)
  {
    var drillContext := TableContext(TABLE, "cell", event.columnIndex, event.rowIndex, event.row, event.intersection);
    var data := DrillEvent(afm, drillContext);
    FireEvent(onFiredDrillEvent, data, target);
  }
}
