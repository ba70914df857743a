/** The earlier recharts version of the life wheel (__LifeWheelRechart.tsx).
    Its state is two maps from category name to value, the committed
    `values` and the live `hoveredValues`; a mouse move rewrites one
    category's live value, a click copies every live value into the
    committed map, and the chart rows are derived from both maps. Every
    handler builds new maps from old ones, so the model is functions. */
module RechartWheel {
  import opened Wrappers

  const CategoryNames: seq<string> := [
    "Helse", "Jobb", "Kjærlighet", "Personlig utvikling",
    "Venner og familie", "Økonomi", "Moro og avkobling", "Hjem og omgivelser"
  ]

  /** The top of the radius axis, and of every value. */
  const FullMark: int := 10

  type CategoryValues = map<string, int>

  /** Folds the names into `acc` from the left, setting each to 0, as the
      `reduce` that builds both initial maps does. */
  function ZeroFold(names: seq<string>, acc: CategoryValues): (m: CategoryValues)
    ensures m.Keys == acc.Keys + (set n | n in names)
    ensures forall k | k in m :: m[k] == (if k in names then 0 else acc[k])
    decreases |names|
  {
    if names == [] then acc else ZeroFold(names[1..], acc[names[0] := 0])
  }

  datatype WheelState = WheelState(values: CategoryValues, hoveredValues: CategoryValues)

  /** Both maps start with every category at 0 and nothing else. */
  function Initial(): (s: WheelState)
    ensures s.values == s.hoveredValues
    ensures s.values.Keys == set n | n in CategoryNames
    ensures forall k | k in s.values :: s.values[k] == 0
  {
    WheelState(ZeroFold(CategoryNames, map[]), ZeroFold(CategoryNames, map[]))
  }

  /** `Math.round` on an exact real: the nearest integer, halves upward. */
  function Round(x: real): (n: int)
    ensures n as real - 0.5 <= x < n as real + 0.5
  {
    (x + 0.5).Floor
  }

  /** The value a mouse at `mouseRadius` selects in a chart of radius
      `chartRadius`: ten times the radius ratio, rounded, clamped to
      [0, FullMark]. */
  function QuantizeRadius(mouseRadius: real, chartRadius: real): (v: int)
    requires chartRadius != 0.0
    ensures 0 <= v <= FullMark
  {
    var rounded := Round(10.0 * (mouseRadius / chartRadius));
    var atLeastZero := if rounded > 0 then rounded else 0;
    if atLeastZero < FullMark then atLeastZero else FullMark
  }

  /** The centre selects 0, the rim and anything beyond it select 10. */
  lemma QuantizeRadiusEnds(mouseRadius: real, chartRadius: real)
    requires 0.0 < chartRadius
    ensures QuantizeRadius(0.0, chartRadius) == 0
    ensures chartRadius <= mouseRadius ==> QuantizeRadius(mouseRadius, chartRadius) == FullMark
  {
    if chartRadius <= mouseRadius {
      assert 1.0 <= mouseRadius / chartRadius by {
        assert mouseRadius / chartRadius * chartRadius == mouseRadius;
      }
    }
  }

  lemma RoundMonotone(x: real, x': real)
    requires x <= x'
    ensures Round(x) <= Round(x')
  {
  }

  /** Moving the mouse outward never lowers the selected value. */
  lemma QuantizeRadiusMonotone(mouseRadius: real, mouseRadius': real, chartRadius: real)
    requires 0.0 < chartRadius
    requires mouseRadius <= mouseRadius'
    ensures QuantizeRadius(mouseRadius, chartRadius) <= QuantizeRadius(mouseRadius', chartRadius)
  {
    assert mouseRadius / chartRadius <= mouseRadius' / chartRadius by {
      assert mouseRadius' / chartRadius - mouseRadius / chartRadius == (mouseRadius' - mouseRadius) / chartRadius;
    }
    RoundMonotone(10.0 * (mouseRadius / chartRadius), 10.0 * (mouseRadius' / chartRadius));
  }

  /** What recharts passes to the move handler: the category of the active
      payload, if any, and the active coordinate's radii, if known. */
  datatype MouseState = MouseState(activeCategory: Option<string>, outerRadius: Option<real>, radius: Option<real>)

  /** A move with an active payload sets that category's live value to the
      quantized radius (outer radius 1000 and radius 0 when unknown); a move
      without one changes nothing. Committed values never change. */
  function OnMouseMove(s: WheelState, e: MouseState): (r: WheelState)
    requires e.outerRadius != Some(0.0)
    ensures r.values == s.values
    ensures e.activeCategory.None? ==> r == s
    ensures e.activeCategory.Some? ==>
      var c := e.activeCategory.value;
      && r.hoveredValues.Keys == s.hoveredValues.Keys + {c}
      && r.hoveredValues[c] == QuantizeRadius(e.radius.GetOr(0.0), e.outerRadius.GetOr(1000.0))
      && forall k | k in s.hoveredValues && k != c :: r.hoveredValues[k] == s.hoveredValues[k]
  {
    match e.activeCategory
    case None => s
    case Some(category) =>
      var chartRadius := e.outerRadius.GetOr(1000.0);
      var mouseRadius := e.radius.GetOr(0.0);
      s.(hoveredValues := s.hoveredValues[category := QuantizeRadius(mouseRadius, chartRadius)])
  }

  /** A click replaces every committed value by the live one. */
  function OnClick(s: WheelState): (r: WheelState)
    ensures r.hoveredValues == s.hoveredValues
    ensures r.values.Keys == s.hoveredValues.Keys
    ensures forall k | k in s.hoveredValues :: r.values[k] == s.hoveredValues[k]
  {
    s.(values := s.hoveredValues)
  }

  datatype ChartDataPoint = ChartDataPoint(category: string, value: int, hoverValue: int, fullMark: int)

  predicate CoversCategories(s: WheelState) {
    forall i | 0 <= i < |CategoryNames| :: CategoryNames[i] in s.values && CategoryNames[i] in s.hoveredValues
  }

  /** The chart rows: one per category, in category order, each with the
      committed and live value of its category and the full mark. */
  function Rows(s: WheelState): (rows: seq<ChartDataPoint>)
    requires CoversCategories(s)
    ensures |rows| == |CategoryNames|
    ensures forall i | 0 <= i < |rows| ::
      && rows[i].category == CategoryNames[i]
      && rows[i].value == s.values[CategoryNames[i]]
      && rows[i].hoverValue == s.hoveredValues[CategoryNames[i]]
      && rows[i].fullMark == FullMark
  {
    seq(|CategoryNames|, i requires 0 <= i < |CategoryNames| =>
      ChartDataPoint(CategoryNames[i], s.values[CategoryNames[i]], s.hoveredValues[CategoryNames[i]], FullMark))
  }

  /** Every value of both maps lies in [0, FullMark]. */
  predicate InRange(s: WheelState) {
    && (forall k | k in s.values :: 0 <= s.values[k] <= FullMark)
    && (forall k | k in s.hoveredValues :: 0 <= s.hoveredValues[k] <= FullMark)
  }

  datatype Event = MouseMove(state: MouseState) | Click

  predicate ValidEvent(e: Event) {
    e.MouseMove? ==> e.state.outerRadius != Some(0.0)
  }

  function Step(s: WheelState, e: Event): WheelState
    requires ValidEvent(e)
  {
    match e
    case MouseMove(m) => OnMouseMove(s, m)
    case Click => OnClick(s)
  }

  function Run(s: WheelState, events: seq<Event>): WheelState
    requires forall k | 0 <= k < |events| :: ValidEvent(events[k])
    decreases |events|
  {
    if events == [] then s else Run(Step(s, events[0]), events[1..])
  }

  /** From the initial state, across any moves and clicks, every value stays
      in [0, FullMark] and every category keeps its row. */
  lemma {:induction false} RunStaysInRange(s: WheelState, events: seq<Event>)
    requires InRange(s) && CoversCategories(s)
    requires forall k | 0 <= k < |events| :: ValidEvent(events[k])
    ensures InRange(Run(s, events)) && CoversCategories(Run(s, events))
    decreases |events|
  {
    if events != [] {
      var next := Step(s, events[0]);
      assert InRange(next) && CoversCategories(next);
      RunStaysInRange(next, events[1..]);
    }
  }

  lemma InitialInRange()
    ensures InRange(Initial()) && CoversCategories(Initial())
  {
  }

  /** After a click every row shows its committed value equal to its live
      value, and both lie within [0, fullMark] when the state is in range. */
  lemma RowsAfterClick(s: WheelState)
    requires CoversCategories(s) && InRange(s)
    ensures CoversCategories(OnClick(s))
    ensures forall row | row in Rows(OnClick(s)) :: row.value == row.hoverValue && 0 <= row.value <= row.fullMark
  {
  }
}
