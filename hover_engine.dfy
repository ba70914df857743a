/** The hover/commit engine of the amCharts life wheel (LifeWheel.tsx).

    The chart keeps two parallel column series over the eight categories:
    the hover series, whose values show the live (uncommitted) value of the
    wedge under the cursor, and the committed series, whose values are the
    user's choices. The columns of the committed series are drawn at rest
    opacity 0.8, and the wedge under the cursor is dimmed to 0.3 so that the
    hover column shows through. Two closure variables remember the wedge
    last hovered and the last live value computed.

    `Wedges` is the value view of that state; `OnCursorMoved`,
    `OnGlobalPointerMove` and `OnClick` are the three event handlers as
    functions on it, and `LifeWheelChart` is the same engine over arrays
    updated in place, proved to follow those functions. */
module HoverEngine {
  import opened Wrappers
  import opened Quantizer

  const Categories: seq<string> := [
    "Helse", "Jobb", "Kjærlighet", "Personlig utvikling",
    "Venner og familie", "Økonomi", "Moro og avkobling", "Hjem og omgivelser"
  ]

  /** Number of wedges. */
  const N: nat := |Categories|

  /** The maximum of the radial value axis. */
  const YMax: int := 10

  /** Opacity of a committed column at rest, and under the cursor. */
  const RestOpacity: real := 0.8
  const HoverOpacity: real := 0.3

  /** What the geometry collaborator resolves a cursor position to: the
      index of the series item under it and its radial axis position. */
  datatype Sample = Sample(dataIndex: nat, y: real)

  /** The engine's state. `hover` and `committed` are the values of the hover
      and committed series, `opacity` the committed columns' opacities. */
  datatype Wedges = Wedges(
    hover: seq<int>,
    committed: seq<int>,
    opacity: seq<real>,
    lastHoverDataIndex: nat,
    lastHoverValue: int)

  predicate WellFormed(w: Wedges) {
    && |w.hover| == N
    && |w.committed| == N
    && |w.opacity| == N
    && w.lastHoverDataIndex < N
  }

  /** Every wedge other than the last hovered one is at rest; the last
      hovered one is either highlighted or at rest, and its hover value is
      either 0 or the remembered live value; no value exceeds the axis. */
  predicate Invariant(w: Wedges) {
    && WellFormed(w)
    && (forall i | 0 <= i < N && i != w.lastHoverDataIndex :: w.hover[i] == 0 && w.opacity[i] == RestOpacity)
    && (w.opacity[w.lastHoverDataIndex] == RestOpacity || w.opacity[w.lastHoverDataIndex] == HoverOpacity)
    && (w.hover[w.lastHoverDataIndex] == 0 || w.hover[w.lastHoverDataIndex] == w.lastHoverValue)
    && w.lastHoverValue <= YMax
    && (forall i | 0 <= i < N :: w.committed[i] <= YMax)
  }

  /** No value is negative. Holds as long as no cursor sample lies inside
      the centre (the quantizer has no lower clamp). */
  predicate NonNegative(w: Wedges)
    requires WellFormed(w)
  {
    && w.lastHoverValue >= 0
    && (forall i | 0 <= i < N :: w.hover[i] >= 0)
    && (forall i | 0 <= i < N :: w.committed[i] >= 0)
  }

  predicate AllAtRest(w: Wedges)
    requires WellFormed(w)
  {
    forall i | 0 <= i < N :: w.hover[i] == 0 && w.opacity[i] == RestOpacity
  }

  /** The state the chart is built with: all values 0, all columns at rest,
      and wedge 0 remembered as the last hovered one. */
  function Initial(): (w: Wedges)
    ensures Invariant(w) && NonNegative(w) && AllAtRest(w)
    ensures forall i | 0 <= i < N :: w.committed[i] == 0
    ensures w.lastHoverDataIndex == 0 && w.lastHoverValue == 0
  {
    Wedges(seq(N, _ => 0), seq(N, _ => 0), seq(N, _ => RestOpacity), 0, 0)
  }

  /** The cursor-move handler. With no series item under the cursor it does
      nothing. Otherwise, if the item is not the last hovered wedge, the old
      wedge returns to rest, the new one is highlighted and remembered; then,
      unless the new wedge already shows the quantized value, its hover value
      and the remembered live value become that value. */
  function OnCursorMoved(w: Wedges, sample: Option<Sample>): (r: Wedges)
    requires WellFormed(w)
    requires sample.Some? ==> sample.value.dataIndex < N
    ensures WellFormed(r)
    ensures r.committed == w.committed
    ensures sample.None? ==> r == w
    ensures sample.Some? ==>
      var i, v := sample.value.dataIndex, Quantize(sample.value.y, YMax);
      && r.lastHoverDataIndex == i
      && r.hover[i] == v
      && r.lastHoverValue == (if w.hover[i] == v then w.lastHoverValue else v)
      && (i != w.lastHoverDataIndex ==>
            r.hover[w.lastHoverDataIndex] == 0 && r.opacity[w.lastHoverDataIndex] == RestOpacity
            && r.opacity[i] == HoverOpacity)
      && (i == w.lastHoverDataIndex ==> r.opacity == w.opacity)
      && (forall j | 0 <= j < N && j != i && j != w.lastHoverDataIndex ::
            r.hover[j] == w.hover[j] && r.opacity[j] == w.opacity[j])
    ensures Invariant(w) ==> Invariant(r)
    ensures Invariant(w) && NonNegative(w) && (sample.Some? ==> 0.0 <= sample.value.y) ==> NonNegative(r)
  {
    match sample
    case None => w
    case Some(Sample(dataIndex, y)) =>
      var oldVal := w.hover[dataIndex];
      var newVal := Quantize(y, YMax);
      var switched :=
        if w.lastHoverDataIndex != dataIndex then
          w.(hover := w.hover[w.lastHoverDataIndex := 0],
             opacity := w.opacity[w.lastHoverDataIndex := RestOpacity][dataIndex := HoverOpacity],
             lastHoverDataIndex := dataIndex)
        else w;
      if oldVal == newVal then switched
      else switched.(hover := switched.hover[dataIndex := newVal], lastHoverValue := newVal)
  }

  /** The leave test: the pointer at (px, py) lies further than 1.1 times
      the radial axis height from the centre of a chart of the given size.
      Compares squared distances; `LeaveTestMatchesDistance` shows this is
      the source's square-root comparison. */
  function Outside(px: real, py: real, width: real, height: real, maxRadius: real): (outside: bool)
    ensures maxRadius < 0.0 ==> outside
    ensures px == width / 2.0 && py == height / 2.0 ==> (outside <==> maxRadius < 0.0)
  {
    var dx, dy, limit := px - width / 2.0, py - height / 2.0, maxRadius * 1.1;
    limit < 0.0 || dx * dx + dy * dy > limit * limit
  }

  lemma ProductPositive(x: real, y: real)
    requires x > 0.0 && y > 0.0
    ensures x * y > 0.0
  {
  }

  /** Squaring is strictly monotone on non-negative reals. */
  lemma SquareLess(a: real, b: real)
    requires 0.0 <= a < b
    ensures a * a < b * b
  {
    ProductPositive(b - a, b + a);
    assert b * b - a * a == (b - a) * (b + a);
  }

  /** For the non-negative square root `distance` of the squared distance,
      `distance > maxRadius * 1.1` holds exactly when `Outside` does. */
  lemma LeaveTestMatchesDistance(px: real, py: real, width: real, height: real, maxRadius: real, distance: real)
    requires 0.0 <= distance
    requires distance * distance == (px - width / 2.0) * (px - width / 2.0) + (py - height / 2.0) * (py - height / 2.0)
    ensures distance > maxRadius * 1.1 <==> Outside(px, py, width, height, maxRadius)
  {
    var limit := maxRadius * 1.1;
    if 0.0 <= limit {
      if distance > limit {
        SquareLess(limit, distance);
      } else if distance < limit {
        SquareLess(distance, limit);
      }
    }
  }

  /** The global pointer-move handler: outside the interaction radius the
      last hovered wedge's hover value becomes 0 and its column returns to
      rest; inside, nothing changes. The remembered wedge and live value and
      the committed values are never touched. */
  function OnGlobalPointerMove(w: Wedges, outside: bool): (r: Wedges)
    requires WellFormed(w)
    ensures WellFormed(r)
    ensures r.committed == w.committed
    ensures r.lastHoverDataIndex == w.lastHoverDataIndex && r.lastHoverValue == w.lastHoverValue
    ensures !outside ==> r == w
    ensures outside ==>
      && r.hover[w.lastHoverDataIndex] == 0 && r.opacity[w.lastHoverDataIndex] == RestOpacity
      && (forall j | 0 <= j < N && j != w.lastHoverDataIndex :: r.hover[j] == w.hover[j] && r.opacity[j] == w.opacity[j])
    ensures Invariant(w) ==> Invariant(r)
    ensures Invariant(w) && outside ==> AllAtRest(r)
    ensures Invariant(w) && NonNegative(w) ==> NonNegative(r)
  {
    if outside then
      w.(hover := w.hover[w.lastHoverDataIndex := 0],
         opacity := w.opacity[w.lastHoverDataIndex := RestOpacity])
    else w
  }

  /** The click handler: the remembered live value is committed at the
      remembered wedge, whatever the cursor currently shows; no other
      committed value and nothing of the hover state changes. */
  function OnClick(w: Wedges): (r: Wedges)
    requires WellFormed(w)
    ensures WellFormed(r)
    ensures r.committed[w.lastHoverDataIndex] == w.lastHoverValue
    ensures forall j | 0 <= j < N && j != w.lastHoverDataIndex :: r.committed[j] == w.committed[j]
    ensures r.hover == w.hover && r.opacity == w.opacity
    ensures r.lastHoverDataIndex == w.lastHoverDataIndex && r.lastHoverValue == w.lastHoverValue
    ensures Invariant(w) ==> Invariant(r)
    ensures Invariant(w) && NonNegative(w) ==> NonNegative(r)
  {
    w.(committed := w.committed[w.lastHoverDataIndex := w.lastHoverValue])
  }

  /** An event delivered to the chart, with its geometry already resolved. */
  datatype Event =
    | CursorMoved(sample: Option<Sample>)
    | GlobalPointerMove(outside: bool)
    | Click

  predicate ValidEvent(e: Event) {
    e.CursorMoved? && e.sample.Some? ==> e.sample.value.dataIndex < N
  }

  /** The event carries no cursor position inside the centre. */
  predicate OutwardEvent(e: Event) {
    e.CursorMoved? && e.sample.Some? ==> 0.0 <= e.sample.value.y
  }

  function Step(w: Wedges, e: Event): (r: Wedges)
    requires WellFormed(w) && ValidEvent(e)
    ensures WellFormed(r)
  {
    match e
    case CursorMoved(sample) => OnCursorMoved(w, sample)
    case GlobalPointerMove(outside) => OnGlobalPointerMove(w, outside)
    case Click => OnClick(w)
  }

  function Run(w: Wedges, events: seq<Event>): (r: Wedges)
    requires WellFormed(w)
    requires forall k | 0 <= k < |events| :: ValidEvent(events[k])
    ensures WellFormed(r)
    decreases |events|
  {
    if events == [] then w else Run(Step(w, events[0]), events[1..])
  }

  /** Across any sequence of events the invariant holds: at most one wedge
      is ever off rest, and no value exceeds the axis maximum. */
  lemma {:induction false} RunPreservesInvariant(w: Wedges, events: seq<Event>)
    requires Invariant(w)
    requires forall k | 0 <= k < |events| :: ValidEvent(events[k])
    ensures Invariant(Run(w, events))
    decreases |events|
  {
    if events != [] {
      RunPreservesInvariant(Step(w, events[0]), events[1..]);
    }
  }

  /** Committed values stay in [0, YMax] as long as no cursor sample lies
      inside the centre. */
  lemma {:induction false} RunKeepsCommittedInRange(w: Wedges, events: seq<Event>)
    requires Invariant(w) && NonNegative(w)
    requires forall k | 0 <= k < |events| :: ValidEvent(events[k]) && OutwardEvent(events[k])
    ensures var r := Run(w, events);
      Invariant(r) && NonNegative(r) && forall i | 0 <= i < N :: 0 <= r.committed[i] <= YMax
    decreases |events|
  {
    if events != [] {
      RunKeepsCommittedInRange(Step(w, events[0]), events[1..]);
    }
  }

  /** Only clicks change committed values, and each changes at most the one
      at the remembered wedge. */
  lemma StepCommitsAtMostOne(w: Wedges, e: Event)
    requires WellFormed(w) && ValidEvent(e)
    ensures forall j | 0 <= j < N && (!e.Click? || j != w.lastHoverDataIndex) ::
      Step(w, e).committed[j] == w.committed[j]
  {
  }

  /** A click before any hover writes 0 at wedge 0, leaving the state as built. */
  lemma ClickBeforeHover()
    ensures OnClick(Initial()) == Initial()
  {
  }

  /** After leaving the region, a click still commits the live value from
      before the leave, although every wedge now shows 0. */
  lemma ClickAfterLeaveCommitsPreviousValue(w: Wedges)
    requires Invariant(w)
    ensures var r := OnClick(OnGlobalPointerMove(w, true));
      AllAtRest(r) && r.committed[w.lastHoverDataIndex] == w.lastHoverValue
  {
  }

  /** Hovering wedge 0 at position 0.5 and then moving to wedge 1 at the
      centre leaves wedge 1 showing 0 but remembers 5, which the next click
      commits to wedge 1. */
  lemma SwitchAtCentreCommitsPreviousValue()
    ensures var r := Run(Initial(), [CursorMoved(Some(Sample(0, 0.5))), CursorMoved(Some(Sample(1, 0.0))), Click]);
      r.hover[1] == 0 && r.committed[1] == 5
  {
  }

  /** Moving back into the same wedge after a leave restores its hover value
      but not its highlight: the wedge index did not change, so the column
      stays at rest opacity. */
  lemma ReenterSameWedgeStaysAtRest(w: Wedges, i: nat, y: real)
    requires Invariant(w) && i < N
    ensures var back := OnCursorMoved(OnGlobalPointerMove(OnCursorMoved(w, Some(Sample(i, y))), true), Some(Sample(i, y)));
      back.hover[i] == Quantize(y, YMax) && back.opacity[i] == RestOpacity
  {
  }

  /** The engine over the chart's own mutable state. The three arrays are
      the hover series' values, the committed series' values and the
      committed columns' opacities, indexed by wedge. */
  class LifeWheelChart {
    const hoverData: array<int>
    const seriesData: array<int>
    const columnOpacity: array<real>
    var lastHoverDataIndex: nat
    var lastHoverValue: int

    ghost function View(): Wedges
      reads this, hoverData, seriesData, columnOpacity
    {
      Wedges(hoverData[..], seriesData[..], columnOpacity[..], lastHoverDataIndex, lastHoverValue)
    }

    ghost predicate Valid()
      reads this, hoverData, seriesData, columnOpacity
    {
      hoverData != seriesData && Invariant(View())
    }

    constructor ()
      ensures Valid() && View() == Initial()
      ensures fresh(hoverData) && fresh(seriesData) && fresh(columnOpacity)
    {
      hoverData := new int[N](_ => 0);
      seriesData := new int[N](_ => 0);
      columnOpacity := new real[N](_ => RestOpacity);
      lastHoverDataIndex := 0;
      lastHoverValue := 0;
    }

    method CursorMoved(sample: Option<Sample>)
      requires Valid()
      requires sample.Some? ==> sample.value.dataIndex < N
      modifies this, hoverData, columnOpacity
      ensures Valid()
      ensures View() == OnCursorMoved(old(View()), sample)
    {
      if sample.None? {
        return;
      }
      var dataIndex := sample.value.dataIndex;
      var oldVal := hoverData[dataIndex];
      var newVal := Quantize(sample.value.y, YMax);
      if lastHoverDataIndex != dataIndex {
        hoverData[lastHoverDataIndex] := 0;
        columnOpacity[lastHoverDataIndex] := RestOpacity;
        columnOpacity[dataIndex] := HoverOpacity;
        lastHoverDataIndex := dataIndex;
      }
      if oldVal == newVal {
        return;
      }
      hoverData[lastHoverDataIndex] := newVal;
      lastHoverValue := newVal;
    }

    method GlobalPointerMove(px: real, py: real, width: real, height: real, maxRadius: real)
      requires Valid()
      modifies hoverData, columnOpacity
      ensures Valid()
      ensures View() == OnGlobalPointerMove(old(View()), Outside(px, py, width, height, maxRadius))
    {
      if Outside(px, py, width, height, maxRadius) {
        hoverData[lastHoverDataIndex] := 0;
        columnOpacity[lastHoverDataIndex] := RestOpacity;
      }
    }

    method Click()
      requires Valid()
      modifies seriesData
      ensures Valid()
      ensures View() == OnClick(old(View()))
    {
      seriesData[lastHoverDataIndex] := lastHoverValue;
    }
  }

  /** Built chart, cursor over wedge 3 at normalized radius 0.65, click:
      wedge 3 holds 7 and every other wedge 0. */
  method HoverThenClick() returns (committed: seq<int>)
    ensures committed == [0, 0, 0, 7, 0, 0, 0, 0]
  {
    var chart := new LifeWheelChart();
    QuantizeSamples();
    chart.CursorMoved(Some(Sample(3, 0.65)));
    chart.Click();
    committed := chart.seriesData[..];
  }
}
