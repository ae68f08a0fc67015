/** Boxes in rows, one row a layer (scripts/diagram_hands.py, `layered_layout` and `session_tool_graph`). */
module LayeredLayout {
  import opened Sequences
  import opened Wrappers

  datatype Node = Node(id: string, layer: int)

  datatype Box = Box(x: real, y: real, w: real, h: real)

  const TOP := 0.12
  const BOTTOM := 0.88
  const LEFT := 0.06
  const RIGHT := 0.94
  const BOX_HEIGHT := 0.07
  const GAP := 0.02
  const MAX_WIDTH := 0.28

  // --------------------------------------------------------------- geometry

  /** The width of each of n boxes in a row. */
  function Width(n: nat): real
    requires n > 0
  {
    var share := (RIGHT - LEFT - GAP * (n - 1) as real) / n as real;
    if share < MAX_WIDTH then share else MAX_WIDTH
  }

  function RowWidth(n: nat): real
    requires n > 0
  {
    n as real * Width(n) + (n - 1) as real * GAP
  }

  /** Where box i of n starts. */
  function Column(n: nat, i: nat): real
    requires n > 0
  {
    LEFT + (RIGHT - LEFT - RowWidth(n)) / 2.0 + i as real * (Width(n) + GAP)
  }

  /** Where the row of a layer starts, the lowest layer being `first`. */
  function RowOf(layer: int, first: int, span: nat): real
    requires span > 0
  {
    TOP + (BOTTOM - TOP - BOX_HEIGHT) * ((layer - first) as real / span as real)
  }

  /** A box of positive width is left exactly for up to 44 nodes in a row. */
  lemma WidthIsPositiveExactly(n: nat)
    requires n > 0
    ensures Width(n) > 0.0 <==> n <= 44
  {
    var room := RIGHT - LEFT - GAP * (n - 1) as real;
    assert room > 0.0 <==> n <= 44;
    Quotient(room, n as real);
  }

  lemma Quotient(a: real, b: real)
    requires b > 0.0
    ensures (a / b) * b == a && (a / b > 0.0 <==> a > 0.0)
  {
    Sign(a / b, b);
  }

  lemma Sign(x: real, b: real)
    requires b > 0.0
    ensures x * b > 0.0 <==> x > 0.0
    ensures x * b >= 0.0 <==> x >= 0.0
  {
    assert x <= 0.0 ==> x * b <= 0.0;
    assert x < 0.0 ==> x * b < 0.0;
  }

  lemma RowFits(n: nat)
    requires n > 0
    ensures RowWidth(n) <= RIGHT - LEFT
  {
    var room, b := RIGHT - LEFT - GAP * (n - 1) as real, n as real;
    Quotient(room, b);
    assert Width(n) <= room / b;
    assert b * Width(n) <= b * (room / b);
  }

  lemma Steps(a: real, b: real, pitch: real)
    requires a <= b && pitch >= 0.0
    ensures a * pitch <= b * pitch
    ensures b * pitch - a * pitch == (b - a) * pitch
  {
    assert (b - a) * pitch >= 0.0;
  }

  /** The boxes and gaps of a row, seen as steps of one box and one gap. */
  lemma RowInSteps(n: nat, pitch: real)
    requires n > 0 && pitch == Width(n) + GAP
    ensures (n - 1) as real * pitch == RowWidth(n) - Width(n)
  {
    var k, w := (n - 1) as real, Width(n);
    assert k * pitch == k * w + k * GAP;
    assert n as real * w == k * w + w;
  }

  lemma ColumnsInside(n: nat, i: nat)
    requires i < n <= 44
    ensures LEFT <= Column(n, i) && Column(n, i) + Width(n) <= RIGHT
  {
    var pitch := Width(n) + GAP;
    RowFits(n);
    WidthIsPositiveExactly(n);
    Steps(0.0, i as real, pitch);
    Steps(i as real, (n - 1) as real, pitch);
    RowInSteps(n, pitch);
  }

  lemma ColumnsApart(n: nat, i: nat, j: nat)
    requires i < j < n <= 44
    ensures Column(n, i) + Width(n) <= Column(n, j)
  {
    var pitch := Width(n) + GAP;
    WidthIsPositiveExactly(n);
    Steps((i + 1) as real, j as real, pitch);
    Steps(i as real, (i + 1) as real, pitch);
    assert ((i + 1) as real - i as real) * pitch == pitch;
  }

  /** Two rows do not overlap exactly if their layers are at least 7/69 of the spread apart. */
  lemma RowsApartExactly(a: int, b: int, first: int, span: nat)
    requires span > 0
    ensures RowOf(a, first, span) + BOX_HEIGHT <= RowOf(b, first, span) <==> 69 * (b - a) >= 7 * span
  {
    var s := span as real;
    var qa, qb := (a - first) as real / s, (b - first) as real / s;
    assert qa * s == (a - first) as real && qb * s == (b - first) as real;
    assert (qb - qa) * s == (b - a) as real;
    assert RowOf(b, first, span) - RowOf(a, first, span) == 0.69 * (qb - qa);
    var surplus := 0.69 * (qb - qa) - 0.07;
    Sign(surplus, s);
    assert surplus * s == 0.69 * ((qb - qa) * s) - 0.07 * s;
    assert 0.69 * (b - a) as real - 0.07 * s == (69 * (b - a) - 7 * span) as real / 100.0;
  }

  lemma RowInside(layer: int, first: int, span: nat)
    requires span > 0 && first <= layer <= first + span
    ensures TOP <= RowOf(layer, first, span) && RowOf(layer, first, span) + BOX_HEIGHT <= BOTTOM
  {
    var s := span as real;
    var q := (layer - first) as real / s;
    assert q * s == (layer - first) as real;
    Sign(q, s);
    Sign(1.0 - q, s);
    assert (1.0 - q) * s == s - q * s;
  }

  /** A row is centred between the margins at 0.06 and 0.94, and its boxes are 0.02 apart. */
  lemma RowIsCentred(n: nat, i: nat)
    requires i < n
    ensures Column(n, 0) - 0.06 == 0.94 - (Column(n, n - 1) + Width(n))
    ensures i + 1 < n ==> Column(n, i + 1) == Column(n, i) + Width(n) + 0.02
  {
    var pitch := Width(n) + GAP;
    RowInSteps(n, pitch);
    Steps(i as real, (i + 1) as real, pitch);
    assert 0 as real * pitch == 0.0;
    assert ((i + 1) as real - i as real) * pitch == pitch;
    assert (n - 1) as real * pitch == RowWidth(n) - Width(n);
  }

  /** Up to three boxes are 0.28 wide; more than three share the whole width. */
  lemma WidthExactly(n: nat)
    requires n > 0
    ensures n <= 3 ==> Width(n) == 0.28
    ensures n > 3 ==> Width(n) < 0.28 && Column(n, 0) == 0.06
  {
    var b := n as real;
    var room := RIGHT - LEFT - GAP * (n - 1) as real;
    var share := room / b;
    Quotient(room, b);
    assert room == 0.9 - 0.02 * b;
    Sign(share - 0.28, b);
    assert (share - 0.28) * b == room - 0.28 * b;
    assert share >= 0.28 <==> 0.3 * b <= 0.9;
    if n > 3 {
      assert b * share == room;
      assert 0 as real * (Width(n) + GAP) == 0.0;
    }
  }

  /** The lowest layer's row starts at 0.12, that of a layer the whole span higher ends at 0.88, and rows are evenly spaced. */
  lemma RowsAreSpread(layer: int, first: int, span: nat)
    requires span > 0
    ensures RowOf(first, first, span) == 0.12 && RowOf(first + span, first, span) + 0.07 == 0.88
    ensures RowOf(layer + 1, first, span) - RowOf(layer, first, span) == 0.69 / span as real
  {
    var s := span as real;
    assert 0.0 / s == 0.0 && s / s == 1.0;
    assert (layer + 1 - first) as real == (layer - first) as real + 1.0;
    assert (layer + 1 - first) as real / s == (layer - first) as real / s + 1.0 / s;
    assert 0.69 * (1.0 / s) == 0.69 / s;
  }

  // ----------------------------------------------------------------- layout

  function InLayer(nodes: seq<Node>, layer: int): seq<Node> {
    if nodes == [] then []
    else InLayer(Front(nodes), layer) + if Last(nodes).layer == layer then [Last(nodes)] else []
  }

  function MinLayer(nodes: seq<Node>): int
    requires nodes != []
  {
    if |nodes| == 1 || Last(nodes).layer < MinLayer(Front(nodes)) then Last(nodes).layer else MinLayer(Front(nodes))
  }

  function MaxLayer(nodes: seq<Node>): int
    requires nodes != []
  {
    if |nodes| == 1 || Last(nodes).layer > MaxLayer(Front(nodes)) then Last(nodes).layer else MaxLayer(Front(nodes))
  }

  lemma {:induction false} LayersBetween(nodes: seq<Node>, k: nat)
    requires k < |nodes|
    ensures MinLayer(nodes) <= nodes[k].layer <= MaxLayer(nodes)
  {
    if k < |nodes| - 1 {
      LayersBetween(Front(nodes), k);
    }
  }

  function Span(nodes: seq<Node>): (span: nat)
    requires nodes != []
    ensures span > 0
  {
    var spread := MaxLayer(nodes) - MinLayer(nodes);
    if spread > 1 then spread else 1
  }

  /** The k-th node's place among the nodes of its layer. */
  function Rank(nodes: seq<Node>, k: nat): nat
    requires k < |nodes|
  {
    |InLayer(nodes[..k], nodes[k].layer)|
  }

  lemma {:induction false} RankedNode(nodes: seq<Node>, k: nat)
    requires k < |nodes|
    ensures Rank(nodes, k) < |InLayer(nodes, nodes[k].layer)| && InLayer(nodes, nodes[k].layer)[Rank(nodes, k)] == nodes[k]
  {
    var n := |nodes| - 1;
    if k < n {
      RankedNode(Front(nodes), k);
      assert Front(nodes)[..k] == nodes[..k];
    } else {
      assert nodes[..k] == Front(nodes);
    }
  }

  /** The box that the k-th node gets. */
  function BoxOf(nodes: seq<Node>, k: nat): Box
    requires k < |nodes|
  {
    RankedNode(nodes, k);
    var n := |InLayer(nodes, nodes[k].layer)|;
    Box(Column(n, Rank(nodes, k)), RowOf(nodes[k].layer, MinLayer(nodes), Span(nodes)), Width(n), BOX_HEIGHT)
  }

  predicate DistinctNodeIds(nodes: seq<Node>) {
    forall i, j :: 0 <= i < j < |nodes| ==> nodes[i].id != nodes[j].id
  }

  predicate Disjoint(a: Box, b: Box) {
    a.x + a.w <= b.x || b.x + b.w <= a.x || a.y + a.h <= b.y || b.y + b.h <= a.y
  }

  predicate WithinMargins(b: Box) {
    LEFT <= b.x && b.x + b.w <= RIGHT && TOP <= b.y && b.y + b.h <= BOTTOM
  }

  /** Nodes of different layers have layers far enough apart for the spread. */
  ghost predicate RowsHaveRoom(nodes: seq<Node>) {
    forall i, j :: 0 <= i < |nodes| && 0 <= j < |nodes| && nodes[i].layer < nodes[j].layer ==>
                     69 * (nodes[j].layer - nodes[i].layer) >= 7 * Span(nodes)
  }

  ghost predicate ColumnsHaveRoom(nodes: seq<Node>) {
    forall k :: 0 <= k < |nodes| ==> |InLayer(nodes, nodes[k].layer)| <= 44
  }

  lemma {:induction false} RanksAscend(nodes: seq<Node>, i: nat, j: nat)
    requires i < j < |nodes| && nodes[i].layer == nodes[j].layer
    ensures Rank(nodes, i) < Rank(nodes, j)
    decreases j
  {
    assert nodes[..j][..i] == nodes[..i];
    RankedNode(nodes[..j], i);
  }

  /** With room in rows and columns, no two boxes overlap. */
  lemma NoOverlap(nodes: seq<Node>, i: nat, j: nat)
    requires i < j < |nodes| && RowsHaveRoom(nodes) && ColumnsHaveRoom(nodes)
    ensures Disjoint(BoxOf(nodes, i), BoxOf(nodes, j))
  {
    if nodes[i].layer == nodes[j].layer {
      RankedNode(nodes, i);
      RankedNode(nodes, j);
      RanksAscend(nodes, i, j);
      ColumnsApart(|InLayer(nodes, nodes[i].layer)|, Rank(nodes, i), Rank(nodes, j));
    } else {
      RowsApartExactly(nodes[i].layer, nodes[j].layer, MinLayer(nodes), Span(nodes));
      RowsApartExactly(nodes[j].layer, nodes[i].layer, MinLayer(nodes), Span(nodes));
    }
  }

  /** Somewhere, one box lies over or under the other. */
  predicate MeetSideways(a: Box, b: Box) {
    a.x < b.x + b.w && b.x < a.x + a.w
  }

  /** Boxes of different layers that meet sideways are disjoint if and only if their rows are clear of each other. */
  lemma DisjointExactlyWhen(nodes: seq<Node>, i: nat, j: nat)
    requires i < |nodes| && j < |nodes| && nodes[i].layer < nodes[j].layer
    requires MeetSideways(BoxOf(nodes, i), BoxOf(nodes, j))
    ensures Disjoint(BoxOf(nodes, i), BoxOf(nodes, j)) <==> 69 * (nodes[j].layer - nodes[i].layer) >= 7 * Span(nodes)
  {
    RowsApartExactly(nodes[i].layer, nodes[j].layer, MinLayer(nodes), Span(nodes));
    RowsApartExactly(nodes[j].layer, nodes[i].layer, MinLayer(nodes), Span(nodes));
  }

  /** With room in the columns, every box has a positive width and lies inside the margins, whatever the spread. */
  lemma BoxIsInside(nodes: seq<Node>, k: nat)
    requires k < |nodes| && ColumnsHaveRoom(nodes)
    ensures BoxOf(nodes, k).w > 0.0 && WithinMargins(BoxOf(nodes, k))
  {
    RankedNode(nodes, k);
    LayersBetween(nodes, k);
    WidthIsPositiveExactly(|InLayer(nodes, nodes[k].layer)|);
    ColumnsInside(|InLayer(nodes, nodes[k].layer)|, Rank(nodes, k));
    RowInside(nodes[k].layer, MinLayer(nodes), Span(nodes));
  }

  /** A spread of at most nine layers always leaves room between rows. */
  lemma {:induction false} NineLayersHaveRoom(nodes: seq<Node>)
    requires nodes != [] && MaxLayer(nodes) - MinLayer(nodes) <= 9
    ensures RowsHaveRoom(nodes)
  {
  }

  // ------------------------------------------------------------- the loops

  /** Every node of a layer's list stands somewhere among the nodes, at that rank. */
  lemma {:induction false} NodeAt(nodes: seq<Node>, layer: int, i: nat) returns (k: nat)
    requires i < |InLayer(nodes, layer)|
    ensures k < |nodes| && nodes[k].layer == layer && Rank(nodes, k) == i && nodes[k] == InLayer(nodes, layer)[i]
  {
    var n := |nodes| - 1;
    if i < |InLayer(Front(nodes), layer)| {
      k := NodeAt(Front(nodes), layer, i);
      assert Front(nodes)[..k] == nodes[..k];
    } else {
      k := n;
      assert nodes[..n] == Front(nodes);
    }
  }

  /** The boxes of all nodes whose layers come before the given one. */
  ghost predicate Placed(out: map<string, Box>, nodes: seq<Node>, before: int) {
    && (forall k :: 0 <= k < |nodes| && nodes[k].layer < before ==> nodes[k].id in out && out[nodes[k].id] == BoxOf(nodes, k))
    && (forall id :: id in out ==> exists k :: 0 <= k < |nodes| && nodes[k].layer < before && nodes[k].id == id)
  }

  method ByLayer(nodes: seq<Node>) returns (layers: map<int, seq<Node>>)
    ensures forall l :: l in layers <==> InLayer(nodes, l) != []
    ensures forall l :: l in layers ==> layers[l] == InLayer(nodes, l)
  {
    layers := map[];
    for i := 0 to |nodes|
      invariant forall l :: l in layers <==> InLayer(nodes[..i], l) != []
      invariant forall l :: l in layers ==> layers[l] == InLayer(nodes[..i], l)
    {
      assert Front(nodes[..i + 1]) == nodes[..i] && Last(nodes[..i + 1]) == nodes[i];
      var l := nodes[i].layer;
      layers := layers[l := (if l in layers then layers[l] else []) + [nodes[i]]];
    }
    assert nodes[..|nodes|] == nodes;
  }

  /** The table with the first i boxes of a row of n entered, later ones over earlier ones. */
  function EnterRow(out: map<string, Box>, layer: seq<Node>, i: nat, y: real): map<string, Box>
    requires i <= |layer|
  {
    if i == 0 then out
    else EnterRow(out, layer, i - 1, y)[layer[i - 1].id := Box(Column(|layer|, i - 1), y, Width(|layer|), BOX_HEIGHT)]
  }

  lemma {:induction false} EnteredBoxes(out: map<string, Box>, layer: seq<Node>, i: nat, y: real)
    requires i <= |layer|
    ensures forall id :: id in EnterRow(out, layer, i, y) <==> id in out || exists j :: 0 <= j < i && layer[j].id == id
    ensures forall id :: id in out && (forall j :: 0 <= j < i ==> layer[j].id != id) ==> EnterRow(out, layer, i, y)[id] == out[id]
  {
    if i > 0 {
      EnteredBoxes(out, layer, i - 1, y);
    }
  }

  lemma {:induction false} EnteredBox(out: map<string, Box>, layer: seq<Node>, i: nat, y: real, j: nat)
    requires j < i <= |layer| && forall a, b :: 0 <= a < b < |layer| ==> layer[a].id != layer[b].id
    ensures layer[j].id in EnterRow(out, layer, i, y)
    ensures EnterRow(out, layer, i, y)[layer[j].id] == Box(Column(|layer|, j), y, Width(|layer|), BOX_HEIGHT)
  {
    if j < i - 1 {
      EnteredBox(out, layer, i - 1, y, j);
    }
  }

  /** One row of boxes. */
  method PlaceLayer(out: map<string, Box>, layer: seq<Node>, li: int, first: int, span: nat) returns (out': map<string, Box>)
    requires layer != [] && span > 0
    ensures out' == EnterRow(out, layer, |layer|, RowOf(li, first, span))
  {
    var y := TOP + (BOTTOM - TOP - BOX_HEIGHT) * ((li - first) as real / span as real);
    var n := |layer|;
    var w := Width(n);
    var total := n as real * w + (n - 1) as real * GAP;
    var x0 := LEFT + (RIGHT - LEFT - total) / 2.0;
    out' := out;
    for i := 0 to n
      invariant out' == EnterRow(out, layer, i, y)
    {
      var x := x0 + i as real * (w + GAP);
      assert total == RowWidth(n) && x == Column(n, i);
      out' := out'[layer[i].id := Box(x, y, w, BOX_HEIGHT)];
    }
  }

  lemma {:induction false} LayerIdsAreDistinct(nodes: seq<Node>, li: int, a: nat, b: nat)
    requires DistinctNodeIds(nodes) && a < b < |InLayer(nodes, li)|
    ensures InLayer(nodes, li)[a].id != InLayer(nodes, li)[b].id
  {
    var i := NodeAt(nodes, li, a);
    var j := NodeAt(nodes, li, b);
  }

  lemma RowIsPlaced(out: map<string, Box>, nodes: seq<Node>, li: int)
    requires nodes != [] && DistinctNodeIds(nodes) && Placed(out, nodes, li) && InLayer(nodes, li) != []
    ensures Placed(EnterRow(out, InLayer(nodes, li), |InLayer(nodes, li)|, RowOf(li, MinLayer(nodes), Span(nodes))), nodes, li + 1)
  {
    var layer, y := InLayer(nodes, li), RowOf(li, MinLayer(nodes), Span(nodes));
    var out' := EnterRow(out, layer, |layer|, y);
    EnteredBoxes(out, layer, |layer|, y);
    forall a, b | 0 <= a < b < |layer| ensures layer[a].id != layer[b].id {
      LayerIdsAreDistinct(nodes, li, a, b);
    }
    forall k | 0 <= k < |nodes| && nodes[k].layer < li + 1 ensures nodes[k].id in out' && out'[nodes[k].id] == BoxOf(nodes, k) {
      if nodes[k].layer == li {
        RankedNode(nodes, k);
        EnteredBox(out, layer, |layer|, y, Rank(nodes, k));
      } else {
        forall j | 0 <= j < |layer| ensures layer[j].id != nodes[k].id {
          var b := NodeAt(nodes, li, j);
        }
      }
    }
    forall id | id in out' ensures exists k :: 0 <= k < |nodes| && nodes[k].layer < li + 1 && nodes[k].id == id {
      if id !in out {
        var j :| 0 <= j < |layer| && layer[j].id == id;
        var b := NodeAt(nodes, li, j);
      }
    }
  }

  method LayoutNodes(nodes: seq<Node>) returns (out: map<string, Box>)
    ensures DistinctNodeIds(nodes) ==> forall k :: 0 <= k < |nodes| ==> nodes[k].id in out && out[nodes[k].id] == BoxOf(nodes, k)
    ensures DistinctNodeIds(nodes) ==> forall id :: id in out ==> exists k :: 0 <= k < |nodes| && nodes[k].id == id
  {
    if nodes == [] {
      return map[];
    }
    var layers := ByLayer(nodes);
    var first, last, span := MinLayer(nodes), MaxLayer(nodes), Span(nodes);
    forall k | 0 <= k < |nodes| ensures first <= nodes[k].layer <= last {
      LayersBetween(nodes, k);
    }
    LayersBetween(nodes, 0);
    out := map[];
    for li := first to last + 1
      invariant DistinctNodeIds(nodes) ==> Placed(out, nodes, li)
    {
      if li in layers {
        if DistinctNodeIds(nodes) {
          RowIsPlaced(out, nodes, li);
        }
        out := PlaceLayer(out, layers[li], li, first, span);
      } else {
        forall k | 0 <= k < |nodes| ensures nodes[k].layer != li {
          RankedNode(nodes, k);
        }
      }
    }
  }

  // ---------------------------------------------------- the tool journey graph

  const DIGITS := "0123456789"

  /** `session_tool_graph`: the first eight steps, one a layer. */
  function SessionToolNodes(steps: seq<string>): seq<Node> {
    seq(if |steps| < 8 then |steps| else 8, i requires 0 <= i < 8 => Node(['s', DIGITS[i]], i))
  }

  lemma {:induction false} OnePerLayer(nodes: seq<Node>, layer: int)
    requires forall i :: 0 <= i < |nodes| ==> nodes[i].layer == i
    ensures |InLayer(nodes, layer)| <= 1
    ensures layer >= |nodes| ==> InLayer(nodes, layer) == []
  {
    if nodes != [] {
      OnePerLayer(Front(nodes), layer);
    }
  }

  lemma {:induction false} LayersAreIndexes(nodes: seq<Node>)
    requires nodes != [] && forall i :: 0 <= i < |nodes| ==> nodes[i].layer == i
    ensures MinLayer(nodes) == 0 && MaxLayer(nodes) == |nodes| - 1
  {
    if |nodes| > 1 {
      LayersAreIndexes(Front(nodes));
    }
  }

  lemma JourneyNodesAreDistinct(steps: seq<string>)
    ensures DistinctNodeIds(SessionToolNodes(steps))
  {
    var nodes := SessionToolNodes(steps);
    assert forall a, b :: 0 <= a < b < 8 ==> DIGITS[a] != DIGITS[b];
    forall a, b | 0 <= a < b < |nodes| ensures nodes[a].id != nodes[b].id {
      assert nodes[a].id[1] == DIGITS[a] && nodes[b].id[1] == DIGITS[b];
    }
  }

  lemma JourneyHasRoom(steps: seq<string>)
    ensures RowsHaveRoom(SessionToolNodes(steps)) && ColumnsHaveRoom(SessionToolNodes(steps))
  {
    var nodes := SessionToolNodes(steps);
    if nodes != [] {
      LayersAreIndexes(nodes);
      NineLayersHaveRoom(nodes);
    }
    forall k | 0 <= k < |nodes| ensures |InLayer(nodes, nodes[k].layer)| <= 44 {
      OnePerLayer(nodes, nodes[k].layer);
    }
  }

  /** Every tool journey, however long, lays out without overlap, inside the margins. */
  lemma JourneysLayOut(steps: seq<string>, i: nat, j: nat)
    requires i < j < |SessionToolNodes(steps)|
    ensures var nodes := SessionToolNodes(steps);
            && DistinctNodeIds(nodes) && Disjoint(BoxOf(nodes, i), BoxOf(nodes, j))
            && WithinMargins(BoxOf(nodes, i)) && WithinMargins(BoxOf(nodes, j))
  {
    JourneyNodesAreDistinct(steps);
    JourneyHasRoom(steps);
    NoOverlap(SessionToolNodes(steps), i, j);
    BoxIsInside(SessionToolNodes(steps), i);
    BoxIsInside(SessionToolNodes(steps), j);
  }

  lemma ChainBoxes(nodes: seq<Node>, i: nat, j: nat)
    requires i < j < |nodes| && forall k :: 0 <= k < |nodes| ==> nodes[k].layer == k
    ensures MeetSideways(BoxOf(nodes, i), BoxOf(nodes, j)) && Span(nodes) == |nodes| - 1
  {
    OnePerLayer(nodes, i);
    OnePerLayer(nodes, j);
    RankedNode(nodes, i);
    RankedNode(nodes, j);
    LayersAreIndexes(nodes);
    WidthIsPositiveExactly(1);
  }

  /** A chain of single nodes lays out without overlap if and only if it has at most ten. */
  lemma ChainsFitExactly(nodes: seq<Node>)
    requires forall k :: 0 <= k < |nodes| ==> nodes[k].layer == k
    ensures |nodes| <= 10 <==> forall i, j :: 0 <= i < j < |nodes| ==> Disjoint(BoxOf(nodes, i), BoxOf(nodes, j))
  {
    if |nodes| <= 10 {
      forall i, j | 0 <= i < j < |nodes| ensures Disjoint(BoxOf(nodes, i), BoxOf(nodes, j)) {
        ChainBoxes(nodes, i, j);
        DisjointExactlyWhen(nodes, i, j);
      }
    } else {
      ChainBoxes(nodes, 0, 1);
      DisjointExactlyWhen(nodes, 0, 1);
    }
  }
}
