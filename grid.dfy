/** The grid builder: turns the board's raw region rectangles into
    addressable cells, one per rectangle, each anchored at the middle of
    its top edge, plus one flattened list of every cell in a fixed order. */
module Grid {
  import opened Decimal

  /** Side of the square logical coordinate space, in base units. */
  const BOARD_BASE_SIZE: real := 4096.0

  datatype Point = Point(x: real, y: real)

  /** A raw rectangle: its four corners and its explicit width and height. */
  datatype RawRect = RawRect(lt: Point, lb: Point, rt: Point, rb: Point, w: real, h: real)

  /** The raw board description: six lists of rectangles and two single ones. */
  datatype GridInfo = GridInfo(
    scoreTrack: seq<RawRect>,
    handsTiles: seq<RawRect>,
    sceneGrid: seq<RawRect>,
    oxygen: seq<RawRect>,
    playerTokens: seq<RawRect>,
    playerTokenPrepare: RawRect,
    oxygenPrepare: RawRect,
    tileDeckPrepare: seq<RawRect>)

  /** The region categories, each named by its key in the board description. */
  datatype RegionKey =
    | ScoreTrack | HandsTiles | SceneGrid | OxygenCells | PlayerTokenCells
    | PlayerTokenPrepare | OxygenPrepare | TileDeckPrepare
  {
    function Name(): string {
      match this
      case ScoreTrack => "score_track_regions"
      case HandsTiles => "hands_tiles_region"
      case SceneGrid => "scene_grid_regions"
      case OxygenCells => "oxygen_regions"
      case PlayerTokenCells => "player_token_regions"
      case PlayerTokenPrepare => "player_token_prepare_region"
      case OxygenPrepare => "oxygen_prepare_region"
      case TileDeckPrepare => "tile_deck_prepare_regions"
    }
  }

  datatype GridCell = GridCell(id: string, region: RegionKey, x: real, y: real, width: real, height: real)

  datatype GridSummary = GridSummary(
    all: seq<GridCell>,
    scoreTrack: seq<GridCell>,
    handsTiles: seq<GridCell>,
    sceneGrid: seq<GridCell>,
    oxygen: seq<GridCell>,
    playerTokens: seq<GridCell>,
    tileDeckPrepare: seq<GridCell>,
    playerTokenPrepare: GridCell,
    oxygenPrepare: GridCell)

  /** The regions that are lists, in the order the builder visits them. */
  const ArrayRegions: seq<RegionKey> :=
    [ScoreTrack, HandsTiles, SceneGrid, OxygenCells, PlayerTokenCells, TileDeckPrepare]

  /** Every region in the order its cells appear in the flattened list:
      the list regions, then the player-prepare slot, then the oxygen-prepare slot. */
  const AllRegions: seq<RegionKey> := ArrayRegions + [PlayerTokenPrepare, OxygenPrepare]

  /** The rectangles a region contributes; a singleton region contributes its one rectangle. */
  function RectsOf(info: GridInfo, key: RegionKey): seq<RawRect> {
    match key
    case ScoreTrack => info.scoreTrack
    case HandsTiles => info.handsTiles
    case SceneGrid => info.sceneGrid
    case OxygenCells => info.oxygen
    case PlayerTokenCells => info.playerTokens
    case PlayerTokenPrepare => [info.playerTokenPrepare]
    case OxygenPrepare => [info.oxygenPrepare]
    case TileDeckPrepare => info.tileDeckPrepare
  }

  function CellId(region: RegionKey, index: nat): string {
    region.Name() + "-" + NatToString(index)
  }

  function RectToCell(rect: RawRect, region: RegionKey, index: nat): GridCell {
    GridCell(CellId(region, index), region, rect.lt.x + rect.w / 2.0, rect.lt.y, rect.w, rect.h)
  }

  /** A region's cells: its rectangles in source order, each tagged with its index. */
  function Cells(key: RegionKey, rects: seq<RawRect>): seq<GridCell> {
    seq(|rects|, i requires 0 <= i < |rects| => RectToCell(rects[i], key, i))
  }

  /** The cells of `keys`' regions, region after region. */
  function Flatten(info: GridInfo, keys: seq<RegionKey>): seq<GridCell> {
    if keys == [] then []
    else Flatten(info, keys[..|keys| - 1]) + Cells(keys[|keys| - 1], RectsOf(info, keys[|keys| - 1]))
  }

  /** The summary the builder produces from `info`. */
  function Summary(info: GridInfo): GridSummary {
    GridSummary(
      Flatten(info, AllRegions),
      Cells(ScoreTrack, info.scoreTrack),
      Cells(HandsTiles, info.handsTiles),
      Cells(SceneGrid, info.sceneGrid),
      Cells(OxygenCells, info.oxygen),
      Cells(PlayerTokenCells, info.playerTokens),
      Cells(TileDeckPrepare, info.tileDeckPrepare),
      RectToCell(info.playerTokenPrepare, PlayerTokenPrepare, 0),
      RectToCell(info.oxygenPrepare, OxygenPrepare, 0))
  }

  /** Converting one more rectangle extends a region's cells by one. */
  lemma CellsSnoc(key: RegionKey, rects: seq<RawRect>, n: nat)
    requires n < |rects|
    ensures Cells(key, rects[..n + 1]) == Cells(key, rects[..n]) + [RectToCell(rects[n], key, n)]
  {
  }

  /** The inner pass over one list region: each rectangle, in order, is
      converted and pushed onto the region's own list and onto `all`. */
  method PushRegionCells(key: RegionKey, rawList: seq<RawRect>, all: seq<GridCell>)
    returns (target: seq<GridCell>, allOut: seq<GridCell>)
    ensures target == Cells(key, rawList)
    ensures allOut == all + target
  {
    target := [];
    allOut := all;
    var index := 0;
    while index < |rawList|
      invariant 0 <= index <= |rawList|
      invariant target == Cells(key, rawList[..index])
      invariant allOut == all + target
    {
      var cell := RectToCell(rawList[index], key, index);
      CellsSnoc(key, rawList, index);
      target := target + [cell];
      allOut := allOut + [cell];
      index := index + 1;
    }
    assert rawList[..index] == rawList;
  }

  /** One more list region extends the flattened prefix by that region's cells. */
  lemma FlattenPrefixStep(info: GridInfo, m: nat)
    requires m < |ArrayRegions|
    ensures Flatten(info, ArrayRegions[..m + 1])
            == Flatten(info, ArrayRegions[..m]) + Cells(ArrayRegions[m], RectsOf(info, ArrayRegions[m]))
  {
    assert ArrayRegions[..m + 1][..m] == ArrayRegions[..m];
  }

  /** The pieces the builder has at the end assemble into the summary:
      the six region lists, and `all` extended by the two singleton cells. */
  lemma SummaryAssembled(info: GridInfo, lists: seq<seq<GridCell>>)
    requires |lists| == |ArrayRegions|
    requires forall k :: 0 <= k < |ArrayRegions| ==> lists[k] == Cells(ArrayRegions[k], RectsOf(info, ArrayRegions[k]))
    ensures var p := RectToCell(info.playerTokenPrepare, PlayerTokenPrepare, 0);
            var o := RectToCell(info.oxygenPrepare, OxygenPrepare, 0);
            Summary(info) == GridSummary(Flatten(info, ArrayRegions) + [p] + [o],
                                         lists[0], lists[1], lists[2], lists[3], lists[4], lists[5], p, o)
  {
    var p := RectToCell(info.playerTokenPrepare, PlayerTokenPrepare, 0);
    var o := RectToCell(info.oxygenPrepare, OxygenPrepare, 0);
    FlattenSnoc(info, ArrayRegions, PlayerTokenPrepare);
    FlattenSnoc(info, ArrayRegions + [PlayerTokenPrepare], OxygenPrepare);
    assert ArrayRegions + [PlayerTokenPrepare] + [OxygenPrepare] == AllRegions;
    assert Cells(PlayerTokenPrepare, [info.playerTokenPrepare]) == [p];
    assert Cells(OxygenPrepare, [info.oxygenPrepare]) == [o];
  }

  /** Builds the grid summary the way the source does: each list region's
      rectangles are converted in order and pushed both onto the region's
      own list and onto `all`; the two singleton cells follow. */
  method BuildGridSummary(info: GridInfo) returns (summary: GridSummary)
    ensures summary == Summary(info)
  {
    var all: seq<GridCell> := [];
    var lists: seq<seq<GridCell>> := [];
    var m := 0;
    while m < |ArrayRegions|
      invariant 0 <= m <= |ArrayRegions|
      invariant |lists| == m
      invariant forall k :: 0 <= k < m ==> lists[k] == Cells(ArrayRegions[k], RectsOf(info, ArrayRegions[k]))
      invariant all == Flatten(info, ArrayRegions[..m])
    {
      var key := ArrayRegions[m];
      var target;
      target, all := PushRegionCells(key, RectsOf(info, key), all);
      FlattenPrefixStep(info, m);
      lists := lists + [target];
      m := m + 1;
    }
    assert ArrayRegions[..m] == ArrayRegions;
    var playerPrepareCell := RectToCell(info.playerTokenPrepare, PlayerTokenPrepare, 0);
    all := all + [playerPrepareCell];
    var oxygenCell := RectToCell(info.oxygenPrepare, OxygenPrepare, 0);
    all := all + [oxygenCell];
    SummaryAssembled(info, lists);
    summary := GridSummary(all, lists[0], lists[1], lists[2], lists[3], lists[4], lists[5],
                           playerPrepareCell, oxygenCell);
  }

  // ----- The flattened list -----

  /** `all` is the six list regions in order, then the player-prepare cell,
      then the oxygen-prepare cell. */
  lemma AllLayout(info: GridInfo)
    ensures var s := Summary(info);
      s.all == s.scoreTrack + s.handsTiles + s.sceneGrid + s.oxygen + s.playerTokens
               + s.tileDeckPrepare + [s.playerTokenPrepare, s.oxygenPrepare]
  {
    ListRegionsLayout(info);
    SummaryAssembled(info, seq(6, k requires 0 <= k < 6 => Cells(ArrayRegions[k], RectsOf(info, ArrayRegions[k]))));
  }

  /** The list regions flatten to their cell lists in order. */
  lemma ListRegionsLayout(info: GridInfo)
    ensures var s := Summary(info);
      Flatten(info, ArrayRegions)
      == s.scoreTrack + s.handsTiles + s.sceneGrid + s.oxygen + s.playerTokens + s.tileDeckPrepare
  {
    var s := Summary(info);
    var k1: seq<RegionKey> := [ScoreTrack];
    var k2 := k1 + [HandsTiles];
    var k3 := k2 + [SceneGrid];
    var k4 := k3 + [OxygenCells];
    var k5 := k4 + [PlayerTokenCells];
    var k6 := k5 + [TileDeckPrepare];
    assert Flatten(info, k1) == s.scoreTrack by {
      FlattenSnoc(info, [], ScoreTrack);
      assert [] + [ScoreTrack] == k1;
    }
    assert Flatten(info, k2) == s.scoreTrack + s.handsTiles by {
      FlattenSnoc(info, k1, HandsTiles);
    }
    assert Flatten(info, k3) == s.scoreTrack + s.handsTiles + s.sceneGrid by {
      FlattenSnoc(info, k2, SceneGrid);
    }
    assert Flatten(info, k4) == s.scoreTrack + s.handsTiles + s.sceneGrid + s.oxygen by {
      FlattenSnoc(info, k3, OxygenCells);
    }
    assert Flatten(info, k5) == s.scoreTrack + s.handsTiles + s.sceneGrid + s.oxygen + s.playerTokens by {
      FlattenSnoc(info, k4, PlayerTokenCells);
    }
    assert Flatten(info, k6) == s.scoreTrack + s.handsTiles + s.sceneGrid + s.oxygen + s.playerTokens
                                + s.tileDeckPrepare by {
      FlattenSnoc(info, k5, TileDeckPrepare);
    }
    assert k6 == ArrayRegions;
  }

  /** `all` holds one cell per rectangle: the list regions' plus the two singletons. */
  lemma AllLength(info: GridInfo)
    ensures |Summary(info).all| == |info.scoreTrack| + |info.handsTiles| + |info.sceneGrid|
                                   + |info.oxygen| + |info.playerTokens| + |info.tileDeckPrepare| + 2
  {
    AllLayout(info);
  }

  /** Both singleton cells are numbered 0 within their region. */
  lemma SingletonCellIds(info: GridInfo)
    ensures Summary(info).playerTokenPrepare.id == "player_token_prepare_region-0"
    ensures Summary(info).oxygenPrepare.id == "oxygen_prepare_region-0"
    ensures Summary(info).playerTokenPrepare.region == PlayerTokenPrepare
    ensures Summary(info).oxygenPrepare.region == OxygenPrepare
  {
    assert NatToString(0) == "0";
  }

  // ----- Uniqueness of cell ids -----

  /** Region names are pairwise distinct. */
  lemma NameInjective(a: RegionKey, b: RegionKey)
    requires a != b
    ensures a.Name() != b.Name()
  {
    if |a.Name()| == |b.Name()| {
      assert a.Name()[0] != b.Name()[0];
    }
  }

  predicate AllDigits(s: string) {
    forall i :: 0 <= i < |s| ==> IsDigit(s[i])
  }

  /** `s` has the shape of an id under `name`: the name, a dash, then a
      non-empty run of digits. */
  predicate TaggedWith(s: string, name: string) {
    |name| + 1 < |s| && s[..|name| + 1] == name + "-" && AllDigits(s[|name| + 1..])
  }

  predicate Tagged(s: string, r: RegionKey) {
    TaggedWith(s, r.Name())
  }

  lemma CellIdTagged(r: RegionKey, i: nat)
    ensures Tagged(CellId(r, i), r)
  {
    var n := |r.Name()|;
    assert CellId(r, i)[..n + 1] == r.Name() + "-";
    assert CellId(r, i)[n + 1..] == NatToString(i);
  }

  /** Ids under different names differ: reading an id from its end, the
      digits stop at the dash that ends the name. */
  lemma {:induction false} TaggedUnderDistinctNames(s: string, t: string, na: string, nb: string)
    requires TaggedWith(s, na) && TaggedWith(t, nb) && na != nb
    ensures s != t
  {
    var da, db := s[|na| + 1..], t[|nb| + 1..];
    assert s[|na|] == s[..|na| + 1][|na|] == '-';
    assert t[|nb|] == t[..|nb| + 1][|nb|] == '-';
    if |s| != |t| {
    } else if |nb| < |na| {
      assert t[|na|] == db[|na| - |nb| - 1];
    } else if |na| < |nb| {
      assert s[|nb|] == da[|nb| - |na| - 1];
    } else {
      assert s[..|na|] == s[..|na| + 1][..|na|] == na;
      assert t[..|nb|] == t[..|nb| + 1][..|nb|] == nb;
    }
  }

  lemma TaggedIdsOfDistinctRegions(s: string, t: string, a: RegionKey, b: RegionKey)
    requires Tagged(s, a) && Tagged(t, b) && a != b
    ensures s != t
  {
    NameInjective(a, b);
    TaggedUnderDistinctNames(s, t, a.Name(), b.Name());
  }

  /** Different (region, index) pairs give different ids. */
  lemma CellIdInjective(a: RegionKey, i: nat, b: RegionKey, j: nat)
    ensures CellId(a, i) == CellId(b, j) <==> a == b && i == j
  {
    if a != b {
      CellIdTagged(a, i);
      CellIdTagged(b, j);
      TaggedIdsOfDistinctRegions(CellId(a, i), CellId(b, j), a, b);
    } else if NatToString(i) == NatToString(j) {
      NatToStringInjective(i, j);
    } else {
      var p := |a.Name() + "-"|;
      assert CellId(a, i)[p..] == NatToString(i);
      assert CellId(b, j)[p..] == NatToString(j);
    }
  }

  predicate DistinctIds(cells: seq<GridCell>) {
    forall p, q :: 0 <= p < q < |cells| ==> cells[p].id != cells[q].id
  }

  predicate DistinctKeys(keys: seq<RegionKey>) {
    forall p, q :: 0 <= p < q < |keys| ==> keys[p] != keys[q]
  }

  lemma FlattenSnoc(info: GridInfo, keys: seq<RegionKey>, key: RegionKey)
    ensures Flatten(info, keys + [key]) == Flatten(info, keys) + Cells(key, RectsOf(info, key))
  {
    assert (keys + [key])[..|keys|] == keys;
  }

  /** A cell of a region's list carries that region and an id of its shape. */
  lemma CellsTagged(key: RegionKey, rects: seq<RawRect>)
    ensures forall c :: c in Cells(key, rects) ==> c.region == key && Tagged(c.id, key)
  {
    forall c | c in Cells(key, rects) ensures c.region == key && Tagged(c.id, key) {
      var k :| 0 <= k < |rects| && Cells(key, rects)[k] == c;
      CellIdTagged(key, k);
    }
  }

  lemma CellsDistinct(key: RegionKey, rects: seq<RawRect>)
    ensures DistinctIds(Cells(key, rects))
  {
    forall p, q | 0 <= p < q < |rects| ensures Cells(key, rects)[p].id != Cells(key, rects)[q].id {
      CellIdInjective(key, p, key, q);
    }
  }

  lemma DisjointConcat(a: seq<GridCell>, b: seq<GridCell>)
    requires DistinctIds(a) && DistinctIds(b)
    requires forall x, y :: x in a && y in b ==> x.id != y.id
    ensures DistinctIds(a + b)
  {
    forall p, q | 0 <= p < q < |a + b| ensures (a + b)[p].id != (a + b)[q].id {
      if p < |a| && q >= |a| {
        assert (a + b)[p] in a && (a + b)[q] in b;
      }
    }
  }

  lemma {:induction false} FlattenDistinct(info: GridInfo, keys: seq<RegionKey>)
    requires DistinctKeys(keys)
    ensures DistinctIds(Flatten(info, keys))
    ensures forall c :: c in Flatten(info, keys) ==> c.region in keys && Tagged(c.id, c.region)
  {
    if keys != [] {
      var init, last := keys[..|keys| - 1], keys[|keys| - 1];
      assert last !in init by {
        forall k | 0 <= k < |init| ensures init[k] != last {
          assert init[k] == keys[k];
        }
      }
      FlattenDistinct(info, init);
      var a := Flatten(info, init);
      var b := Cells(last, RectsOf(info, last));
      CellsTagged(last, RectsOf(info, last));
      CellsDistinct(last, RectsOf(info, last));
      forall x, y | x in a && y in b ensures x.id != y.id {
        TaggedIdsOfDistinctRegions(x.id, y.id, x.region, last);
      }
      DisjointConcat(a, b);
    }
  }

  /** Every id in `all` is unique. */
  lemma AllIdsDistinct(info: GridInfo)
    ensures DistinctIds(Summary(info).all)
  {
    FlattenDistinct(info, AllRegions);
  }

  // ----- Geometry -----

  predicate AxisAligned(r: RawRect) {
    && r.rt.x == r.lt.x + r.w && r.rt.y == r.lt.y
    && r.lb.x == r.lt.x && r.lb.y == r.lt.y + r.h
    && r.rb.x == r.rt.x && r.rb.y == r.lb.y
  }

  /** A cell's anchor is the midpoint of its rectangle's top edge, not its
      centre; its size is the rectangle's. Only the left-top corner, width
      and height are read. */
  lemma AnchorIsTopCentre(rect: RawRect, region: RegionKey, index: nat)
    requires AxisAligned(rect)
    ensures var c := RectToCell(rect, region, index);
      && c.x == (rect.lt.x + rect.rt.x) / 2.0 && c.y == rect.lt.y && c.y == rect.rt.y
      && c.width == rect.w && c.height == rect.h
      && forall other: RawRect :: other.lt == rect.lt && other.w == rect.w && other.h == rect.h
           ==> RectToCell(other, region, index) == c
  {
  }

  // ----- Minimum dimension -----

  function Min(a: real, b: real): real {
    if a <= b then a else b
  }

  /** The least value of a non-empty list. */
  function MinOf(values: seq<real>): (m: real)
    requires |values| > 0
    ensures forall i :: 0 <= i < |values| ==> m <= values[i]
    ensures exists i :: 0 <= i < |values| && m == values[i]
  {
    if |values| == 1 then values[0]
    else
      var rest := MinOf(values[1..]);
      assert forall i :: 1 <= i < |values| ==> values[i] == values[1..][i - 1];
      Min(values[0], rest)
  }

  /** The smallest width or height over the cells, and 0 for no cells. */
  function DeriveCellMinDimension(cells: seq<GridCell>): (m: real)
    ensures cells == [] ==> m == 0.0
    ensures forall c :: c in cells ==> m <= c.width && m <= c.height
    ensures cells != [] ==> exists c :: c in cells && (m == c.width || m == c.height)
  {
    if cells == [] then 0.0
    else
      var sides := seq(|cells|, i requires 0 <= i < |cells| => Min(cells[i].width, cells[i].height));
      var m := MinOf(sides);
      assert forall i :: 0 <= i < |cells| ==> sides[i] == Min(cells[i].width, cells[i].height);
      m
  }
}
