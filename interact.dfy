/** The derivations the interaction layer makes from the grid and the token
    map: the board scale, the snap targets offered to dragged tokens, the
    stacking order in which tokens are drawn, and the dispatch of each token
    to the view of its kind. */
module Interact {
  import opened Grid
  import opened Store

  // ----- Scale -----

  /** Screen pixels per board unit; 0 while the board has no size. */
  function Scale(boardSize: real): (s: real)
    ensures boardSize == 0.0 ==> s == 0.0
    ensures boardSize != 0.0 ==> s * BOARD_BASE_SIZE == boardSize
  {
    if boardSize == 0.0 then 0.0 else boardSize / BOARD_BASE_SIZE
  }

  // ----- Snap targets -----

  datatype SnapTarget = SnapTarget(x: real, y: real)

  /** One target per cell, at the cell's anchor, in the cell order of the
      summary; none while the board has no size. */
  function SnapTargets(grid: GridSummary, boardSize: real): (targets: seq<SnapTarget>)
    ensures boardSize == 0.0 ==> targets == []
    ensures boardSize != 0.0 ==> |targets| == |grid.all|
    ensures boardSize != 0.0 ==>
      forall i :: 0 <= i < |targets| ==> targets[i].x == grid.all[i].x && targets[i].y == grid.all[i].y
  {
    if boardSize == 0.0 then [] else Targets(grid.all)
  }

  function Targets(cells: seq<GridCell>): (targets: seq<SnapTarget>)
    ensures |targets| == |cells|
  {
    seq(|cells|, i requires 0 <= i < |cells| => SnapTarget(cells[i].x, cells[i].y))
  }

  /** The top-centre point of a raw rectangle: the midpoint of its top edge,
      between the left-top and the right-top corner. */
  function TopCentre(r: RawRect): SnapTarget {
    SnapTarget((r.lt.x + r.rt.x) / 2.0, r.lt.y)
  }

  /** Every rectangle of the regions `keys` is axis-aligned. */
  predicate RegionsAligned(info: GridInfo, keys: seq<RegionKey>) {
    forall k, r :: k in keys && r in RectsOf(info, k) ==> AxisAligned(r)
  }

  /** The top-centre points of some rectangles, in order. */
  function TopCentres(rects: seq<RawRect>): seq<SnapTarget> {
    seq(|rects|, i requires 0 <= i < |rects| => TopCentre(rects[i]))
  }

  /** The top-centre points of the regions' rectangles, region after region. */
  function Anchors(info: GridInfo, keys: seq<RegionKey>): seq<SnapTarget> {
    if keys == [] then []
    else Anchors(info, keys[..|keys| - 1]) + TopCentres(RectsOf(info, keys[|keys| - 1]))
  }

  /** A region's cells snap to the top-centre points of its rectangles. */
  lemma TargetsOfCells(key: RegionKey, rects: seq<RawRect>)
    requires forall r :: r in rects ==> AxisAligned(r)
    ensures Targets(Cells(key, rects)) == TopCentres(rects)
  {
    forall i | 0 <= i < |rects|
      ensures Targets(Cells(key, rects))[i] == TopCentres(rects)[i]
    {
      AnchorIsTopCentre(rects[i], key, i);
    }
  }

  lemma TargetsConcat(a: seq<GridCell>, b: seq<GridCell>)
    ensures Targets(a + b) == Targets(a) + Targets(b)
  {
  }

  lemma {:induction false} TargetsOfFlatten(info: GridInfo, keys: seq<RegionKey>)
    requires RegionsAligned(info, keys)
    ensures Targets(Flatten(info, keys)) == Anchors(info, keys)
    decreases |keys|
  {
    if keys != [] {
      var init := keys[..|keys| - 1];
      var last := keys[|keys| - 1];
      assert forall k :: k in init ==> k in keys;
      TargetsOfFlatten(info, init);
      TargetsConcat(Flatten(info, init), Cells(last, RectsOf(info, last)));
      TargetsOfCells(last, RectsOf(info, last));
    }
  }

  /** For the grid built from axis-aligned rectangles, a sized board snaps
      to exactly the midpoints of their top edges: the list regions in
      their fixed order, then the player and oxygen prepare slots. */
  lemma SnapTargetsAreAnchors(info: GridInfo, boardSize: real)
    requires boardSize != 0.0 && RegionsAligned(info, AllRegions)
    ensures SnapTargets(Summary(info), boardSize) == Anchors(info, AllRegions)
    ensures |SnapTargets(Summary(info), boardSize)|
            == |info.scoreTrack| + |info.handsTiles| + |info.sceneGrid| + |info.oxygen|
               + |info.playerTokens| + |info.tileDeckPrepare| + 2
  {
    TargetsOfFlatten(info, AllRegions);
    AllLength(info);
  }

  // ----- Stacking order -----

  predicate SortedByZ(ts: seq<Token>) {
    forall i, j :: 0 <= i < j < |ts| ==> ts[i].zIndex <= ts[j].zIndex
  }

  /** The tokens stacked at height `z`, in their order in `ts`. */
  function AtHeight(ts: seq<Token>, z: int): seq<Token> {
    if ts == [] then []
    else AtHeight(ts[..|ts| - 1], z) + (if ts[|ts| - 1].zIndex == z then [ts[|ts| - 1]] else [])
  }

  /** Puts `t` after every token of `sorted` stacked no higher than it,
      scanning from the top. */
  function InsertByZ(sorted: seq<Token>, t: Token): seq<Token>
    decreases |sorted|
  {
    if sorted == [] || sorted[|sorted| - 1].zIndex <= t.zIndex then sorted + [t]
    else InsertByZ(sorted[..|sorted| - 1], t) + [sorted[|sorted| - 1]]
  }

  /** Insertion adds exactly `t`. */
  lemma {:induction false} InsertByZPermutes(sorted: seq<Token>, t: Token)
    ensures multiset(InsertByZ(sorted, t)) == multiset(sorted) + multiset{t}
    decreases |sorted|
  {
    if !(sorted == [] || sorted[|sorted| - 1].zIndex <= t.zIndex) {
      var init := sorted[..|sorted| - 1];
      InsertByZPermutes(init, t);
      assert sorted == init + [sorted[|sorted| - 1]];
    }
  }

  /** Insertion into a sorted sequence keeps it sorted, and the top token
      is either `t` or the previous top. */
  lemma {:induction false} InsertByZSorted(sorted: seq<Token>, t: Token)
    requires SortedByZ(sorted)
    ensures SortedByZ(InsertByZ(sorted, t))
    ensures var r := InsertByZ(sorted, t);
      |r| == |sorted| + 1 && (r[|r| - 1] == t || (|sorted| > 0 && r[|r| - 1] == sorted[|sorted| - 1]))
    decreases |sorted|
  {
    if !(sorted == [] || sorted[|sorted| - 1].zIndex <= t.zIndex) {
      var last := sorted[|sorted| - 1];
      var init := sorted[..|sorted| - 1];
      InsertByZSorted(init, t);
      var r := InsertByZ(init, t);
      assert r[|r| - 1].zIndex <= last.zIndex;
      forall i, j | 0 <= i < j < |r| + 1
        ensures (r + [last])[i].zIndex <= (r + [last])[j].zIndex
      {
        if j == |r| && i < |r| - 1 {
          assert r[i].zIndex <= r[|r| - 1].zIndex;
        }
      }
    }
  }

  /** The tokens in ascending stacking order, by insertion. */
  function OrderByZ(ts: seq<Token>): seq<Token>
    decreases |ts|
  {
    if ts == [] then [] else InsertByZ(OrderByZ(ts[..|ts| - 1]), ts[|ts| - 1])
  }

  /** The order is ascending in height and lists every token exactly as
      often as the input does. */
  lemma {:induction false} OrderByZSorts(ts: seq<Token>)
    ensures SortedByZ(OrderByZ(ts))
    ensures multiset(OrderByZ(ts)) == multiset(ts)
    decreases |ts|
  {
    if ts != [] {
      var init := ts[..|ts| - 1];
      var last := ts[|ts| - 1];
      OrderByZSorts(init);
      InsertByZSorted(OrderByZ(init), last);
      InsertByZPermutes(OrderByZ(init), last);
      assert ts == init + [last];
    }
  }

  lemma {:induction false} AtHeightConcat(a: seq<Token>, b: seq<Token>, z: int)
    ensures AtHeight(a + b, z) == AtHeight(a, z) + AtHeight(b, z)
    decreases |b|
  {
    if b != [] {
      var init := b[..|b| - 1];
      assert (a + b)[..|a + b| - 1] == a + init;
      AtHeightConcat(a, init, z);
    } else {
      assert a + b == a;
    }
  }

  lemma Singleton(t: Token, z: int)
    ensures AtHeight([t], z) == if t.zIndex == z then [t] else []
  {
    assert [t][..0] == [];
  }

  lemma {:induction false} InsertKeepsHeights(sorted: seq<Token>, t: Token, z: int)
    ensures AtHeight(InsertByZ(sorted, t), z) == AtHeight(sorted, z) + AtHeight([t], z)
    decreases |sorted|
  {
    if sorted == [] || sorted[|sorted| - 1].zIndex <= t.zIndex {
      AtHeightConcat(sorted, [t], z);
    } else {
      var last := sorted[|sorted| - 1];
      var init := sorted[..|sorted| - 1];
      var r := InsertByZ(init, t);
      var at, al := AtHeight([t], z), AtHeight([last], z);
      Singleton(t, z);
      Singleton(last, z);
      assert AtHeight(init, z) + at + al == AtHeight(init, z) + al + at by {
        assert at == [] || al == [];
      }
      calc {
        AtHeight(InsertByZ(sorted, t), z);
        AtHeight(r + [last], z);
        { AtHeightConcat(r, [last], z); }
        AtHeight(r, z) + al;
        { InsertKeepsHeights(init, t, z); }
        AtHeight(init, z) + at + al;
        AtHeight(init, z) + al + at;
        AtHeight(sorted, z) + at;
      }
    }
  }

  /** Stability: at every height, the tokens appear in the order they had
      in the input. */
  lemma {:induction false} OrderByZIsStable(ts: seq<Token>, z: int)
    ensures AtHeight(OrderByZ(ts), z) == AtHeight(ts, z)
    decreases |ts|
  {
    if ts != [] {
      var init := ts[..|ts| - 1];
      var last := ts[|ts| - 1];
      calc {
        AtHeight(OrderByZ(ts), z);
        AtHeight(InsertByZ(OrderByZ(init), last), z);
        { InsertKeepsHeights(OrderByZ(init), last, z); }
        AtHeight(OrderByZ(init), z) + AtHeight([last], z);
        { OrderByZIsStable(init, z); }
        AtHeight(init, z) + AtHeight([last], z);
        { AtHeightConcat(init, [last], z); }
        AtHeight(init + [last], z);
        { assert ts == init + [last]; }
        AtHeight(ts, z);
      }
    }
  }

  /** `values` lists the tokens of the map, each once, as the map's values
      are enumerated. */
  predicate ListsValues(values: seq<Token>, tokens: map<string, Token>) {
    && |values| == |tokens|
    && (forall k :: k in tokens ==> tokens[k] in values)
    && (forall v :: v in values ==> v.id in tokens && tokens[v.id] == v)
  }

  /** The drawing order lists exactly the tokens of the map, bottom first. */
  lemma OrderedTokensListValues(values: seq<Token>, tokens: map<string, Token>)
    requires ListsValues(values, tokens)
    ensures ListsValues(OrderByZ(values), tokens)
    ensures SortedByZ(OrderByZ(values))
  {
    var r := OrderByZ(values);
    OrderByZSorts(values);
    assert |r| == |multiset(r)| == |multiset(values)| == |values|;
    forall v | v in values ensures v in r {
      assert v in multiset(values);
    }
    forall v | v in r ensures v in values {
      assert v in multiset(r);
    }
  }

  // ----- Dispatch to views -----

  /** What each token view is given; sizes are in screen pixels. */
  datatype View =
    | PlayerView(id: string, asset: string, labelText: string, widthPx: real, heightPx: real,
                 position: Point, zIndex: int)
    | OxygenView(id: string, asset: string, widthPx: real, heightPx: real,
                 position: Point, zIndex: int, isSupply: bool)
    | TileView(id: string, front: string, back: string, widthPx: real, heightPx: real,
               position: Point, zIndex: int, isFaceUp: bool, isOnDeck: bool, deckIndex: int)

  /** Each token goes to the view of its own kind, with its board size
      scaled to pixels and its position, height and flags passed through. */
  function Render(t: Token, scale: real): (v: View)
    ensures v.PlayerView? <==> t.Player?
    ensures v.OxygenView? <==> t.Oxygen?
    ensures v.TileView? <==> t.Tile?
    ensures v.id == t.id && v.position == t.position && v.zIndex == t.zIndex
    ensures t.Oxygen? ==> v.isSupply == t.isSupply
    ensures t.Tile? ==> v.isFaceUp == t.isFaceUp && v.isOnDeck == t.isOnDeck && v.deckIndex == t.deckIndex
  {
    match t
    case Player(id, position, zIndex, asset, labelText, size) =>
      PlayerView(id, asset, labelText, size * scale, size * scale, position, zIndex)
    case Oxygen(id, position, zIndex, asset, size, isSupply) =>
      OxygenView(id, asset, size * scale, size * scale, position, zIndex, isSupply)
    case Tile(id, position, zIndex, front, back, width, height, isFaceUp, isOnDeck, deckIndex) =>
      TileView(id, front, back, width * scale, height * scale, position, zIndex, isFaceUp, isOnDeck, deckIndex)
  }

  /** The views of the map's tokens, drawn in stacking order. */
  function RenderAll(values: seq<Token>, scale: real): (views: seq<View>)
  {
    var ordered := OrderByZ(values);
    seq(|ordered|, i requires 0 <= i < |ordered| => Render(ordered[i], scale))
  }

  /** One view per token of the map, each of its token's kind, in
      ascending stacking order. */
  lemma ViewsStackBottomUp(values: seq<Token>, tokens: map<string, Token>, scale: real)
    requires ListsValues(values, tokens)
    ensures var views := RenderAll(values, scale);
      && |views| == |tokens|
      && (forall i, j :: 0 <= i < j < |views| ==> views[i].zIndex <= views[j].zIndex)
      && (forall i :: 0 <= i < |views| ==>
            views[i].id in tokens && views[i] == Render(tokens[views[i].id], scale))
      && (forall k :: k in tokens ==> exists i :: 0 <= i < |views| && views[i] == Render(tokens[k], scale))
  {
    OrderedTokensListValues(values, tokens);
    var ordered := OrderByZ(values);
    var views := RenderAll(values, scale);
    assert forall i :: 0 <= i < |ordered| ==> ordered[i] in ordered;
    forall k | k in tokens
      ensures exists i :: 0 <= i < |views| && views[i] == Render(tokens[k], scale)
    {
      var i :| 0 <= i < |ordered| && ordered[i] == tokens[k];
      assert views[i] == Render(ordered[i], scale);
    }
  }
}
