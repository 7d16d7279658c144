/** The board state engine: a map of tokens keyed by id, three FIFO queues
    of tile faces (one per deck column) and a z-order counter, together with
    the operations that create, update, raise and spawn tokens and the drag
    handlers of the three token components, which drive those operations. */
module Store {
  import opened Options
  import opened Decimal
  import opened Grid
  import opened Assets
  import Shuffle

  // ----- Tokens -----

  /** A piece on the board. Every kind has an id, a position in board units
      and a stacking order; the remaining fields are the kind's own. */
  datatype Token =
    | Player(id: string, position: Point, zIndex: int,
             asset: string, labelText: string, size: real)
    | Oxygen(id: string, position: Point, zIndex: int,
             asset: string, size: real, isSupply: bool)
    | Tile(id: string, position: Point, zIndex: int,
           front: string, back: string, width: real, height: real,
           isFaceUp: bool, isOnDeck: bool, deckIndex: int)

  /** A partial update: the fields it names replace the token's own. */
  datatype Patch = Patch(
    position: Option<Point>,
    zIndex: Option<int>,
    isSupply: Option<bool>,
    isFaceUp: Option<bool>,
    isOnDeck: Option<bool>)

  const NO_CHANGE: Patch := Patch(None, None, None, None, None)

  predicate SameKind(a: Token, b: Token) {
    a.Player? == b.Player? && a.Oxygen? == b.Oxygen? && a.Tile? == b.Tile?
  }

  /** The token with the patch spread over it: the id, the kind and every
      field the patch does not name are kept; the named fields are replaced.
      A field that the token's kind does not have is dropped. */
  function Merge(t: Token, p: Patch): (r: Token)
    ensures r.id == t.id && SameKind(r, t)
    ensures r.position == p.position.GetOr(t.position)
    ensures r.zIndex == p.zIndex.GetOr(t.zIndex)
    ensures r.Player? ==> r.asset == t.asset && r.labelText == t.labelText && r.size == t.size
    ensures r.Oxygen? ==> r.asset == t.asset && r.size == t.size
                          && r.isSupply == p.isSupply.GetOr(t.isSupply)
    ensures r.Tile? ==> r.front == t.front && r.back == t.back && r.width == t.width
                        && r.height == t.height && r.deckIndex == t.deckIndex
                        && r.isFaceUp == p.isFaceUp.GetOr(t.isFaceUp)
                        && r.isOnDeck == p.isOnDeck.GetOr(t.isOnDeck)
  {
    var moved := t.(position := p.position.GetOr(t.position), zIndex := p.zIndex.GetOr(t.zIndex));
    match moved
    case Player(_, _, _, _, _, _) => moved
    case Oxygen(_, _, _, _, _, _) => moved.(isSupply := p.isSupply.GetOr(t.isSupply))
    case Tile(_, _, _, _, _, _, _, _, _, _) =>
      moved.(isFaceUp := p.isFaceUp.GetOr(t.isFaceUp), isOnDeck := p.isOnDeck.GetOr(t.isOnDeck))
  }

  /** An empty update changes nothing. */
  lemma MergeNothing(t: Token)
    ensures Merge(t, NO_CHANGE) == t
  {
  }

  /** Applying the same update twice is applying it once. */
  lemma MergeIdempotent(t: Token, p: Patch)
    ensures Merge(Merge(t, p), p) == Merge(t, p)
  {
  }

  /** The token restacked at height `z`, everything else kept. */
  function Raise(t: Token, z: int): (r: Token)
    ensures r == Merge(t, NO_CHANGE.(zIndex := Some(z)))
  {
    t.(zIndex := z)
  }

  // ----- Layout constants -----

  const NUM_DECKS: nat := 3
  const INITIAL_Z: int := 1000
  const PLAYER_Z_BASE: int := 100
  const OXYGEN_INITIAL_Z: int := 200
  const TILE_Z_BASE: int := 400
  const TILE_Z_STEP: int := 50
  /** Horizontal spacing of the player tokens fanned out on the prepare slot. */
  const PLAYER_FAN: real := 30.0
  const PLAYER_SIZE_FACTOR: real := 0.7
  const OXYGEN_SIZE_FACTOR: real := 0.85
  const TILE_SIZE_FACTOR: real := 0.92

  /** The grid the engine can work with: one deck cell per queue and at
      least one scene cell to size tiles by. */
  predicate GridReady(g: GridSummary) {
    |g.tileDeckPrepare| == NUM_DECKS && |g.sceneGrid| > 0
  }

  function Widths(cells: seq<GridCell>): seq<real> {
    seq(|cells|, i requires 0 <= i < |cells| => cells[i].width)
  }

  function Heights(cells: seq<GridCell>): seq<real> {
    seq(|cells|, i requires 0 <= i < |cells| => cells[i].height)
  }

  function PlayerSpace(g: GridSummary): real {
    DeriveCellMinDimension(g.playerTokens) * PLAYER_SIZE_FACTOR
  }

  function OxygenSpace(g: GridSummary): real {
    DeriveCellMinDimension(g.oxygen) * OXYGEN_SIZE_FACTOR
  }

  function TileWidth(g: GridSummary): real
    requires |g.sceneGrid| > 0
  {
    MinOf(Widths(g.sceneGrid)) * TILE_SIZE_FACTOR
  }

  function TileHeight(g: GridSummary): real
    requires |g.sceneGrid| > 0
  {
    MinOf(Heights(g.sceneGrid)) * TILE_SIZE_FACTOR
  }

  // ----- Token ids -----

  function PlayerTokenId(colour: string, i: nat): string {
    "player-" + colour + "-" + NatToString(i)
  }

  const INITIAL_OXYGEN_ID: string := "oxygen-initial"

  function InitialTileId(d: nat): string {
    "tile-initial-" + NatToString(d)
  }

  /** The id of an oxygen token spawned at clock reading `now` (milliseconds). */
  function SpawnedOxygenId(now: nat): string {
    "oxygen-" + NatToString(now)
  }

  /** The id of a tile spawned at clock reading `now` (milliseconds). */
  function SpawnedTileId(now: nat): string {
    "tile-" + NatToString(now)
  }

  lemma SuffixOfSamePrefix(p: string, s: string, t: string)
    requires p + s == p + t
    ensures s == t
  {
    assert s == (p + s)[|p|..];
    assert t == (p + t)[|p|..];
  }

  /** Player token ids name the colour and the copy, and no two agree. */
  lemma PlayerIdInjective(a: nat, i: nat, b: nat, j: nat)
    requires a < |PLAYER_ASSETS| && b < |PLAYER_ASSETS|
    ensures PlayerTokenId(PLAYER_ASSETS[a].id, i) == PlayerTokenId(PLAYER_ASSETS[b].id, j)
            <==> a == b && i == j
  {
    var ca, cb := PLAYER_ASSETS[a].id, PLAYER_ASSETS[b].id;
    if PlayerTokenId(ca, i) == PlayerTokenId(cb, j) {
      assert PlayerTokenId(ca, i)[7] == ca[0];
      assert PlayerTokenId(cb, j)[7] == cb[0];
      ColourInitialsDistinct(a, b);
      SuffixOfSamePrefix("player-" + ca + "-", NatToString(i), NatToString(j));
      NatToStringInjective(i, j);
    }
  }

  lemma InitialTileIdInjective(d: nat, e: nat)
    ensures InitialTileId(d) == InitialTileId(e) <==> d == e
  {
    if InitialTileId(d) == InitialTileId(e) {
      SuffixOfSamePrefix("tile-initial-", NatToString(d), NatToString(e));
      NatToStringInjective(d, e);
    }
  }

  /** Spawned ids never coincide with the ids made at initialisation: the
      character after the kind prefix is a digit in the former and the 'i'
      of "initial" (or a colour initial) in the latter. Oxygen and tile ids
      differ in their first character. */
  lemma SpawnedIdsAreNotInitial(now: nat, later: nat, c: nat, i: nat, d: nat)
    requires c < |PLAYER_ASSETS|
    ensures SpawnedOxygenId(now) != INITIAL_OXYGEN_ID
    ensures SpawnedTileId(now) != InitialTileId(d)
    ensures SpawnedOxygenId(now) != PlayerTokenId(PLAYER_ASSETS[c].id, i)
    ensures SpawnedTileId(now) != PlayerTokenId(PLAYER_ASSETS[c].id, i)
    ensures SpawnedOxygenId(now) != SpawnedTileId(later)
    ensures SpawnedOxygenId(now) != InitialTileId(d)
    ensures SpawnedTileId(now) != INITIAL_OXYGEN_ID
  {
    assert SpawnedOxygenId(now)[7] == NatToString(now)[0];
    assert INITIAL_OXYGEN_ID[7] == 'i';
    assert SpawnedTileId(now)[5] == NatToString(now)[0];
    assert InitialTileId(d)[5] == 'i';
    assert SpawnedOxygenId(now)[0] == 'o' && SpawnedTileId(now)[0] == 't';
    assert SpawnedTileId(later)[0] == 't' && InitialTileId(d)[0] == 't';
    assert PlayerTokenId(PLAYER_ASSETS[c].id, i)[0] == 'p';
  }

  // ----- Token maps built from lists -----

  predicate UniqueTokenIds(ts: seq<Token>) {
    forall i, j :: 0 <= i < j < |ts| ==> ts[i].id != ts[j].id
  }

  /** The map obtained by storing each listed token under its id, in order. */
  function Register(ts: seq<Token>): map<string, Token>
    decreases |ts|
  {
    if ts == [] then map[] else Register(ts[..|ts| - 1])[ts[|ts| - 1].id := ts[|ts| - 1]]
  }

  /** Every entry of a registered map is a listed token stored under its own id. */
  lemma {:induction false} RegisterSound(ts: seq<Token>)
    ensures forall k :: k in Register(ts) ==> Register(ts)[k].id == k && Register(ts)[k] in ts
    decreases |ts|
  {
    if ts != [] {
      var init := ts[..|ts| - 1];
      RegisterSound(init);
      forall k | k in Register(ts)
        ensures Register(ts)[k].id == k && Register(ts)[k] in ts
      {
        if k != ts[|ts| - 1].id {
          assert Register(ts)[k] == Register(init)[k];
          assert ts == init + [ts[|ts| - 1]];
        }
      }
    }
  }

  /** Registering tokens with distinct ids keeps every one of them, under
      its own id, and nothing else. */
  lemma {:induction false} RegisterUnique(ts: seq<Token>)
    requires UniqueTokenIds(ts)
    ensures |Register(ts)| == |ts|
    ensures forall i :: 0 <= i < |ts| ==> ts[i].id in Register(ts) && Register(ts)[ts[i].id] == ts[i]
    ensures forall k :: k in Register(ts) ==> Register(ts)[k].id == k && Register(ts)[k] in ts
    decreases |ts|
  {
    RegisterSound(ts);
    if ts != [] {
      var init := ts[..|ts| - 1];
      var last := ts[|ts| - 1];
      assert UniqueTokenIds(init);
      RegisterUnique(init);
      assert last.id !in Register(init);
      forall i | 0 <= i < |ts|
        ensures ts[i].id in Register(ts) && Register(ts)[ts[i].id] == ts[i]
      {
        if i < |ts| - 1 {
          assert ts[i] == init[i];
        }
      }
    }
  }

  /** Registering one more token extends the map by it. */
  lemma RegisterSnoc(ts: seq<Token>, n: nat)
    requires n < |ts|
    ensures Register(ts[..n + 1]) == Register(ts[..n])[ts[n].id := ts[n]]
  {
    assert ts[..n + 1][..n] == ts[..n];
  }

  // ----- Initial tokens -----

  /** Copy `i` of colour `c`, fanned out on the player prepare slot. */
  function PlayerTokenAt(c: nat, i: nat, prep: GridCell, size: real): Token
    requires c < |PLAYER_ASSETS|
  {
    var colour := PLAYER_ASSETS[c];
    Player(PlayerTokenId(colour.id, i),
           Point(prep.x + PLAYER_FAN * ((c as int) - 3 + (i as int) + 1) as real, prep.y),
           PLAYER_Z_BASE + c * 2 + i,
           colour.asset, colour.labelText, size)
  }

  /** Two copies per colour, colour by colour. */
  function InitialPlayers(prep: GridCell, size: real): seq<Token> {
    seq(2 * |PLAYER_ASSETS|, k requires 0 <= k < 2 * |PLAYER_ASSETS| => PlayerTokenAt(k / 2, k % 2, prep, size))
  }

  /** A supply oxygen token on the oxygen prepare slot. */
  function SupplyOxygen(g: GridSummary, id: string, z: int): Token {
    Oxygen(id, Point(g.oxygenPrepare.x, g.oxygenPrepare.y), z, OXYGEN_ASSET, OxygenSpace(g), true)
  }

  function InitialOxygen(g: GridSummary): Token {
    SupplyOxygen(g, INITIAL_OXYGEN_ID, OXYGEN_INITIAL_Z)
  }

  /** A face-down tile waiting on deck `d` with face `front`. */
  function DeckTile(id: string, g: GridSummary, d: nat, front: TileAsset): Token
    requires GridReady(g) && d < NUM_DECKS
  {
    var cell := g.tileDeckPrepare[d];
    Tile(id, Point(cell.x, cell.y), TILE_Z_BASE + d * TILE_Z_STEP, front.src, TILE_BACK_ASSET,
         TileWidth(g), TileHeight(g), false, true, d)
  }

  function MinNat(a: nat, b: nat): nat {
    if a <= b then a else b
  }

  /** One tile on each deck cell, as long as there are faces for them. */
  function InitialTiles(g: GridSummary, fronts: seq<TileAsset>): seq<Token>
    requires GridReady(g)
  {
    seq(MinNat(NUM_DECKS, |fronts|), d requires 0 <= d < MinNat(NUM_DECKS, |fronts|) =>
      DeckTile(InitialTileId(d), g, d, fronts[d]))
  }

  /** Every token initialisation creates, in creation order. */
  function InitialTokens(g: GridSummary, fronts: seq<TileAsset>): seq<Token>
    requires GridReady(g)
  {
    InitialPlayers(g.playerTokenPrepare, PlayerSpace(g)) + [InitialOxygen(g)] + InitialTiles(g, fronts)
  }

  lemma InitialIdsUnique(g: GridSummary, fronts: seq<TileAsset>)
    requires GridReady(g)
    ensures UniqueTokenIds(InitialTokens(g, fronts))
  {
    var ts := InitialTokens(g, fronts);
    var np := 2 * |PLAYER_ASSETS|;
    forall i, j | 0 <= i < j < |ts|
      ensures ts[i].id != ts[j].id
    {
      if j < np {
        PlayerIdInjective(i / 2, i % 2, j / 2, j % 2);
      } else if i < np {
        assert ts[i].id[0] == 'p';
        assert ts[j].id[0] == (if j == np then 'o' else 't');
      } else if i == np {
        assert ts[i].id[0] == 'o' && ts[j].id[0] == 't';
      } else {
        InitialTileIdInjective(i - np - 1, j - np - 1);
      }
    }
  }

  lemma InitialPlayerEntry(g: GridSummary, fronts: seq<TileAsset>, c: nat, i: nat)
    requires GridReady(g) && c < |PLAYER_ASSETS| && i < 2
    ensures var m := Register(InitialTokens(g, fronts));
      && PlayerTokenId(PLAYER_ASSETS[c].id, i) in m
      && m[PlayerTokenId(PLAYER_ASSETS[c].id, i)] == PlayerTokenAt(c, i, g.playerTokenPrepare, PlayerSpace(g))
  {
    var ts := InitialTokens(g, fronts);
    var k := 2 * c + i;
    assert k / 2 == c && k % 2 == i;
    assert ts[k] == PlayerTokenAt(c, i, g.playerTokenPrepare, PlayerSpace(g));
    InitialIdsUnique(g, fronts);
    RegisterUnique(ts);
  }

  lemma InitialTileEntry(g: GridSummary, fronts: seq<TileAsset>, d: nat)
    requires GridReady(g) && d < MinNat(NUM_DECKS, |fronts|)
    ensures var m := Register(InitialTokens(g, fronts));
      InitialTileId(d) in m && m[InitialTileId(d)] == DeckTile(InitialTileId(d), g, d, fronts[d])
  {
    var ts := InitialTokens(g, fronts);
    assert ts[2 * |PLAYER_ASSETS| + 1 + d] == DeckTile(InitialTileId(d), g, d, fronts[d]);
    InitialIdsUnique(g, fronts);
    RegisterUnique(ts);
  }

  lemma InitialBelowCounter(g: GridSummary, fronts: seq<TileAsset>)
    requires GridReady(g)
    ensures forall t :: t in InitialTokens(g, fronts) ==> t.zIndex < INITIAL_Z
  {
    var ts := InitialTokens(g, fronts);
    var np := 2 * |PLAYER_ASSETS|;
    forall k | 0 <= k < |ts|
      ensures ts[k].zIndex < INITIAL_Z
    {
      if k < np {
        assert ts[k].zIndex == PLAYER_Z_BASE + (k / 2) * 2 + k % 2;
      }
    }
  }

  /** Initialisation stores 2 tokens per colour, one oxygen token and one
      tile per deck cell that has a face, every one under its own id and
      below the initial counter. */
  lemma InitialTokenMap(g: GridSummary, fronts: seq<TileAsset>)
    requires GridReady(g)
    ensures var m := Register(InitialTokens(g, fronts));
      && |m| == 2 * |PLAYER_ASSETS| + 1 + MinNat(NUM_DECKS, |fronts|)
      && (forall c, i :: 0 <= c < |PLAYER_ASSETS| && 0 <= i < 2 ==>
            PlayerTokenId(PLAYER_ASSETS[c].id, i) in m
            && m[PlayerTokenId(PLAYER_ASSETS[c].id, i)]
               == PlayerTokenAt(c, i, g.playerTokenPrepare, PlayerSpace(g)))
      && INITIAL_OXYGEN_ID in m && m[INITIAL_OXYGEN_ID] == InitialOxygen(g)
      && (forall d :: 0 <= d < MinNat(NUM_DECKS, |fronts|) ==>
            InitialTileId(d) in m && m[InitialTileId(d)] == DeckTile(InitialTileId(d), g, d, fronts[d]))
      && (forall k :: k in m ==> m[k].id == k && m[k].zIndex < INITIAL_Z)
  {
    var ts := InitialTokens(g, fronts);
    InitialIdsUnique(g, fronts);
    RegisterUnique(ts);
    InitialBelowCounter(g, fronts);
    forall c: nat, i: nat | c < |PLAYER_ASSETS| && i < 2 {
      InitialPlayerEntry(g, fronts, c, i);
    }
    assert ts[2 * |PLAYER_ASSETS|] == InitialOxygen(g);
    forall d: nat | d < MinNat(NUM_DECKS, |fronts|) {
      InitialTileEntry(g, fronts, d);
    }
  }

  // ----- Dealing the remaining faces -----

  /** The faces left after one has been put on each deck cell. */
  function Undealt(fronts: seq<TileAsset>): seq<TileAsset> {
    if |fronts| <= NUM_DECKS then [] else fronts[NUM_DECKS..]
  }

  /** The queues after pushing each face onto queue (index mod 3), in order. */
  function Deal(rest: seq<TileAsset>): (queues: seq<seq<TileAsset>>)
    ensures |queues| == NUM_DECKS
    decreases |rest|
  {
    if rest == [] then [[], [], []]
    else
      var n := |rest| - 1;
      var q := Deal(rest[..n]);
      q[n % NUM_DECKS := q[n % NUM_DECKS] + [rest[n]]]
  }

  /** Every third face, starting at face `k`. */
  function Column(rest: seq<TileAsset>, k: nat): (col: seq<TileAsset>)
    requires k < NUM_DECKS
    ensures |col| == (|rest| + 2 - k) / 3
  {
    seq((|rest| + 2 - k) / 3, j requires 0 <= j < (|rest| + 2 - k) / 3 => rest[3 * j + k])
  }

  lemma ColumnSnoc(rest: seq<TileAsset>, k: nat)
    requires k < NUM_DECKS && rest != []
    ensures var n := |rest| - 1;
      Column(rest, k) == if n % 3 == k then Column(rest[..n], k) + [rest[n]] else Column(rest[..n], k)
  {
    var n := |rest| - 1;
    if n % 3 == k {
      assert (|rest| + 2 - k) / 3 == (n + 2 - k) / 3 + 1;
      assert 3 * ((n + 2 - k) / 3) + k == n;
    } else {
      assert (|rest| + 2 - k) / 3 == (n + 2 - k) / 3;
    }
  }

  /** Round-robin dealing: queue k holds faces k, k+3, k+6, ... in order. */
  lemma {:induction false} DealRoundRobin(rest: seq<TileAsset>)
    ensures forall k :: 0 <= k < NUM_DECKS ==> Deal(rest)[k] == Column(rest, k)
    decreases |rest|
  {
    if rest != [] {
      var n := |rest| - 1;
      DealRoundRobin(rest[..n]);
      forall k | 0 <= k < NUM_DECKS
        ensures Deal(rest)[k] == Column(rest, k)
      {
        ColumnSnoc(rest, k);
      }
    }
  }

  /** The total number of faces waiting in the queues. */
  function Queued(queues: seq<seq<TileAsset>>): nat
    decreases |queues|
  {
    if queues == [] then 0 else Queued(queues[..|queues| - 1]) + |queues[|queues| - 1]|
  }

  lemma {:induction false} QueuedUpdate(queues: seq<seq<TileAsset>>, d: nat, q: seq<TileAsset>)
    requires d < |queues|
    ensures Queued(queues[d := q]) + |queues[d]| == Queued(queues) + |q|
    decreases |queues|
  {
    var n := |queues| - 1;
    if d < n {
      assert queues[d := q][..n] == queues[..n][d := q];
      QueuedUpdate(queues[..n], d, q);
    } else {
      assert queues[d := q][..n] == queues[..n];
    }
  }

  /** Dealing loses no face: the queues hold exactly as many as were dealt. */
  lemma {:induction false} DealTotal(rest: seq<TileAsset>)
    ensures Queued(Deal(rest)) == |rest|
    decreases |rest|
  {
    if rest == [] {
      var empty: seq<seq<TileAsset>> := [[], [], []];
      assert empty[..2][..1][..0] == [];
      assert Queued(empty[..2][..1]) == 0;
      assert Queued(empty[..2]) == 0;
      assert Queued(empty) == 0;
    } else {
      var n := |rest| - 1;
      DealTotal(rest[..n]);
      var q := Deal(rest[..n]);
      QueuedUpdate(q, n % NUM_DECKS, q[n % NUM_DECKS] + [rest[n]]);
    }
  }

  /** After initialisation queue k holds the shuffled faces 3+k, 6+k, ...,
      and the queues together hold every face beyond the first three. */
  lemma InitialQueues(fronts: seq<TileAsset>)
    ensures var qs := Deal(Undealt(fronts));
      && Queued(qs) == (if |fronts| <= NUM_DECKS then 0 else |fronts| - NUM_DECKS)
      && forall k, j :: 0 <= k < NUM_DECKS && 0 <= j < |qs[k]| ==>
           3 + 3 * j + k < |fronts| && qs[k][j] == fronts[3 + 3 * j + k]
  {
    DealTotal(Undealt(fronts));
    DealRoundRobin(Undealt(fronts));
  }

  /** Whether `spawnTile(d)` finds a face to spawn. */
  predicate CanSpawnTile(queues: seq<seq<TileAsset>>, d: int) {
    0 <= d < |queues| && |queues[d]| > 0
  }

  /** The stacking order only grows: raised or spawned tokens sit at or
      below the counter. */
  predicate AllBelow(tokens: map<string, Token>, z: int) {
    forall k :: k in tokens ==> tokens[k].zIndex <= z
  }

  /** Flags only move one way: a face-up tile stays face up, a tile off the
      deck never returns to it, and an oxygen token stops being the supply
      for good. */
  predicate FlagsAdvance(before: map<string, Token>, after: map<string, Token>) {
    forall k :: k in before && k in after ==>
      && (before[k].Tile? && after[k].Tile? ==>
            (before[k].isFaceUp ==> after[k].isFaceUp) && (after[k].isOnDeck ==> before[k].isOnDeck))
      && (before[k].Oxygen? && after[k].Oxygen? ==> (after[k].isSupply ==> before[k].isSupply))
  }

  // ----- Initialisation steps -----

  lemma PlayerStep(prep: GridCell, size: real, c: nat, i: nat)
    requires c < |PLAYER_ASSETS| && i < 2
    ensures var players := InitialPlayers(prep, size);
      var t := PlayerTokenAt(c, i, prep, size);
      Register(players[..2 * c + i + 1]) == Register(players[..2 * c + i])[t.id := t]
  {
    var k := 2 * c + i;
    assert k / 2 == c && k % 2 == i;
    assert InitialPlayers(prep, size)[k] == PlayerTokenAt(c, i, prep, size);
    RegisterSnoc(InitialPlayers(prep, size), k);
  }

  /** Two tokens per colour, colour by colour, on the player prepare slot. */
  method PlacePlayers(playerPrepareSlot: GridCell, playerSpace: real) returns (toks: map<string, Token>)
    ensures toks == Register(InitialPlayers(playerPrepareSlot, playerSpace))
  {
    toks := map[];
    ghost var players := InitialPlayers(playerPrepareSlot, playerSpace);
    var c := 0;
    while c < |PLAYER_ASSETS|
      invariant 0 <= c <= |PLAYER_ASSETS|
      invariant toks == Register(players[..2 * c])
    {
      var asset := PLAYER_ASSETS[c];
      var i := 0;
      while i < 2
        invariant 0 <= i <= 2
        invariant toks == Register(players[..2 * c + i])
      {
        var tokenId := PlayerTokenId(asset.id, i);
        var token := Player(tokenId,
          Point(playerPrepareSlot.x + PLAYER_FAN * (c - 3 + i + 1) as real, playerPrepareSlot.y),
          PLAYER_Z_BASE + c * 2 + i, asset.asset, asset.labelText, playerSpace);
        assert token == PlayerTokenAt(c, i, playerPrepareSlot, playerSpace);
        PlayerStep(playerPrepareSlot, playerSpace, c, i);
        toks := toks[tokenId := token];
        i := i + 1;
      }
      c := c + 1;
    }
    assert players[..2 * c] == players;
  }

  /** The token map once the first `d` deck cells have been visited. */
  function DeckPrefix(g: GridSummary, fronts: seq<TileAsset>, d: nat): map<string, Token>
    requires GridReady(g) && d <= NUM_DECKS
  {
    var all := InitialTokens(g, fronts);
    assert |all| == 2 * |PLAYER_ASSETS| + 1 + MinNat(NUM_DECKS, |fronts|);
    Register(all[..2 * |PLAYER_ASSETS| + 1 + MinNat(d, |fronts|)])
  }

  lemma DeckTileStep(g: GridSummary, fronts: seq<TileAsset>, d: nat)
    requires GridReady(g) && d < NUM_DECKS
    ensures DeckPrefix(g, fronts, d + 1)
      == if d < |fronts| then DeckPrefix(g, fronts, d)[InitialTileId(d) := DeckTile(InitialTileId(d), g, d, fronts[d])]
         else DeckPrefix(g, fronts, d)
  {
    if d < |fronts| {
      RegisterSnoc(InitialTokens(g, fronts), 2 * |PLAYER_ASSETS| + 1 + d);
    }
  }

  /** Before any deck cell the map holds the players and the oxygen token;
      after the last one it holds every initial token. */
  lemma DeckPrefixEnds(g: GridSummary, fronts: seq<TileAsset>)
    requires GridReady(g)
    ensures DeckPrefix(g, fronts, 0)
            == Register(InitialPlayers(g.playerTokenPrepare, PlayerSpace(g)) + [InitialOxygen(g)])
    ensures DeckPrefix(g, fronts, NUM_DECKS) == Register(InitialTokens(g, fronts))
  {
    var all := InitialTokens(g, fronts);
    assert all[..2 * |PLAYER_ASSETS| + 1]
           == InitialPlayers(g.playerTokenPrepare, PlayerSpace(g)) + [InitialOxygen(g)];
    assert all[..2 * |PLAYER_ASSETS| + 1 + MinNat(NUM_DECKS, |fronts|)] == all;
  }

  /** The visit of deck cell `deckIndex`: when a face is left for it, a
      face-down tile for that deck is stored under its initial id. */
  method PlaceDeckTile(g: GridSummary, tileFronts: seq<TileAsset>, deckIndex: nat, toks: map<string, Token>)
    returns (result: map<string, Token>)
    requires GridReady(g) && deckIndex < NUM_DECKS
    ensures deckIndex < |tileFronts| ==>
      result == toks[InitialTileId(deckIndex) := DeckTile(InitialTileId(deckIndex), g, deckIndex, tileFronts[deckIndex])]
    ensures deckIndex >= |tileFronts| ==> result == toks
  {
    var cell := g.tileDeckPrepare[deckIndex];
    result := toks;
    if deckIndex < |tileFronts| {
      var tokenId := InitialTileId(deckIndex);
      var token := Tile(tokenId, Point(cell.x, cell.y),
        TILE_Z_BASE + deckIndex * TILE_Z_STEP, tileFronts[deckIndex].src, TILE_BACK_ASSET,
        TileWidth(g), TileHeight(g), false, true, deckIndex);
      result := result[tokenId := token];
    }
  }

  /** One face-down tile on each deck cell, while there are faces left;
      `toks` already holds the players and the oxygen token. */
  method PlaceDeckTiles(g: GridSummary, tileFronts: seq<TileAsset>, toks: map<string, Token>)
    returns (result: map<string, Token>)
    requires GridReady(g)
    requires toks == Register(InitialPlayers(g.playerTokenPrepare, PlayerSpace(g)) + [InitialOxygen(g)])
    ensures result == Register(InitialTokens(g, tileFronts))
  {
    DeckPrefixEnds(g, tileFronts);
    result := toks;
    var deckIndex := 0;
    while deckIndex < |g.tileDeckPrepare|
      invariant 0 <= deckIndex <= NUM_DECKS
      invariant result == DeckPrefix(g, tileFronts, deckIndex)
    {
      DeckTileStep(g, tileFronts, deckIndex);
      result := PlaceDeckTile(g, tileFronts, deckIndex, result);
      deckIndex := deckIndex + 1;
    }
  }

  /** Skips the faces put on the decks and pushes each remaining face onto
      queue (index mod 3). */
  method DealQueues(tileFronts: seq<TileAsset>) returns (queues: seq<seq<TileAsset>>)
    ensures queues == Deal(Undealt(tileFronts))
  {
    queues := [[], [], []];
    var rest := if |tileFronts| <= NUM_DECKS then [] else tileFronts[NUM_DECKS..];
    var index := 0;
    while index < |rest|
      invariant 0 <= index <= |rest|
      invariant queues == Deal(rest[..index])
    {
      var d := index % NUM_DECKS;
      queues := queues[d := queues[d] + [rest[index]]];
      assert rest[..index + 1][..index] == rest[..index];
      index := index + 1;
    }
    assert rest[..index] == rest;
  }

  // ----- The engine -----

  /** The engine's state. `notifications` counts the calls that tell the
      subscribed views to re-read the token map. */
  class Board {
    const grid: GridSummary
    var tokens: map<string, Token>
    var tileQueues: seq<seq<TileAsset>>
    var zCounter: int
    ghost var notifications: nat

    ghost predicate Valid()
      reads this
    {
      && GridReady(grid)
      && |tileQueues| == NUM_DECKS
      && zCounter >= INITIAL_Z
      && (forall k :: k in tokens ==> tokens[k].id == k)
    }

    /** No token is stacked above the counter. */
    ghost predicate Stacked()
      reads this
    {
      AllBelow(tokens, zCounter)
    }

    /** Initialisation: two tokens per player colour fanned out on the player
        prepare slot, the supply oxygen token, one face-down tile on each deck
        cell, and the remaining shuffled faces dealt round-robin into the
        queues. `catalog` is the list of tile faces and `choices` the draws
        the shuffle makes. */
    constructor (g: GridSummary, catalog: seq<TileAsset>, choices: seq<nat>)
      requires GridReady(g)
      requires Shuffle.ValidChoices(|catalog|, choices)
      ensures Valid() && Stacked()
      ensures grid == g
      ensures tokens == Register(InitialTokens(g, Shuffle.ShuffleOf(catalog, choices)))
      ensures tileQueues == Deal(Undealt(Shuffle.ShuffleOf(catalog, choices)))
      ensures zCounter == INITIAL_Z && notifications == 0
    {
      var toks := PlacePlayers(g.playerTokenPrepare, PlayerSpace(g));
      var oxygenPrepareSlot := g.oxygenPrepare;
      toks := toks[INITIAL_OXYGEN_ID := Oxygen(INITIAL_OXYGEN_ID,
        Point(oxygenPrepareSlot.x, oxygenPrepareSlot.y), OXYGEN_INITIAL_Z, OXYGEN_ASSET, OxygenSpace(g), true)];
      var tileFronts := Shuffle.Shuffle(catalog, choices);
      toks := PlaceDeckTiles(g, tileFronts, toks);
      var queues := DealQueues(tileFronts);
      grid := g;
      tokens := toks;
      tileQueues := queues;
      zCounter := INITIAL_Z;
      notifications := 0;
      InitialTokenMap(g, tileFronts);
    }

    /** Spreads `updates` over the token stored under `id`; an unknown id
        leaves the state as it is. Listeners are not notified. */
    method UpdateToken(id: string, updates: Patch)
      requires Valid()
      modifies this
      ensures Valid()
      ensures id in old(tokens) ==> tokens == old(tokens)[id := Merge(old(tokens)[id], updates)]
      ensures id !in old(tokens) ==> tokens == old(tokens)
      ensures tileQueues == old(tileQueues) && zCounter == old(zCounter)
      ensures notifications == old(notifications)
      ensures old(Stacked()) && (updates.zIndex.None? || updates.zIndex.value <= zCounter) ==> Stacked()
    {
      if id !in tokens {
        return;
      }
      var token := tokens[id];
      tokens := tokens[id := Merge(token, updates)];
    }

    /** Advances the counter, even for an unknown id, and stacks the token
        at the new value: above every other token. */
    method BringToFront(id: string)
      requires Valid()
      modifies this
      ensures Valid()
      ensures zCounter == old(zCounter) + 1
      ensures id in old(tokens) ==> tokens == old(tokens)[id := Raise(old(tokens)[id], zCounter)]
      ensures id !in old(tokens) ==> tokens == old(tokens)
      ensures tileQueues == old(tileQueues) && notifications == old(notifications)
      ensures old(Stacked()) ==> Stacked()
      ensures old(Stacked()) && id in tokens ==>
        forall k :: k in tokens && k != id ==> tokens[k].zIndex < tokens[id].zIndex
    {
      zCounter := zCounter + 1;
      UpdateToken(id, NO_CHANGE.(zIndex := Some(zCounter)));
    }

    /** Adds a supply oxygen token on the oxygen prepare slot, stacked at the
        advanced counter, under an id made from the clock reading `now`. */
    method SpawnOxygen(now: nat)
      requires Valid()
      modifies this
      ensures Valid()
      ensures zCounter == old(zCounter) + 1
      ensures tokens == old(tokens)[SpawnedOxygenId(now) := SupplyOxygen(grid, SpawnedOxygenId(now), zCounter)]
      ensures SpawnedOxygenId(now) !in old(tokens) ==> |tokens| == |old(tokens)| + 1
      ensures tileQueues == old(tileQueues)
      ensures notifications == old(notifications) + 1
      ensures old(Stacked()) ==>
        Stacked() && forall k :: k in tokens && k != SpawnedOxygenId(now) ==> tokens[k].zIndex < zCounter
    {
      zCounter := zCounter + 1;
      var oxygenSlot := grid.oxygenPrepare;
      var oxygenSpace := OxygenSpace(grid);
      var newOxygenId := SpawnedOxygenId(now);
      tokens := tokens[newOxygenId := Oxygen(newOxygenId, Point(oxygenSlot.x, oxygenSlot.y),
        zCounter, OXYGEN_ASSET, oxygenSpace, true)];
      notifications := notifications + 1;
    }

    /** Pops the head of queue `deckIndex` and puts it, face down, on that
        deck's cell; a missing or empty queue leaves the state as it is. */
    method SpawnTile(deckIndex: int, now: nat)
      requires Valid()
      modifies this
      ensures Valid()
      ensures !CanSpawnTile(old(tileQueues), deckIndex) ==>
        tokens == old(tokens) && tileQueues == old(tileQueues) && notifications == old(notifications)
      ensures CanSpawnTile(old(tileQueues), deckIndex) ==>
        && tileQueues == old(tileQueues)[deckIndex := old(tileQueues)[deckIndex][1..]]
        && tokens == old(tokens)[SpawnedTileId(now) :=
             DeckTile(SpawnedTileId(now), grid, deckIndex, old(tileQueues)[deckIndex][0])]
        && Queued(tileQueues) + 1 == Queued(old(tileQueues))
        && notifications == old(notifications) + 1
      ensures zCounter == old(zCounter)
      ensures old(Stacked()) ==> Stacked()
    {
      if deckIndex < 0 || deckIndex >= |tileQueues| || |tileQueues[deckIndex]| == 0 {
        return;
      }
      var queue := tileQueues[deckIndex];
      var nextTile := queue[0];
      var newQueues := tileQueues[deckIndex := queue[1..]];
      var deckCell := grid.tileDeckPrepare[deckIndex];
      var tileWidth := TileWidth(grid);
      var tileHeight := TileHeight(grid);
      var newTileId := SpawnedTileId(now);
      QueuedUpdate(tileQueues, deckIndex, queue[1..]);
      tileQueues := newQueues;
      tokens := tokens[newTileId := Tile(newTileId, Point(deckCell.x, deckCell.y),
        TILE_Z_BASE + deckIndex * TILE_Z_STEP, nextTile.src, TILE_BACK_ASSET,
        tileWidth, tileHeight, false, true, deckIndex)];
      notifications := notifications + 1;
    }

    // ----- Drag handlers of the token components -----

    /** Picking up a player token only raises it. */
    method PlayerDragStart(id: string)
      requires Valid() && id in tokens && tokens[id].Player?
      modifies this
      ensures Valid()
      ensures zCounter == old(zCounter) + 1
      ensures tokens == old(tokens)[id := Raise(old(tokens)[id], zCounter)]
      ensures tileQueues == old(tileQueues) && notifications == old(notifications)
      ensures old(Stacked()) ==> Stacked()
    {
      BringToFront(id);
    }

    /** Dropping a player token writes back the position already stored, so
        the stored state does not change; nothing happens at scale 0. */
    method PlayerDragEnd(id: string, scale: real)
      requires Valid() && id in tokens && tokens[id].Player?
      modifies this
      ensures Valid()
      ensures tokens == old(tokens)
      ensures tileQueues == old(tileQueues) && zCounter == old(zCounter)
      ensures notifications == old(notifications)
      ensures old(Stacked()) ==> Stacked()
    {
      if scale == 0.0 {
        return;
      }
      var position := tokens[id].position;
      UpdateToken(id, NO_CHANGE.(position := Some(position)));
    }

    /** Picking up an oxygen token raises it and, when it is the supply,
        spawns a replacement supply token, which is stacked above it. */
    method OxygenDragStart(id: string, now: nat)
      requires Valid() && id in tokens && tokens[id].Oxygen?
      modifies this
      ensures Valid()
      ensures var t := old(tokens)[id];
        var raised := old(tokens)[id := Raise(t, old(zCounter) + 1)];
        if t.isSupply then
          && zCounter == old(zCounter) + 2
          && tokens == raised[SpawnedOxygenId(now) := SupplyOxygen(grid, SpawnedOxygenId(now), zCounter)]
          && notifications == old(notifications) + 1
        else
          && zCounter == old(zCounter) + 1
          && tokens == raised
          && notifications == old(notifications)
      ensures tileQueues == old(tileQueues)
      ensures old(Stacked()) ==> Stacked()
      ensures SpawnedOxygenId(now) !in old(tokens) ==> FlagsAdvance(old(tokens), tokens)
    {
      var isSupply := tokens[id].isSupply;
      BringToFront(id);
      if isSupply {
        SpawnOxygen(now);
      }
    }

    /** Dropping an oxygen token ends its time as the supply and writes back
        the stored position; nothing happens at scale 0. */
    method OxygenDragEnd(id: string, scale: real)
      requires Valid() && id in tokens && tokens[id].Oxygen?
      modifies this
      ensures Valid()
      ensures scale == 0.0 ==> tokens == old(tokens)
      ensures scale != 0.0 ==> tokens == old(tokens)[id := old(tokens)[id].(isSupply := false)]
      ensures FlagsAdvance(old(tokens), tokens)
      ensures tileQueues == old(tileQueues) && zCounter == old(zCounter)
      ensures notifications == old(notifications)
      ensures old(Stacked()) ==> Stacked()
    {
      if scale == 0.0 {
        return;
      }
      var token := tokens[id];
      var supply: Option<bool> := None;
      if token.isSupply {
        supply := Some(false);
      }
      UpdateToken(id, NO_CHANGE.(position := Some(token.position), isSupply := supply));
    }

    /** Picking up a tile raises it and, when it is on a deck, spawns the
        next face of that deck's queue onto the deck cell. */
    method TileDragStart(id: string, now: nat)
      requires Valid() && id in tokens && tokens[id].Tile?
      modifies this
      ensures Valid()
      ensures zCounter == old(zCounter) + 1
      ensures var t := old(tokens)[id];
        var raised := old(tokens)[id := Raise(t, zCounter)];
        if t.isOnDeck && CanSpawnTile(old(tileQueues), t.deckIndex) then
          && tileQueues == old(tileQueues)[t.deckIndex := old(tileQueues)[t.deckIndex][1..]]
          && tokens == raised[SpawnedTileId(now) :=
               DeckTile(SpawnedTileId(now), grid, t.deckIndex, old(tileQueues)[t.deckIndex][0])]
          && notifications == old(notifications) + 1
        else
          && tileQueues == old(tileQueues)
          && tokens == raised
          && notifications == old(notifications)
      ensures old(Stacked()) ==> Stacked()
      ensures SpawnedTileId(now) !in old(tokens) ==> FlagsAdvance(old(tokens), tokens)
    {
      var isOnDeck := tokens[id].isOnDeck;
      var deckIndex := tokens[id].deckIndex;
      BringToFront(id);
      if isOnDeck {
        SpawnTile(deckIndex, now);
      }
    }

    /** Dropping a tile turns it face up and takes it off the deck, and
        writes back the stored position; nothing happens at scale 0. */
    method TileDragEnd(id: string, scale: real)
      requires Valid() && id in tokens && tokens[id].Tile?
      modifies this
      ensures Valid()
      ensures scale == 0.0 ==> tokens == old(tokens)
      ensures scale != 0.0 ==> tokens == old(tokens)[id := old(tokens)[id].(isFaceUp := true, isOnDeck := false)]
      ensures FlagsAdvance(old(tokens), tokens)
      ensures tileQueues == old(tileQueues) && zCounter == old(zCounter)
      ensures notifications == old(notifications)
      ensures old(Stacked()) ==> Stacked()
    {
      if scale == 0.0 {
        return;
      }
      var token := tokens[id];
      var faceUp: Option<bool> := None;
      if !token.isFaceUp {
        faceUp := Some(true);
      }
      var onDeck: Option<bool> := None;
      if token.isOnDeck {
        onDeck := Some(false);
      }
      UpdateToken(id, NO_CHANGE.(position := Some(token.position), isFaceUp := faceUp, isOnDeck := onDeck));
    }
  }
}
