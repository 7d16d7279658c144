/** The board's asset catalogue: the player colours and the fixed image
    references the engine stamps onto tokens. Image references are the
    bundler's URLs in the application; here each is the asset's file name. */
module Assets {

  /** A tile face: a stable identifier and the image it shows. */
  datatype TileAsset = TileAsset(id: string, src: string)

  /** One player colour: its identifier, display label (`labelText`, as `label` is reserved) and token image. */
  datatype PlayerAsset = PlayerAsset(id: string, labelText: string, asset: string)

  const OXYGEN_ASSET: string := "oxygen.png"
  const TILE_BACK_ASSET: string := "path-tile-backside.jpeg"

  /** The four diver colours, in the order the engine numbers them. */
  const PLAYER_ASSETS: seq<PlayerAsset> := [
    PlayerAsset("green", "Green Diver", "player-token-green.png"),
    PlayerAsset("purple", "Purple Diver", "player-token-purple.png"),
    PlayerAsset("red", "Red Diver", "player-token-red.png"),
    PlayerAsset("yellow", "Yellow Diver", "player-token-yellow.png")
  ]

  /** The colours are told apart by the first letter of their identifiers,
      so their identifiers are pairwise distinct. */
  lemma ColourInitialsDistinct(a: nat, b: nat)
    requires a < |PLAYER_ASSETS| && b < |PLAYER_ASSETS|
    ensures |PLAYER_ASSETS[a].id| > 0
    ensures PLAYER_ASSETS[a].id[0] == PLAYER_ASSETS[b].id[0] <==> a == b
  {
  }
}
