/** The tile grid shared by collision and ray casting. */
module Grid {

  type Tile = (int, int)

  /** `Map.world_map`: a tile is a wall exactly when it has an entry, and
      the entry is the wall's texture id. */
  type WorldMap = map<Tile, int>
}

/** The values `settings.py` (and `map.py`, `weapon.py`) provide. Those
    files are not part of this model, so every constant is a field of one
    record whose concrete values are left open. */
module Settings {
  import opened Grid

  datatype Config = Config(
    playerX: real,            // PLAYER_POS[0]
    playerY: real,            // PLAYER_POS[1]
    playerAngle: real,        // PLAYER_ANGLE
    playerMaxHealth: int,     // PLAYER_MAX_HEALTH
    playerSpeed: real,        // PLAYER_SPEED
    playerSizeScale: real,    // PLAYER_SIZE_SCALE
    diagMoveCorr: real,       // 1 / math.sqrt(2), computed in Player.__init__
    mouseSensitivity: real,   // MOUSE_SENSITIVITY
    mouseMaxRel: int,         // MOUSE_MAX_REL
    halfFov: real,            // HALF_FOV
    deltaAngle: real,         // DELTA_ANGLE
    numRays: nat,             // NUM_RAYS
    maxDepth: nat,            // MAX_DEPTH
    screenDist: real,         // SCREEN_DIST
    height: int,              // HEIGHT
    halfHeight: int,          // HALF_HEIGHT
    scale: int,               // SCALE (screen pixels per ray)
    textureSize: int,         // TEXTURE_SIZE
    halfTextureSize: int,     // HALF_TEXTURE_SIZE
    worldMap: WorldMap,       // Map(game).world_map
    weaponReloadingAtStart: bool  // Weapon(game).reloading
  )
  {
    /** What the modelled code needs of the constants: a clamp range, a
        positive screen height (divided by in the tall-slice branch) and a
        positive screen distance. */
    predicate Valid()
    {
      && mouseMaxRel >= 0
      && height > 0
      && screenDist > 0.0
    }
  }
}
