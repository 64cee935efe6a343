/** Constants of the tabletop (js/config.js) and the fixed strings the core uses. */
module Config {
  /** The board is GRID_SIZE x GRID_SIZE cells. */
  const GRID_SIZE: int := 3
  /** Side of one cell in canvas pixels. */
  const CELL_SIZE: int := 1200
  /** Age in milliseconds after which a stored session is discarded (30 minutes). */
  const SESSION_TIMEOUT: int := 30 * 60 * 1000
  /** localStorage keys are this prefix followed by the room code. */
  const STORAGE_KEY_PREFIX: string := "fracturedSky_session_"
  const DEFAULT_ZOOM: real := 1.0

  /** The fog group that always exists and cannot be deleted. */
  const EVERYONE: string := "everyone"
  const EVERYONE_NAME: string := "Everyone"
  const DM_NAME: string := "Dungeon Master"
  /** A click hits a token when its centre is at most this many pixels away. */
  const TOKEN_RADIUS: int := 30
}
