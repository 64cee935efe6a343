/** The values the tabletop core passes around: the shared game document,
    stored and transferred snapshots, wire messages and connection records.
    Rasters (canvases, data URLs) are opaque values. */
module Model {
  import opened Config

  datatype Option<+T> = None | Some(value: T)

  /** `x ?? d`; also `x || d` for values JavaScript always treats as truthy
      (arrays and objects), where only an absent value falls back. */
  function OrElse<T>(o: Option<T>, default: T): T {
    match o
    case Some(v) => v
    case None => default
  }

  /** `x || d` on a number: 0 is falsy and falls back too. */
  function IntOr(o: Option<int>, default: int): int {
    if o.Some? && o.value != 0 then o.value else default
  }

  /** `x || d` on a floating-point number, 0 falls back. */
  function RealOr(o: Option<real>, default: real): real {
    if o.Some? && o.value != 0.0 then o.value else default
  }

  /** `x || d` on a string: the empty string falls back. */
  function StringOr(o: Option<string>, default: string): string {
    if o.Some? && o.value != "" then o.value else default
  }

  /** Pixel content, kept opaque: fully transparent, fully black, or some
      other picture identified by its data URL. */
  datatype Raster = Blank | Filled | Drawn(dataUrl: string)

  /** The cell at column x, row y; the source spells its key "x,y". */
  datatype CellKey = CellKey(x: int, y: int)

  /** A value of `gridCells`: a canvas, or the plain object `{}` that
      JSON.parse gives back for a stringified canvas. */
  datatype CellContent = Canvas(pixels: Raster) | PlainObject

  /** A fog layer: its display name and its mask canvas (None while null). */
  datatype FogGroup = FogGroup(name: string, mask: Option<Raster>)

  datatype Token = Token(id: int, emoji: string, color: string, owner: string,
                         x: int, y: int, placed: bool)

  datatype PlacedImage = PlacedImage(src: string, x: int, y: int, width: int, height: int,
                                     rotation: int, gridX: Option<int>, gridY: Option<int>)

  /** A fog group as serialised: name and mask data URL (None for null). */
  datatype SavedFog = SavedFog(name: string, canvasData: Option<Raster>)

  /** The parsed JSON of a stored, exported or transferred session. Fields that
      the readers default with `||` may be missing; a missing `gridCells` or
      `fogGroups` iterates like an empty object, so those are plain maps. */
  datatype SessionData = SessionData(
    gridCells: map<CellKey, Raster>,
    lockedCells: Option<set<CellKey>>,
    fogGroups: map<string, SavedFog>,
    activeFogGroup: Option<string>,
    stagingTokens: Option<seq<Token>>,
    placedTokens: Option<seq<Token>>,
    placedImages: Option<seq<PlacedImage>>,
    zoom: Option<real>,
    panX: Option<real>,
    panY: Option<real>,
    currentCellX: Option<int>,
    currentCellY: Option<int>,
    gridSnapEnabled: Option<bool>,
    timestamp: Option<int>)

  /** The shared game document held by one participant. */
  datatype GameState = GameState(
    gridCells: map<CellKey, CellContent>,
    lockedCells: set<CellKey>,
    fogGroups: map<string, FogGroup>,
    activeFogGroup: string,
    stagingTokens: seq<Token>,
    placedTokens: seq<Token>,
    placedImages: seq<PlacedImage>,
    zoom: real,
    panX: real,
    panY: real,
    currentCellX: int,
    currentCellY: int,
    gridSnapEnabled: bool)

  /** The fog table's invariant: "everyone" exists and the active group is a key. */
  predicate FogOk(fogGroups: map<string, FogGroup>, activeFogGroup: string) {
    EVERYONE in fogGroups && activeFogGroup in fogGroups
  }

  /** What the authority keeps per connected peer. */
  datatype ConnectionRecord = ConnectionRecord(name: string, role: string, approved: bool)

  /** A pending join: the peer id the guest claims, its name, the peer id of
      the connection it arrived on, and when. */
  datatype JoinRequest = JoinRequest(peerId: string, name: string, conn: string, timestamp: int)

  /** Messages exchanged over a data connection, by their `type` field. */
  datatype Message =
    | PlayerJoinRequest(peerId: string, name: string)
    | PlayerJoinApproved(playerName: string, gameState: Option<SessionData>)
    | PlayerJoinDenied(reason: string)
    | TokenPlace(token: Token)
    | TokenMove(tokenId: int, x: int, y: int)
    | TokenRemove(removedId: int)
    | GridUpdate(gridData: map<CellKey, Raster>)
    | FogUpdate(fogData: map<string, Raster>)
    | FullStateSync(state: SessionData)
    | ZoomPanUpdate(zoom: real, panX: real, panY: real)
    | CellLock(key: CellKey, locked: bool)
    | ClearTokens
    | ClearImages
    | ImagePlace(image: PlacedImage)
    | Unrecognised(kind: string)

  /** What this participant hands to the transport: a send (and whether it
      went through or threw), or the closing of a connection. */
  datatype Outgoing = Send(to: string, msg: Message, delivered: bool) | Close(to: string)

  /** A localStorage value: JSON that parses to a session, or text that does not. */
  datatype StoredItem = Json(data: SessionData) | Unparseable(text: string)
}
