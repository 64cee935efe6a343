/** The page-level state of one participant (authority or guest): the globals
    that js/networking.js, js/tokens.js, js/canvas.js and
    js/session-persistence.js declare, plus the two pieces of the browser the
    core talks to: localStorage and the transport's outbound side. */
module Context {
  import opened Config
  import opened Model

  class Session {
    // js/networking.js
    var isDM: bool
    var myName: string            // "" stands for null
    var roomCode: string          // "" stands for null; both are falsy
    var connections: map<string, ConnectionRecord>
    var pendingRequests: seq<JoinRequest>

    // the transport: what was handed to it, and which peers' sends throw
    var outbox: seq<Outgoing>
    var unreachable: set<string>

    // js/tokens.js
    var stagingTokens: seq<Token>
    var placedTokens: seq<Token>

    // js/canvas.js
    var gridCells: map<CellKey, CellContent>
    var lockedCells: set<CellKey>
    var currentCellX: int
    var currentCellY: int
    var drawHistory: seq<set<CellKey>>  // each entry is JSON.stringify(gridCells): its keys, each mapped to {}
    var historyIndex: int
    var fogGroups: map<string, FogGroup>
    var activeFogGroup: string
    var zoom: real
    var panX: real
    var panY: real
    var gridSnapEnabled: bool
    var placedImages: seq<PlacedImage>

    // js/session-persistence.js and the browser's localStorage
    var storage: map<string, StoredItem>
    var idleTimer: Option<int>    // deadline of the pending idle-eviction timer

    /** The shared game document as one value. */
    function Game(): GameState
      reads this
    {
      GameState(gridCells, lockedCells, fogGroups, activeFogGroup, stagingTokens, placedTokens,
                placedImages, zoom, panX, panY, currentCellX, currentCellY, gridSnapEnabled)
    }

    /** A freshly loaded page: the module-level initialisers, then
        initCanvas's black fill of every fog group, over whatever localStorage
        already holds. */
    constructor (stored: map<string, StoredItem>)
      ensures !isDM && myName == "" && roomCode == ""
      ensures connections == map[] && pendingRequests == [] && outbox == [] && unreachable == {}
      ensures Game() == PageLoadState()
      ensures drawHistory == [] && historyIndex == -1
      ensures storage == stored && idleTimer == None
    {
      isDM, myName, roomCode := false, "", "";
      connections, pendingRequests := map[], [];
      outbox, unreachable := [], {};
      stagingTokens, placedTokens := [], [];
      gridCells, lockedCells := map[], {};
      currentCellX, currentCellY := 1, 1;
      drawHistory, historyIndex := [], -1;
      fogGroups := map[EVERYONE := FogGroup(EVERYONE_NAME, Some(Filled))];
      activeFogGroup := EVERYONE;
      zoom, panX, panY := DEFAULT_ZOOM, 0.0, 0.0;
      gridSnapEnabled := true;
      placedImages := [];
      storage, idleTimer := stored, None;
    }
  }

  /** The game document of a loaded page: the module-level initialisers,
      whose only fog group "everyone" has no canvas yet, after initCanvas has
      given every fog group a fully black mask. */
  function PageLoadState(): (g: GameState)
    ensures g.gridCells == map[] && g.lockedCells == {} && g.placedImages == []
    ensures g.stagingTokens == [] && g.placedTokens == []
    ensures g.fogGroups.Keys == {EVERYONE} && g.activeFogGroup == EVERYONE
    ensures forall grp :: grp in g.fogGroups ==> g.fogGroups[grp].mask == Some(Filled)
    ensures FogOk(g.fogGroups, g.activeFogGroup)
  {
    GameState(map[], {}, map[EVERYONE := FogGroup(EVERYONE_NAME, Some(Filled))], EVERYONE, [], [], [],
              DEFAULT_ZOOM, 0.0, 0.0, 1, 1, true)
  }
}
