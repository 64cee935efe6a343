/** js/session-persistence.js: saving the game to localStorage and reading it
    back with expiry, the authority's rejoin guards, restoring a snapshot
    wholesale versus merging a transferred one, the idle-eviction timer, and
    the initial game state. */
module Persistence {
  import opened Config
  import opened Model
  import opened Text
  import opened Context
  import opened Fanout
  import Canvas

  /** The localStorage key of a session. */
  function StorageKey(sessionId: string): string {
    STORAGE_KEY_PREFIX + sessionId
  }

  // ---------------------------------------------------------------------
  // Snapshots: capture, transfer, restore, merge
  // ---------------------------------------------------------------------

  /** Each fog group as serialised: its name and mask (null stays null). */
  function FogPayload(fogGroups: map<string, FogGroup>): map<string, SavedFog> {
    map g | g in fogGroups :: SavedFog(fogGroups[g].name, fogGroups[g].mask)
  }

  /** The image records getFullGameState sends: without gridX and gridY. */
  function WithoutGridPosition(images: seq<PlacedImage>): (r: seq<PlacedImage>)
    ensures |r| == |images|
    ensures forall i :: 0 <= i < |r| ==> r[i] == images[i].(gridX := None, gridY := None)
  {
    seq(|images|, i requires 0 <= i < |images| => images[i].(gridX := None, gridY := None))
  }

  /** The object saveSessionData stores (before JSON.stringify). Cells whose
      value has no toDataURL are skipped. */
  function Capture(g: GameState, now: int): SessionData {
    SessionData(Canvas.GridPayload(g.gridCells), Some(g.lockedCells), FogPayload(g.fogGroups),
                Some(g.activeFogGroup), Some(g.stagingTokens), Some(g.placedTokens),
                Some(g.placedImages), Some(g.zoom), Some(g.panX), Some(g.panY),
                Some(g.currentCellX), Some(g.currentCellY), Some(g.gridSnapEnabled), Some(now))
  }

  /** getFullGameState(): the projection sent to a newly approved guest. It
      carries no cursor, no snap flag and no timestamp. */
  function FullGameState(g: GameState): SessionData {
    SessionData(Canvas.GridPayload(g.gridCells), Some(g.lockedCells), FogPayload(g.fogGroups),
                Some(g.activeFogGroup), Some(g.stagingTokens), Some(g.placedTokens),
                Some(WithoutGridPosition(g.placedImages)), Some(g.zoom), Some(g.panX), Some(g.panY),
                None, None, None, None)
  }

  /** A fog group rebuilt from its serialised form; `missing` is what a fresh
      canvas holds when there is no mask data. */
  function DecodedFog(saved: SavedFog, missing: Raster): FogGroup {
    FogGroup(saved.name, Some(OrElse(saved.canvasData, missing)))
  }

  /** restoreGameState(data): every field replaced from the data, with the
      `||` defaults of the source. Fog groups without mask data come back
      fully hidden. */
  function Restore(d: SessionData): GameState {
    GameState(
      map k | k in d.gridCells :: Canvas(d.gridCells[k]),
      OrElse(d.lockedCells, {}),
      map g | g in d.fogGroups :: DecodedFog(d.fogGroups[g], Filled),
      StringOr(d.activeFogGroup, EVERYONE),
      OrElse(d.stagingTokens, []),
      OrElse(d.placedTokens, []),
      OrElse(d.placedImages, []),
      RealOr(d.zoom, DEFAULT_ZOOM),
      RealOr(d.panX, 0.0),
      RealOr(d.panY, 0.0),
      IntOr(d.currentCellX, 1),
      IntOr(d.currentCellY, 1),
      OrElse(d.gridSnapEnabled, true))
  }

  /** loadFullGameState(data) applied to g: cells and fog groups in the data
      are written over g's, others survive; a group without mask data gets a
      fresh, transparent canvas; images are replaced only when the data has
      them (without their grid position); cursor and snap flag are untouched. */
  function MergeFull(g: GameState, d: SessionData): GameState {
    GameState(
      g.gridCells + map k | k in d.gridCells :: Canvas(d.gridCells[k]),
      OrElse(d.lockedCells, {}),
      g.fogGroups + map grp | grp in d.fogGroups :: DecodedFog(d.fogGroups[grp], Blank),
      StringOr(d.activeFogGroup, EVERYONE),
      OrElse(d.stagingTokens, []),
      OrElse(d.placedTokens, []),
      if d.placedImages.Some? then WithoutGridPosition(d.placedImages.value) else g.placedImages,
      RealOr(d.zoom, DEFAULT_ZOOM),
      RealOr(d.panX, 0.0),
      RealOr(d.panY, 0.0),
      g.currentCellX, g.currentCellY, g.gridSnapEnabled)
  }

  /** The states whose board and fog a snapshot carries in full: every cell
      holds a canvas, every fog group has a mask, and the active group is not
      the empty string that `||` replaces. */
  predicate Shareable(g: GameState) {
    && (forall k :: k in g.gridCells ==> g.gridCells[k].Canvas?)
    && (forall grp :: grp in g.fogGroups ==> g.fogGroups[grp].mask.Some?)
    && g.activeFogGroup != ""
  }

  /** The states whose snapshot restores to themselves: shareable, and no
      other field sits on a value that `||` treats as missing. */
  predicate RoundTrips(g: GameState) {
    Shareable(g) && g.zoom != 0.0 && g.currentCellX != 0 && g.currentCellY != 0
  }

  /** Decoding the grid payload gives the grid back when every cell holds a
      canvas. */
  lemma GridPayloadRoundTrip(cells: map<CellKey, CellContent>)
    requires forall k :: k in cells ==> cells[k].Canvas?
    ensures (map k | k in Canvas.GridPayload(cells) :: Canvas(Canvas.GridPayload(cells)[k])) == cells
  {
    var back := map k | k in Canvas.GridPayload(cells) :: Canvas(Canvas.GridPayload(cells)[k]);
    forall k | k in cells ensures k in back && back[k] == cells[k] {
      assert cells[k] == Canvas(cells[k].pixels);
    }
  }

  /** Decoding the fog payload gives the table back when every group has a
      mask; what a missing mask would become then never matters. */
  lemma FogPayloadRoundTrip(fogGroups: map<string, FogGroup>, missing: Raster)
    requires forall g :: g in fogGroups ==> fogGroups[g].mask.Some?
    ensures (map g | g in FogPayload(fogGroups) :: DecodedFog(FogPayload(fogGroups)[g], missing)) == fogGroups
  {
    var back := map g | g in FogPayload(fogGroups) :: DecodedFog(FogPayload(fogGroups)[g], missing);
    forall g | g in fogGroups ensures g in back && back[g] == fogGroups[g] {
      assert fogGroups[g].mask == Some(fogGroups[g].mask.value);
    }
  }

  /** Saving then restoring gives back the saved state, for every state
      outside the `||` pitfalls. */
  lemma RestoreCaptureRoundTrip(g: GameState, now: int)
    requires RoundTrips(g)
    ensures Restore(Capture(g, now)) == g
  {
    GridPayloadRoundTrip(g.gridCells);
    FogPayloadRoundTrip(g.fogGroups, Filled);
  }

  /** Where the round trip fails: a cursor coordinate 0 comes back as 1, a zoom
      of 0 as DEFAULT_ZOOM and an empty active group as "everyone"; a saved
      `gridSnapEnabled = false` survives. */
  lemma RestoreCaptureDefaults(g: GameState, now: int)
    ensures g.currentCellX == 0 ==> Restore(Capture(g, now)).currentCellX == 1
    ensures g.currentCellY == 0 ==> Restore(Capture(g, now)).currentCellY == 1
    ensures g.zoom == 0.0 ==> Restore(Capture(g, now)).zoom == DEFAULT_ZOOM
    ensures g.activeFogGroup == "" ==> Restore(Capture(g, now)).activeFogGroup == EVERYONE
    ensures Restore(Capture(g, now)).gridSnapEnabled == g.gridSnapEnabled
  {
  }

  /** Restoring a snapshot of a state that keeps the fog invariant keeps it. */
  lemma RestoreKeepsFogOk(g: GameState, now: int)
    requires FogOk(g.fogGroups, g.activeFogGroup)
    ensures var r := Restore(Capture(g, now)); FogOk(r.fogGroups, r.activeFogGroup)
  {
  }

  /** What a guest that merges the approval snapshot shares with the
      authority: tokens, locks, every drawn cell and every fog mask, whatever
      the guest held before; the images in order, equal but for their grid
      position; the pan, and the zoom unless it is 0; and the fog invariant
      when the authority had it. */
  lemma JoinSnapshotReplicates(auth: GameState, guest: GameState)
    ensures var r := MergeFull(guest, FullGameState(auth));
      && r.placedTokens == auth.placedTokens && r.stagingTokens == auth.stagingTokens
      && r.lockedCells == auth.lockedCells
      && (forall k :: k in auth.gridCells && auth.gridCells[k].Canvas? ==> r.gridCells[k] == auth.gridCells[k])
      && (forall grp :: grp in auth.fogGroups && auth.fogGroups[grp].mask.Some? ==> r.fogGroups[grp] == auth.fogGroups[grp])
      && (forall grp :: grp in auth.fogGroups ==> r.fogGroups[grp].name == auth.fogGroups[grp].name)
      && (auth.activeFogGroup != "" ==> r.activeFogGroup == auth.activeFogGroup)
      && |r.placedImages| == |auth.placedImages|
      && (forall i :: 0 <= i < |r.placedImages| ==>
            r.placedImages[i].(gridX := auth.placedImages[i].gridX, gridY := auth.placedImages[i].gridY) == auth.placedImages[i] &&
            r.placedImages[i].gridX.None? && r.placedImages[i].gridY.None?)
      && r.panX == auth.panX && r.panY == auth.panY
      && (auth.zoom != 0.0 ==> r.zoom == auth.zoom)
      && (FogOk(auth.fogGroups, auth.activeFogGroup) ==> FogOk(r.fogGroups, r.activeFogGroup))
  {
    var r := MergeFull(guest, FullGameState(auth));
    forall k | k in auth.gridCells && auth.gridCells[k].Canvas?
      ensures r.gridCells[k] == auth.gridCells[k]
    {
      assert k in Canvas.GridPayload(auth.gridCells);
    }
  }

  /** A guest fresh from page load that merges the approval snapshot holds the
      authority's grid and fog table exactly, when the authority's cells all
      hold canvases and its groups (which include "everyone") all have masks;
      its cursor and zoom play no part. */
  lemma FreshGuestMatchesAuthority(auth: GameState)
    requires Shareable(auth) && EVERYONE in auth.fogGroups
    ensures var r := MergeFull(PageLoadState(), FullGameState(auth));
      r.gridCells == auth.gridCells && r.fogGroups == auth.fogGroups &&
      r.activeFogGroup == auth.activeFogGroup && r.lockedCells == auth.lockedCells &&
      r.placedTokens == auth.placedTokens && r.stagingTokens == auth.stagingTokens
  {
    GridPayloadRoundTrip(auth.gridCells);
    FogPayloadRoundTrip(auth.fogGroups, Blank);
    var loaded := PageLoadState();
    assert loaded.gridCells + auth.gridCells == auth.gridCells;
    assert loaded.fogGroups + auth.fogGroups == auth.fogGroups;
  }

  /** initializeGameState(): empty board, one fully hidden "everyone" group
      that is active, cursor (1, 1), snapping on. */
  function Initial(): (g: GameState)
    ensures g.gridCells == map[] && g.lockedCells == {} && g.placedImages == []
    ensures g.stagingTokens == [] && g.placedTokens == []
    ensures g.fogGroups.Keys == {EVERYONE} && g.activeFogGroup == EVERYONE
    ensures g.fogGroups[EVERYONE] == FogGroup(EVERYONE_NAME, Some(Filled))
    ensures FogOk(g.fogGroups, g.activeFogGroup)
    ensures g.zoom == DEFAULT_ZOOM && g.panX == 0.0 && g.panY == 0.0
    ensures g.currentCellX == 1 && g.currentCellY == 1 && g.gridSnapEnabled
  {
    GameState(map[], {}, map[EVERYONE := FogGroup(EVERYONE_NAME, Some(Filled))], EVERYONE,
              [], [], [], DEFAULT_ZOOM, 0.0, 0.0, 1, 1, true)
  }

  /** initializeGameState() puts the game document back where a freshly
      loaded page has it. */
  lemma InitialIsPageLoad()
    ensures Initial() == PageLoadState()
  {
  }

  // ---------------------------------------------------------------------
  // localStorage
  // ---------------------------------------------------------------------

  /** The storage after saveSessionData at time now: only an authority with a
      room code writes, and it overwrites exactly its own key. */
  function AfterSave(p: Session, stored: map<string, StoredItem>, now: int): map<string, StoredItem>
    reads p
  {
    if p.isDM && p.roomCode != "" then stored[StorageKey(p.roomCode) := Json(Capture(p.Game(), now))]
    else stored
  }

  /** saveSessionData(). */
  method SaveSessionData(p: Session, now: int)
    modifies p`storage
    ensures p.storage == AfterSave(p, old(p.storage), now)
    ensures !p.isDM || p.roomCode == "" ==> p.storage == old(p.storage)
    ensures p.isDM && p.roomCode != "" ==>
              p.storage.Keys == old(p.storage).Keys + {StorageKey(p.roomCode)} &&
              p.storage[StorageKey(p.roomCode)] == Json(Capture(p.Game(), now)) &&
              forall k :: k in old(p.storage) && k != StorageKey(p.roomCode) ==> p.storage[k] == old(p.storage)[k]
  {
    if !p.isDM || p.roomCode == "" {
      return;
    }
    p.storage := p.storage[StorageKey(p.roomCode) := Json(Capture(p.Game(), now))];
  }

  /** The tail of every authority-side edit: `if (isDM) { broadcastToPlayers(msg);
      saveSessionData(); }`. */
  method Publish(p: Session, msg: Message, now: int)
    modifies p`outbox, p`storage
    ensures p.isDM ==> Broadcasted(old(p.outbox), p.outbox, p.connections, p.unreachable, msg)
    ensures !p.isDM ==> p.outbox == old(p.outbox)
    ensures p.storage == AfterSave(p, old(p.storage), now)
  {
    if p.isDM {
      BroadcastToPlayers(p, msg);
      SaveSessionData(p, now);
    }
  }

  /** A snapshot older than SESSION_TIMEOUT; one exactly that old is not. A
      missing timestamp gives a NaN age, which compares false. */
  predicate Expired(d: SessionData, now: int) {
    d.timestamp.Some? && now - d.timestamp.value > SESSION_TIMEOUT
  }

  /** loadSessionData(sessionId). */
  method LoadSessionData(p: Session, sessionId: string, now: int) returns (r: Option<SessionData>)
    modifies p`storage
    ensures var key := StorageKey(sessionId);
      && (key !in old(p.storage) || old(p.storage)[key].Unparseable? ==>
            r == None && p.storage == old(p.storage))
      && (key in old(p.storage) && old(p.storage)[key].Json? && Expired(old(p.storage)[key].data, now) ==>
            r == None && p.storage == old(p.storage) - {key})
      && (key in old(p.storage) && old(p.storage)[key].Json? && !Expired(old(p.storage)[key].data, now) ==>
            r == Some(old(p.storage)[key].data) && p.storage == old(p.storage))
  {
    var key := StorageKey(sessionId);
    if key !in p.storage {
      return None;
    }
    match p.storage[key]
    case Unparseable(_) =>
      // JSON.parse throws, or the text is empty: caught, null
      r := None;
    case Json(session) =>
      if Expired(session, now) {
        p.storage := p.storage - {key};
        r := None;
      } else {
        r := Some(session);
      }
  }

  /** A ten-minute-old snapshot loads; one exactly SESSION_TIMEOUT old loads;
      one a millisecond older does not. */
  lemma ExpiryBoundary(d: SessionData, t0: int)
    requires d.timestamp == Some(t0)
    ensures !Expired(d, t0 + 10 * 60 * 1000)
    ensures !Expired(d, t0 + SESSION_TIMEOUT)
    ensures Expired(d, t0 + SESSION_TIMEOUT + 1)
  {
  }

  datatype Credentials = Credentials(username: string, password: string)

  datatype RejoinOutcome =
    | InvalidCredentials
    | SessionNotFound
    | Rejoining(sessionId: string, data: SessionData)

  /** The guards of dmRejoin: the credential check, then the lookup of the
      trimmed session id. What follows a successful lookup (a delayed
      reconnection through the transport) is not part of this model. */
  method DmRejoin(p: Session, expected: Credentials, user: string, pass: string, sessionIdInput: string, now: int)
    returns (r: RejoinOutcome)
    modifies p`storage
    ensures user != expected.username || pass != expected.password ==>
              r == InvalidCredentials && p.storage == old(p.storage)
    ensures var key := StorageKey(Trim(sessionIdInput));
      user == expected.username && pass == expected.password ==>
        && (key !in old(p.storage) || old(p.storage)[key].Unparseable? ==>
              r == SessionNotFound && p.storage == old(p.storage))
        && (key in old(p.storage) && old(p.storage)[key].Json? && Expired(old(p.storage)[key].data, now) ==>
              r == SessionNotFound && p.storage == old(p.storage) - {key})
        && (key in old(p.storage) && old(p.storage)[key].Json? && !Expired(old(p.storage)[key].data, now) ==>
              r == Rejoining(Trim(sessionIdInput), old(p.storage)[key].data) && p.storage == old(p.storage))
  {
    var sessionId := Trim(sessionIdInput);
    if user != expected.username || pass != expected.password {
      return InvalidCredentials;
    }
    var sessionData := LoadSessionData(p, sessionId, now);
    if sessionData.None? {
      return SessionNotFound;
    }
    r := Rejoining(sessionId, sessionData.value);
  }

  // ---------------------------------------------------------------------
  // Restoring and merging into the live state
  // ---------------------------------------------------------------------

  /** The fog loop of restoreGameState and loadFullGameState. */
  method WriteFogGroups(p: Session, groups: map<string, SavedFog>, missing: Raster)
    modifies p`fogGroups
    ensures p.fogGroups == old(p.fogGroups) + map g | g in groups :: DecodedFog(groups[g], missing)
  {
    var todo := groups.Keys;
    while todo != {}
      invariant todo <= groups.Keys
      invariant p.fogGroups == old(p.fogGroups) + map g | g in groups.Keys - todo :: DecodedFog(groups[g], missing)
      decreases todo
    {
      var group :| group in todo;
      p.fogGroups := p.fogGroups[group := DecodedFog(groups[group], missing)];
      todo := todo - {group};
    }
  }

  /** The plain assignments restoreGameState and loadFullGameState share:
      every field of g except the grid, the fog table, the cursor and the
      snap flag. */
  method AssignFields(p: Session, g: GameState)
    modifies p`placedImages, p`lockedCells, p`stagingTokens, p`placedTokens, p`activeFogGroup,
             p`zoom, p`panX, p`panY
    ensures p.placedImages == g.placedImages && p.lockedCells == g.lockedCells
    ensures p.stagingTokens == g.stagingTokens && p.placedTokens == g.placedTokens
    ensures p.activeFogGroup == g.activeFogGroup
    ensures p.zoom == g.zoom && p.panX == g.panX && p.panY == g.panY
  {
    p.placedImages, p.lockedCells := g.placedImages, g.lockedCells;
    p.stagingTokens, p.placedTokens := g.stagingTokens, g.placedTokens;
    p.activeFogGroup := g.activeFogGroup;
    p.zoom, p.panX, p.panY := g.zoom, g.panX, g.panY;
  }

  /** restoreGameState(sessionData): no cell, group or image of the previous
      state survives. */
  method RestoreGameState(p: Session, data: SessionData)
    modifies p`gridCells, p`fogGroups, p`placedImages, p`lockedCells, p`stagingTokens,
             p`placedTokens, p`activeFogGroup, p`zoom, p`panX, p`panY,
             p`currentCellX, p`currentCellY, p`gridSnapEnabled
    ensures p.Game() == Restore(data)
  {
    var target := Restore(data);
    p.gridCells := map[];
    Canvas.WriteCells(p, data.gridCells);
    assert p.gridCells == target.gridCells;
    p.fogGroups := map[];
    WriteFogGroups(p, data.fogGroups, Filled);
    assert p.fogGroups == target.fogGroups;
    AssignFields(p, target);
    p.currentCellX, p.currentCellY := target.currentCellX, target.currentCellY;
    p.gridSnapEnabled := target.gridSnapEnabled;
  }

  /** loadFullGameState(data): merges into the current state. */
  method LoadFullGameState(p: Session, data: SessionData)
    modifies p`gridCells, p`fogGroups, p`placedImages, p`lockedCells, p`stagingTokens,
             p`placedTokens, p`activeFogGroup, p`zoom, p`panX, p`panY
    ensures p.Game() == MergeFull(old(p.Game()), data)
    ensures FogOk(old(p.fogGroups), old(p.activeFogGroup)) &&
            (data.activeFogGroup.Some? && data.activeFogGroup.value != "" ==> data.activeFogGroup.value in data.fogGroups)
            ==> FogOk(p.fogGroups, p.activeFogGroup)
  {
    var target := MergeFull(p.Game(), data);
    Canvas.WriteCells(p, data.gridCells);
    assert p.gridCells == target.gridCells;
    WriteFogGroups(p, data.fogGroups, Blank);
    assert p.fogGroups == target.fogGroups;
    AssignFields(p, target);
  }

  /** initializeGameState(). */
  method InitializeGameState(p: Session)
    modifies p`gridCells, p`fogGroups, p`placedImages, p`lockedCells, p`stagingTokens,
             p`placedTokens, p`activeFogGroup, p`zoom, p`panX, p`panY,
             p`currentCellX, p`currentCellY, p`gridSnapEnabled
    ensures p.Game() == Initial()
  {
    p.gridCells, p.lockedCells := map[], {};
    p.stagingTokens, p.placedTokens, p.placedImages := [], [], [];
    p.fogGroups := map[EVERYONE := FogGroup(EVERYONE_NAME, Some(Filled))];
    p.activeFogGroup := EVERYONE;
    p.zoom, p.panX, p.panY := DEFAULT_ZOOM, 0.0, 0.0;
    p.currentCellX, p.currentCellY := 1, 1;
    p.gridSnapEnabled := true;
  }

  // ---------------------------------------------------------------------
  // Idle eviction
  // ---------------------------------------------------------------------

  /** startSessionTimeout(): cancels any pending timer and starts one that
      fires SESSION_TIMEOUT later, so at most one is ever pending. */
  method StartSessionTimeout(p: Session, now: int)
    modifies p`idleTimer
    ensures p.idleTimer == Some(now + SESSION_TIMEOUT)
  {
    p.idleTimer := Some(now + SESSION_TIMEOUT);
  }

  /** updateSessionTimeout(): restart the timer when an authority has no
      connection left, cancel it as soon as there is one. */
  method UpdateSessionTimeout(p: Session, now: int)
    modifies p`idleTimer
    ensures |p.connections| == 0 && p.isDM ==> p.idleTimer == Some(now + SESSION_TIMEOUT)
    ensures |p.connections| > 0 ==> p.idleTimer == None
    ensures |p.connections| == 0 && !p.isDM ==> p.idleTimer == old(p.idleTimer)
  {
    if |p.connections| == 0 && p.isDM {
      StartSessionTimeout(p, now);
    } else if |p.connections| > 0 && p.idleTimer.Some? {
      p.idleTimer := None;
    }
  }

  /** The idle timer fires: the stored snapshot is deleted only when no
      connection is left on an authority with a room code. */
  method IdleTimerFires(p: Session, now: int)
    requires p.idleTimer.Some? && p.idleTimer.value <= now
    modifies p`idleTimer, p`storage
    ensures p.idleTimer == None
    ensures |p.connections| == 0 && p.isDM && p.roomCode != "" ==>
              p.storage == old(p.storage) - {StorageKey(p.roomCode)}
    ensures !(|p.connections| == 0 && p.isDM && p.roomCode != "") ==> p.storage == old(p.storage)
  {
    p.idleTimer := None;
    if |p.connections| == 0 && p.isDM && p.roomCode != "" {
      p.storage := p.storage - {StorageKey(p.roomCode)};
    }
  }
}
