/** js/networking.js: the connection registry, the admission queue of the
    authority, the guest's side of admission, and the message dispatcher
    that routes what arrives on a data connection to the handlers of the
    other modules. */
module Networking {
  import opened Config
  import opened Model
  import opened Lists
  import opened Context
  import opened Fanout
  import opened Persistence
  import Canvas
  import Tokens
  import DmPanel

  // ---------------------------------------------------------------------
  // Connection registry
  // ---------------------------------------------------------------------

  /** The record setupConnection stores for a fresh connection. */
  const FreshRecord := ConnectionRecord("Unknown", "player", false)

  /** setupConnection(conn): registers the peer unapproved, overwriting any
      earlier record under that peer id. */
  method SetupConnection(p: Session, peer: string)
    modifies p`connections
    ensures p.connections == old(p.connections)[peer := FreshRecord]
    ensures Approved(p.connections) == Approved(old(p.connections)) - {peer}
  {
    p.connections := p.connections[peer := FreshRecord];
  }

  /** The close handler of a connection: its record goes, then the idle timer
      is brought up to date. */
  method OnConnectionClose(p: Session, peer: string, now: int)
    modifies p`connections, p`idleTimer
    ensures p.connections == old(p.connections) - {peer}
    ensures forall q :: q in old(p.connections) && q != peer ==> q in p.connections && p.connections[q] == old(p.connections)[q]
    ensures Approved(p.connections) == Approved(old(p.connections)) - {peer}
    ensures |p.connections| == 0 && p.isDM ==> p.idleTimer == Some(now + SESSION_TIMEOUT)
    ensures |p.connections| > 0 ==> p.idleTimer == None
    ensures |p.connections| == 0 && !p.isDM ==> p.idleTimer == old(p.idleTimer)
  {
    p.connections := p.connections - {peer};
    UpdateSessionTimeout(p, now);
  }

  // ---------------------------------------------------------------------
  // Admission on the authority
  // ---------------------------------------------------------------------

  /** `pendingRequests.findIndex(r => r.peerId === peerId)`. */
  function IndexOfRequest(rs: seq<JoinRequest>, peerId: string): (r: int)
    ensures -1 <= r < |rs|
    ensures r == -1 <==> forall i :: 0 <= i < |rs| ==> rs[i].peerId != peerId
    ensures 0 <= r ==> rs[r].peerId == peerId && forall i :: 0 <= i < r ==> rs[i].peerId != peerId
  {
    FirstIndex(rs, (r: JoinRequest) => r.peerId == peerId)
  }

  /** handleJoinRequest(conn, data): only the authority queues requests, and
      it queues every one, a repeated peer id included. */
  method HandleJoinRequest(p: Session, conn: string, peerId: string, name: string, now: int)
    modifies p`pendingRequests
    ensures !p.isDM ==> p.pendingRequests == old(p.pendingRequests)
    ensures p.isDM ==> p.pendingRequests == old(p.pendingRequests) + [JoinRequest(peerId, name, conn, now)]
  {
    if !p.isDM {
      return;
    }
    p.pendingRequests := p.pendingRequests + [JoinRequest(peerId, name, conn, now)];
  }

  /** The registry after approving a request that arrived on `conn`: that
      record, if there is one, takes the requested name and is approved. */
  function Admit(connections: map<string, ConnectionRecord>, conn: string, name: string): (r: map<string, ConnectionRecord>)
    ensures r.Keys == connections.Keys
    ensures forall q :: q in connections && q != conn ==> r[q] == connections[q]
    ensures conn in connections ==> r[conn] == connections[conn].(name := name, approved := true)
  {
    if conn in connections then connections[conn := connections[conn].(name := name, approved := true)]
    else connections
  }

  /** Approval adds exactly the request's connection to the approved peers,
      and only when that connection is still registered. */
  lemma AdmitApprovesOne(connections: map<string, ConnectionRecord>, conn: string, name: string)
    ensures conn in connections ==> Approved(Admit(connections, conn, name)) == Approved(connections) + {conn}
    ensures conn !in connections ==> Approved(Admit(connections, conn, name)) == Approved(connections)
  {
  }

  /** approvePlayer(peerId): an unknown peer id changes nothing. Otherwise the
      first matching request leaves the queue (the others keep their order),
      its connection's record is approved, and that connection is sent the
      approval with the current game state. */
  method ApprovePlayer(p: Session, peerId: string)
    modifies p`pendingRequests, p`connections, p`outbox
    ensures IndexOfRequest(old(p.pendingRequests), peerId) == -1 ==>
              p.pendingRequests == old(p.pendingRequests) && p.connections == old(p.connections) &&
              p.outbox == old(p.outbox)
    ensures var k := IndexOfRequest(old(p.pendingRequests), peerId);
      k != -1 ==>
        var request := old(p.pendingRequests)[k];
        && p.pendingRequests == RemoveAt(old(p.pendingRequests), k)
        && p.connections == Admit(old(p.connections), request.conn, request.name)
        && p.outbox == old(p.outbox) + [Send(request.conn, PlayerJoinApproved(request.name, Some(FullGameState(p.Game()))),
                                             request.conn !in p.unreachable)]
  {
    var requestIndex := IndexOfRequest(p.pendingRequests, peerId);
    if requestIndex == -1 {
      return;
    }
    var request := p.pendingRequests[requestIndex];
    p.pendingRequests := RemoveAt(p.pendingRequests, requestIndex);
    if request.conn in p.connections {
      var connInfo := p.connections[request.conn];
      p.connections := p.connections[request.conn := connInfo.(name := request.name, approved := true)];
    }
    SendToPeer(p, request.conn, PlayerJoinApproved(request.name, Some(FullGameState(p.Game()))));
  }

  /** The reason sent with a denial. */
  const DenialReason := "DM denied your request"

  /** denyPlayer(peerId): an unknown peer id changes nothing. Otherwise the
      first matching request leaves the queue, its connection is sent the
      denial and then closed; no record is touched. */
  method DenyPlayer(p: Session, peerId: string)
    modifies p`pendingRequests, p`outbox
    ensures IndexOfRequest(old(p.pendingRequests), peerId) == -1 ==>
              p.pendingRequests == old(p.pendingRequests) && p.outbox == old(p.outbox)
    ensures var k := IndexOfRequest(old(p.pendingRequests), peerId);
      k != -1 ==>
        var request := old(p.pendingRequests)[k];
        && p.pendingRequests == RemoveAt(old(p.pendingRequests), k)
        && p.outbox == old(p.outbox) + [Send(request.conn, PlayerJoinDenied(DenialReason), request.conn !in p.unreachable),
                                         Close(request.conn)]
  {
    var requestIndex := IndexOfRequest(p.pendingRequests, peerId);
    if requestIndex == -1 {
      return;
    }
    var request := p.pendingRequests[requestIndex];
    p.pendingRequests := RemoveAt(p.pendingRequests, requestIndex);
    SendToPeer(p, request.conn, PlayerJoinDenied(DenialReason));
    p.outbox := p.outbox + [Close(request.conn)];
  }

  /** The queue ApprovePlayer and DenyPlayer leave (RemoveAt at the first
      match) serves repeated requests of one peer id oldest first: the next
      lookup of that id finds its next request, at or after the same
      position, and finds none exactly when no later request has that id. */
  lemma {:induction false} ResolveRemovesOne(rs: seq<JoinRequest>, peerId: string)
    requires IndexOfRequest(rs, peerId) != -1
    ensures var k := IndexOfRequest(rs, peerId); var j := IndexOfRequest(RemoveAt(rs, k), peerId);
      && (j == -1 <==> forall i :: k < i < |rs| ==> rs[i].peerId != peerId)
      && (j != -1 ==> k <= j && RemoveAt(rs, k)[j] == rs[j + 1] &&
                      forall i :: k < i < j + 1 ==> rs[i].peerId != peerId)
  {
    var k := IndexOfRequest(rs, peerId);
    var r := RemoveAt(rs, k);
    var j := IndexOfRequest(r, peerId);
    if j == -1 {
      forall i | k < i < |rs| ensures rs[i].peerId != peerId {
        assert rs[i] == r[i - 1];
      }
    } else {
      forall i | k < i < j + 1 ensures rs[i].peerId != peerId {
        assert rs[i] == r[i - 1];
      }
    }
  }

  // ---------------------------------------------------------------------
  // Admission on the guest
  // ---------------------------------------------------------------------

  /** handleJoinApproved(data): takes the name it was admitted under and
      merges the game state when the message carries one. */
  method HandleJoinApproved(p: Session, name: string, gameState: Option<SessionData>)
    modifies p`myName, p`gridCells, p`fogGroups, p`placedImages, p`lockedCells, p`stagingTokens,
             p`placedTokens, p`activeFogGroup, p`zoom, p`panX, p`panY
    ensures p.myName == name
    ensures gameState.None? ==> p.Game() == old(p.Game())
    ensures gameState.Some? ==> p.Game() == MergeFull(old(p.Game()), gameState.value)
  {
    p.myName := name;
    if gameState.Some? {
      LoadFullGameState(p, gameState.value);
    }
  }

  /** The game document put back as a freshly loaded page has it. */
  method ResetGame(p: Session)
    modifies p`gridCells, p`fogGroups, p`placedImages, p`lockedCells, p`stagingTokens,
             p`placedTokens, p`activeFogGroup, p`zoom, p`panX, p`panY,
             p`currentCellX, p`currentCellY, p`gridSnapEnabled
    ensures p.Game() == PageLoadState()
  {
    var initial := PageLoadState();
    p.gridCells, p.fogGroups := initial.gridCells, initial.fogGroups;
    AssignFields(p, initial);
    p.currentCellX, p.currentCellY, p.gridSnapEnabled := initial.currentCellX, initial.currentCellY, initial.gridSnapEnabled;
  }

  /** handleJoinDenied(data): after the alert the page reloads, so every page
      global is back at its initial value; localStorage, and what was
      already handed to the transport, survive. */
  method HandleJoinDenied(p: Session)
    modifies p`gridCells, p`fogGroups, p`placedImages, p`lockedCells, p`stagingTokens,
             p`placedTokens, p`activeFogGroup, p`zoom, p`panX, p`panY,
             p`currentCellX, p`currentCellY, p`gridSnapEnabled,
             p`isDM, p`myName, p`roomCode, p`connections, p`pendingRequests,
             p`drawHistory, p`historyIndex, p`idleTimer
    ensures !p.isDM && p.myName == "" && p.roomCode == ""
    ensures p.connections == map[] && p.pendingRequests == []
    ensures p.Game() == PageLoadState()
    ensures p.drawHistory == [] && p.historyIndex == -1 && p.idleTimer == None
  {
    p.isDM, p.myName, p.roomCode := false, "", "";
    p.connections, p.pendingRequests := map[], [];
    p.drawHistory, p.historyIndex := [], -1;
    p.idleTimer := None;
    ResetGame(p);
  }

  // ---------------------------------------------------------------------
  // Dispatcher
  // ---------------------------------------------------------------------

  /** The kinds the dispatcher has no case for, and `fullStateSync`, whose
      handler does not exist (so the call throws before any change). */
  predicate Ignored(msg: Message) {
    msg.CellLock? || msg.ClearTokens? || msg.ClearImages? || msg.ImagePlace? ||
    msg.Unrecognised? || msg.FullStateSync?
  }

  /** The kinds whose handlers return at once on the authority. */
  predicate GuestOnly(msg: Message) {
    msg.TokenPlace? || msg.TokenMove? || msg.TokenRemove? || msg.GridUpdate? || msg.FogUpdate? ||
    msg.ZoomPanUpdate?
  }

  /** The dispatch of the kinds in GuestOnly: the handlers of the token,
      canvas and view modules. */
  method HandleGuestUpdate(p: Session, msg: Message)
    requires GuestOnly(msg)
    modifies p`placedTokens, p`gridCells, p`fogGroups, p`zoom, p`panX, p`panY
    ensures p.isDM ==> unchanged(p)
    ensures msg.TokenPlace? && !p.isDM ==> p.placedTokens == Tokens.Upsert(old(p.placedTokens), msg.token)
    ensures msg.TokenMove? && !p.isDM ==> p.placedTokens == Tokens.MoveTo(old(p.placedTokens), msg.tokenId, msg.x, msg.y)
    ensures msg.TokenRemove? && !p.isDM ==> p.placedTokens == Tokens.RemoveFirst(old(p.placedTokens), msg.removedId)
    ensures !(msg.TokenPlace? || msg.TokenMove? || msg.TokenRemove?) ==> p.placedTokens == old(p.placedTokens)
    ensures msg.GridUpdate? && !p.isDM ==>
              p.gridCells == old(p.gridCells) + map k | k in msg.gridData :: Canvas(msg.gridData[k])
    ensures !msg.GridUpdate? ==> p.gridCells == old(p.gridCells)
    ensures !msg.FogUpdate? ==> p.fogGroups == old(p.fogGroups)
    ensures FogOk(old(p.fogGroups), p.activeFogGroup) ==> FogOk(p.fogGroups, p.activeFogGroup)
    ensures msg.ZoomPanUpdate? && !p.isDM ==> p.zoom == msg.zoom && p.panX == msg.panX && p.panY == msg.panY
    ensures !msg.ZoomPanUpdate? ==> p.zoom == old(p.zoom) && p.panX == old(p.panX) && p.panY == old(p.panY)
  {
    match msg
    case TokenPlace(token) =>
      Tokens.HandleTokenPlace(p, token);
    case TokenMove(tokenId, x, y) =>
      Tokens.HandleTokenMove(p, tokenId, x, y);
    case TokenRemove(tokenId) =>
      Tokens.HandleTokenRemove(p, tokenId);
    case GridUpdate(gridData) =>
      Canvas.HandleGridUpdate(p, gridData);
    case FogUpdate(fogData) =>
      Canvas.HandleFogUpdate(p, fogData);
    case ZoomPanUpdate(zoom, panX, panY) =>
      DmPanel.HandleZoomPanUpdate(p, zoom, panX, panY);
  }

  /** The dispatch of the admission kinds. */
  method HandleAdmission(p: Session, from: string, msg: Message, now: int)
    requires msg.PlayerJoinRequest? || msg.PlayerJoinApproved? || msg.PlayerJoinDenied?
    modifies p`gridCells, p`fogGroups, p`placedImages, p`lockedCells, p`stagingTokens,
             p`placedTokens, p`activeFogGroup, p`zoom, p`panX, p`panY,
             p`currentCellX, p`currentCellY, p`gridSnapEnabled,
             p`isDM, p`myName, p`roomCode, p`connections, p`pendingRequests,
             p`drawHistory, p`historyIndex, p`idleTimer
    ensures msg.PlayerJoinRequest? ==>
              p.pendingRequests == old(p.pendingRequests) + (if p.isDM then [JoinRequest(msg.peerId, msg.name, from, now)] else [])
    ensures msg.PlayerJoinApproved? ==>
              p.myName == msg.playerName &&
              p.Game() == (if msg.gameState.Some? then MergeFull(old(p.Game()), msg.gameState.value) else old(p.Game()))
    ensures msg.PlayerJoinApproved? ==> p.connections == old(p.connections) && p.pendingRequests == old(p.pendingRequests)
    ensures msg.PlayerJoinDenied? ==> p.Game() == PageLoadState() && p.connections == map[] && p.pendingRequests == []
    ensures msg.PlayerJoinDenied? ==> !p.isDM && p.myName == "" && p.roomCode == ""
  {
    match msg
    case PlayerJoinRequest(peerId, name) =>
      HandleJoinRequest(p, from, peerId, name, now);
    case PlayerJoinApproved(name, gameState) =>
      HandleJoinApproved(p, name, gameState);
    case PlayerJoinDenied(_) =>
      HandleJoinDenied(p);
  }

  /** handleMessage(conn, data) for a message that arrived on the connection
      of peer `from`: the kinds in Ignored change nothing, the guest-side
      kinds go to HandleGuestUpdate (and change nothing on the authority), the
      admission kinds to HandleAdmission. Nothing dispatched writes
      localStorage or sends. */
  method HandleMessage(p: Session, from: string, msg: Message, now: int)
    modifies p`gridCells, p`fogGroups, p`placedImages, p`lockedCells, p`stagingTokens,
             p`placedTokens, p`activeFogGroup, p`zoom, p`panX, p`panY,
             p`currentCellX, p`currentCellY, p`gridSnapEnabled,
             p`isDM, p`myName, p`roomCode, p`connections, p`pendingRequests,
             p`drawHistory, p`historyIndex, p`idleTimer
    ensures p.storage == old(p.storage) && p.outbox == old(p.outbox)
    ensures Ignored(msg) ==> unchanged(p)
    ensures GuestOnly(msg) && p.isDM ==> unchanged(p)
    ensures msg.PlayerJoinRequest? ==>
              p.pendingRequests == old(p.pendingRequests) + (if p.isDM then [JoinRequest(msg.peerId, msg.name, from, now)] else [])
  {
    if Ignored(msg) {
      // no case in the switch, or a handler that does not exist
      return;
    }
    if GuestOnly(msg) {
      HandleGuestUpdate(p, msg);
    } else {
      HandleAdmission(p, from, msg, now);
    }
  }
}
