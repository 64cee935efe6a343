# Fractured Sky VTT: shared-state model

This project is a Dafny model of the bookkeeping core of the Fractured Sky
virtual tabletop, a browser application. In it one participant, the
Dungeon Master, acts as the authority and guests join over peer-to-peer
data connections. The model covers the state that the five core scripts
keep, without rendering or transport:

- **`js/networking.js`** keeps the connection registry with its `approved`
  flags and the admission queue of join requests. It handles approve and
  deny, the broadcast fan-out to approved peers, and the message dispatcher.
- **`js/tokens.js`** keeps the staging and placed token lists. It holds the
  authority's create, place, move, remove and clear operations, the guest
  handlers keyed by token id, the integer grid snap and the hit test.
- **`js/dm-panel.js`** covers the bounded grid cursor, the lock set, the
  fog-group table with its name-to-id normalisation, clearing images and the
  guest's view update.
- **`js/session-persistence.js`** saves and loads the keyed snapshot in
  localStorage, with its expiry. It also covers the rejoin guards,
  wholesale restore with the `||` defaults versus the merge of a
  transferred state, the initial state and the idle-eviction timer.
- **`js/canvas.js`** covers the drawing history with undo and redo, the
  guest merges of grid and fog updates, clearing the current cell, and the
  authority's grid and fog broadcasts.

All page globals live in one class, `Context.Session`:

- the registry, the queue and both token lists;
- the grid, the locks and the fog table;
- the history, the view and the images;
- localStorage, as a map from key to stored item;
- the pending idle timer, as an optional deadline;
- an `outbox` that records what was handed to the transport.

Each script becomes one module of methods over a `Session`. Every method
modifies only the fields that its JavaScript function assigns. Each
method's postcondition ties the new state to one of these:

- a specification function: `Restore`, `MergeFull`, `Upsert`, `MoveTo`,
  `RemoveFirst`, `Step`, `AfterSave` or `Admit`;
- the predicate `Fanout.Broadcasted`, which says the outbox gained exactly
  one send per approved peer.

Lemmas then prove what those functions promise. These include:

- the save/restore round trip;
- what a fresh guest shares with the authority after approval;
- that ids stay unique;
- the history-index invariant;
- the fog invariant: "everyone" exists and the active group is a key.

Where the code's behaviour is easy to misread, the model follows the code:

- The idle timer evicts after `SESSION_TIMEOUT` (30 minutes), although the
  messages at js/networking.js:35, js/session-persistence.js:94 and
  js/session-persistence.js:273 speak of 5 minutes.
- A snapshot exactly `SESSION_TIMEOUT` old still loads, because the
  comparison is strict `>`.
- A saved cursor coordinate of 0 comes back as 1, and a zoom of 0 comes back
  as the default.
- `handleJoinApproved` has no authority guard.
- Guests ignore `cellLock`, `clearTokens`, `clearImages` and `imagePlace`,
  because the dispatcher has no case for them.

## Model

| member | source | states |
|---|---|---|
| Lists.FirstIndex | js/networking.js:143 | `findIndex`: -1 exactly when no element matches; otherwise the index of a match with no match before it |
| Lists.RemoveAt | js/networking.js:147 | `splice(i, 1)`: one shorter, the prefix kept, the suffix shifted down by one, and the same multiset less the removed element |
| Text.TrimStart | js/session-persistence.js:84 | the leading half of `trim()`: a suffix of the input, everything dropped is white space, and the result is empty or starts with a non-white character |
| Text.TrimEnd | js/session-persistence.js:84 | the trailing half of `trim()`: a prefix of the input, everything dropped is white space, and the result is empty or ends with a non-white character |
| Text.TrimEmptyIffBlank | js/dm-panel.js:89 | `name.trim() === ''` holds exactly when every character is white space |
| Text.ToLower | js/dm-panel.js:91 | lower-casing keeps the length, turns each capital into the same letter in lower case, keeps every other character, and leaves no capital |
| Text.ReplaceSpaceRuns | js/dm-panel.js:91 | `replace(/\s+/g, '_')` leaves no white space, does not lengthen, keeps a capital-free string capital-free, and is the identity on a string without white space |
| Text.ReplaceSpaceRunsIsPieces | js/dm-panel.js:91 | the replacement equals the position-by-position reading of the regular expression: each non-white character kept in order, the first white character of each maximal run becomes one '_', the rest of the run is dropped |
| Text.GroupId | js/dm-panel.js:91 | a fog-group id is the name lower-cased with each run of white space replaced by one '_' (by that reading); it has no white space and no capitals |
| Text.GroupIdIdempotent | js/dm-panel.js:91 | normalising an id again gives the same id |
| Context.Session.constructor | js/canvas.js:9-44 | a freshly loaded page holds the module initialisers, with initCanvas's black fog fill: no role, no name, no room, an empty registry and queue, the page-load game state, an empty history at index -1, and no timer |
| Context.PageLoadState | js/canvas.js:68-77 | a loaded page has an empty board, no locks, tokens or images, and a single "everyone" group that is active; initCanvas has given it a fully black mask (the initialiser at js/canvas.js:25-28 leaves it null) |
| Fanout.FanOut | js/networking.js:201-207 | the broadcast loop sends the message exactly once to each approved peer and to nobody else; a send to an unreachable peer fails alone and the loop goes on |
| Fanout.BroadcastToPlayers | js/networking.js:201-207 | the outbox is the old outbox followed by such a fan-out |
| Fanout.SendToPeer | js/networking.js:209-215 | one send is appended; it is delivered unless that peer's transport throws |
| Canvas.UndoIndex | js/canvas.js:422-428 | undo moves the index back by at most one, never below 0 from a valid index, and moves it exactly when there is an older entry |
| Canvas.RedoIndex | js/canvas.js:430-436 | redo moves the index forward by at most one, never past the newest entry from a valid index, and moves it exactly when there is a newer entry |
| Canvas.UndoRedoKeepHistoryOk | js/canvas.js:21-22 | undo and redo preserve `(index = -1 and length = 0) or 0 <= index < length`; a redo reverses an undo that acted; after a save the index never drops below 0 |
| Canvas.Parsed | js/canvas.js:425 | a restored history entry holds exactly the recorded keys; none holds a canvas, so no cell reaches a save, and a broadcast throws unless the entry is empty |
| Canvas.SaveDrawHistory | js/canvas.js:415-420 | entries after the index are dropped, the grid's keys are appended, the index is the last position, and the invariant holds |
| Canvas.Undo | js/canvas.js:422-428 | the index becomes UndoIndex; the grid is replaced by the parsed entry only when undo acted; the invariant holds |
| Canvas.Redo | js/canvas.js:430-436 | the index becomes RedoIndex; the grid is replaced by the parsed entry only when redo acted; the invariant holds |
| Canvas.WriteCells | js/canvas.js:474-484 | the decode loop binds each named cell to a canvas holding the received picture and leaves other cells alone |
| Canvas.HandleGridUpdate | js/canvas.js:470-486 | ignored on the authority; on a guest the keys grow by the named cells, which get the received pictures, and every other cell is unchanged |
| Canvas.HandleFogUpdate | js/canvas.js:488-510 | ignored on the authority; on a guest a known group keeps its name and takes the mask, an unknown group is created named by its id, other groups are unchanged, and the fog invariant is preserved |
| Canvas.CollectGridData | js/canvas.js:441-446 | the loop throws exactly when some cell is a plain object; otherwise it collects every cell's picture |
| Canvas.CollectFogData | js/canvas.js:457-462 | the loop collects the mask of exactly the groups that have one |
| Canvas.BroadcastGridUpdate | js/canvas.js:438-452 | a guest sends nothing; the authority throws exactly when a cell is a plain object, and otherwise fans out every cell, not only changed ones |
| Canvas.BroadcastFogUpdate | js/canvas.js:454-468 | a guest sends nothing; the authority fans out the mask of every group that has one |
| Canvas.ClearCurrentCell | js/canvas.js:346-355 | a cursor cell with no entry changes nothing and sends nothing; a canvas cell is blanked and, on the authority, the whole grid is fanned out unless that throws; a guest sends nothing; no cell is ever created; throws exactly for a plain-object cell or a failing rebroadcast |
| Persistence.GridPayloadRoundTrip | js/session-persistence.js:10-15 | decoding the saved grid payload gives the grid back when every cell holds a canvas |
| Persistence.FogPayloadRoundTrip | js/session-persistence.js:17-23 | decoding the saved fog payload gives the fog table back when every group has a mask |
| Persistence.RestoreCaptureRoundTrip | js/session-persistence.js:183-258 | restoring what saveSessionData stored gives back the saved state, for every state whose cells all hold canvases, whose fog groups all have masks, and whose fields avoid the `\|\|` pitfalls; plain-object cells (left by undo or redo) are skipped by the save and lost, and a mask-less group comes back with a mask |
| Persistence.RestoreCaptureDefaults | js/session-persistence.js:249-258 | the `\|\|` pitfalls: a cursor coordinate 0 comes back as 1, zoom 0 as the default, an empty active group as "everyone", and `gridSnapEnabled = false` survives |
| Persistence.RestoreKeepsFogOk | js/session-persistence.js:201-224 | restoring a snapshot of a state with the fog invariant keeps it |
| Persistence.JoinSnapshotReplicates | js/session-persistence.js:314-421 | a guest that merges the approval snapshot has the authority's tokens, locks, drawn cells, fog masks, group names and active group, whatever it held before; its images are the authority's in order, equal but for the grid position, which is dropped; it has the pan, and the zoom unless that is 0; and it keeps the fog invariant |
| Persistence.FreshGuestMatchesAuthority | js/session-persistence.js:314-421 | a fresh guest that merges the snapshot holds the authority's grid, fog table, active group, locks and tokens exactly, whatever the authority's cursor and zoom, when its cells all hold canvases and its groups, "everyone" among them, all have masks |
| Persistence.Initial | js/session-persistence.js:287-312 | the initial state has an empty board, locks, token and image lists, a single fully hidden "everyone" group that is active, the default zoom with no pan, cursor (1, 1) and snapping on |
| Persistence.SaveSessionData | js/session-persistence.js:7-55 | a no-op unless an authority with a room code calls it; otherwise it writes exactly `STORAGE_KEY_PREFIX + roomCode`, overwriting, and every other key is unchanged |
| Persistence.Publish | js/tokens.js:100-106 | the shared tail of authority edits: an authority fans out the message and saves; a guest sends nothing and saves nothing |
| Persistence.LoadSessionData | js/session-persistence.js:57-77 | a missing or unparseable item gives null with storage untouched; an age above SESSION_TIMEOUT deletes the key and gives null; otherwise the stored snapshot is returned |
| Persistence.ExpiryBoundary | js/session-persistence.js:65 | an age of exactly SESSION_TIMEOUT is not expired; one millisecond more is |
| Persistence.DmRejoin | js/session-persistence.js:79-97 | wrong credentials stop with no state change; then a missing, unparseable or expired snapshot of the trimmed id stops (an expired one is deleted); otherwise the rejoin proceeds with the stored snapshot |
| Persistence.WriteFogGroups | js/session-persistence.js:202-224 | the fog loop binds each named group to its name and mask, with the given fill when there is no mask data |
| Persistence.AssignFields | js/session-persistence.js:249-255 | the plain field assignments take the target's values |
| Persistence.RestoreGameState | js/session-persistence.js:183-265 | the game state becomes exactly the wholesale restore of the data, so no earlier cell, group or image survives |
| Persistence.LoadFullGameState | js/session-persistence.js:353-421 | the game state becomes the merge of the data into the old state; the fog invariant survives when the data's active group is one of its groups |
| Persistence.InitialIsPageLoad | js/session-persistence.js:287-312 | initializeGameState leaves the game document exactly as a freshly loaded page has it |
| Persistence.InitializeGameState | js/session-persistence.js:287-312 | the game state becomes Initial |
| Persistence.StartSessionTimeout | js/session-persistence.js:267-276 | the single pending timer now expires SESSION_TIMEOUT from now |
| Persistence.UpdateSessionTimeout | js/session-persistence.js:278-285 | an authority with no connection restarts the timer; any connection cancels it; otherwise it is unchanged |
| Persistence.IdleTimerFires | js/session-persistence.js:270-275 | the timer deletes the stored snapshot only when an authority with a room code has no connection |
| Tokens.IndexOfId | js/tokens.js:159 | `findIndex(t => t.id === id)`: -1 when absent, otherwise the first token with that id |
| Tokens.Snap | js/tokens.js:75-76 | a snapped coordinate is the centre of the cell the input lies in: same cell, offset 600 within it, less than half a cell away |
| Tokens.SnapIdempotent | js/tokens.js:126-128 | snapping an already snapped coordinate does not move it |
| Tokens.Upsert | js/tokens.js:109-120 | the guest's place handler replaces the first token with the id in place, or appends when the id is absent |
| Tokens.MoveTo | js/tokens.js:147-156 | a move of an unknown id changes nothing; otherwise only the first matching token's coordinates change |
| Tokens.RemoveFirst | js/tokens.js:174-182 | a removal of an unknown id changes nothing; otherwise exactly the first matching token is spliced out |
| Tokens.UpsertKeepsUniqueIds | js/tokens.js:109-120 | an upsert keeps ids unique and leaves exactly the received token under its id |
| Tokens.RemoveFirstRemovesId | js/tokens.js:158-182 | removing from a list with unique ids keeps them unique and leaves no token with that id |
| Tokens.MoveToKeepsIds | js/tokens.js:122-156 | a move changes only coordinates, so the length, the ids and their uniqueness are kept |
| Tokens.PlacementReplicates | js/tokens.js:87-117 | for a token whose id is new, the guest's upsert of the broadcast token equals the authority's append, and uniqueness is kept |
| Tokens.CreateToken | js/tokens.js:10-29 | one unplaced token at (0, 0) is appended to staging; its owner is the caller's name when the argument is empty; an authority saves |
| Tokens.RemoveTokenFromStaging | js/tokens.js:61-71 | only the first token with the id leaves staging; an unknown id changes nothing and saves nothing |
| Tokens.PlaceTokenOnGrid | js/tokens.js:73-107 | the token is marked placed at the (snapped) drop point; the first staging match is removed; placed grows by exactly that token; an authority broadcasts it and saves |
| Tokens.HandleTokenPlace | js/tokens.js:109-120 | ignored on the authority; on a guest the placed list becomes the upsert |
| Tokens.SnapIf | js/tokens.js:126-132 | with snapping on, the landing coordinate is the centre of the cell the input lies in, and snapping it again does not move it; with snapping off, it is the input |
| Tokens.MoveToken | js/tokens.js:122-145 | an unknown id changes, sends and saves nothing; otherwise the token moves to the (snapped) point, and an authority broadcasts those coordinates and saves |
| Tokens.HandleTokenMove | js/tokens.js:147-156 | ignored on the authority; on a guest the token takes the coordinates as sent |
| Tokens.RemoveToken | js/tokens.js:158-172 | the first match is removed; only a removal that happened on the authority is broadcast and saved |
| Tokens.HandleTokenRemove | js/tokens.js:174-182 | ignored on the authority; on a guest the first match is removed |
| Tokens.GetTokenAtPosition | js/tokens.js:212-223 | null exactly when no placed token is within TOKEN_RADIUS; otherwise the hit token with no hit token after it in the list |
| Tokens.ClearAllTokens | js/tokens.js:268-280 | unconfirmed changes nothing; confirmed empties both lists, and an authority broadcasts the clear and saves |
| Tokens.ToggleGridSnap | js/tokens.js:282-294 | the snap flag flips; an authority saves |
| DmPanel.Step | js/dm-panel.js:26-44 | a cursor on the board stays on it; an arrow changes one coordinate by at most one, in its direction; "center" gives (1, 1); an unknown direction changes nothing |
| DmPanel.StepOpposite | js/dm-panel.js:26-44 | an arrow move the edge did not block is undone by the opposite arrow |
| DmPanel.NavigateGrid | js/dm-panel.js:26-53 | the cursor moves as Step says, and an authority saves even for an unknown direction |
| DmPanel.LockCurrentCell | js/dm-panel.js:55-69 | the cursor's key joins the lock set and nothing else changes; an authority broadcasts that key with `locked = true` and saves |
| DmPanel.UnlockCurrentCell | js/dm-panel.js:71-85 | the cursor's key leaves the lock set and nothing else changes; an authority broadcasts that key with `locked = false` and saves |
| DmPanel.LockUnlock | js/dm-panel.js:55-73 | lock then unlock leaves the key absent and every other lock as it was |
| DmPanel.CreateFogGroup | js/dm-panel.js:87-115 | a cancelled or blank name, or an existing id, changes nothing; otherwise one fully hidden group is added under the normalised id with the original name; the fog invariant is preserved |
| DmPanel.AddFogGroup | js/dm-panel.js:98-114 | the new group is bound under its id, and an authority saves |
| DmPanel.SwitchFogGroup | js/dm-panel.js:117-127 | an unknown id changes nothing; a known id becomes active; the fog invariant is preserved |
| DmPanel.DeleteFogGroup | js/dm-panel.js:129-149 | "everyone", an unknown id or an unconfirmed delete change nothing; otherwise exactly that group goes, the active group falls back to "everyone" when it was the one deleted, and the fog invariant is preserved |
| DmPanel.RepaintFogGroup | js/dm-panel.js:181-210 | an unknown id changes nothing; a group without a canvas throws before any change; otherwise only that mask changes, and an authority broadcasts every mask and saves |
| DmPanel.ClearFogGroup | js/dm-panel.js:181-194 | the group's mask becomes fully transparent, under RepaintFogGroup's cases |
| DmPanel.ResetFogGroup | js/dm-panel.js:196-210 | the group's mask becomes fully black, under RepaintFogGroup's cases |
| DmPanel.ClearAllImages | js/dm-panel.js:262-272 | unconfirmed changes nothing; confirmed empties the image list, and an authority broadcasts and saves |
| DmPanel.HandleZoomPanUpdate | js/dm-panel.js:309-322 | ignored on the authority; on a guest the view is taken as sent |
| Networking.SetupConnection | js/networking.js:52-60 | an unapproved record ("Unknown", "player") is stored under the peer, overwriting any earlier one, so that peer is no longer approved |
| Networking.OnConnectionClose | js/networking.js:64-69 | exactly that peer's record goes, others are unchanged, and the idle timer is brought up to date |
| Networking.IndexOfRequest | js/networking.js:143 | -1 when no request has the peer id, otherwise the first that does |
| Networking.HandleJoinRequest | js/networking.js:125-140 | a guest changes nothing; the authority appends exactly one request, even for a peer id already queued |
| Networking.Admit | js/networking.js:149-154 | only the request's connection record, if present, takes the name and is approved; no record is added |
| Networking.AdmitApprovesOne | js/networking.js:149-154 | the approved peers grow by exactly the request's connection, and only when it is registered |
| Networking.ApprovePlayer | js/networking.js:142-166 | an unknown peer id changes nothing; otherwise the first match leaves the queue, its connection is admitted, and that connection is sent the approval with the full game state |
| Networking.DenyPlayer | js/networking.js:168-182 | an unknown peer id changes nothing; otherwise the first match leaves the queue, no record changes, and its connection is sent the denial and then closed |
| Networking.ResolveRemovesOne | js/networking.js:143-147 | the queue left by approving or denying serves repeated requests of one peer id oldest first: the next lookup finds that peer's next request, and finds none exactly when no later request has that id |
| Networking.HandleJoinApproved | js/networking.js:184-194 | the guest takes its admitted name and merges the game state when the message carries one |
| Networking.ResetGame | js/canvas.js:9-44 | the game document is back at its page-load values |
| Networking.HandleJoinDenied | js/networking.js:196-199 | after the reload every page global is back at its initial value; storage and what was already sent survive |
| Networking.HandleGuestUpdate | js/networking.js:92-118 | on the authority nothing changes; on a guest each kind becomes its handler's reference edit; fields of other kinds are unchanged; the fog invariant is preserved |
| Networking.HandleAdmission | js/networking.js:80-90 | a join request queues on the authority only; an approval sets the name and merges; a denial reloads the page |
| Networking.HandleMessage | js/networking.js:76-123 | kinds with no case, and `fullStateSync`, change nothing; guest-side kinds change nothing on the authority; nothing dispatched writes storage or sends |

## Left out

- Rendering and the DOM are left out: drawing, token and fog-group lists, user lists, status lines, zoom slider updates and notifications.
- `draw()` calls `drawImage` on every on-board cell (js/canvas.js:112-113). That throws for a plain-object cell, such as undo and redo leave behind. The handlers below call `draw()` after their state edit and before they broadcast or save; their models state the edit and then always go on.
- DmPanel.NavigateGrid: does not model the throw of `draw()` at js/dm-panel.js:47, which skips the save when an on-board cell is a plain object.
- DmPanel.LockCurrentCell: does not model the throw of `draw()` at js/dm-panel.js:59, which skips the broadcast and save when an on-board cell is a plain object.
- DmPanel.UnlockCurrentCell: does not model the throw of `draw()` at js/dm-panel.js:75, which skips the broadcast and save when an on-board cell is a plain object.
- DmPanel.SwitchFogGroup: does not model the throw of `draw()` at js/dm-panel.js:122, which skips the save when an on-board cell is a plain object.
- DmPanel.DeleteFogGroup: does not model the throw of `draw()` at js/dm-panel.js:144, which skips the save when an on-board cell is a plain object.
- DmPanel.ClearFogGroup: does not model the throw of `draw()` at js/dm-panel.js:188, which skips the broadcast and save when an on-board cell is a plain object.
- DmPanel.ResetFogGroup: does not model the throw of `draw()` at js/dm-panel.js:204, which skips the broadcast and save when an on-board cell is a plain object.
- DmPanel.ClearAllImages: does not model the throw of `draw()` at js/dm-panel.js:266, which skips the broadcast and save when an on-board cell is a plain object.
- Tokens.PlaceTokenOnGrid: does not model the throw of `draw()` at js/tokens.js:98, which skips the broadcast and save when an on-board cell is a plain object.
- Tokens.MoveToken: does not model the throw of `draw()` at js/tokens.js:134, which skips the broadcast and save when an on-board cell is a plain object.
- Tokens.RemoveToken: does not model the throw of `draw()` at js/tokens.js:162, which skips the broadcast and save when an on-board cell is a plain object.
- Tokens.ClearAllTokens: does not model the throw of `draw()` at js/tokens.js:273, which skips the broadcast and save when an on-board cell is a plain object.
- The PeerJS transport is not modelled: creating the peer, opening connections, and the `unavailable-id` fallback of `dmRejoin` and `createRoomWithRestoredData`. A send is only an `Outgoing` record in `outbox`, and `unreachable` names the peers whose send throws.
- Image decoding is left out. Rasters are opaque values (`Blank`, `Filled`, `Drawn`), and decoding is treated as synchronous, so the order in which `onload` callbacks complete is not modelled.
- Pen and fog brush strokes, the wheel zoom clamp, `setZoom` and `resetView` are left out. Zoom and pan are carried as `real` fields. NaN and floating-point rounding are not modelled.
- Token ids (`Date.now() + Math.random()`) and the current time are parameters, and `addPlayerToken`'s random picks are left out.
- Token and image coordinates are integers, so fractional drop points are not modelled.
- `exportSession`, `importSession` and `uploadImage` are browser file I/O and are left out.
- `js/minimap.js` and `js/auth.js` are not part of this model. The authority's credentials are a parameter of `Persistence.DmRejoin`.
- `handleFullStateSync` is not defined in the scripts, so dispatching `fullStateSync` throws before any change. The model treats it as a message that changes nothing.
- The auto-save interval and the `beforeunload` save are timer and browser plumbing; only `saveSessionData` itself is modelled.
- The "5 min max" wording of the rejoin error is a message string and is left out.
- Keys inherited from `Object.prototype` (such as `constructor`) are treated as absent from the grid, lock and fog objects.
- Persistence.StartSessionTimeout: does not model `setTimeout` handles. A pending timer is its deadline, so replacing it stands for `clearTimeout` followed by `setTimeout`.
- Networking.HandleJoinDenied: does not model the browser reload itself. It states the reloaded page's globals as the module initialisers and initCanvas's fog fill leave them.
- Networking.HandleMessage: does not state each kind's effect itself; those effects are stated by Networking.HandleGuestUpdate and Networking.HandleAdmission, which it dispatches to.
- Fanout.FanOut: does not fix the order in which peers are visited. JavaScript's `Map` iterates in insertion order, but the model states the set of recipients, one send each.
- Text.ToLower: lower-cases ASCII letters only; the Unicode case mapping of `toLowerCase` is not modelled.
- Lock and cell keys are structured values (`CellKey`) rather than the strings `"x,y"`, and a stored value is a structured `StoredItem` rather than JSON text. Parsing of the stored text is reduced to parsed or unparseable.
- Token objects are values. When the same token object is aliased between lists, an in-place mutation is visible in both lists in the source but not in the model.
