/** js/tokens.js: the staging and placed token lists, the grid snap, the
    authority's operations (which broadcast, then save) and the guest-side
    handlers keyed by token id. */
module Tokens {
  import opened Config
  import opened Model
  import opened Lists
  import opened Context
  import opened Fanout
  import opened Persistence

  /** `findIndex(t => t.id === id)`. */
  function IndexOfId(ts: seq<Token>, id: int): (r: int)
    ensures -1 <= r < |ts|
    ensures r == -1 <==> forall i :: 0 <= i < |ts| ==> ts[i].id != id
    ensures 0 <= r ==> ts[r].id == id && forall i :: 0 <= i < r ==> ts[i].id != id
  {
    FirstIndex(ts, (t: Token) => t.id == id)
  }

  /** Past a non-matching head, the first match is one further on than in
      the tail. */
  lemma IndexOfIdTail(ts: seq<Token>, id: int)
    requires ts != [] && ts[0].id != id
    ensures IndexOfId(ts, id) == if IndexOfId(ts[1..], id) == -1 then -1 else IndexOfId(ts[1..], id) + 1
  {
    var k := IndexOfId(ts[1..], id);
    if k != -1 {
      assert ts[k + 1] == ts[1..][k];
      assert forall i :: 1 <= i < k + 1 ==> ts[i] == ts[1..][i - 1];
    } else {
      assert forall i :: 1 <= i < |ts| ==> ts[i] == ts[1..][i - 1];
    }
  }

  /** No two tokens of a list share an id. */
  predicate UniqueIds(ts: seq<Token>) {
    forall i, j :: 0 <= i < j < |ts| ==> ts[i].id != ts[j].id
  }

  // ---------------------------------------------------------------------
  // Grid snap
  // ---------------------------------------------------------------------

  /** `Math.floor(v / CELL_SIZE) * CELL_SIZE + CELL_SIZE / 2`: the centre of
      the cell v lies in. */
  function Snap(v: int): (r: int)
    ensures r / CELL_SIZE == v / CELL_SIZE
    ensures r % CELL_SIZE == CELL_SIZE / 2
    ensures -CELL_SIZE / 2 < r - v <= CELL_SIZE / 2
  {
    (v / CELL_SIZE) * CELL_SIZE + CELL_SIZE / 2
  }

  /** Snapping an already snapped coordinate leaves it where it is. */
  lemma SnapIdempotent(v: int)
    ensures Snap(Snap(v)) == Snap(v)
  {
  }

  // ---------------------------------------------------------------------
  // Reference definitions of the list edits, by id
  // ---------------------------------------------------------------------

  /** The guest's `tokenPlace` update: replace the first token with t's id,
      or append t when there is none. */
  function Upsert(ts: seq<Token>, t: Token): (r: seq<Token>)
    ensures IndexOfId(ts, t.id) == -1 ==> r == ts + [t]
    ensures IndexOfId(ts, t.id) != -1 ==> r == ts[IndexOfId(ts, t.id) := t]
  {
    if ts == [] then [t]
    else if ts[0].id == t.id then [t] + ts[1..]
    else
      IndexOfIdTail(ts, t.id);
      [ts[0]] + Upsert(ts[1..], t)
  }

  /** Move the first token with that id to (x, y). */
  function MoveTo(ts: seq<Token>, id: int, x: int, y: int): (r: seq<Token>)
    ensures IndexOfId(ts, id) == -1 ==> r == ts
    ensures IndexOfId(ts, id) != -1 ==> r == ts[IndexOfId(ts, id) := ts[IndexOfId(ts, id)].(x := x, y := y)]
  {
    if ts == [] then []
    else if ts[0].id == id then [ts[0].(x := x, y := y)] + ts[1..]
    else
      IndexOfIdTail(ts, id);
      [ts[0]] + MoveTo(ts[1..], id, x, y)
  }

  /** Remove the first token with that id. */
  function RemoveFirst(ts: seq<Token>, id: int): (r: seq<Token>)
    ensures IndexOfId(ts, id) == -1 ==> r == ts
    ensures IndexOfId(ts, id) != -1 ==> r == ts[..IndexOfId(ts, id)] + ts[IndexOfId(ts, id) + 1..]
  {
    if ts == [] then []
    else if ts[0].id == id then ts[1..]
    else
      IndexOfIdTail(ts, id);
      var k := IndexOfId(ts[1..], id);
      var rest := RemoveFirst(ts[1..], id);
      if k == -1 then
        assert [ts[0]] + ts[1..] == ts;
        [ts[0]] + rest
      else
        SpliceBehindHead(ts, k);
        [ts[0]] + rest
  }

  /** Splicing behind the head of a list is splicing its tail. */
  lemma SpliceBehindHead<T>(s: seq<T>, k: int)
    requires 0 <= k < |s| - 1
    ensures [s[0]] + (s[1..][..k] + s[1..][k + 1..]) == s[..k + 1] + s[k + 2..]
  {
    assert s[1..][..k] == s[1..k + 1];
    assert s[1..][k + 1..] == s[k + 2..];
    assert [s[0]] + s[1..k + 1] == s[..k + 1];
  }

  /** An upsert keeps ids unique, and afterwards the list holds t exactly
      once under its id. */
  lemma {:induction false} UpsertKeepsUniqueIds(ts: seq<Token>, t: Token)
    requires UniqueIds(ts)
    ensures UniqueIds(Upsert(ts, t))
    ensures t in Upsert(ts, t)
    ensures forall i :: 0 <= i < |Upsert(ts, t)| && Upsert(ts, t)[i].id == t.id ==> Upsert(ts, t)[i] == t
  {
    var k := IndexOfId(ts, t.id);
    var r := Upsert(ts, t);
    if k == -1 {
      assert r[|ts|] == t;
    } else {
      assert r[k] == t;
    }
  }

  /** Removing an id from a list with unique ids leaves no token with it. */
  lemma {:induction false} RemoveFirstRemovesId(ts: seq<Token>, id: int)
    requires UniqueIds(ts)
    ensures UniqueIds(RemoveFirst(ts, id))
    ensures forall i :: 0 <= i < |RemoveFirst(ts, id)| ==> RemoveFirst(ts, id)[i].id != id
  {
    var k := IndexOfId(ts, id);
    if k != -1 {
      var r := RemoveAt(ts, k);
      assert RemoveFirst(ts, id) == r;
      forall i | 0 <= i < |r| ensures r[i] == ts[Skip(i, k)] {
        SpliceIndex(ts, k, i);
      }
    }
  }

  /** Position in the original list of position i after splicing out k. */
  function Skip(i: int, k: int): int {
    if i < k then i else i + 1
  }

  lemma SpliceIndex<T>(s: seq<T>, k: int, i: int)
    requires 0 <= k < |s| && 0 <= i < |s| - 1
    ensures RemoveAt(s, k)[i] == s[Skip(i, k)]
  {
  }

  /** A move changes nothing but the coordinates of one token: ids, and
      with them uniqueness, are kept. */
  lemma {:induction false} MoveToKeepsIds(ts: seq<Token>, id: int, x: int, y: int)
    ensures |MoveTo(ts, id, x, y)| == |ts|
    ensures forall i :: 0 <= i < |ts| ==>
              MoveTo(ts, id, x, y)[i] == ts[i].(x := MoveTo(ts, id, x, y)[i].x, y := MoveTo(ts, id, x, y)[i].y)
    ensures UniqueIds(ts) ==> UniqueIds(MoveTo(ts, id, x, y))
  {
    var k := IndexOfId(ts, id);
    var r := MoveTo(ts, id, x, y);
    if k != -1 {
      assert forall i :: 0 <= i < |ts| && i != k ==> r[i] == ts[i];
      assert r[k].id == ts[k].id;
    }
  }

  // ---------------------------------------------------------------------
  // Operations
  // ---------------------------------------------------------------------

  /** createToken(emoji, color, owner): a new unplaced token at (0, 0) at the
      end of staging; `id` stands for the source's time-plus-random value. */
  method CreateToken(p: Session, id: int, emoji: string, color: string, owner: string, now: int)
    returns (token: Token)
    modifies p`stagingTokens, p`storage
    ensures token == Token(id, emoji, color, if owner == "" then p.myName else owner, 0, 0, false)
    ensures p.stagingTokens == old(p.stagingTokens) + [token]
    ensures p.storage == AfterSave(p, old(p.storage), now)
  {
    token := Token(id, emoji, color, if owner == "" then p.myName else owner, 0, 0, false);
    p.stagingTokens := p.stagingTokens + [token];
    if p.isDM {
      SaveSessionData(p, now);
    }
  }

  /** removeTokenFromStaging(tokenId). */
  method RemoveTokenFromStaging(p: Session, tokenId: int, now: int)
    modifies p`stagingTokens, p`storage
    ensures p.stagingTokens == RemoveFirst(old(p.stagingTokens), tokenId)
    ensures IndexOfId(old(p.stagingTokens), tokenId) == -1 ==> p.storage == old(p.storage)
    ensures IndexOfId(old(p.stagingTokens), tokenId) != -1 ==> p.storage == AfterSave(p, old(p.storage), now)
  {
    var index := IndexOfId(p.stagingTokens, tokenId);
    if index != -1 {
      p.stagingTokens := RemoveAt(p.stagingTokens, index);
      if p.isDM {
        SaveSessionData(p, now);
      }
    }
  }

  /** placeTokenOnGrid(token, canvasX, canvasY): the token is marked placed
      at the (snapped) drop point, its first staging entry is removed, and
      it is appended to placed whether or not it was in staging. */
  method PlaceTokenOnGrid(p: Session, token: Token, canvasX: int, canvasY: int, now: int)
    returns (placed: Token)
    modifies p`stagingTokens, p`placedTokens, p`outbox, p`storage
    ensures placed == token.(x := SnapIf(p.gridSnapEnabled, canvasX), y := SnapIf(p.gridSnapEnabled, canvasY),
                             placed := true)
    ensures p.stagingTokens == RemoveFirst(old(p.stagingTokens), token.id)
    ensures p.placedTokens == old(p.placedTokens) + [placed]
    ensures p.isDM ==> Broadcasted(old(p.outbox), p.outbox, p.connections, p.unreachable, TokenPlace(placed))
    ensures !p.isDM ==> p.outbox == old(p.outbox)
    ensures p.storage == AfterSave(p, old(p.storage), now)
  {
    placed := token.(x := SnapIf(p.gridSnapEnabled, canvasX), y := SnapIf(p.gridSnapEnabled, canvasY), placed := true);
    var stagingIndex := IndexOfId(p.stagingTokens, token.id);
    if stagingIndex != -1 {
      p.stagingTokens := RemoveAt(p.stagingTokens, stagingIndex);
    }
    p.placedTokens := p.placedTokens + [placed];
    Publish(p, TokenPlace(placed), now);
  }

  /** handleTokenPlace(data) on a guest. */
  method HandleTokenPlace(p: Session, token: Token)
    modifies p`placedTokens
    ensures p.isDM ==> p.placedTokens == old(p.placedTokens)
    ensures !p.isDM ==> p.placedTokens == Upsert(old(p.placedTokens), token)
  {
    if p.isDM {
      return;
    }
    var existingIndex := IndexOfId(p.placedTokens, token.id);
    if existingIndex != -1 {
      p.placedTokens := p.placedTokens[existingIndex := token];
    } else {
      p.placedTokens := p.placedTokens + [token];
    }
  }

  /** The coordinate a drop or drag lands on: with snapping on, the centre of
      the cell v lies in, where snapping again does not move it; with it
      off, v itself. */
  function SnapIf(snap: bool, v: int): (r: int)
    ensures snap ==> r / CELL_SIZE == v / CELL_SIZE && r % CELL_SIZE == CELL_SIZE / 2
    ensures !snap ==> r == v
    ensures snap ==> Snap(r) == r
  {
    if snap then Snap(v) else v
  }

  /** moveToken(tokenId, newX, newY): an unknown id changes nothing, sends
      nothing and saves nothing. */
  method MoveToken(p: Session, tokenId: int, newX: int, newY: int, now: int)
    modifies p`placedTokens, p`outbox, p`storage
    ensures IndexOfId(old(p.placedTokens), tokenId) == -1 ==>
              p.placedTokens == old(p.placedTokens) && p.outbox == old(p.outbox) && p.storage == old(p.storage)
    ensures IndexOfId(old(p.placedTokens), tokenId) != -1 ==>
              p.placedTokens == MoveTo(old(p.placedTokens), tokenId,
                                       SnapIf(p.gridSnapEnabled, newX), SnapIf(p.gridSnapEnabled, newY))
    ensures IndexOfId(old(p.placedTokens), tokenId) != -1 && p.isDM ==>
              Broadcasted(old(p.outbox), p.outbox, p.connections, p.unreachable,
                          TokenMove(tokenId, SnapIf(p.gridSnapEnabled, newX), SnapIf(p.gridSnapEnabled, newY)))
    ensures IndexOfId(old(p.placedTokens), tokenId) != -1 && !p.isDM ==> p.outbox == old(p.outbox)
    ensures IndexOfId(old(p.placedTokens), tokenId) != -1 ==> p.storage == AfterSave(p, old(p.storage), now)
  {
    var index := IndexOfId(p.placedTokens, tokenId);
    if index == -1 {
      return;
    }
    var x := SnapIf(p.gridSnapEnabled, newX);
    var y := SnapIf(p.gridSnapEnabled, newY);
    p.placedTokens := p.placedTokens[index := p.placedTokens[index].(x := x, y := y)];
    assert p.placedTokens == MoveTo(old(p.placedTokens), tokenId, x, y);
    Publish(p, TokenMove(tokenId, x, y), now);
  }

  /** handleTokenMove(data) on a guest: the coordinates are taken as sent. */
  method HandleTokenMove(p: Session, tokenId: int, x: int, y: int)
    modifies p`placedTokens
    ensures p.isDM ==> p.placedTokens == old(p.placedTokens)
    ensures !p.isDM ==> p.placedTokens == MoveTo(old(p.placedTokens), tokenId, x, y)
  {
    if p.isDM {
      return;
    }
    var index := IndexOfId(p.placedTokens, tokenId);
    if index != -1 {
      p.placedTokens := p.placedTokens[index := p.placedTokens[index].(x := x, y := y)];
    }
  }

  /** removeToken(tokenId): only a removal that happened is broadcast and
      saved. */
  method RemoveToken(p: Session, tokenId: int, now: int)
    modifies p`placedTokens, p`outbox, p`storage
    ensures p.placedTokens == RemoveFirst(old(p.placedTokens), tokenId)
    ensures IndexOfId(old(p.placedTokens), tokenId) == -1 || !p.isDM ==>
              p.outbox == old(p.outbox) && p.storage == old(p.storage)
    ensures IndexOfId(old(p.placedTokens), tokenId) != -1 && p.isDM ==>
              Broadcasted(old(p.outbox), p.outbox, p.connections, p.unreachable, TokenRemove(tokenId)) &&
              p.storage == AfterSave(p, old(p.storage), now)
  {
    var index := IndexOfId(p.placedTokens, tokenId);
    if index != -1 {
      p.placedTokens := RemoveAt(p.placedTokens, index);
      Publish(p, TokenRemove(tokenId), now);
    }
  }

  /** handleTokenRemove(data) on a guest. */
  method HandleTokenRemove(p: Session, tokenId: int)
    modifies p`placedTokens
    ensures p.isDM ==> p.placedTokens == old(p.placedTokens)
    ensures !p.isDM ==> p.placedTokens == RemoveFirst(old(p.placedTokens), tokenId)
  {
    if p.isDM {
      return;
    }
    var index := IndexOfId(p.placedTokens, tokenId);
    if index != -1 {
      p.placedTokens := RemoveAt(p.placedTokens, index);
    }
  }

  /** A click at (x, y) hits a token whose centre is within TOKEN_RADIUS
      (`sqrt(dx² + dy²) <= 30`, compared squared). */
  predicate Hits(t: Token, x: int, y: int) {
    (t.x - x) * (t.x - x) + (t.y - y) * (t.y - y) <= TOKEN_RADIUS * TOKEN_RADIUS
  }

  /** getTokenAtPosition(x, y): the topmost (last drawn) token hit, or null. */
  method GetTokenAtPosition(p: Session, x: int, y: int) returns (r: Option<Token>)
    ensures r.None? <==> forall i :: 0 <= i < |p.placedTokens| ==> !Hits(p.placedTokens[i], x, y)
    ensures r.Some? ==> exists i :: 0 <= i < |p.placedTokens| && p.placedTokens[i] == r.value &&
                          Hits(r.value, x, y) &&
                          forall j :: i < j < |p.placedTokens| ==> !Hits(p.placedTokens[j], x, y)
  {
    var i := |p.placedTokens| - 1;
    while i >= 0
      invariant -1 <= i < |p.placedTokens|
      invariant forall j :: i < j < |p.placedTokens| ==> !Hits(p.placedTokens[j], x, y)
      decreases i
    {
      if Hits(p.placedTokens[i], x, y) {
        return Some(p.placedTokens[i]);
      }
      i := i - 1;
    }
    return None;
  }

  /** clearAllTokens(): `confirmed` is the answer to the confirmation dialog. */
  method ClearAllTokens(p: Session, confirmed: bool, now: int)
    modifies p`stagingTokens, p`placedTokens, p`outbox, p`storage
    ensures !confirmed ==> p.stagingTokens == old(p.stagingTokens) && p.placedTokens == old(p.placedTokens) &&
                           p.outbox == old(p.outbox) && p.storage == old(p.storage)
    ensures confirmed ==> p.stagingTokens == [] && p.placedTokens == []
    ensures confirmed && p.isDM ==>
              Broadcasted(old(p.outbox), p.outbox, p.connections, p.unreachable, ClearTokens) &&
              p.storage == AfterSave(p, old(p.storage), now)
    ensures confirmed && !p.isDM ==> p.outbox == old(p.outbox) && p.storage == old(p.storage)
  {
    if !confirmed {
      return;
    }
    p.stagingTokens, p.placedTokens := [], [];
    Publish(p, ClearTokens, now);
  }

  /** toggleGridSnap(). */
  method ToggleGridSnap(p: Session, now: int)
    modifies p`gridSnapEnabled, p`storage
    ensures p.gridSnapEnabled == !old(p.gridSnapEnabled)
    ensures p.storage == AfterSave(p, old(p.storage), now)
  {
    p.gridSnapEnabled := !p.gridSnapEnabled;
    if p.isDM {
      SaveSessionData(p, now);
    }
  }

  /** A guest holding the authority's placed list stays in step through a
      placement of a token whose id is not on the board yet: its upsert of
      the broadcast token gives the authority's append, and ids stay unique. */
  lemma {:induction false} PlacementReplicates(ts: seq<Token>, t: Token)
    requires forall i :: 0 <= i < |ts| ==> ts[i].id != t.id
    ensures Upsert(ts, t) == ts + [t]
    ensures UniqueIds(ts) ==> UniqueIds(ts + [t])
  {
    assert IndexOfId(ts, t.id) == -1;
  }
}
