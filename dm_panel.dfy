/** js/dm-panel.js: the grid cursor, cell locks, the fog-group table, clearing
    images and the guest's view update. Every authority-side edit ends by
    saving the session. */
module DmPanel {
  import opened Config
  import opened Model
  import opened Text
  import opened Context
  import opened Fanout
  import opened Persistence
  import Canvas

  // ---------------------------------------------------------------------
  // Grid cursor
  // ---------------------------------------------------------------------

  predicate OnBoard(x: int, y: int) {
    0 <= x < GRID_SIZE && 0 <= y < GRID_SIZE
  }

  /** Where one press of a navigation button moves the cursor (x, y). */
  function Step(x: int, y: int, direction: string): (r: (int, int))
    ensures OnBoard(x, y) ==> OnBoard(r.0, r.1)
    ensures direction in {"up", "down", "left", "right"} ==>
              (r.0 == x && -1 <= r.1 - y <= 1) || (r.1 == y && -1 <= r.0 - x <= 1)
    ensures direction == "up" ==> r.0 == x && r.1 <= y
    ensures direction == "down" ==> r.0 == x && r.1 >= y
    ensures direction == "left" ==> r.1 == y && r.0 <= x
    ensures direction == "right" ==> r.1 == y && r.0 >= x
    ensures direction == "center" ==> r == (1, 1)
    ensures direction !in {"up", "down", "left", "right", "center"} ==> r == (x, y)
  {
    match direction
    case "up" => if y > 0 then (x, y - 1) else (x, y)
    case "down" => if y < GRID_SIZE - 1 then (x, y + 1) else (x, y)
    case "left" => if x > 0 then (x - 1, y) else (x, y)
    case "right" => if x < GRID_SIZE - 1 then (x + 1, y) else (x, y)
    case "center" => (1, 1)
    case _ => (x, y)
  }

  /** A move that is not blocked by the edge is undone by the opposite one. */
  lemma {:induction false} StepOpposite(x: int, y: int)
    requires OnBoard(x, y)
    ensures y > 0 ==> var u := Step(x, y, "up"); Step(u.0, u.1, "down") == (x, y)
    ensures y < GRID_SIZE - 1 ==> var d := Step(x, y, "down"); Step(d.0, d.1, "up") == (x, y)
    ensures x > 0 ==> var l := Step(x, y, "left"); Step(l.0, l.1, "right") == (x, y)
    ensures x < GRID_SIZE - 1 ==> var r := Step(x, y, "right"); Step(r.0, r.1, "left") == (x, y)
  {
    assert Step(x, y, "up") == (if y > 0 then (x, y - 1) else (x, y));
    assert Step(x, y, "down") == (if y < GRID_SIZE - 1 then (x, y + 1) else (x, y));
    assert Step(x, y, "left") == (if x > 0 then (x - 1, y) else (x, y));
    assert Step(x, y, "right") == (if x < GRID_SIZE - 1 then (x + 1, y) else (x, y));
  }

  /** navigateGrid(direction): saves even when the direction is unknown. */
  method NavigateGrid(p: Session, direction: string, now: int)
    modifies p`currentCellX, p`currentCellY, p`storage
    ensures (p.currentCellX, p.currentCellY) == Step(old(p.currentCellX), old(p.currentCellY), direction)
    ensures p.storage == AfterSave(p, old(p.storage), now)
  {
    match direction {
      case "up" =>
        if p.currentCellY > 0 { p.currentCellY := p.currentCellY - 1; }
      case "down" =>
        if p.currentCellY < GRID_SIZE - 1 { p.currentCellY := p.currentCellY + 1; }
      case "left" =>
        if p.currentCellX > 0 { p.currentCellX := p.currentCellX - 1; }
      case "right" =>
        if p.currentCellX < GRID_SIZE - 1 { p.currentCellX := p.currentCellX + 1; }
      case "center" =>
        p.currentCellX, p.currentCellY := 1, 1;
      case _ =>
    }
    if p.isDM {
      SaveSessionData(p, now);
    }
  }

  // ---------------------------------------------------------------------
  // Cell locks
  // ---------------------------------------------------------------------

  /** lockCurrentCell(). */
  method LockCurrentCell(p: Session, now: int)
    modifies p`lockedCells, p`outbox, p`storage
    ensures p.lockedCells == old(p.lockedCells) + {CellKey(p.currentCellX, p.currentCellY)}
    ensures p.isDM ==> Broadcasted(old(p.outbox), p.outbox, p.connections, p.unreachable,
                                   CellLock(CellKey(p.currentCellX, p.currentCellY), true))
    ensures !p.isDM ==> p.outbox == old(p.outbox)
    ensures p.storage == AfterSave(p, old(p.storage), now)
  {
    var key := CellKey(p.currentCellX, p.currentCellY);
    p.lockedCells := p.lockedCells + {key};
    Publish(p, CellLock(key, true), now);
  }

  /** unlockCurrentCell(). */
  method UnlockCurrentCell(p: Session, now: int)
    modifies p`lockedCells, p`outbox, p`storage
    ensures p.lockedCells == old(p.lockedCells) - {CellKey(p.currentCellX, p.currentCellY)}
    ensures p.isDM ==> Broadcasted(old(p.outbox), p.outbox, p.connections, p.unreachable,
                                   CellLock(CellKey(p.currentCellX, p.currentCellY), false))
    ensures !p.isDM ==> p.outbox == old(p.outbox)
    ensures p.storage == AfterSave(p, old(p.storage), now)
  {
    var key := CellKey(p.currentCellX, p.currentCellY);
    p.lockedCells := p.lockedCells - {key};
    Publish(p, CellLock(key, false), now);
  }

  /** Locking then unlocking the same cell leaves the key absent and every
      other lock as it was. */
  lemma LockUnlock(locks: set<CellKey>, key: CellKey)
    ensures key !in (locks + {key}) - {key}
    ensures (locks + {key}) - {key} == locks - {key}
  {
  }

  // ---------------------------------------------------------------------
  // Fog groups
  // ---------------------------------------------------------------------

  /** createFogGroup(): `name` is the prompt's answer (None when cancelled).
      A blank name and a name whose id exists are rejected without saving. */
  method CreateFogGroup(p: Session, name: Option<string>, now: int)
    modifies p`fogGroups, p`storage
    ensures name.None? || Trim(name.value) == "" || GroupId(name.value) in old(p.fogGroups) ==>
              p.fogGroups == old(p.fogGroups) && p.storage == old(p.storage)
    ensures name.Some? && Trim(name.value) != "" && GroupId(name.value) !in old(p.fogGroups) ==>
              p.fogGroups == old(p.fogGroups)[GroupId(name.value) := FogGroup(name.value, Some(Filled))] &&
              p.storage == AfterSave(p, old(p.storage), now)
    ensures FogOk(old(p.fogGroups), p.activeFogGroup) ==> FogOk(p.fogGroups, p.activeFogGroup)
  {
    if name.None? || Trim(name.value) == "" {
      return;
    }
    var groupId := GroupId(name.value);
    if groupId in p.fogGroups {
      // alert: a group with this name already exists
      return;
    }
    AddFogGroup(p, groupId, name.value, now);
  }

  /** The tail of createFogGroup: a fully hidden group under the new id. */
  method AddFogGroup(p: Session, groupId: string, name: string, now: int)
    modifies p`fogGroups, p`storage
    ensures p.fogGroups == old(p.fogGroups)[groupId := FogGroup(name, Some(Filled))]
    ensures p.storage == AfterSave(p, old(p.storage), now)
  {
    p.fogGroups := p.fogGroups[groupId := FogGroup(name, Some(Filled))];
    if p.isDM {
      SaveSessionData(p, now);
    }
  }

  /** switchFogGroup(groupId): an unknown id is ignored. */
  method SwitchFogGroup(p: Session, groupId: string, now: int)
    modifies p`activeFogGroup, p`storage
    ensures groupId !in p.fogGroups ==> p.activeFogGroup == old(p.activeFogGroup) && p.storage == old(p.storage)
    ensures groupId in p.fogGroups ==> p.activeFogGroup == groupId && p.storage == AfterSave(p, old(p.storage), now)
    ensures EVERYONE in p.fogGroups && old(p.activeFogGroup) in p.fogGroups ==> FogOk(p.fogGroups, p.activeFogGroup)
  {
    if groupId !in p.fogGroups {
      return;
    }
    p.activeFogGroup := groupId;
    if p.isDM {
      SaveSessionData(p, now);
    }
  }

  /** deleteFogGroup(groupId): `confirmed` is the answer to the confirmation
      dialog. "everyone" is refused; an unknown id makes the dialog's text
      throw, so nothing changes; deleting the active group makes "everyone"
      active. */
  method DeleteFogGroup(p: Session, groupId: string, confirmed: bool, now: int)
    modifies p`fogGroups, p`activeFogGroup, p`storage
    ensures groupId == EVERYONE || groupId !in old(p.fogGroups) || !confirmed ==>
              p.fogGroups == old(p.fogGroups) && p.activeFogGroup == old(p.activeFogGroup) &&
              p.storage == old(p.storage)
    ensures groupId != EVERYONE && groupId in old(p.fogGroups) && confirmed ==>
              p.fogGroups == old(p.fogGroups) - {groupId} &&
              p.activeFogGroup == (if old(p.activeFogGroup) == groupId then EVERYONE else old(p.activeFogGroup)) &&
              p.storage == AfterSave(p, old(p.storage), now)
    ensures FogOk(old(p.fogGroups), old(p.activeFogGroup)) ==> FogOk(p.fogGroups, p.activeFogGroup)
  {
    if groupId == EVERYONE {
      // alert: the "Everyone" group cannot be deleted
      return;
    }
    if groupId !in p.fogGroups || !confirmed {
      return;
    }
    p.fogGroups := p.fogGroups - {groupId};
    if p.activeFogGroup == groupId {
      p.activeFogGroup := EVERYONE;
    }
    if p.isDM {
      SaveSessionData(p, now);
    }
  }

  /** The mask edit shared by clearFogGroup and resetFogGroup. An unknown id
      is ignored; a group without a canvas makes getContext throw, so nothing
      changes; otherwise the mask becomes `mask`, and the authority then
      broadcasts every mask and saves. */
  method RepaintFogGroup(p: Session, groupId: string, mask: Raster, now: int) returns (threw: bool)
    modifies p`fogGroups, p`outbox, p`storage
    ensures threw <==> groupId in old(p.fogGroups) && old(p.fogGroups)[groupId].mask.None?
    ensures groupId !in old(p.fogGroups) || threw ==>
              p.fogGroups == old(p.fogGroups) && p.outbox == old(p.outbox) && p.storage == old(p.storage)
    ensures groupId in old(p.fogGroups) && !threw ==>
              p.fogGroups == old(p.fogGroups)[groupId := old(p.fogGroups)[groupId].(mask := Some(mask))]
    ensures groupId in old(p.fogGroups) && !threw && p.isDM ==>
              Broadcasted(old(p.outbox), p.outbox, p.connections, p.unreachable, FogUpdate(Canvas.FogMasks(p.fogGroups))) &&
              p.storage == AfterSave(p, old(p.storage), now)
    ensures groupId in old(p.fogGroups) && !threw && !p.isDM ==>
              p.outbox == old(p.outbox) && p.storage == old(p.storage)
  {
    threw := false;
    if groupId !in p.fogGroups {
      return;
    }
    if p.fogGroups[groupId].mask.None? {
      threw := true;
      return;
    }
    p.fogGroups := p.fogGroups[groupId := p.fogGroups[groupId].(mask := Some(mask))];
    if p.isDM {
      Canvas.BroadcastFogUpdate(p);
      SaveSessionData(p, now);
    }
  }

  /** clearFogGroup(groupId): the group's mask becomes fully transparent. */
  method ClearFogGroup(p: Session, groupId: string, now: int) returns (threw: bool)
    modifies p`fogGroups, p`outbox, p`storage
    ensures threw <==> groupId in old(p.fogGroups) && old(p.fogGroups)[groupId].mask.None?
    ensures groupId !in old(p.fogGroups) || threw ==>
              p.fogGroups == old(p.fogGroups) && p.outbox == old(p.outbox) && p.storage == old(p.storage)
    ensures groupId in old(p.fogGroups) && !threw ==>
              p.fogGroups == old(p.fogGroups)[groupId := old(p.fogGroups)[groupId].(mask := Some(Blank))]
    ensures groupId in old(p.fogGroups) && !threw && p.isDM ==>
              Broadcasted(old(p.outbox), p.outbox, p.connections, p.unreachable, FogUpdate(Canvas.FogMasks(p.fogGroups))) &&
              p.storage == AfterSave(p, old(p.storage), now)
    ensures groupId in old(p.fogGroups) && !threw && !p.isDM ==>
              p.outbox == old(p.outbox) && p.storage == old(p.storage)
  {
    threw := RepaintFogGroup(p, groupId, Blank, now);
  }

  /** resetFogGroup(groupId): the group's mask becomes fully black again. */
  method ResetFogGroup(p: Session, groupId: string, now: int) returns (threw: bool)
    modifies p`fogGroups, p`outbox, p`storage
    ensures threw <==> groupId in old(p.fogGroups) && old(p.fogGroups)[groupId].mask.None?
    ensures groupId !in old(p.fogGroups) || threw ==>
              p.fogGroups == old(p.fogGroups) && p.outbox == old(p.outbox) && p.storage == old(p.storage)
    ensures groupId in old(p.fogGroups) && !threw ==>
              p.fogGroups == old(p.fogGroups)[groupId := old(p.fogGroups)[groupId].(mask := Some(Filled))]
    ensures groupId in old(p.fogGroups) && !threw && p.isDM ==>
              Broadcasted(old(p.outbox), p.outbox, p.connections, p.unreachable, FogUpdate(Canvas.FogMasks(p.fogGroups))) &&
              p.storage == AfterSave(p, old(p.storage), now)
    ensures groupId in old(p.fogGroups) && !threw && !p.isDM ==>
              p.outbox == old(p.outbox) && p.storage == old(p.storage)
  {
    threw := RepaintFogGroup(p, groupId, Filled, now);
  }

  // ---------------------------------------------------------------------
  // Images and view
  // ---------------------------------------------------------------------

  /** clearAllImages(): `confirmed` is the answer to the confirmation dialog. */
  method ClearAllImages(p: Session, confirmed: bool, now: int)
    modifies p`placedImages, p`outbox, p`storage
    ensures !confirmed ==> p.placedImages == old(p.placedImages) && p.outbox == old(p.outbox) &&
                           p.storage == old(p.storage)
    ensures confirmed ==> p.placedImages == []
    ensures confirmed && p.isDM ==> Broadcasted(old(p.outbox), p.outbox, p.connections, p.unreachable, ClearImages)
    ensures confirmed && !p.isDM ==> p.outbox == old(p.outbox)
    ensures confirmed ==> p.storage == AfterSave(p, old(p.storage), now)
  {
    if !confirmed {
      return;
    }
    p.placedImages := [];
    Publish(p, ClearImages, now);
  }

  /** handleZoomPanUpdate(data) on a guest: the view is taken as sent. */
  method HandleZoomPanUpdate(p: Session, zoom: real, panX: real, panY: real)
    modifies p`zoom, p`panX, p`panY
    ensures p.isDM ==> p.zoom == old(p.zoom) && p.panX == old(p.panX) && p.panY == old(p.panY)
    ensures !p.isDM ==> p.zoom == zoom && p.panX == panX && p.panY == panY
  {
    if p.isDM {
      return;
    }
    p.zoom, p.panX, p.panY := zoom, panX, panY;
  }
}
