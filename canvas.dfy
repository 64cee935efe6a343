/** The state logic of js/canvas.js: the drawing history with undo and redo,
    the guest-side merges of grid and fog updates, clearing the current cell,
    and the authority's grid and fog broadcasts. Strokes and rendering are
    not modelled. */
module Canvas {
  import opened Config
  import opened Model
  import opened Context
  import Fanout

  // ---------------------------------------------------------------------
  // Drawing history (saveDrawHistory, undo, redo)
  // ---------------------------------------------------------------------

  /** The history's invariant: empty with index -1, or the index is a valid position. */
  predicate HistoryOk(length: int, index: int) {
    (index == -1 && length == 0) || (0 <= index < length)
  }

  /** JSON.parse of a history entry: the recorded keys, each bound to `{}`.
      No cell of it holds a canvas, so none reaches a save, and a broadcast
      of it throws unless it is empty. */
  function Parsed(entry: set<CellKey>): (cells: map<CellKey, CellContent>)
    ensures cells.Keys == entry
    ensures GridPayload(cells) == map[]
    ensures entry != {} ==> exists k :: k in cells && cells[k] == PlainObject
  {
    var cells := map k | k in entry :: PlainObject;
    assert entry != {} ==> exists k :: k in cells && cells[k] == PlainObject by {
      if entry != {} {
        var k :| k in entry;
        assert cells[k] == PlainObject;
      }
    }
    cells
  }

  /** The index undo leaves: at most one step back, never below 0 from a
      valid index, and a step exactly when there is an older entry. */
  function UndoIndex(index: int): (r: int)
    ensures index - 1 <= r <= index
    ensures index >= 0 ==> 0 <= r
    ensures r < index <==> index > 0
  {
    if index > 0 then index - 1 else index
  }

  /** The index redo leaves: at most one step forward, never past the newest
      entry from a valid index, and a step exactly when there is a newer one. */
  function RedoIndex(length: int, index: int): (r: int)
    ensures index <= r <= index + 1
    ensures -1 <= index < length ==> r < length
    ensures r > index <==> index < length - 1
  {
    if index < length - 1 then index + 1 else index
  }

  /** Undo and redo keep the invariant, an undo that acted is reversed by a
      redo, and after at least one save the index never becomes negative. */
  lemma UndoRedoKeepHistoryOk(length: int, index: int)
    requires HistoryOk(length, index)
    ensures HistoryOk(length, UndoIndex(index)) && HistoryOk(length, RedoIndex(length, index))
    ensures index > 0 ==> RedoIndex(length, UndoIndex(index)) == index
    ensures length > 0 ==> UndoIndex(index) >= 0
  {
  }

  /** saveDrawHistory(): drop every entry after the current one, then append
      the stringified grid. */
  method SaveDrawHistory(p: Session)
    requires HistoryOk(|p.drawHistory|, p.historyIndex)
    modifies p`drawHistory, p`historyIndex
    ensures HistoryOk(|p.drawHistory|, p.historyIndex) && p.historyIndex == |p.drawHistory| - 1
    ensures p.historyIndex == old(p.historyIndex) + 1
    ensures p.drawHistory == old(p.drawHistory)[..p.historyIndex] + [p.gridCells.Keys]
  {
    p.historyIndex := p.historyIndex + 1;
    p.drawHistory := p.drawHistory[..p.historyIndex];
    p.drawHistory := p.drawHistory + [p.gridCells.Keys];
  }

  /** undo(). */
  method Undo(p: Session)
    requires HistoryOk(|p.drawHistory|, p.historyIndex)
    modifies p`historyIndex, p`gridCells
    ensures HistoryOk(|p.drawHistory|, p.historyIndex)
    ensures p.historyIndex == UndoIndex(old(p.historyIndex))
    ensures old(p.historyIndex) > 0 ==> p.gridCells == Parsed(p.drawHistory[p.historyIndex])
    ensures old(p.historyIndex) <= 0 ==> p.gridCells == old(p.gridCells)
  {
    if p.historyIndex > 0 {
      p.historyIndex := p.historyIndex - 1;
      p.gridCells := Parsed(p.drawHistory[p.historyIndex]);
    }
  }

  /** redo(). */
  method Redo(p: Session)
    requires HistoryOk(|p.drawHistory|, p.historyIndex)
    modifies p`historyIndex, p`gridCells
    ensures HistoryOk(|p.drawHistory|, p.historyIndex)
    ensures p.historyIndex == RedoIndex(|p.drawHistory|, old(p.historyIndex))
    ensures old(p.historyIndex) < |p.drawHistory| - 1 ==> p.gridCells == Parsed(p.drawHistory[p.historyIndex])
    ensures old(p.historyIndex) >= |p.drawHistory| - 1 ==> p.gridCells == old(p.gridCells)
  {
    if p.historyIndex < |p.drawHistory| - 1 {
      p.historyIndex := p.historyIndex + 1;
      p.gridCells := Parsed(p.drawHistory[p.historyIndex]);
    }
  }

  // ---------------------------------------------------------------------
  // Guest-side merges (handleGridUpdate, handleFogUpdate)
  // ---------------------------------------------------------------------

  /** The decode-and-store loop: each named cell becomes a canvas holding the
      received picture; cells not named keep their value. */
  method WriteCells(p: Session, cells: map<CellKey, Raster>)
    modifies p`gridCells
    ensures p.gridCells == old(p.gridCells) + map k | k in cells :: Canvas(cells[k])
  {
    var todo := cells.Keys;
    while todo != {}
      invariant todo <= cells.Keys
      invariant p.gridCells == old(p.gridCells) + map k | k in cells.Keys - todo :: Canvas(cells[k])
      decreases todo
    {
      var key :| key in todo;
      p.gridCells := p.gridCells[key := Canvas(cells[key])];
      todo := todo - {key};
    }
  }

  /** handleGridUpdate(data): ignored on the authority; on a guest, replaces
      exactly the cells named in the message. */
  method HandleGridUpdate(p: Session, gridData: map<CellKey, Raster>)
    modifies p`gridCells
    ensures p.isDM ==> p.gridCells == old(p.gridCells)
    ensures !p.isDM ==> p.gridCells.Keys == old(p.gridCells).Keys + gridData.Keys
    ensures !p.isDM ==> forall k :: k in gridData ==> p.gridCells[k] == Canvas(gridData[k])
    ensures !p.isDM ==> forall k :: k in old(p.gridCells) && k !in gridData ==> p.gridCells[k] == old(p.gridCells)[k]
  {
    if p.isDM {
      return;
    }
    WriteCells(p, gridData);
  }

  /** handleFogUpdate(data): ignored on the authority; on a guest, each named
      group gets the received mask, keeping its name, and an unknown group is
      created with its id as its name. */
  method HandleFogUpdate(p: Session, fogData: map<string, Raster>)
    modifies p`fogGroups
    ensures p.isDM ==> p.fogGroups == old(p.fogGroups)
    ensures !p.isDM ==> p.fogGroups.Keys == old(p.fogGroups).Keys + fogData.Keys
    ensures !p.isDM ==> forall g :: g in fogData && g in old(p.fogGroups) ==>
              p.fogGroups[g] == FogGroup(old(p.fogGroups)[g].name, Some(fogData[g]))
    ensures !p.isDM ==> forall g :: g in fogData && g !in old(p.fogGroups) ==>
              p.fogGroups[g] == FogGroup(g, Some(fogData[g]))
    ensures !p.isDM ==> forall g :: g in old(p.fogGroups) && g !in fogData ==>
              p.fogGroups[g] == old(p.fogGroups)[g]
    ensures FogOk(old(p.fogGroups), p.activeFogGroup) ==> FogOk(p.fogGroups, p.activeFogGroup)
  {
    if p.isDM {
      return;
    }
    var todo := fogData.Keys;
    while todo != {}
      invariant todo <= fogData.Keys
      invariant p.fogGroups.Keys == old(p.fogGroups).Keys + (fogData.Keys - todo)
      invariant forall g :: g in fogData.Keys - todo && g in old(p.fogGroups) ==>
                  p.fogGroups[g] == FogGroup(old(p.fogGroups)[g].name, Some(fogData[g]))
      invariant forall g :: g in fogData.Keys - todo && g !in old(p.fogGroups) ==>
                  p.fogGroups[g] == FogGroup(g, Some(fogData[g]))
      invariant forall g :: g in old(p.fogGroups) && g !in fogData.Keys - todo ==>
                  p.fogGroups[g] == old(p.fogGroups)[g]
      decreases todo
    {
      var group :| group in todo;
      if group !in p.fogGroups {
        p.fogGroups := p.fogGroups[group := FogGroup(group, Some(fogData[group]))];
      } else {
        p.fogGroups := p.fogGroups[group := p.fogGroups[group].(mask := Some(fogData[group]))];
      }
      todo := todo - {group};
    }
  }

  // ---------------------------------------------------------------------
  // Authority broadcasts (broadcastGridUpdate, broadcastFogUpdate)
  // ---------------------------------------------------------------------

  /** The pictures of the cells that hold a canvas. */
  function GridPayload(cells: map<CellKey, CellContent>): map<CellKey, Raster> {
    map k | k in cells && cells[k].Canvas? :: cells[k].pixels
  }

  /** The masks of the fog groups whose canvas is not null. */
  function FogMasks(fogGroups: map<string, FogGroup>): map<string, Raster> {
    map g | g in fogGroups && fogGroups[g].mask.Some? :: fogGroups[g].mask.value
  }

  /** The loop of broadcastGridUpdate that calls toDataURL on every present
      cell; a plain-object cell has no toDataURL, so the call throws. */
  method CollectGridData(cells: map<CellKey, CellContent>) returns (data: map<CellKey, Raster>, threw: bool)
    ensures threw <==> exists k :: k in cells && cells[k] == PlainObject
    ensures !threw ==> data.Keys == cells.Keys && forall k :: k in cells ==> cells[k] == Canvas(data[k])
  {
    data, threw := map[], false;
    var todo := cells.Keys;
    while todo != {}
      invariant todo <= cells.Keys
      invariant data.Keys == cells.Keys - todo
      invariant forall k :: k in data ==> cells[k] == Canvas(data[k])
      decreases todo
    {
      var key :| key in todo;
      match cells[key]
      case PlainObject =>
        threw := true;
        return;
      case Canvas(pixels) =>
        data := data[key := pixels];
      todo := todo - {key};
    }
  }

  /** The loop of broadcastFogUpdate: the mask of every group that has a canvas. */
  method CollectFogData(fogGroups: map<string, FogGroup>) returns (data: map<string, Raster>)
    ensures forall g :: g in data <==> g in fogGroups && fogGroups[g].mask.Some?
    ensures forall g :: g in data ==> fogGroups[g].mask == Some(data[g])
  {
    data := map[];
    var todo := fogGroups.Keys;
    while todo != {}
      invariant todo <= fogGroups.Keys
      invariant forall g :: g in data <==> g in fogGroups.Keys - todo && fogGroups[g].mask.Some?
      invariant forall g :: g in data ==> fogGroups[g].mask == Some(data[g])
      decreases todo
    {
      var group :| group in todo;
      if fogGroups[group].mask.Some? {
        data := data[group := fogGroups[group].mask.value];
      }
      todo := todo - {group};
    }
  }

  /** broadcastGridUpdate(): a guest sends nothing; the authority sends every
      cell, not only changed ones, unless a plain-object cell makes it throw. */
  method BroadcastGridUpdate(p: Session) returns (threw: bool)
    modifies p`outbox
    ensures !p.isDM ==> !threw && p.outbox == old(p.outbox)
    ensures p.isDM ==> (threw <==> exists k :: k in p.gridCells && p.gridCells[k] == PlainObject)
    ensures threw ==> p.outbox == old(p.outbox)
    ensures p.isDM && !threw ==> GridPayload(p.gridCells).Keys == p.gridCells.Keys
    ensures p.isDM && !threw ==>
      Fanout.Broadcasted(old(p.outbox), p.outbox, p.connections, p.unreachable, GridUpdate(GridPayload(p.gridCells)))
  {
    threw := false;
    if !p.isDM {
      return;
    }
    var gridData;
    gridData, threw := CollectGridData(p.gridCells);
    if threw {
      return;
    }
    assert gridData == GridPayload(p.gridCells);
    Fanout.BroadcastToPlayers(p, GridUpdate(gridData));
  }

  /** broadcastFogUpdate(): a guest sends nothing; the authority sends the
      mask of every group that has one. */
  method BroadcastFogUpdate(p: Session)
    modifies p`outbox
    ensures !p.isDM ==> p.outbox == old(p.outbox)
    ensures p.isDM ==> Fanout.Broadcasted(old(p.outbox), p.outbox, p.connections, p.unreachable,
                                          FogUpdate(FogMasks(p.fogGroups)))
  {
    if !p.isDM {
      return;
    }
    var fogData := CollectFogData(p.fogGroups);
    assert fogData == FogMasks(p.fogGroups);
    Fanout.BroadcastToPlayers(p, FogUpdate(fogData));
  }

  /** clearCurrentCell(): clears the cursor's cell and rebroadcasts the grid;
      when that cell has no entry nothing happens and nothing is sent. A
      plain-object cell has no getContext, so the call throws before any change. */
  method ClearCurrentCell(p: Session) returns (threw: bool)
    modifies p`gridCells, p`outbox
    ensures var key := CellKey(p.currentCellX, p.currentCellY);
      && (key !in old(p.gridCells) || old(p.gridCells)[key] == PlainObject ==>
            p.gridCells == old(p.gridCells) && p.outbox == old(p.outbox))
      && (key in old(p.gridCells) && old(p.gridCells)[key].Canvas? ==>
            p.gridCells == old(p.gridCells)[key := Canvas(Blank)])
      && p.gridCells.Keys == old(p.gridCells).Keys
    ensures threw <==> var key := CellKey(p.currentCellX, p.currentCellY);
      key in old(p.gridCells) && (old(p.gridCells)[key] == PlainObject ||
        (p.isDM && exists k :: k in p.gridCells && p.gridCells[k] == PlainObject))
    ensures threw || !p.isDM ==> p.outbox == old(p.outbox)
    ensures var key := CellKey(p.currentCellX, p.currentCellY);
      key in old(p.gridCells) && old(p.gridCells)[key].Canvas? && !threw && p.isDM ==>
        Fanout.Broadcasted(old(p.outbox), p.outbox, p.connections, p.unreachable, GridUpdate(GridPayload(p.gridCells)))
  {
    threw := false;
    var key := CellKey(p.currentCellX, p.currentCellY);
    if key in p.gridCells {
      if p.gridCells[key] == PlainObject {
        threw := true;
        return;
      }
      p.gridCells := p.gridCells[key := Canvas(Blank)];
      threw := BroadcastGridUpdate(p);
    }
  }
}
