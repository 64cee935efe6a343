/** Sending from the connection registry (js/networking.js, broadcastToPlayers
    and sendToPeer): a send that throws is caught and the rest go on. */
module Fanout {
  import opened Model
  import opened Context

  /** The peers of the approved connections. */
  function Approved(connections: map<string, ConnectionRecord>): set<string> {
    set peer | peer in connections && connections[peer].approved
  }

  /** The peers a list of outgoing items is addressed to. */
  function Recipients(d: seq<Outgoing>): set<string> {
    set i | 0 <= i < |d| :: d[i].to
  }

  /** d sends msg once to each approved peer and to nobody else; each send is
      delivered unless that peer's transport throws. */
  ghost predicate IsFanOut(d: seq<Outgoing>, connections: map<string, ConnectionRecord>,
                           unreachable: set<string>, msg: Message)
  {
    && Recipients(d) == Approved(connections)
    && (forall i, j :: 0 <= i < j < |d| ==> d[i].to != d[j].to)
    && (forall i :: 0 <= i < |d| ==> d[i] == Send(d[i].to, msg, d[i].to !in unreachable))
  }

  /** `after` is `before` followed by a fan-out of msg. */
  ghost predicate Broadcasted(before: seq<Outgoing>, after: seq<Outgoing>,
                              connections: map<string, ConnectionRecord>,
                              unreachable: set<string>, msg: Message)
  {
    |before| <= |after| && after[..|before|] == before &&
    IsFanOut(after[|before|..], connections, unreachable, msg)
  }

  /** The loop of broadcastToPlayers over the connection map: the sends it
      makes, in the order it visits the peers. */
  method FanOut(connections: map<string, ConnectionRecord>, unreachable: set<string>, msg: Message)
    returns (d: seq<Outgoing>)
    ensures Recipients(d) == Approved(connections)
    ensures forall i, j :: 0 <= i < j < |d| ==> d[i].to != d[j].to
    ensures forall i :: 0 <= i < |d| ==> d[i] == Send(d[i].to, msg, d[i].to !in unreachable)
  {
    d := [];
    var todo := connections.Keys;
    while todo != {}
      invariant todo <= connections.Keys
      invariant Recipients(d) == Approved(connections) - todo
      invariant forall i :: 0 <= i < |d| ==> d[i].to !in todo
      invariant forall i, j :: 0 <= i < j < |d| ==> d[i].to != d[j].to
      invariant forall i :: 0 <= i < |d| ==> d[i] == Send(d[i].to, msg, d[i].to !in unreachable)
      decreases todo
    {
      var peer :| peer in todo;
      if connections[peer].approved {
        // sendToPeer: a throwing send is caught and only logged
        var sent := Send(peer, msg, peer !in unreachable);
        assert Recipients(d + [sent]) == Recipients(d) + {peer} by {
          assert forall i :: 0 <= i < |d| ==> (d + [sent])[i] == d[i];
          assert (d + [sent])[|d|] == sent;
        }
        d := d + [sent];
      }
      todo := todo - {peer};
    }
  }

  /** broadcastToPlayers(data). */
  method BroadcastToPlayers(p: Session, msg: Message)
    modifies p`outbox
    ensures Broadcasted(old(p.outbox), p.outbox, p.connections, p.unreachable, msg)
  {
    var d := FanOut(p.connections, p.unreachable, msg);
    assert (p.outbox + d)[|p.outbox|..] == d;
    p.outbox := p.outbox + d;
  }

  /** sendToPeer(conn, data): one send, caught if it throws. */
  method SendToPeer(p: Session, to: string, msg: Message)
    modifies p`outbox
    ensures p.outbox == old(p.outbox) + [Send(to, msg, to !in p.unreachable)]
  {
    p.outbox := p.outbox + [Send(to, msg, to !in p.unreachable)];
  }
}
