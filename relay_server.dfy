/**
 * server.js as it runs: the module-level arrays `players` and `graph` become
 * fields of one object, the frames written with `ws.send` go to the field
 * `sent`, and each event handler is a method proved to make exactly the
 * transition that RelaySpec describes for it.
 */
module RelayServer {
  import opened Wrappers
  import opened RelaySpec

  class Server {
    /** The registered sockets, in connection order (line 4). */
    var players: seq<Socket>
    /** The shared graph (line 5). */
    var graph: seq<Node>
    /** Every frame handed to `ws.send`, in the order it was sent: a record
        of the relay's effects, kept for the proof only. */
    ghost var sent: seq<Delivery>

    ghost function Current(): State
      reads this
    {
      State(players, graph, sent)
    }

    ghost predicate Valid()
      reads this
    {
      Inv(Current())
    }

    /** Process start: nothing registered, empty graph, nothing sent. */
    constructor ()
      ensures Valid() && Current() == Initial
    {
      players, graph, sent := [], [], [];
    }

    /** The connection handler (lines 7-9 and 25). The transport hands over a
        new socket, given here by its `handle`; `stamp` is the value of
        `Date.now() + Math.random()`. */
    method Connect(handle: nat, stamp: real) returns (ws: Socket)
      requires Valid()
      requires Fresh(Current(), Socket(handle, stamp))
      modifies this
      ensures ws == Socket(handle, stamp)
      ensures Valid() && Current() == ConnectStep(old(Current()), ws)
    {
      ws := Socket(handle, stamp);
      players := players + [ws];
      sent := sent + [Delivery(ws, UpdateGraph(graph))];
      InvStep(old(Current()), Opened(ws));
    }

    /** `broadcast(msg)` (lines 28-30): send `msg` to each registered socket
        in turn. */
    method Broadcast(msg: Outgoing)
      modifies this`sent
      ensures sent == old(sent) + Fanout(players, msg)
    {
      var i := 0;
      while i < |players|
        invariant 0 <= i <= |players|
        invariant sent == old(sent) + Fanout(players[..i], msg)
      {
        assert players[..i + 1][..i] == players[..i];
        sent := sent + [Delivery(players[i], msg)];
        i := i + 1;
      }
      assert players[..i] == players;
    }

    /** The message handler of socket `ws` (lines 11-18); `now` is the value
        of `Date.now()` used as the node id. */
    method OnMessage(ws: Socket, m: Message, now: int)
      requires Valid()
      modifies this
      ensures Valid() && Current() == MessageStep(old(Current()), ws, m, now)
    {
      if IsNodeChoice(m) {
        graph := graph + [Node(now, ws.id, m.color, m.word)];
        Broadcast(UpdateGraph(graph));
      }
      InvStep(old(Current()), Received(ws, m, now));
    }

    /** The close handler of socket `ws` (lines 20-22). */
    method OnClose(ws: Socket)
      requires Valid()
      modifies this
      ensures Valid() && Current() == CloseStep(old(Current()), ws)
    {
      players := Without(players, ws);
      InvStep(old(Current()), Closed(ws));
    }
  }
}
