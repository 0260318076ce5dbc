/** The table of open WebSockets, one per client id
    (backend/connection_manager.py). A socket is any value of type `W`;
    what is written to a socket is recorded, in order, in `outbox`. */
module Connections {
  import opened Common

  /** A frame written to a socket: text, binary, or a JSON object
      `{"type": kind, "data": data}` sent as text. */
  datatype Frame<W> =
    | TextFrame(socket: W, text: string)
    | BytesFrame(socket: W, data: seq<byte>)
    | JsonFrame(socket: W, kind: string, payload: string)

  /** The frame `send_text` / `send_bytes` would write for `clientId`:
      one frame to that client's socket, or none for an unknown id. */
  function Forward<W>(conns: map<string, W>, clientId: string, frame: W -> Frame<W>): (r: seq<Frame<W>>)
    ensures |r| <= 1
    ensures r != [] <==> clientId in conns
    ensures r != [] ==> r == [frame(conns[clientId])]
  {
    if clientId in conns then [frame(conns[clientId])] else []
  }

  class ConnectionManager<W(==)> {
    /** `active_connections`. */
    var activeConnections: map<string, W>
    /** Every frame written to a managed socket, oldest first. */
    var outbox: seq<Frame<W>>

    /** A new manager has no connections and has written nothing. */
    constructor ()
      ensures activeConnections == map[] && outbox == []
    {
      activeConnections := map[];
      outbox := [];
    }

    /** `connect`: the accepted socket is recorded under `clientId`,
        replacing an earlier one; every other id keeps its entry. */
    method Connect(websocket: W, clientId: string)
      modifies this
      ensures activeConnections == old(activeConnections)[clientId := websocket]
      ensures outbox == old(outbox)
    {
      activeConnections := activeConnections[clientId := websocket];
    }

    /** `disconnect`: the entry of `clientId` goes if it is there, and
        nothing happens otherwise, so a second call changes nothing; every
        other id keeps its entry. */
    method Disconnect(clientId: string)
      modifies this
      ensures activeConnections == old(activeConnections) - {clientId}
      ensures clientId !in old(activeConnections) ==> activeConnections == old(activeConnections)
      ensures outbox == old(outbox)
    {
      if clientId in activeConnections {
        activeConnections := activeConnections - {clientId};
      }
    }

    /** `send_text`: written to the client's socket when the id is known,
        dropped otherwise. */
    method SendText(message: string, clientId: string)
      modifies this
      ensures activeConnections == old(activeConnections)
      ensures outbox == old(outbox) + Forward(old(activeConnections), clientId, (w: W) => TextFrame(w, message))
    {
      if clientId in activeConnections {
        outbox := outbox + [TextFrame(activeConnections[clientId], message)];
      }
    }

    /** `send_bytes`: written to the client's socket when the id is known,
        dropped otherwise. */
    method SendBytes(data: seq<byte>, clientId: string)
      modifies this
      ensures activeConnections == old(activeConnections)
      ensures outbox == old(outbox) + Forward(old(activeConnections), clientId, (w: W) => BytesFrame(w, data))
    {
      if clientId in activeConnections {
        outbox := outbox + [BytesFrame(activeConnections[clientId], data)];
      }
    }
  }
}
