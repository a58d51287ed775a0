/** The players' WebSocket connections, as the handlers use them: a
    connection is an opaque handle; writing appends a message to that
    handle's outbox; closing marks it closed.  A nil *websocket.Conn is
    `None`, and calling a method on it panics. */
module Sockets {
  import opened Errors
  import opened DtoGame

  type Handle = nat

  /** The event types MarshalEvent tags a payload with; Connect is also the
      dto.Event type of a connect message. */
  datatype EventKind = Connect | GameStart | ChangeTurn | ShipMoved | Reveal | Explosion | EndGame

  datatype Message = Message(kind: EventKind, payload: EventPayload)

  /** The error of writing to, or closing again, a closed connection. */
  const ErrClosed := Plain("use of closed network connection")

  /** The messages written so far to a handle. */
  function Sent(outbox: map<Handle, seq<Message>>, h: Handle): seq<Message> {
    if h in outbox then outbox[h] else []
  }

  /** The error WriteMessage returns on socket, if any. */
  function WriteError(closed: set<Handle>, socket: Option<Handle>): (e: Option<GoError>)
    ensures e == Some(NilDeref) <==> socket.None?
    ensures e.None? <==> socket.Some? && socket.value !in closed
  {
    if socket.None? then Some(NilDeref)
    else if socket.value in closed then Some(ErrClosed)
    else None
  }

  /** The outboxes after WriteMessage(msg) on socket. */
  function Delivered(outbox: map<Handle, seq<Message>>, closed: set<Handle>, socket: Option<Handle>, msg: Message): map<Handle, seq<Message>> {
    if WriteError(closed, socket).None? then outbox[socket.value := Sent(outbox, socket.value) + [msg]]
    else outbox
  }

  /** A successful write appends exactly the message to its own socket's
      outbox; a failed one changes nothing; other sockets never change. */
  lemma DeliveredEffect(outbox: map<Handle, seq<Message>>, closed: set<Handle>, socket: Option<Handle>, msg: Message)
    ensures WriteError(closed, socket).None? ==>
              Sent(Delivered(outbox, closed, socket, msg), socket.value) == Sent(outbox, socket.value) + [msg]
    ensures WriteError(closed, socket).Some? ==> Delivered(outbox, closed, socket, msg) == outbox
    ensures forall h: Handle :: Some(h) != socket ==> Sent(Delivered(outbox, closed, socket, msg), h) == Sent(outbox, h)
  {
  }

  class Network {
    var outbox: map<Handle, seq<Message>>
    var closed: set<Handle>

    constructor ()
      ensures outbox == map[] && closed == {}
    {
      outbox := map[];
      closed := {};
    }

    /** (*websocket.Conn).WriteMessage. */
    method Write(socket: Option<Handle>, msg: Message) returns (err: Option<GoError>)
      modifies this
      ensures err == WriteError(old(closed), socket)
      ensures outbox == Delivered(old(outbox), old(closed), socket, msg)
      ensures closed == old(closed)
    {
      err := WriteError(closed, socket);
      if err.None? {
        outbox := outbox[socket.value := Sent(outbox, socket.value) + [msg]];
      }
    }

    /** (*websocket.Conn).Close. */
    method Close(socket: Option<Handle>) returns (err: Option<GoError>)
      modifies this
      ensures socket.None? ==> err == Some(NilDeref) && closed == old(closed)
      ensures socket.Some? ==> closed == old(closed) + {socket.value} &&
                               err == (if socket.value in old(closed) then Some(ErrClosed) else None)
      ensures outbox == old(outbox)
    {
      if socket.None? {
        return Some(NilDeref);
      }
      err := if socket.value in closed then Some(ErrClosed) else None;
      closed := closed + {socket.value};
    }
  }
}
