/** The socket holder of src/services/socketService.js: one object with an
    optional socket. The Socket.IO transport itself is outside the model: a
    socket is an identity, emitting appends to a log, and the listener
    registry of each socket is a list of (socket, event, handler) entries. */
module Socket {
  import opened Base
  import Seqs

  /** A socket created by `io(...)`; the serial tells sockets apart. */
  datatype Sock = Sock(serial: nat)

  /** One `socket.emit(event, payload)`. */
  datatype Emission<P> = Emission(sock: Sock, event: string, payload: P)

  /** One `socket.on(event, handler)` registration; handlers are opaque ids. */
  datatype Listener = Listener(sock: Sock, event: string, handler: nat)

  const JoinRoomEvent := "join_room"
  const SendMoveEvent := "send_move"
  const GameResetEvent := "game_reset"
  const SendLocationEvent := "send_location"

  /** What one guarded emit adds to the log: one entry on the held socket, or nothing. */
  function EmitsOn<P>(socket: Option<Sock>, event: string, payload: P): (r: seq<Emission<P>>)
    ensures socket.None? ==> r == []
    ensures socket.Some? ==> |r| == 1 && r[0].sock == socket.value && r[0].event == event && r[0].payload == payload
  {
    if socket.Some? then [Emission(socket.value, event, payload)] else []
  }

  /** The registrations that `socket.off(event)` keeps: those of other events or other sockets. */
  function KeepOthers(ls: seq<Listener>, sock: Sock, event: string): (r: seq<Listener>)
    ensures forall i :: 0 <= i < |r| ==> !(r[i].sock == sock && r[i].event == event)
    ensures forall i :: 0 <= i < |ls| && !(ls[i].sock == sock && ls[i].event == event) ==> ls[i] in r
    ensures Seqs.IsSubseq(r, ls)
    ensures forall l :: multiset(r)[l] == if l.sock == sock && l.event == event then 0 else multiset(ls)[l]
  {
    var keep := (l: Listener) => !(l.sock == sock && l.event == event);
    Seqs.FilterMultiset(ls, keep);
    Seqs.Filter(ls, keep)
  }

  class SocketService<P> {
    /** The held socket, if any. */
    var socket: Option<Sock>
    /** Number of sockets created so far; their serials are 0 .. created - 1. */
    var created: nat
    /** Every emit made through a held socket, oldest first. */
    var emitted: seq<Emission<P>>
    /** Every listener registered on any socket this service has held. */
    var listeners: seq<Listener>
    /** Sockets on which `disconnect()` was called, in order. */
    var closed: seq<Sock>

    ghost predicate Valid()
      reads this
    {
      && (socket.Some? ==> socket.value.serial < created)
      && (forall i :: 0 <= i < |closed| ==> closed[i].serial < created)
    }

    /** `new SocketService()`: no socket yet. */
    constructor ()
      ensures Valid()
      ensures socket == None && created == 0
      ensures emitted == [] && listeners == [] && closed == []
    {
      socket := None;
      created := 0;
      emitted := [];
      listeners := [];
      closed := [];
    }

    /** `connect()`: returns the held socket, or creates, stores and returns a new one. */
    method Connect() returns (s: Sock)
      requires Valid()
      modifies this
      ensures Valid()
      ensures socket == Some(s)
      ensures old(socket).Some? ==> s == old(socket).value && created == old(created)
      ensures old(socket).None? ==> s == Sock(old(created)) && created == old(created) + 1
      ensures old(socket).None? ==> s !in old(closed)
      ensures emitted == old(emitted) && listeners == old(listeners) && closed == old(closed)
    {
      if socket.Some? {
        s := socket.value;
        return;
      }
      s := Sock(created);
      created := created + 1;
      socket := Some(s);
    }

    /** `disconnect()`: disconnects and forgets the held socket; nothing without one. */
    method Disconnect()
      requires Valid()
      modifies this
      ensures Valid()
      ensures socket == None
      ensures closed == if old(socket).Some? then old(closed) + [old(socket).value] else old(closed)
      ensures created == old(created) && emitted == old(emitted) && listeners == old(listeners)
    {
      if socket.Some? {
        closed := closed + [socket.value];
        socket := None;
      }
    }

    /** The guarded emit shared by the four senders below. */
    method EmitIfConnected(event: string, data: P)
      requires Valid()
      modifies this
      ensures Valid()
      ensures emitted == old(emitted) + EmitsOn(old(socket), event, data)
      ensures socket == old(socket) && created == old(created)
      ensures listeners == old(listeners) && closed == old(closed)
    {
      if socket.Some? {
        emitted := emitted + [Emission(socket.value, event, data)];
      }
    }

    /** `joinRoom(room)`: emits 'join_room' with the room when a socket is held. */
    method JoinRoom(room: P)
      requires Valid()
      modifies this
      ensures Valid()
      ensures emitted == old(emitted) + EmitsOn(old(socket), JoinRoomEvent, room)
      ensures socket == old(socket) && created == old(created)
      ensures listeners == old(listeners) && closed == old(closed)
    {
      EmitIfConnected(JoinRoomEvent, room);
    }

    /** `sendMove(data)`: emits 'send_move' when a socket is held. */
    method SendMove(data: P)
      requires Valid()
      modifies this
      ensures Valid()
      ensures emitted == old(emitted) + EmitsOn(old(socket), SendMoveEvent, data)
      ensures socket == old(socket) && created == old(created)
      ensures listeners == old(listeners) && closed == old(closed)
    {
      EmitIfConnected(SendMoveEvent, data);
    }

    /** `resetGame(data)`: emits 'game_reset' when a socket is held. */
    method ResetGame(data: P)
      requires Valid()
      modifies this
      ensures Valid()
      ensures emitted == old(emitted) + EmitsOn(old(socket), GameResetEvent, data)
      ensures socket == old(socket) && created == old(created)
      ensures listeners == old(listeners) && closed == old(closed)
    {
      EmitIfConnected(GameResetEvent, data);
    }

    /** `sendLocation(data)`: emits 'send_location' when a socket is held. */
    method SendLocation(data: P)
      requires Valid()
      modifies this
      ensures Valid()
      ensures emitted == old(emitted) + EmitsOn(old(socket), SendLocationEvent, data)
      ensures socket == old(socket) && created == old(created)
      ensures listeners == old(listeners) && closed == old(closed)
    {
      EmitIfConnected(SendLocationEvent, data);
    }

    /** `on(event, callback)`: registers on the held socket; a silent no-op without one. */
    method On(event: string, handler: nat)
      requires Valid()
      modifies this
      ensures Valid()
      ensures listeners == if old(socket).Some? then old(listeners) + [Listener(old(socket).value, event, handler)]
                           else old(listeners)
      ensures socket == old(socket) && created == old(created)
      ensures emitted == old(emitted) && closed == old(closed)
    {
      if socket.Some? {
        listeners := listeners + [Listener(socket.value, event, handler)];
      }
    }

    /** `off(event)`: removes every listener for that event name on the held socket,
        not one particular handler; a silent no-op without a socket. */
    method Off(event: string)
      requires Valid()
      modifies this
      ensures Valid()
      ensures old(socket).Some? ==> listeners == KeepOthers(old(listeners), old(socket).value, event)
      ensures old(socket).None? ==> listeners == old(listeners)
      ensures socket == old(socket) && created == old(created)
      ensures emitted == old(emitted) && closed == old(closed)
    {
      if socket.Some? {
        listeners := KeepOthers(listeners, socket.value, event);
      }
    }
  }

  /** Two successive connects return the same socket; a connect after a
      disconnect returns a socket never held or closed before. */
  method ConnectLifecycle<P>(svc: SocketService<P>) returns (a: Sock, b: Sock, c: Sock)
    requires svc.Valid()
    modifies svc
    ensures a == b
    ensures c != a && c !in old(svc.closed)
  {
    a := svc.Connect();
    b := svc.Connect();
    svc.Disconnect();
    c := svc.Connect();
  }
}
