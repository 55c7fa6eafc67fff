/** The write side of the XMPP socket: a buffer drained by partial sends. */
module XmppSocket {
  import opened Text

  /** The wrapped socket.  A send takes any prefix of what it is offered, or nothing
      and reports an error or that it would block. */
  class CricketSocket {
    ghost var accepted: seq<Byte>     // all bytes taken so far
    ghost var refused: bool           // the last send took nothing

    constructor ()
      ensures accepted == [] && !refused
    {
      accepted, refused := [], false;
    }

    method Send(data: seq<Byte>) returns (written: int)
      modifies this
      ensures written <= |data|
      ensures written > 0 ==> accepted == old(accepted) + data[..written] && !refused
      ensures written <= 0 ==> accepted == old(accepted) && refused
    {
      written :| written <= |data|;
      refused := written <= 0;
      if written > 0 {
        accepted := accepted + data[..written];
      }
    }
  }

  datatype SocketState = StateClosed | StateOpen | TlsConnecting | TlsOpen

  class TinCanXmppSocket {
    const cricketSocket: CricketSocket
    var state: SocketState
    var buffer: seq<Byte>
    ghost var written: seq<Byte>      // all bytes ever passed to `Write`

    /** Stream conservation: what the socket took, then the buffer, is what was written. */
    ghost predicate Valid()
      reads this, cricketSocket
    {
      cricketSocket.accepted + buffer == written
    }

    constructor (socket: CricketSocket)
      requires socket.accepted == []
      ensures Valid() && cricketSocket == socket && written == [] && state == StateClosed
    {
      cricketSocket := socket;
      state, buffer, written := StateClosed, [], [];
    }

    /** Drains the buffer until it is empty or a send takes nothing. */
    method OnWriteEvent()
      requires Valid()
      modifies this`buffer, cricketSocket
      ensures Valid()
      ensures old(cricketSocket.accepted) <= cricketSocket.accepted
      ensures buffer == [] || cricketSocket.refused
      ensures cricketSocket.accepted + buffer == old(cricketSocket.accepted + buffer)
    {
      while |buffer| != 0
        invariant Valid()
        invariant old(cricketSocket.accepted) <= cricketSocket.accepted
        invariant cricketSocket.accepted + buffer == old(cricketSocket.accepted + buffer)
        decreases |buffer|
      {
        ghost var before, rest := cricketSocket.accepted, buffer;
        var n := cricketSocket.Send(buffer);
        if n > 0 {
          buffer := buffer[n..];
          assert before + rest == before + (rest[..n] + rest[n..]);
          assert (before + rest[..n]) + rest[n..] == before + (rest[..n] + rest[n..]);
          continue;
        }
        return;
      }
    }

    method Write(data: seq<Byte>) returns (ok: bool)
      requires Valid()
      modifies this`buffer, this`written, cricketSocket
      ensures ok && Valid()
      ensures written == old(written) + data
      ensures old(cricketSocket.accepted) <= cricketSocket.accepted
      ensures buffer == [] || cricketSocket.refused
    {
      ghost var accepted := cricketSocket.accepted;
      assert accepted + (buffer + data) == (accepted + buffer) + data;
      buffer := buffer + data;
      written := written + data;
      OnWriteEvent();
      ok := true;
    }

    /** Only a socket that was starting TLS drains its buffer when it connects. */
    method OnConnectEvent()
      requires Valid()
      modifies this`buffer, this`state, cricketSocket
      ensures Valid()
      ensures state == if old(state) == TlsConnecting then TlsOpen else StateOpen
      ensures old(state) == TlsConnecting ==> buffer == [] || cricketSocket.refused
      ensures old(state) != TlsConnecting ==>
                buffer == old(buffer) && cricketSocket.accepted == old(cricketSocket.accepted)
    {
      if state == TlsConnecting {
        state := TlsOpen;
        OnWriteEvent();
        return;
      }
      state := StateOpen;
    }
  }

  datatype SocketEvent = Written(data: seq<Byte>) | Writable | Connect

  function WrittenIn(events: seq<SocketEvent>): seq<Byte> {
    if events == [] then []
    else
      var e := events[|events| - 1];
      WrittenIn(events[..|events| - 1]) + if e.Written? then e.data else []
  }

  /** Over any sequence of writes, write events and connects on a new socket, with any
      partial or blocked sends: the bytes the socket took, followed by the buffer,
      are all the bytes written, in order. */
  method RunEvents(events: seq<SocketEvent>) returns (xmpp: TinCanXmppSocket)
    ensures fresh(xmpp) && xmpp.Valid()
    ensures xmpp.cricketSocket.accepted + xmpp.buffer == WrittenIn(events)
  {
    var socket := new CricketSocket();
    xmpp := new TinCanXmppSocket(socket);
    for i := 0 to |events|
      invariant fresh(xmpp) && fresh(xmpp.cricketSocket) && xmpp.Valid()
      invariant xmpp.written == WrittenIn(events[..i])
    {
      assert events[..i + 1][..i] == events[..i];
      match events[i]
      case Written(data) => var _ := xmpp.Write(data);
      case Writable => xmpp.OnWriteEvent();
      case Connect => xmpp.OnConnectEvent();
    }
    assert events[..|events|] == events;
  }
}
