/** TcpConnection: who is responsible for closing a direct socket. */
module Connection {
  type Byte = bv8

  // The ownership state of a connection. Slots are indices into a ring's table of direct files;
  // -1 is no slot.
  datatype Conn = Conn(socket: int, inSysRing: int, inThisRing: int, ownedInSysRing: bool)

  const NO_SLOT := -1

  // The connection that accept() makes, on the main ring.
  function Accepted(slot: int): Conn { Conn(slot, slot, NO_SLOT, true) }

  // What a move leaves behind.
  function MovedFrom(c: Conn): Conn { Conn(NO_SLOT, NO_SLOT, NO_SLOT, c.ownedInSysRing) }

  function Released(c: Conn): Conn { c.(inSysRing := NO_SLOT, ownedInSysRing := false) }

  function Rebound(c: Conn, slot: int): Conn { c.(socket := slot, inThisRing := slot, ownedInSysRing := false) }

  // The close a destructor issues: on the main ring, on the ring of its own thread, or none.
  datatype CloseRequest = NoClose | CloseInSysRing(slot: int) | CloseInThisRing(slot: int)

  function DestructorClose(c: Conn): CloseRequest {
    if c.ownedInSysRing then CloseInSysRing(c.socket)
    else if c.inThisRing > -1 then CloseInThisRing(c.socket)
    else NoClose
  }

  // What the destructor leaves in the fields.
  function Destroyed(c: Conn): Conn {
    if c.ownedInSysRing then c.(socket := NO_SLOT, inSysRing := NO_SLOT)
    else c.(socket := NO_SLOT, inThisRing := NO_SLOT)
  }

  datatype ReleaseResult = ReleaseOk | NotOwnedInMainRing

  class TcpConnection {
    var socket: int
    var inSysRing: int
    var inThisRing: int
    var ownedInSysRing: bool
    var sendBuffer: seq<Byte>
    var receiveBuffer: seq<Byte>

    function V(): Conn
      reads this
    {
      Conn(socket, inSysRing, inThisRing, ownedInSysRing)
    }

    constructor (slot: int)
      ensures V() == Accepted(slot) && socket == inSysRing == slot && inThisRing == -1 && ownedInSysRing
      ensures sendBuffer == [] && receiveBuffer == []
    {
      socket, inSysRing, inThisRing, ownedInSysRing := slot, slot, -1, true;
      sendBuffer, receiveBuffer := [], [];
    }

    constructor Move(rhs: TcpConnection)
      modifies rhs
      ensures V() == old(rhs.V()) && rhs.V() == MovedFrom(old(rhs.V()))
      ensures rhs.socket == rhs.inSysRing == rhs.inThisRing == -1 && rhs.ownedInSysRing == old(rhs.ownedInSysRing)
      ensures rhs.sendBuffer == rhs.receiveBuffer == []
      ensures sendBuffer == old(rhs.sendBuffer) && receiveBuffer == old(rhs.receiveBuffer)
    {
      socket, inSysRing, inThisRing := rhs.socket, rhs.inSysRing, rhs.inThisRing;
      sendBuffer, receiveBuffer := rhs.sendBuffer, rhs.receiveBuffer;
      ownedInSysRing := rhs.ownedInSysRing;
      new;
      rhs.socket, rhs.inSysRing, rhs.inThisRing := -1, -1, -1;
      rhs.sendBuffer, rhs.receiveBuffer := [], [];
    }

    // Move assignment; the slot the target was responsible for is not closed. Assigning a
    // connection to itself changes nothing but may empty its buffers.
    method MoveAssign(rhs: TcpConnection)
      modifies this, rhs
      ensures V() == old(rhs.V()) && (rhs != this ==> rhs.V() == MovedFrom(old(rhs.V())))
      ensures rhs != this ==> sendBuffer == old(rhs.sendBuffer) && receiveBuffer == old(rhs.receiveBuffer)
      ensures rhs != this ==> rhs.socket == rhs.inSysRing == rhs.inThisRing == -1
      ensures rhs != this ==>
        rhs.ownedInSysRing == old(rhs.ownedInSysRing) && rhs.sendBuffer == rhs.receiveBuffer == []
    {
      var t := rhs.socket;
      rhs.socket := -1;
      socket := t;
      t := rhs.inSysRing;
      rhs.inSysRing := -1;
      inSysRing := t;
      t := rhs.inThisRing;
      rhs.inThisRing := -1;
      inThisRing := t;
      var sent, received := rhs.sendBuffer, rhs.receiveBuffer;
      rhs.sendBuffer, rhs.receiveBuffer := [], [];
      sendBuffer, receiveBuffer := sent, received;
      ownedInSysRing := rhs.ownedInSysRing;
    }

    method Release() returns (r: ReleaseResult)
      modifies `inSysRing, `ownedInSysRing
      ensures r.ReleaseOk? <==> old(ownedInSysRing)
      ensures V() == if r.ReleaseOk? then Released(old(V())) else old(V())
      ensures r.ReleaseOk? ==> inSysRing == -1 && !ownedInSysRing
    {
      if !ownedInSysRing { return NotOwnedInMainRing; }
      inSysRing, ownedInSysRing := -1, false;
      r := ReleaseOk;
    }

    method SetSubringSocket(slot: int)
      modifies `socket, `inThisRing, `ownedInSysRing
      ensures V() == Rebound(old(V()), slot)
      ensures socket == inThisRing == slot && !ownedInSysRing
    {
      socket, inThisRing, ownedInSysRing := slot, slot, false;
    }

    // The destructor, returning the close it issues.
    method Destroy() returns (close: CloseRequest)
      modifies `socket, `inSysRing, `inThisRing
      ensures close == DestructorClose(old(V()))
      ensures V() == Destroyed(old(V()))
      ensures close == (if old(ownedInSysRing) then CloseInSysRing(old(socket))
                        else if old(inThisRing) >= 0 then CloseInThisRing(old(socket)) else NoClose)
      ensures socket == -1 && (if ownedInSysRing then inSysRing == -1 else inThisRing == -1)
    {
      close := NoClose;
      if ownedInSysRing {
        close := CloseInSysRing(socket);
        inSysRing := -1;
      } else {
        if inThisRing > -1 { close := CloseInThisRing(socket); }
        inThisRing := -1;
      }
      socket := -1;
    }
  }
}
