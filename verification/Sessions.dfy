/**
 The sending side of a link session (GatewayLinkSession.cc): its methods update the queue in place and
 are proved to do exactly what module SendQueue specifies. The history is kept in ghost fields.
 */
module Sessions {
  import opened SendQueue

  datatype State = Invalid | Connected | Closing | Closed

  class GatewayLinkSession<P> {
    var state: State
    var sendQueue: seq<P>
    var isWriting: bool
    var sendDropped: nat
    ghost var writer: Writer
    ghost var posted: seq<P>
    ghost var taken: seq<nat>
    ghost var written: nat

    ghost function Model(): Link<P>
      reads this
    {
      Link(state != Closing && state != Closed, sendQueue, isWriting, writer, posted, taken, written, sendDropped)
    }

    constructor ()
      ensures Model() == NewLink<P>() && state == Invalid
    {
      state, sendQueue, isWriting, sendDropped := Invalid, [], false, 0;
      writer, posted, taken, written := Absent, [], [], 0;
    }

    method Start()
      requires state == Invalid
      modifies this`state
      ensures state == Connected && Model() == old(Model())
    {
      state := Connected;
    }

    method PostSend(node: P)
      modifies this
      ensures Model() == Post(old(Model()), node) && state == old(state)
    {
      if state == Closing || state == Closed {
        return;
      }
      if |sendQueue| >= MAX_DEPTH {
        sendQueue := sendQueue[1..];
        sendDropped := sendDropped + 1;
      }
      sendQueue := sendQueue + [node];
      posted := posted + [node];
      if isWriting {
        return;
      }
      isWriting := true;
      writer := Spawned;
    }

    /** The head of the write loop: the packet to write next, if there is one. */
    method WriteLoop() returns (next: seq<P>)
      requires |sendQueue| <= |posted|
      modifies this
      ensures Model() == Next(old(Model())) && state == old(state)
      ensures next == if writer == Writing then [old(sendQueue)[0]] else []
    {
      if sendQueue == [] || state == Closing || state == Closed {
        isWriting := false;
        writer := Absent;
        return [];
      }
      next := [sendQueue[0]];
      taken := taken + [|posted| - |sendQueue|];
      sendQueue := sendQueue[1..];
      writer := Writing;
    }

    /** A write has completed: go on with the loop, or close after an error. */
    method WriteCompleted(ok: bool) returns (next: seq<P>)
      requires LinkOk(Model()) && writer == Writing
      modifies this
      ensures Model() == WriteDone(old(Model()), ok)
    {
      if !ok {
        isWriting := false;
        writer := Absent;
        CloseLink();
        return [];
      }
      written := written + 1;
      next := WriteLoop();
    }

    method CloseLink()
      modifies this
      ensures Model() == Close(old(Model())) && (old(state) == Closing || state == Closed)
    {
      if state == Closing || state == Closed {
        return;
      }
      state := Closing;
      isWriting := false;
      sendQueue := [];
      state := Closed;
    }
  }
}
