/**
 The sending side of a connection: what `sendInLoop` accepts is written at once as far as the socket
 takes it and the rest goes through the output buffer, which write events drain.

 The result of every `write` is a parameter. Functors queued to the loop, also those by which other
 threads send and shut down, run later in order. History follows every payload from the call of `send`
 over the functors to `sendInLoop` and the wire.
 */
module TcpConnection {
  import B = Buffer
  import opened Endian

  datatype ConnState = Disconnected | Connecting | Connected | Disconnecting

  /** What `write` may return: a count, or an error; `Broken` is EPIPE or ECONNRESET. */
  datatype WriteResult = Wrote(n: nat) | WouldBlock | Broken | OtherError

  datatype Functor =
    | SendLater(payload: seq<Byte>)
    | ShutdownLater
    | ForceCloseLater
    | WriteComplete
    | HighWater(size: nat)

  datatype Event =
    | Established
    | Send(payload: seq<Byte>, inLoop: bool, result: WriteResult)
    | WriteReady(result: WriteResult)
    | EndOfStream
    | Shutdown(inLoop: bool)
    | ForceClose
    | RunFunctor(result: WriteResult)
    | Destroyed

  // ----- What becomes of the payloads sent -----

  /** A `send` that found the connection connected: from the loop thread, or through a functor. */
  datatype Call = Call(payload: seq<Byte>, inLoop: bool)

  /** Such a payload in `sendInLoop`, accepted or not. */
  datatype Offer = Offer(call: Call, taken: bool)

  /** The payloads sent from the loop thread, or those sent from others. */
  function Sent(calls: seq<Call>, inLoop: bool): seq<seq<Byte>> {
    if calls == [] then []
    else
      var n := |calls| - 1;
      Sent(calls[..n], inLoop) + if calls[n].inLoop == inLoop then [calls[n].payload] else []
  }

  function Offered(offers: seq<Offer>, inLoop: bool): seq<seq<Byte>> {
    if offers == [] then []
    else
      var n := |offers| - 1;
      Offered(offers[..n], inLoop) + if offers[n].call.inLoop == inLoop then [offers[n].call.payload] else []
  }

  /** The payloads still waiting in functors. */
  function Waiting(functors: seq<Functor>): seq<seq<Byte>> {
    if functors == [] then []
    else
      var n := |functors| - 1;
      Waiting(functors[..n]) + if functors[n].SendLater? then [functors[n].payload] else []
  }

  /** The bytes accepted, one payload after another. */
  function Taken(offers: seq<Offer>): seq<Byte> {
    if offers == [] then []
    else
      var n := |offers| - 1;
      Taken(offers[..n]) + if offers[n].taken then offers[n].call.payload else []
  }

  lemma CallOn(calls: seq<Call>, call: Call)
    ensures Sent(calls + [call], call.inLoop) == Sent(calls, call.inLoop) + [call.payload]
    ensures Sent(calls + [call], !call.inLoop) == Sent(calls, !call.inLoop)
  {
    assert (calls + [call])[..|calls|] == calls;
  }

  lemma OfferOn(offers: seq<Offer>, o: Offer)
    ensures Taken(offers + [o]) == if o.taken then Taken(offers) + o.call.payload else Taken(offers)
    ensures Offered(offers + [o], o.call.inLoop) == Offered(offers, o.call.inLoop) + [o.call.payload]
    ensures Offered(offers + [o], !o.call.inLoop) == Offered(offers, !o.call.inLoop)
  {
    assert (offers + [o])[..|offers|] == offers;
  }

  lemma FunctorOn(functors: seq<Functor>, f: Functor)
    ensures Waiting(functors + [f]) == if f.SendLater? then Waiting(functors) + [f.payload] else Waiting(functors)
  {
    assert (functors + [f])[..|functors|] == functors;
  }

  lemma {:induction false} FunctorOff(functors: seq<Functor>)
    requires functors != []
    ensures var rest := Waiting(functors[1..]);
      Waiting(functors) == if functors[0].SendLater? then [functors[0].payload] + rest else rest
    decreases |functors|
  {
    var n := |functors| - 1;
    if n == 0 {
      assert functors[..0] == [] && functors[1..] == [];
    } else {
      FunctorOff(functors[..n]);
      assert functors[..n][1..] == functors[1..][..n - 1];
    }
  }

  /** What notices a call of `sendInLoop` or `handleWrite` may queue. */
  predicate OnlyNotices(before: seq<Functor>, after: seq<Functor>) {
    && before <= after
    && forall i :: |before| <= i < |after| ==> after[i].WriteComplete? || after[i].HighWater?
  }

  lemma {:induction false} NoticesWaitNot(before: seq<Functor>, after: seq<Functor>)
    requires OnlyNotices(before, after)
    ensures Waiting(after) == Waiting(before)
    decreases |after|
  {
    if |after| == |before| {
      assert after == before;
    } else {
      NoticesWaitNot(before, after[..|after| - 1]);
    }
  }

  /** No functor that ends the connection. */
  predicate NoEnd(functors: seq<Functor>) {
    forall f :: f in functors ==> !f.ShutdownLater? && !f.ForceCloseLater?
  }

  lemma HeadEndNot(functors: seq<Functor>)
    requires functors != []
    ensures NoEnd(functors) ==> !functors[0].ShutdownLater? && !functors[0].ForceCloseLater? && NoEnd(functors[1..])
  {
    assert functors[0] in functors;
  }

  lemma NoticesEndNot(before: seq<Functor>, after: seq<Functor>)
    requires OnlyNotices(before, after) && NoEnd(before)
    ensures NoEnd(after)
  {
    forall f | f in after ensures !f.ShutdownLater? && !f.ForceCloseLater? {
      var i :| 0 <= i < |after| && after[i] == f;
      assert i < |before| ==> before[i] in before;
    }
  }

  /**
   Every payload sent has come to `sendInLoop` or waits in a functor, those of the loop thread in their
   order and those of other threads in theirs.
   */
  predicate Balanced(calls: seq<Call>, offers: seq<Offer>, functors: seq<Functor>) {
    Offered(offers, true) == Sent(calls, true) && Offered(offers, false) + Waiting(functors) == Sent(calls, false)
  }

  lemma NoticesBalance(calls: seq<Call>, offers: seq<Offer>, before: seq<Functor>, after: seq<Functor>)
    requires Balanced(calls, offers, before) && OnlyNotices(before, after)
    ensures Balanced(calls, offers, after)
  {
    NoticesWaitNot(before, after);
  }

  lemma OtherBalance(calls: seq<Call>, offers: seq<Offer>, functors: seq<Functor>, f: Functor)
    requires Balanced(calls, offers, functors) && !f.SendLater?
    ensures Balanced(calls, offers, functors + [f])
  {
    FunctorOn(functors, f);
  }

  lemma HereBalance(calls: seq<Call>, offers: seq<Offer>, functors: seq<Functor>, o: Offer)
    requires Balanced(calls, offers, functors) && o.call.inLoop
    ensures Balanced(calls + [o.call], offers + [o], functors)
  {
    CallOn(calls, o.call);
    OfferOn(offers, o);
  }

  lemma ElsewhereBalance(calls: seq<Call>, offers: seq<Offer>, functors: seq<Functor>, payload: seq<Byte>)
    requires Balanced(calls, offers, functors)
    ensures Balanced(calls + [Call(payload, false)], offers, functors + [SendLater(payload)])
  {
    CallOn(calls, Call(payload, false));
    FunctorOn(functors, SendLater(payload));
    assert Offered(offers, false) + (Waiting(functors) + [payload]) == Offered(offers, false) + Waiting(functors) + [payload];
  }

  lemma RunBalance(calls: seq<Call>, offers: seq<Offer>, functors: seq<Functor>, o: Offer)
    requires Balanced(calls, offers, functors) && functors != [] && functors[0] == SendLater(o.call.payload) && !o.call.inLoop
    ensures Balanced(calls, offers + [o], functors[1..])
  {
    FunctorOff(functors);
    OfferOn(offers, o);
    var rest := Waiting(functors[1..]);
    assert Offered(offers, false) + ([o.call.payload] + rest) == Offered(offers, false) + [o.call.payload] + rest;
  }

  lemma SkipBalance(calls: seq<Call>, offers: seq<Offer>, functors: seq<Functor>)
    requires Balanced(calls, offers, functors) && functors != [] && !functors[0].SendLater?
    ensures Balanced(calls, offers, functors[1..])
  {
    FunctorOff(functors);
  }

  // ----- When `send` is heard -----

  datatype Life = Early | Up | Ending

  function LifeOf(state: ConnState): Life {
    match state
    case Connecting => Early
    case Connected => Up
    case _ => Ending
  }

  function LifeAfter(life: Life, event: Event): Life {
    match life
    case Early => if event.Established? then Up else if event.EndOfStream? then Ending else Early
    case Up => if event.Shutdown? || event.ForceClose? || event.EndOfStream? || event.Destroyed? then Ending else Up
    case Ending => Ending
  }

  /** The calls of `send` heard so far and those that a run of events adds while the connection is connected. */
  function CallsHeard(calls: seq<Call>, life: Life, events: seq<Event>): seq<Call>
    decreases |events|
  {
    if events == [] then calls
    else CallsHeard(Heard(calls, life, events[0]), LifeAfter(life, events[0]), events[1..])
  }

  function Heard(calls: seq<Call>, life: Life, event: Event): seq<Call> {
    if life.Up? && event.Send? then calls + [Call(event.payload, event.inLoop)] else calls
  }

  /** All that has come to `sendInLoop` meanwhile was accepted. */
  predicate AllTaken(before: seq<Offer>, after: seq<Offer>) {
    forall k :: |before| <= k < |after| ==> after[k].taken
  }

  /** An event in which no write finds the connection broken. */
  predicate Unbroken(event: Event) {
    match event
    case Send(_, _, result) => !result.Broken?
    case RunFunctor(result) => !result.Broken?
    case _ => true
  }

  /** Some of the payload on the wire and the rest behind what waits: together what was accepted. */
  lemma WrittenAndKept(wire: seq<Byte>, waiting: seq<Byte>, accepted: seq<Byte>, payload: seq<Byte>, n: nat)
    requires wire + waiting == accepted && n <= |payload| && (n > 0 ==> waiting == [])
    ensures wire + payload[..n] + (waiting + payload[n..]) == accepted + payload
  {
    assert payload == payload[..n] + payload[n..];
  }

  /** A functor that ends the connection, or its sending side. */
  predicate EndWaits(functors: seq<Functor>) {
    ShutdownLater in functors || ForceCloseLater in functors
  }

  lemma EndOff(functors: seq<Functor>)
    requires functors != [] && !functors[0].ShutdownLater? && !functors[0].ForceCloseLater?
    ensures EndWaits(functors) ==> EndWaits(functors[1..])
  {
    assert functors == [functors[0]] + functors[1..];
  }

  lemma EndStays(before: seq<Functor>, after: seq<Functor>)
    requires before <= after && EndWaits(before)
    ensures EndWaits(after)
  {
    assert after == before + after[|before|..];
  }

  /** Notices change none of this. */
  lemma NoticesKeep(calls: seq<Call>, offers: seq<Offer>, before: seq<Functor>, after: seq<Functor>)
    requires Balanced(calls, offers, before) && OnlyNotices(before, after)
    ensures Balanced(calls, offers, after)
    ensures NoEnd(before) ==> NoEnd(after)
    ensures EndWaits(before) ==> EndWaits(after)
  {
    NoticesBalance(calls, offers, before, after);
    if NoEnd(before) {
      NoticesEndNot(before, after);
    }
    if EndWaits(before) {
      EndStays(before, after);
    }
  }

  /** The functors when so many bytes have come to wait behind others: a notice more if that passes the mark. */
  function AfterMark(functors: seq<Functor>, waiting: nat, more: nat, mark: nat, wanted: bool): seq<Functor> {
    if more > 0 && waiting < mark <= waiting + more && wanted then functors + [HighWater(waiting + more)] else functors
  }

  /** And when everything is written, if it is. */
  function AfterWrite(functors: seq<Functor>, complete: bool, wanted: bool): seq<Functor> {
    if complete && wanted then functors + [WriteComplete] else functors
  }

  class TcpConnection {
    var state: ConnState
    var writing: bool
    const output: B.Buffer
    var functors: seq<Functor>
    var writeShut: bool
    const notifyComplete: bool
    const highWaterMark: nat
    const notifyHighWater: bool
    /** All bytes the socket has taken. */
    ghost var wire: seq<Byte>
    /** The bytes accepted by `sendInLoop`, one payload after another. */
    ghost var accepted: seq<Byte>
    /** The calls of `send` that found the connection connected, and what has come to `sendInLoop` of them. */
    ghost var calls: seq<Call>
    ghost var offers: seq<Offer>

    ghost predicate Wired()
      reads this, output, output.data
    {
      && output.Valid()
      && wire <= accepted
      && (state.Disconnected? ==> !writing)
      && (!state.Disconnected? ==>
           && wire + output.Content() == accepted
           && (writing <==> output.Content() != [])
           && (writeShut ==> output.Content() == []))
    }

    /** What has been accepted is what was taken of the payloads sent, all of which are accounted for. */
    ghost predicate Accounted()
      reads this
    {
      && accepted == Taken(offers)
      && Balanced(calls, offers, functors)
      && (!LifeOf(state).Ending? ==> NoEnd(functors) && !writeShut)
    }

    /**
     A connection that is to be shut is, unless bytes wait to be written first or a functor is yet to
     end it.
     */
    ghost predicate Promised()
      requires output.Valid()
      reads this, output, output.data
    {
      state.Disconnecting? ==> writeShut || output.Content() != [] || EndWaits(functors)
    }

    ghost predicate Valid()
      reads this, output, output.data
    {
      Wired() && Accounted() && Promised()
    }

    /** The results `write` can have for this payload; a shut socket takes nothing more. */
    predicate Possible(size: nat, result: WriteResult)
      reads this
    {
      (result.Wrote? ==> result.n <= size) && (writeShut ==> result.Broken?)
    }

    /** What the socket makes of a result that it cannot have. */
    function Real(size: nat, result: WriteResult): (r: WriteResult)
      reads this
      ensures Possible(size, r) && (Possible(size, result) ==> r == result)
      ensures !writeShut && !result.Broken? ==> !r.Broken?
    {
      if writeShut then Broken else if result.Wrote? && result.n > size then Wrote(size) else result
    }

    constructor (notifyComplete: bool, highWaterMark: nat, notifyHighWater: bool)
      ensures Valid() && state.Connecting? && accepted == [] && wire == [] && calls == [] && offers == [] && !writeShut
      ensures fresh(output) && fresh(output.data)
    {
      this.notifyComplete, this.highWaterMark, this.notifyHighWater := notifyComplete, highWaterMark, notifyHighWater;
      output := new B.Buffer(1024);
      state, writing, functors, writeShut := Connecting, false, [], false;
      wire, accepted, calls, offers := [], [], [], [];
    }

    /** What the socket did not take waits in the output buffer for a write event. */
    method Keep(rest: seq<Byte>)
      requires output.Valid()
      modifies this`writing, this`functors, output, output.data
      ensures output.Valid() && (output.data == old(output.data) || fresh(output.data))
      ensures output.Content() == old(output.Content()) + rest && writing
      ensures |rest| > 0 ==>
        functors == AfterMark(old(functors), |old(output.Content())|, |rest|, highWaterMark, notifyHighWater)
      ensures OnlyNotices(old(functors), functors)
    {
      var oldLen := output.ReadableBytes();
      if oldLen + |rest| >= highWaterMark && oldLen < highWaterMark && notifyHighWater {
        functors := functors + [HighWater(oldLen + |rest|)];
      }
      output.Append(rest);
      if !writing {
        writing := true;
      }
    }

    /** The write `sendInLoop` tries while nothing waits. */
    method WriteFirst(payload: seq<Byte>, result: WriteResult) returns (nwrote: nat, fault: bool)
      requires result.Wrote? ==> result.n <= |payload|
      modifies this`functors, this`wire
      ensures nwrote == (if result.Wrote? then result.n else 0) && fault == result.Broken?
      ensures wire == old(wire) + payload[..nwrote] && OnlyNotices(old(functors), functors)
      ensures functors == AfterWrite(old(functors), result.Wrote? && result.n == |payload|, notifyComplete)
    {
      nwrote, fault := 0, false;
      if result.Wrote? {
        nwrote := result.n;
        wire := wire + payload[..nwrote];
        if nwrote == |payload| && notifyComplete {
          functors := functors + [WriteComplete];
        }
      } else if result.Broken? {
        fault := true;
      }
    }

    /** The functors after a payload has come to `sendInLoop`. */
    function AfterSend(queue: seq<Functor>, direct: bool, waiting: nat, size: nat, result: WriteResult): seq<Functor>
      requires result.Wrote? ==> result.n <= size
    {
      if !direct then AfterMark(queue, waiting, size, highWaterMark, notifyHighWater)
      else if result.Wrote? then
        AfterMark(AfterWrite(queue, result.n == size, notifyComplete), 0, size - result.n, highWaterMark, notifyHighWater)
      else if result.Broken? then queue
      else AfterMark(queue, 0, size, highWaterMark, notifyHighWater)
    }

    method SendInLoop(payload: seq<Byte>, result: WriteResult)
      requires Wired() && Possible(|payload|, result)
      modifies this`writing, this`functors, this`wire, this`accepted, output, output.data
      ensures Wired() && (output.data == old(output.data) || fresh(output.data))
      ensures OnlyNotices(old(functors), functors)
      ensures state.Disconnected? ==> wire == old(wire) && accepted == old(accepted)
      ensures !state.Disconnected? ==>
        var direct := old(output.Content()) == [];
        && accepted == (if direct && result.Broken? then old(accepted) else old(accepted) + payload)
        && wire == (if direct && result.Wrote? then old(wire) + payload[..result.n] else old(wire))
        && functors == AfterSend(old(functors), direct, |old(output.Content())|, |payload|, result)
    {
      if state.Disconnected? {
        return;
      }
      if !writing && output.ReadableBytes() == 0 {
        SendFirst(payload, result);
      } else {
        WrittenAndKept(wire, output.Content(), accepted, payload, 0);
        KeepRest(payload, 0);
      }
    }

    /** Nothing waits: a write is tried, and what it leaves of the payload is kept unless it finds the peer gone. */
    method SendFirst(payload: seq<Byte>, result: WriteResult)
      requires Wired() && Possible(|payload|, result) && !state.Disconnected? && output.Content() == []
      modifies this`writing, this`functors, this`wire, this`accepted, output, output.data
      ensures Wired() && (output.data == old(output.data) || fresh(output.data)) && OnlyNotices(old(functors), functors)
      ensures accepted == if result.Broken? then old(accepted) else old(accepted) + payload
      ensures wire == if result.Wrote? then old(wire) + payload[..result.n] else old(wire)
      ensures functors == AfterSend(old(functors), true, 0, |payload|, result)
    {
      var nwrote, fault := WriteFirst(payload, result);
      WrittenAndKept(old(wire), [], old(accepted), payload, nwrote);
      if !fault {
        KeepRest(payload, nwrote);
      }
    }

    /** The payload is accepted, and what is not written of it is kept. */
    method KeepRest(payload: seq<Byte>, nwrote: nat)
      requires output.Valid() && nwrote <= |payload|
      modifies this`writing, this`functors, this`accepted, output, output.data
      ensures output.Valid() && (output.data == old(output.data) || fresh(output.data))
      ensures accepted == old(accepted) + payload && output.Content() == old(output.Content()) + payload[nwrote..]
      ensures writing == (old(writing) || nwrote < |payload|) && OnlyNotices(old(functors), functors)
      ensures functors
        == AfterMark(old(functors), |old(output.Content())|, |payload| - nwrote, highWaterMark, notifyHighWater)
    {
      accepted := accepted + payload;
      if nwrote < |payload| {
        Keep(payload[nwrote..]);
      }
    }

    /** A payload comes to `sendInLoop`, and it is recorded what becomes of it. */
    method OfferInLoop(call: Call, result: WriteResult)
      requires Wired() && accepted == Taken(offers) && Possible(|call.payload|, result)
      modifies this`writing, this`functors, this`wire, this`accepted, this`offers, output, output.data
      ensures Wired() && accepted == Taken(offers) && (output.data == old(output.data) || fresh(output.data))
      ensures OnlyNotices(old(functors), functors)
      ensures offers == old(offers) + [Offer(call, !state.Disconnected? && !(old(output.Content()) == [] && result.Broken?))]
      ensures old(accepted) <= accepted && old(wire) <= wire
      ensures old(output.Content()) != [] && !state.Disconnected? ==> output.Content() != []
    {
      ghost var o := Offer(call, !state.Disconnected? && !(output.Content() == [] && result.Broken?));
      OfferOn(offers, o);
      ghost var waiting := |output.Content()|;
      SendInLoop(call.payload, result);
      assert !state.Disconnected? && waiting > 0 ==> |accepted| - |wire| >= waiting;
      offers := offers + [o];
    }

    method ShutdownInLoop()
      requires Wired()
      modifies this`writeShut
      ensures Wired() && writeShut == (old(writeShut) || !writing)
    {
      if !writing {
        writeShut := true;
      }
    }

    /** The output buffer has run empty: no more write interest, and the shutdown that waited for it. */
    method Drained()
      requires output.Valid() && output.Content() == [] && wire == accepted && !state.Disconnected?
      modifies this`writing, this`functors, this`writeShut
      ensures Wired() && OnlyNotices(old(functors), functors) && writeShut == (old(writeShut) || state.Disconnecting?)
      ensures functors == AfterWrite(old(functors), true, notifyComplete)
    {
      writing := false;
      if notifyComplete {
        functors := functors + [WriteComplete];
      }
      if state.Disconnecting? {
        ShutdownInLoop();
      }
    }

    method HandleWrite(result: WriteResult)
      requires Wired() && (result.Wrote? ==> result.n <= |output.Content()|)
      modifies this`writing, this`functors, this`writeShut, this`wire, output`reader, output`writer
      ensures Wired() && accepted == old(accepted) && OnlyNotices(old(functors), functors)
      ensures wire == if old(writing) && result.Wrote? then old(wire) + old(output.Content())[..result.n] else old(wire)
      ensures output.Content()
        == if old(writing) && result.Wrote? then old(output.Content())[result.n..] else old(output.Content())
      ensures writeShut && !old(writeShut) ==> wire == accepted
      ensures old(output.Content()) != [] && output.Content() == [] && state.Disconnecting? ==> writeShut
      ensures var drained := old(writing) && result.Wrote? && result.n > 0 && result.n == |old(output.Content())|;
        && writeShut == (old(writeShut) || (drained && state.Disconnecting?))
        && functors == AfterWrite(old(functors), drained, notifyComplete)
    {
      if writing {
        if result.Wrote? && result.n > 0 {
          wire := wire + output.Content()[..result.n];
          output.Retrieve(result.n);
          if output.ReadableBytes() == 0 {
            Drained();
          }
        }
      }
    }

    method HandleClose()
      requires Wired()
      modifies this`state, this`writing
      ensures Wired() && state.Disconnected?
    {
      state, writing := Disconnected, false;
    }

    method ConnectEstablished()
      requires Wired() && state.Connecting?
      modifies this`state
      ensures Wired() && state.Connected?
    {
      state := Connected;
    }

    method ConnectDestroyed()
      requires Wired()
      modifies this`state, this`writing
      ensures Wired() && state == if old(state).Connected? then Disconnected else old(state)
    {
      if state.Connected? {
        state, writing := Disconnected, false;
      }
    }

    /** `send`: refused unless connected; from another thread a copy goes to the loop. */
    method SendPayload(payload: seq<Byte>, inLoop: bool, result: WriteResult)
      requires Valid() && (inLoop ==> Possible(|payload|, result))
      modifies this`writing, this`functors, this`wire, this`accepted, this`calls, this`offers, output, output.data
      ensures Valid() && (output.data == old(output.data) || fresh(output.data))
      ensures calls == if state.Connected? then old(calls) + [Call(payload, inLoop)] else old(calls)
      ensures state.Connected? && inLoop ==>
        offers == old(offers) + [Offer(Call(payload, inLoop), !(old(output.Content()) == [] && result.Broken?))]
      ensures state.Connected? && !inLoop ==> functors == old(functors) + [SendLater(payload)]
      ensures !state.Connected? || !inLoop ==> offers == old(offers) && accepted == old(accepted)
      ensures !state.Connected? ==> functors == old(functors)
      ensures old(accepted) <= accepted && old(wire) <= wire && old(offers) <= offers
      ensures !result.Broken? ==> AllTaken(old(offers), offers)
    {
      if state.Connected? {
        if inLoop {
          SendHere(payload, result);
        } else {
          SendElsewhere(payload);
        }
      }
    }

    method SendHere(payload: seq<Byte>, result: WriteResult)
      requires Valid() && state.Connected? && Possible(|payload|, result)
      modifies this`writing, this`functors, this`wire, this`accepted, this`calls, this`offers, output, output.data
      ensures Valid() && (output.data == old(output.data) || fresh(output.data))
      ensures calls == old(calls) + [Call(payload, true)]
      ensures offers == old(offers) + [Offer(Call(payload, true), !(old(output.Content()) == [] && result.Broken?))]
      ensures old(accepted) <= accepted && old(wire) <= wire
    {
      ghost var before, offered := functors, offers;
      OfferInLoop(Call(payload, true), result);
      HereBalance(calls, offered, before, offers[|offered|]);
      calls := calls + [Call(payload, true)];
      NoticesBalance(calls, offers, before, functors);
      NoticesEndNot(before, functors);
    }

    method SendElsewhere(payload: seq<Byte>)
      requires Valid() && state.Connected?
      modifies this`functors, this`calls
      ensures Valid() && calls == old(calls) + [Call(payload, false)] && functors == old(functors) + [SendLater(payload)]
    {
      ElsewhereBalance(calls, offers, functors, payload);
      functors := functors + [SendLater(payload)];
      calls := calls + [Call(payload, false)];
    }

    /** A functor that is to end the connection goes to the loop. */
    method QueueEnd(f: Functor)
      requires Wired() && Accounted() && LifeOf(state).Ending? && (f.ShutdownLater? || f.ForceCloseLater?)
      modifies this`functors
      ensures Valid() && functors == old(functors) + [f]
    {
      OtherBalance(calls, offers, functors, f);
      functors := functors + [f];
      assert f in functors;
    }

    /** `shutdown`: one compare-and-swap, so that only one call goes on to `shutdownInLoop`. */
    method BeginShutdown(inLoop: bool)
      requires Valid()
      modifies this`state, this`functors, this`writeShut
      ensures Valid() && state == if old(state).Connected? then Disconnecting else old(state)
      ensures writeShut == (old(writeShut) || (old(state).Connected? && inLoop && !writing))
      ensures functors == if old(state).Connected? && !inLoop then old(functors) + [ShutdownLater] else old(functors)
    {
      if state.Connected? {
        state := Disconnecting;
        if inLoop {
          ShutdownInLoop();
        } else {
          QueueEnd(ShutdownLater);
        }
      }
    }

    method BeginForceClose()
      requires Valid()
      modifies this`state, this`functors
      ensures Valid() && state == if old(state).Connected? then Disconnecting else old(state)
      ensures functors
        == if old(state).Connected? || old(state).Disconnecting? then old(functors) + [ForceCloseLater] else old(functors)
    {
      if state.Connected? || state.Disconnecting? {
        state := Disconnecting;
        QueueEnd(ForceCloseLater);
      }
    }

    /** The loop runs the functor at the head of its queue; user callbacks act through further events. */
    method RunNext(result: WriteResult)
      requires Valid() && functors != []
      requires functors[0].SendLater? ==> Possible(|functors[0].payload|, result)
      modifies this`state, this`writing, this`functors, this`writeShut, this`wire, this`accepted, this`offers
      modifies output, output.data
      ensures Valid() && (output.data == old(output.data) || fresh(output.data))
      ensures LifeOf(state) == LifeOf(old(state))
      ensures OnlyNotices(old(functors)[1..], functors)
      ensures state == if old(functors)[0].ForceCloseLater? then Disconnected else old(state)
      ensures writeShut == (old(writeShut) || (old(functors)[0].ShutdownLater? && !old(writing)))
      ensures old(accepted) <= accepted && old(wire) <= wire
      ensures old(offers) <= offers && |offers| == |old(offers)| + if old(functors)[0].SendLater? then 1 else 0
      ensures old(functors)[0].SendLater? ==> offers[|old(offers)|].call == Call(old(functors)[0].payload, false)
      ensures !LifeOf(state).Ending? && !result.Broken? ==> AllTaken(old(offers), offers)
    {
      HeadEndNot(functors);
      if functors[0].SendLater? {
        RunSend(result);
      } else {
        SkipBalance(calls, offers, functors);
        var functor := functors[0];
        functors := functors[1..];
        if functor.ShutdownLater? || functor.ForceCloseLater? {
          RunEnd(functor);
        }
      }
    }

    method RunEnd(functor: Functor)
      requires Wired() && Accounted() && LifeOf(state).Ending? && (functor.ShutdownLater? || functor.ForceCloseLater?)
      modifies this`state, this`writing, this`writeShut
      ensures Valid() && LifeOf(state).Ending?
      ensures state == if functor.ForceCloseLater? then Disconnected else old(state)
      ensures writeShut == (old(writeShut) || (functor.ShutdownLater? && !old(writing)))
    {
      if functor.ShutdownLater? {
        ShutdownInLoop();
      } else if state.Connected? || state.Disconnecting? {
        HandleClose();
      }
    }

    method RunSend(result: WriteResult)
      requires Valid() && functors != [] && functors[0].SendLater? && Possible(|functors[0].payload|, result)
      modifies this`writing, this`functors, this`wire, this`accepted, this`offers, output, output.data
      ensures Valid() && (output.data == old(output.data) || fresh(output.data))
      ensures old(accepted) <= accepted && old(wire) <= wire
      ensures |offers| == |old(offers)| + 1 && old(offers) <= offers && OnlyNotices(old(functors)[1..], functors)
      ensures offers[|old(offers)|].call == Call(old(functors)[0].payload, false)
      ensures !LifeOf(state).Ending? && !result.Broken? ==> offers[|offers| - 1].taken
    {
      ghost var offered, queue := offers, functors;
      HeadEndNot(queue);
      var payload := functors[0].payload;
      functors := functors[1..];
      ghost var before := functors;
      EndOff(queue);
      OfferInLoop(Call(payload, false), result);
      RunBalance(calls, offered, queue, offers[|offered|]);
      NoticesBalance(calls, offers, before, functors);
      if !LifeOf(state).Ending? {
        NoticesEndNot(before, functors);
      }
      if EndWaits(queue) {
        EndStays(before, functors);
      }
    }

    /** A write event. */
    method WriteEvent(result: WriteResult)
      requires Valid()
      modifies this`writing, this`functors, this`writeShut, this`wire, output`reader, output`writer
      ensures Valid() && accepted == old(accepted) && old(wire) <= wire
    {
      if result.Wrote? && result.n > output.ReadableBytes() {
        WriteWaiting(Wrote(output.ReadableBytes()));
      } else {
        WriteWaiting(result);
      }
    }

    method WriteWaiting(result: WriteResult)
      requires Valid() && (result.Wrote? ==> result.n <= |output.Content()|)
      modifies this`writing, this`functors, this`writeShut, this`wire, output`reader, output`writer
      ensures Valid() && accepted == old(accepted) && old(wire) <= wire
    {
      HandleWrite(result);
      NoticesKeep(calls, offers, old(functors), functors);
    }

    /** The loop comes to its next functor, if there is one. */
    method RunEvent(result: WriteResult)
      requires Valid()
      modifies this`state, this`writing, this`functors, this`writeShut, this`wire, this`accepted, this`offers
      modifies output, output.data
      ensures Valid() && (output.data == old(output.data) || fresh(output.data)) && LifeOf(state) == LifeOf(old(state))
      ensures old(accepted) <= accepted && old(wire) <= wire && old(offers) <= offers
      ensures !LifeOf(state).Ending? && !result.Broken? ==> AllTaken(old(offers), offers)
    {
      if functors != [] {
        RunNext(if functors[0].SendLater? then Real(|functors[0].payload|, result) else result);
      }
    }

    /** What the loop does of itself, and what becomes of the connection. */
    method HandleLoop(event: Event)
      requires Valid() && !event.Send? && !event.Shutdown? && !event.ForceClose?
      modifies this`state, this`writing, this`functors, this`writeShut, this`wire, this`accepted
      modifies this`offers, output, output.data
      ensures Valid() && (output.data == old(output.data) || fresh(output.data))
      ensures LifeOf(state) == LifeAfter(LifeOf(old(state)), event)
      ensures old(accepted) <= accepted && old(wire) <= wire && old(offers) <= offers
      ensures !LifeOf(state).Ending? && Unbroken(event) ==>
        AllTaken(old(offers), offers)
    {
      match event
      case Established =>
        if state.Connecting? { ConnectEstablished(); }
      case WriteReady(result) => WriteEvent(result);
      case EndOfStream => HandleClose();
      case RunFunctor(result) => RunEvent(result);
      case Destroyed => ConnectDestroyed();
    }

    method Handle(event: Event)
      requires Valid()
      modifies this`state, this`writing, this`functors, this`writeShut, this`wire, this`accepted
      modifies this`calls, this`offers, output, output.data
      ensures Valid() && (output.data == old(output.data) || fresh(output.data))
      ensures LifeOf(state) == LifeAfter(LifeOf(old(state)), event)
      ensures calls == Heard(old(calls), LifeOf(old(state)), event)
      ensures old(accepted) <= accepted && old(wire) <= wire && old(offers) <= offers
      ensures !LifeOf(state).Ending? && Unbroken(event) ==>
        AllTaken(old(offers), offers)
    {
      if event.Send? {
        SendEvent(event);
      } else if event.Shutdown? || event.ForceClose? {
        EndEvent(event);
      } else {
        HandleLoop(event);
      }
    }

    /** The user sends. */
    method SendEvent(event: Event)
      requires Valid() && event.Send?
      modifies this`writing, this`functors, this`wire, this`accepted, this`calls, this`offers, output, output.data
      ensures Valid() && (output.data == old(output.data) || fresh(output.data))
      ensures calls == Heard(old(calls), LifeOf(state), event)
      ensures old(accepted) <= accepted && old(wire) <= wire && old(offers) <= offers
      ensures Unbroken(event) ==> AllTaken(old(offers), offers) || LifeOf(state).Ending?
    {
      SendPayload(event.payload, event.inLoop, Real(|event.payload|, event.result));
    }

    /** The user ends the connection. */
    method EndEvent(event: Event)
      requires Valid() && (event.Shutdown? || event.ForceClose?)
      modifies this`state, this`functors, this`writeShut
      ensures Valid() && LifeOf(state) == LifeAfter(LifeOf(old(state)), event)
    {
      match event
      case Shutdown(inLoop) => BeginShutdown(inLoop);
      case ForceClose => BeginForceClose();
    }
  }

  lemma HeardOn(calls: seq<Call>, life: Life, events: seq<Event>, i: nat)
    requires i < |events|
    ensures CallsHeard(calls, life, events[i..])
      == CallsHeard(Heard(calls, life, events[i]), LifeAfter(life, events[i]), events[i + 1..])
  {
    assert events[i..][1..] == events[i + 1..];
  }

  /**
   Over any run of events: until the connection is closed the bytes on the wire and those in the
   output buffer are together what was accepted, write interest is on exactly while the buffer is
   non-empty, and the write side is shut only over an empty buffer. Nothing accepted or written is
   ever taken back, and what is on the wire is always a prefix of what was accepted. A connection that is
   being shut is shut, unless bytes are still to be written or a functor is yet to end it.

   What was accepted is the payloads sent: the calls heard are those made between establishing and the
   first event that ends the connection; each has come to `sendInLoop` once, in the order of its thread
   or functors, or waits in a functor; and as long as the connection stays up and no write finds it
   broken, all that has come there was accepted.
   */
  method Drive(conn: TcpConnection, events: seq<Event>)
    requires conn.Valid()
    modifies conn, conn.output, conn.output.data
    ensures conn.Valid() && conn.wire <= conn.accepted
    ensures !conn.state.Disconnected? ==>
      && conn.wire + conn.output.Content() == conn.accepted
      && (conn.writing <==> conn.output.Content() != [])
      && (conn.writeShut ==> conn.output.Content() == [] && conn.wire == conn.accepted)
    ensures conn.state.Disconnecting? ==> conn.writeShut || conn.output.Content() != [] || EndWaits(conn.functors)
    ensures old(conn.accepted) <= conn.accepted && old(conn.wire) <= conn.wire && old(conn.offers) <= conn.offers
    ensures conn.calls == CallsHeard(old(conn.calls), LifeOf(old(conn.state)), events)
    ensures conn.accepted == Taken(conn.offers)
    ensures Balanced(conn.calls, conn.offers, conn.functors)
    ensures conn.state.Connected? && (forall i :: 0 <= i < |events| ==> Unbroken(events[i])) ==>
      AllTaken(old(conn.offers), conn.offers)
  {
    var i := 0;
    assert events[0..] == events;
    while i < |events|
      invariant i <= |events| && conn.Valid()
      invariant conn.output.data == old(conn.output.data) || fresh(conn.output.data)
      invariant old(conn.accepted) <= conn.accepted && old(conn.wire) <= conn.wire && old(conn.offers) <= conn.offers
      invariant CallsHeard(conn.calls, LifeOf(conn.state), events[i..])
        == CallsHeard(old(conn.calls), LifeOf(old(conn.state)), events)
      invariant !LifeOf(conn.state).Ending? && (forall j :: 0 <= j < i ==> Unbroken(events[j])) ==>
        AllTaken(old(conn.offers), conn.offers)
    {
      HeardOn(conn.calls, LifeOf(conn.state), events, i);
      conn.Handle(events[i]);
      i := i + 1;
    }
  }
}
