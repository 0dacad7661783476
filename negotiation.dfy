/**
  The page's signalling and negotiation state (demo.js:4-7, 34-105,
  225-293, 356-377): the module-level globals `peerConnection`,
  `dataChannel`, `candidates` and `hasReceivedSdp`, and the handlers that
  read and write them.

  The browser's WebRTC engine and the signalling socket are outside the
  model. What the page asks of the engine is appended to `engine`, what it
  sends on the socket to `wire`. The engine's answer to a request the page
  awaits comes back as the argument of a later method: each `await` is an
  entry of `pending`, and the code after it is the method that consumes that
  entry. The one piece of engine state the page reads back,
  `localDescription`, is kept in `local`.
*/
module Negotiation {
  import opened Options
  import Sdp

  datatype SdpType = Offer | Answer

  /** An RTCSessionDescription: its type and its SDP text. */
  datatype SessionDescription = SessionDescription(kind: SdpType, sdp: string)

  /** A parsed signalling message: its `type`, its `sdp` and its `ice` candidate. */
  datatype Message = Message(kind: string, sdp: string, ice: string)

  /** RTCPeerConnection.iceConnectionState. */
  datatype IceConnectionState = New | Checking | Connected | Completed | Failed | Disconnected | Closed

  /** RTCDataChannel.readyState. */
  datatype ChannelState = Connecting | Open | Closing | ChannelClosed

  /** What the page asks of the WebRTC engine; connections and their data channels are numbered. */
  datatype EngineCall =
    | CreateConnection(conn: nat)
    | CreateOffer(conn: nat)
    | CreateAnswer(conn: nat)
    | SetLocal(conn: nat, desc: SessionDescription)
    | SetRemote(conn: nat, desc: SessionDescription)
    | AddCandidate(conn: nat, candidate: string)
    | CloseConnection(conn: nat)
    | ChannelSend(channel: nat, data: string)

  /** What the page sends on the signalling socket: a session description (`null` is None) or the close notice. */
  datatype Outbound = SdpMessage(desc: Option<SessionDescription>) | CloseMessage

  /** An `await` the page is suspended in, with the locals the code after it uses. */
  datatype Await =
    | OfferCreating                                       // demo.js:228
    | OfferCommitting(conn: nat, desc: SessionDescription) // demo.js:238
    | AnswerCreating                                      // demo.js:253
    | AnswerCommitting(conn: nat, desc: SessionDescription) // demo.js:255
    | RemoteAnswerSetting                                 // demo.js:287

  /** How a handler ends: normally, or with an exception nobody catches. */
  datatype Completion = Normal | Threw

  /** Every field of the page's state, so that a handler's effect can be stated as one update. */
  datatype State = State(
    peerConnection: Option<nat>,
    dataChannel: Option<nat>,
    candidates: seq<string>,
    hasReceivedSdp: bool,
    nextConn: nat,
    pending: multiset<Await>,
    local: map<nat, SessionDescription>,
    engine: seq<EngineCall>,
    wire: seq<Outbound>)

  /** An offer the page commits carries no VP9 rtpmap line; answers are not filtered. */
  ghost predicate Filtered(d: SessionDescription) {
    d.kind == Offer ==> !Sdp.HasRtpmap(d.sdp, "VP9")
  }

  /** Every description waiting to be committed is filtered. */
  ghost predicate PendingFiltered(p: multiset<Await>) {
    forall a :: a in p && (a.OfferCommitting? || a.AnswerCommitting?) ==> Filtered(a.desc)
  }

  lemma PendingAdd(p: multiset<Await>, a: Await)
    requires PendingFiltered(p)
    requires a.OfferCommitting? || a.AnswerCommitting? ==> Filtered(a.desc)
    ensures PendingFiltered(p + multiset{a})
  {
  }

  /** The offer makeOffer commits for the engine's `sdp` (demo.js:236-238). */
  method StrippedOffer(sdp: string) returns (d: SessionDescription)
    ensures d == SessionDescription(Offer, Sdp.StripVideoCodecs(sdp))
    ensures Filtered(d)
  {
    d := SessionDescription(Offer, Sdp.StripVideoCodecs(sdp));
  }

  /** The engine calls addIceCandidate makes for `cs`, in order, on connection `conn`; none without a connection. */
  function Delivered(conn: Option<nat>, cs: seq<string>): (r: seq<EngineCall>)
    ensures conn.None? ==> r == []
    ensures forall k :: 0 <= k < |r| ==> r[k].AddCandidate? && r[k].conn == conn.value && r[k].candidate in cs
  {
    if conn.None? || cs == [] then [] else [AddCandidate(conn.value, cs[0])] + Delivered(conn, cs[1..])
  }

  lemma {:induction false} DeliveredAppend(conn: Option<nat>, a: seq<string>, b: seq<string>)
    ensures Delivered(conn, a + b) == Delivered(conn, a) + Delivered(conn, b)
  {
    if conn.Some? && a != [] {
      assert (a + b)[1..] == a[1..] + b;
      DeliveredAppend(conn, a[1..], b);
    } else if a == [] {
      assert a + b == b;
    }
  }

  /** With a connection, every candidate is handed over exactly once, in arrival order. */
  lemma {:induction false} DeliveredInOrder(conn: nat, cs: seq<string>)
    ensures |Delivered(Some(conn), cs)| == |cs|
    ensures forall k :: 0 <= k < |cs| ==> Delivered(Some(conn), cs)[k] == AddCandidate(conn, cs[k])
  {
    if cs != [] {
      DeliveredInOrder(conn, cs[1..]);
    }
  }

  class Negotiator {
    var peerConnection: Option<nat>
    var dataChannel: Option<nat>
    var candidates: seq<string>
    var hasReceivedSdp: bool
    /** The number the next connection gets. */
    var nextConn: nat
    var pending: multiset<Await>
    /** The engine's localDescription of each connection. */
    var local: map<nat, SessionDescription>
    var engine: seq<EngineCall>
    var wire: seq<Outbound>

    function St(): State
      reads this
    {
      State(peerConnection, dataChannel, candidates, hasReceivedSdp, nextConn, pending, local, engine, wire)
    }

    /**
      Candidates are buffered only until the first description is in place;
      connections are numbered in order; every offer the page commits, and so
      every offer it sends, has been stripped of VP9.
    */
    ghost predicate Valid()
      reads this
    {
      && (hasReceivedSdp ==> candidates == [])
      && (peerConnection.Some? ==> peerConnection.value < nextConn)
      && (dataChannel.Some? ==> dataChannel.value < nextConn)
      && PendingFiltered(pending)
      && (forall c :: c in local ==> Filtered(local[c]))
      && (forall k :: 0 <= k < |wire| && wire[k].SdpMessage? && wire[k].desc.Some? ==> Filtered(wire[k].desc.value))
    }

    /** The globals as the page loads (demo.js:4-7). */
    constructor ()
      ensures Valid()
      ensures St() == State(None, None, [], false, 0, multiset{}, map[], [], [])
    {
      peerConnection := None;
      dataChannel := None;
      candidates := [];
      hasReceivedSdp := false;
      nextConn := 0;
      pending := multiset{};
      local := map[];
      engine := [];
      wire := [];
    }

    /** prepareNewConnection (demo.js:118-196) as far as the globals see it: a new connection whose data channel becomes `dataChannel`. */
    method PrepareNewConnection() returns (c: nat)
      requires Valid()
      modifies this
      ensures Valid()
      ensures c == old(nextConn)
      ensures St() == old(St()).(dataChannel := Some(c), nextConn := c + 1, engine := old(engine) + [CreateConnection(c)])
    {
      c := nextConn;
      engine := engine + [CreateConnection(c)];
      dataChannel := Some(c);
      nextConn := nextConn + 1;
    }

    /** connect (demo.js:61-70): an offer is started only when there is no connection. */
    method Connect()
      requires Valid()
      modifies this
      ensures Valid()
      ensures old(peerConnection).Some? ==> St() == old(St())
      ensures old(peerConnection).None? ==>
        var c := old(nextConn);
        St() == old(St()).(
          peerConnection := Some(c), dataChannel := Some(c), nextConn := c + 1,
          pending := old(pending) + multiset{OfferCreating},
          engine := old(engine) + [CreateConnection(c), CreateOffer(c)])
    {
      if peerConnection.None? {
        MakeOffer();
      }
    }

    /**
      makeOffer up to its first await (demo.js:225-233): the new connection
      becomes `peerConnection` at once, before any offer exists.
    */
    method MakeOffer()
      requires Valid()
      modifies this
      ensures Valid()
      ensures var c := old(nextConn);
        St() == old(St()).(
          peerConnection := Some(c), dataChannel := Some(c), nextConn := c + 1,
          pending := old(pending) + multiset{OfferCreating},
          engine := old(engine) + [CreateConnection(c), CreateOffer(c)])
    {
      var c := PrepareNewConnection();
      peerConnection := Some(c);
      engine := engine + [CreateOffer(c)];
      pending := pending + multiset{OfferCreating};
    }

    /**
      makeOffer after createOffer settles (demo.js:233-243); `offer` is None
      when it rejected. The offer is stripped of VP8 and then of VP9 and set
      as the local description of whatever `peerConnection` is by now; with
      none, the TypeError is caught and logged.
    */
    method OfferCreated(offer: Option<string>)
      requires Valid() && OfferCreating in pending
      modifies this
      ensures Valid()
      ensures offer.None? || old(peerConnection).None? ==>
        St() == old(St()).(pending := old(pending) - multiset{OfferCreating})
      ensures offer.Some? && old(peerConnection).Some? ==>
        var c := old(peerConnection).value;
        var desc := SessionDescription(Offer, Sdp.StripVideoCodecs(offer.value));
        St() == old(St()).(pending := old(pending) - multiset{OfferCreating} + multiset{OfferCommitting(c, desc)},
                           engine := old(engine) + [SetLocal(c, desc)])
    {
      pending := pending - multiset{OfferCreating};
      if offer.Some? && peerConnection.Some? {
        var c := peerConnection.value;
        var desc := StrippedOffer(offer.value);
        Commit(OfferCommitting(c, desc));
      }
    }

    /** Asks the engine to set `a.desc` as the local description of `a.conn`, and awaits it. */
    method Commit(a: Await)
      requires Valid() && (a.OfferCommitting? || a.AnswerCommitting?) && Filtered(a.desc)
      modifies this
      ensures Valid()
      ensures St() == old(St()).(pending := old(pending) + multiset{a}, engine := old(engine) + [SetLocal(a.conn, a.desc)])
    {
      engine := engine + [SetLocal(a.conn, a.desc)];
      pending := pending + multiset{a};
    }

    /** sendSdp(peerConnection.localDescription) (demo.js:218-223); with no connection the TypeError ends the handler. */
    method SendLocalDescription()
      requires Valid()
      modifies this
      ensures Valid()
      ensures old(peerConnection).None? ==> St() == old(St())
      ensures old(peerConnection).Some? ==>
        var c := old(peerConnection).value;
        St() == old(St()).(wire := old(wire) + [SdpMessage(if c in local then Some(local[c]) else None)])
    {
      if peerConnection.Some? {
        var c := peerConnection.value;
        var d := if c in local then Some(local[c]) else None;
        wire := wire + [SdpMessage(d)];
      }
    }

    /**
      makeOffer after setLocalDescription settles (demo.js:238-243): on
      success the engine holds the offer, and the local description of the
      current connection is sent.
    */
    method OfferCommitted(a: Await, ok: bool)
      requires Valid() && a in pending && a.OfferCommitting?
      modifies this
      ensures Valid()
      ensures var rest := old(St()).(pending := old(pending) - multiset{a});
        if !ok then St() == rest
        else if old(peerConnection).None? then St() == rest.(local := old(local)[a.conn := a.desc])
        else
          var c := old(peerConnection).value;
          var l := old(local)[a.conn := a.desc];
          St() == rest.(local := l, wire := old(wire) + [SdpMessage(if c in l then Some(l[c]) else None)])
    {
      Settle(a, ok);
      if ok {
        SendLocalDescription();
      }
    }

    /** The engine settles the awaited setLocalDescription `a`: on success it holds `a.desc` for `a.conn`. */
    method Settle(a: Await, ok: bool)
      requires Valid() && a in pending && (a.OfferCommitting? || a.AnswerCommitting?)
      modifies this
      ensures Valid()
      ensures St() == old(St()).(pending := old(pending) - multiset{a},
                                 local := if ok then old(local)[a.conn := a.desc] else old(local))
    {
      pending := pending - multiset{a};
      if ok {
        local := local[a.conn := a.desc];
      }
    }

    /** makeAnswer up to its first await (demo.js:246-253): nothing without a connection. */
    method MakeAnswer()
      requires Valid()
      modifies this
      ensures Valid()
      ensures old(peerConnection).None? ==> St() == old(St())
      ensures old(peerConnection).Some? ==>
        St() == old(St()).(pending := old(pending) + multiset{AnswerCreating},
                           engine := old(engine) + [CreateAnswer(old(peerConnection).value)])
    {
      if peerConnection.None? {
        return;
      }
      engine := engine + [CreateAnswer(peerConnection.value)];
      pending := pending + multiset{AnswerCreating};
    }

    /** makeAnswer after createAnswer settles (demo.js:253-255); `answer` is None when it rejected. */
    method AnswerCreated(answer: Option<string>)
      requires Valid() && AnswerCreating in pending
      modifies this
      ensures Valid()
      ensures var rest := old(St()).(pending := old(pending) - multiset{AnswerCreating});
        if answer.Some? && old(peerConnection).Some? then
          var c := old(peerConnection).value;
          var desc := SessionDescription(Answer, answer.value);
          St() == rest.(pending := rest.pending + multiset{AnswerCommitting(c, desc)},
                        engine := old(engine) + [SetLocal(c, desc)])
        else St() == rest
    {
      pending := pending - multiset{AnswerCreating};
      if answer.Some? && peerConnection.Some? {
        var c := peerConnection.value;
        Commit(AnswerCommitting(c, SessionDescription(Answer, answer.value)));
      }
    }

    /**
      makeAnswer after setLocalDescription settles (demo.js:255-258): the
      answer is sent and the buffered candidates drained; without a
      connection the TypeError in sendSdp skips the drain.
    */
    method AnswerCommitted(a: Await, ok: bool)
      requires Valid() && a in pending && a.AnswerCommitting?
      modifies this
      ensures Valid()
      ensures !ok ==> St() == old(St()).(pending := old(pending) - multiset{a})
      ensures ok && old(peerConnection).None? ==>
        St() == old(St()).(pending := old(pending) - multiset{a}, local := old(local)[a.conn := a.desc])
      ensures ok && old(peerConnection).Some? ==>
        var c := old(peerConnection).value;
        var l := old(local)[a.conn := a.desc];
        St() == old(St()).(pending := old(pending) - multiset{a}, local := l,
                           wire := old(wire) + [SdpMessage(if c in l then Some(l[c]) else None)],
                           candidates := [], hasReceivedSdp := true,
                           engine := old(engine) + Delivered(old(peerConnection), old(candidates)))
    {
      Settle(a, ok);
      if ok {
        if peerConnection.Some? {
          SendLocalDescription();
          DrainCandidate();
        }
      }
    }

    /**
      setOffer (demo.js:265-279). Its first line reads `peerConnection`,
      which inside setOffer names the `const` declared two lines further
      down; reading it before that declaration throws a ReferenceError. So
      the handler throws at once: no connection is created, no handler is
      installed, and the answer is never made.
    */
    method SetOffer(desc: SessionDescription) returns (r: Completion)
      ensures r == Threw
    {
      r := Threw;
    }

    /** setAnswer up to its await (demo.js:281-287): nothing without a connection. */
    method SetAnswer(desc: SessionDescription)
      requires Valid()
      modifies this
      ensures Valid()
      ensures old(peerConnection).None? ==> St() == old(St())
      ensures old(peerConnection).Some? ==>
        St() == old(St()).(pending := old(pending) + multiset{RemoteAnswerSetting},
                           engine := old(engine) + [SetRemote(old(peerConnection).value, desc)])
    {
      if peerConnection.None? {
        return;
      }
      engine := engine + [SetRemote(peerConnection.value, desc)];
      pending := pending + multiset{RemoteAnswerSetting};
    }

    /**
      setAnswer after setRemoteDescription settles (demo.js:287-292): on
      success the buffer is drained into whatever `peerConnection` is by now.
    */
    method RemoteAnswerSet(ok: bool)
      requires Valid() && RemoteAnswerSetting in pending
      modifies this
      ensures Valid()
      ensures var rest := old(St()).(pending := old(pending) - multiset{RemoteAnswerSetting});
        if ok then
          St() == rest.(candidates := [], hasReceivedSdp := true,
                        engine := old(engine) + Delivered(old(peerConnection), old(candidates)))
        else St() == rest
    {
      pending := pending - multiset{RemoteAnswerSetting};
      if ok {
        DrainCandidate();
      }
    }

    /** addIceCandidate (demo.js:99-105): handed to the connection if there is one, otherwise only logged. */
    method AddIceCandidate(candidate: string)
      requires Valid()
      modifies this
      ensures Valid()
      ensures St() == old(St()).(engine := old(engine) + Delivered(old(peerConnection), [candidate]))
    {
      if peerConnection.Some? {
        engine := engine + [AddCandidate(peerConnection.value, candidate)];
      }
    }

    /**
      drainCandidate (demo.js:91-97): the gate opens for good, every buffered
      candidate is handed over in order, and the buffer is emptied. Without a
      connection the buffered candidates are lost.
    */
    method DrainCandidate()
      requires Valid()
      modifies this
      ensures Valid()
      ensures St() == old(St()).(candidates := [], hasReceivedSdp := true,
                                 engine := old(engine) + Delivered(old(peerConnection), old(candidates)))
    {
      hasReceivedSdp := true;
      var cs := candidates;
      candidates := [];
      var i := 0;
      while i < |cs|
        invariant 0 <= i <= |cs|
        invariant Valid()
        invariant St() == old(St()).(candidates := [], hasReceivedSdp := true,
                                     engine := old(engine) + Delivered(old(peerConnection), cs[..i]))
      {
        AddIceCandidate(cs[i]);
        DeliveredAppend(peerConnection, cs[..i], [cs[i]]);
        assert cs[..i + 1] == cs[..i] + [cs[i]];
        i := i + 1;
      }
      assert cs[..i] == cs;
    }

    /**
      onWsMessage (demo.js:34-59) on a parsed message: an offer makes the
      handler throw (see SetOffer); an answer goes to setAnswer; a candidate
      is handed over once a description is in place and buffered before; any
      other type is only logged.
    */
    method OnWsMessage(msg: Message) returns (r: Completion)
      requires Valid()
      modifies this
      ensures Valid()
      ensures r == Threw <==> msg.kind == "offer"
      ensures msg.kind == "offer" ==> St() == old(St())
      ensures msg.kind == "answer" && old(peerConnection).Some? ==>
        St() == old(St()).(pending := old(pending) + multiset{RemoteAnswerSetting},
                           engine := old(engine) + [SetRemote(old(peerConnection).value, SessionDescription(Answer, msg.sdp))])
      ensures msg.kind == "candidate" && old(hasReceivedSdp) ==>
        St() == old(St()).(engine := old(engine) + Delivered(old(peerConnection), [msg.ice]))
      ensures msg.kind == "candidate" && !old(hasReceivedSdp) ==>
        St() == old(St()).(candidates := old(candidates) + [msg.ice])
      ensures msg.kind != "answer" && msg.kind != "candidate" ==> St() == old(St())
      ensures msg.kind == "answer" && old(peerConnection).None? ==> St() == old(St())
    {
      r := Normal;
      if msg.kind == "offer" {
        r := SetOffer(SessionDescription(Offer, msg.sdp));
      } else if msg.kind == "answer" {
        SetAnswer(SessionDescription(Answer, msg.sdp));
      } else if msg.kind == "candidate" {
        if hasReceivedSdp {
          AddIceCandidate(msg.ice);
        } else {
          candidates := candidates + [msg.ice];
        }
      }
    }

    /**
      disconnect (demo.js:72-89): a connection that is not already closed is
      closed and forgotten, and the peer is told when the socket is open
      (readyState 1). The data channel, the buffer and the gate are left as
      they are.
    */
    method Disconnect(ice: IceConnectionState, wsReadyState: int)
      requires Valid()
      modifies this
      ensures Valid()
      ensures old(peerConnection).None? || ice == Closed ==> St() == old(St())
      ensures old(peerConnection).Some? && ice != Closed ==>
        St() == old(St()).(peerConnection := None,
                           engine := old(engine) + [CloseConnection(old(peerConnection).value)],
                           wire := old(wire) + (if wsReadyState == 1 then [CloseMessage] else []))
    {
      if peerConnection.Some? {
        if ice != Closed {
          engine := engine + [CloseConnection(peerConnection.value)];
          peerConnection := None;
          if wsReadyState == 1 {
            wire := wire + [CloseMessage];
          }
          return;
        }
      }
    }

    /** The guard both send functions share (demo.js:358-363): a non-empty text and an open channel. */
    predicate CanSend(text: string, ready: ChannelState)
      reads this
    {
      |text| != 0 && dataChannel.Some? && ready == Open
    }

    /**
      sendDataChannel (demo.js:356-366) on the input box's `text`, where
      `ready` is the channel's readyState. The answer is whether the box is
      cleared, which happens exactly when the text was sent.
    */
    method SendDataChannel(text: string, ready: ChannelState) returns (cleared: bool)
      requires Valid()
      modifies this
      ensures Valid()
      ensures cleared <==> old(CanSend(text, ready))
      ensures cleared ==> dataChannel.Some? && St() == old(St()).(engine := old(engine) + [ChannelSend(dataChannel.value, text)])
      ensures !cleared ==> St() == old(St())
    {
      cleared := false;
      if |text| == 0 {
        return;
      }
      if dataChannel.None? || ready != Open {
        return;
      }
      engine := engine + [ChannelSend(dataChannel.value, text)];
      cleared := true;
    }

    /** sendGamepadData (demo.js:368-377): the same guards, and nothing to clear. */
    method SendGamepadData(text: string, ready: ChannelState) returns (sent: bool)
      requires Valid()
      modifies this
      ensures Valid()
      ensures sent <==> old(CanSend(text, ready))
      ensures sent ==> dataChannel.Some? && St() == old(St()).(engine := old(engine) + [ChannelSend(dataChannel.value, text)])
      ensures !sent ==> St() == old(St())
    {
      sent := false;
      if |text| == 0 {
        return;
      }
      if dataChannel.None? || ready != Open {
        return;
      }
      engine := engine + [ChannelSend(dataChannel.value, text)];
      sent := true;
    }
  }

  /**
    A peer that calls first: the offer makes the handler throw, so no
    connection is made, and the candidates that follow stay buffered. Only
    an answer to a call the page places itself drains them (see
    OfferThenCall).
  */
  method OfferFromPeer(offerSdp: string, ice: string) returns (n: Negotiator, r: Completion)
    ensures r == Threw
    ensures n.peerConnection == None && n.engine == [] && n.wire == []
    ensures n.candidates == [ice] && !n.hasReceivedSdp && n.pending == multiset{}
    ensures n.Valid() && fresh(n) && n.nextConn == 0
  {
    n := new Negotiator();
    r := n.OnWsMessage(Message("offer", offerSdp, ""));
    var _ := n.OnWsMessage(Message("candidate", "", ice));
  }

  /**
    A hang-up and a second call once a call has got its answer: disconnect
    leaves the gate open, so a candidate that arrives for the second
    connection is handed over at once, before that connection has even
    created its offer, let alone received the peer's answer.
  */
  method Redial(n: Negotiator, wsReadyState: int, ice: string)
    requires n.Valid() && n.hasReceivedSdp && n.peerConnection.Some?
    modifies n
    ensures var c, k := old(n.peerConnection).value, old(n.nextConn);
      && n.engine == old(n.engine) + [CloseConnection(c), CreateConnection(k), CreateOffer(k), AddCandidate(k, ice)]
      && n.peerConnection == Some(k) && n.candidates == []
  {
    n.Disconnect(Connected, wsReadyState);
    n.Connect();
    var r := n.OnWsMessage(Message("candidate", "", ice));
    assert Delivered(n.peerConnection, [ice]) == [AddCandidate(n.peerConnection.value, ice)];
  }

  /**
    The candidates a calling peer left in the buffer stay there until the
    page places a call of its own and gets an answer: the drain then hands
    them to the page's own connection, although they were gathered for the
    peer's offer.
  */
  method OfferThenCall(offerSdp: string, ice: string, answerSdp: string) returns (n: Negotiator)
    ensures n.Valid()
    ensures n.peerConnection == Some(0) && n.candidates == [] && n.hasReceivedSdp
    ensures n.engine == [CreateConnection(0), CreateOffer(0),
                         SetRemote(0, SessionDescription(Answer, answerSdp)), AddCandidate(0, ice)]
  {
    var r;
    n, r := OfferFromPeer(offerSdp, ice);
    n.Connect();
    r := n.OnWsMessage(Message("answer", answerSdp, ""));
    n.RemoteAnswerSet(true);
    assert Delivered(Some(0), [ice]) == [AddCandidate(0, ice)];
  }
}
