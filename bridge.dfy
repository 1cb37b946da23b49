/**
 * The native-messaging bridge process (host/flts-chrome-bridge.py).
 *
 * Two threads share two queues. The server thread accepts TCP clients one
 * at a time; a client whose message comes from "flts" is either answered
 * directly (an EXIT request) or has its message forwarded to Chrome on
 * stdout and its socket put on the socket queue. The reader thread reads
 * frames from stdin and hands each one to a delivery call, which sends it
 * to the clients waiting on the socket queue. The exit queue tells the
 * server to stop listening.
 *
 * Sockets are handles into a map of logs (the bytes sent on each, and
 * whether it is closed); stdin, stdout and the queues are sequences. Each
 * thread body is a sequential method, and the run of the whole process
 * interleaves whole loop turns of the two threads as a schedule says.
 * Every method is specified by a function on the abstract state below.
 */
module Bridge {
  import opened JsonValues
  import opened Messages
  import opened Framing

  /** `client_socket.recv(4096)`: a request is read with one receive of at most this many bytes. */
  const RecvSize := 4096

  /** The payload of the reply to an EXIT request. */
  const ExitMessage := "Bridge about to close"

  type Handle = nat

  /** What happened on one client socket: the bytes the bridge sent on it, and whether it closed it. */
  datatype SocketLog = SocketLog(sent: seq<byte>, closed: bool)

  /** An item of the socket queue: a client waiting for a response, or the None sentinel. */
  datatype Pending = Waiting(client: Handle) | NoMore

  /** A TCP client as it arrives: the bytes it sends, and the `uuid4()` text its handler will draw. */
  datatype Connection = Connection(request: seq<byte>, uuid: string)

  /** Which thread takes its next loop turn. */
  datatype Turn = ServerTurn | ReaderTurn

  /** How the process ends up: exited with a status, or still blocked in `accept`. */
  datatype ExitStatus = Exited(code: int) | StillListening

  datatype BridgeState = BridgeState(
    stdin: seq<byte>,                 // bytes Chrome has written and the reader has not read yet
    stdout: seq<byte>,                // everything written to Chrome
    backlog: seq<Connection>,         // clients that connected and are not accepted yet
    sockets: map<Handle, SocketLog>,  // every accepted client socket
    nextHandle: Handle,               // the handle the next accepted socket gets
    socketQueue: seq<Pending>,
    exitQueue: seq<bool>,             // the truth value of each item on the exit queue
    listening: bool,                  // `continue_listen`, once the server socket listens
    serverClosed: bool,
    readerRunning: bool)

  /** The state before anything has started. */
  function Initial(stdin: seq<byte>, clients: seq<Connection>): BridgeState
  {
    BridgeState(stdin, [], clients, map[], 0, [], [], false, false, false)
  }

  /**
   * The invariant the two threads keep: every handle was handed out by
   * `accept`, and every client on the socket queue is a distinct, open socket.
   */
  ghost predicate Valid(st: BridgeState)
  {
    && (forall h :: h in st.sockets ==> h < st.nextHandle)
    && (forall i :: 0 <= i < |st.socketQueue| && st.socketQueue[i].Waiting? ==>
          st.socketQueue[i].client in st.sockets && !st.sockets[st.socketQueue[i].client].closed)
    && (forall i, j :: 0 <= i < j < |st.socketQueue| && st.socketQueue[i].Waiting? && st.socketQueue[j].Waiting? ==>
          st.socketQueue[i].client != st.socketQueue[j].client)
  }

  // -----------------------------------------------------------------------
  // Sockets

  /** `sendall`: append `bytes` to what has been sent on `h`. */
  function SendAll(s: map<Handle, SocketLog>, h: Handle, bytes: seq<byte>): (r: map<Handle, SocketLog>)
    ensures r.Keys == s.Keys
    ensures forall k :: k in s && k != h ==> r[k] == s[k]
    ensures h in s ==> r[h] == s[h].(sent := s[h].sent + bytes)
  {
    if h in s then s[h := s[h].(sent := s[h].sent + bytes)] else s
  }

  /** `close`. */
  function CloseSocket(s: map<Handle, SocketLog>, h: Handle): (r: map<Handle, SocketLog>)
    ensures r.Keys == s.Keys
    ensures forall k :: k in s && k != h ==> r[k] == s[k]
    ensures h in s ==> r[h] == s[h].(closed := true)
  {
    if h in s then s[h := s[h].(closed := true)] else s
  }

  /** The bytes one `recv(4096)` returns of what a client sent. */
  function Received(request: seq<byte>): (m: seq<byte>)
    ensures |m| <= RecvSize && |m| <= |request|
    ensures m == request[..|m|]
    ensures |request| <= RecvSize ==> m == request
  {
    if |request| <= RecvSize then request else request[..RecvSize]
  }

  // -----------------------------------------------------------------------
  // Response delivery (send_response_to_flts)

  /**
   * The index of the first sentinel on the queue, or its length when
   * there is none: the clients before it are the ones a delivery reaches.
   */
  function FirstNoMore(q: seq<Pending>): (k: nat)
    ensures k <= |q|
    ensures forall i :: 0 <= i < k ==> q[i].Waiting?
    ensures k < |q| ==> q[k] == NoMore
  {
    if q == [] then 0
    else if q[0] == NoMore then 0
    else 1 + FirstNoMore(q[1..])
  }

  /**
   * One call of `send_response_to_flts`: while the queue is not empty,
   * take its oldest item; stop at a sentinel; on an empty response close
   * that client without writing and stop; otherwise send the response to
   * that client, close it, and go on with the next.
   */
  function Deliver(st: BridgeState, response: seq<byte>): BridgeState
    decreases |st.socketQueue|
  {
    if st.socketQueue == [] then st
    else
      var rest := st.(socketQueue := st.socketQueue[1..]);
      match st.socketQueue[0]
      case NoMore => rest
      case Waiting(h) =>
        if response == [] then rest.(sockets := CloseSocket(st.sockets, h))
        else Deliver(rest.(sockets := CloseSocket(SendAll(st.sockets, h, response), h)), response)
  }

  // -----------------------------------------------------------------------
  // Connection handling (handle_client_connection, exit_response)

  /** The response `exit_response` mimics: SUCCESS, echoing the request id, with the closing message. */
  function ExitReply(requestId: Json): MessageFields
  {
    ResponseInit.(messageType := Num(ResponseSuccess), data := Obj(map["msg" := Str(ExitMessage)]), id := requestId)
  }

  /** The request a handler loads from `message` into a fresh `ChromeRequest`, unless loading raises. */
  function LoadedRequest(c: Codec, conn: Connection): Option<MessageFields>
  {
    match LoadObject(c, Received(conn.request))
    case None => None
    case Some(m) => Some(LoadDict(RequestInit(conn.uuid), m))
  }

  /** The client asks the bridge to exit: its message loads, comes from "flts" and has type EXIT. */
  predicate IsExitRequest(c: Codec, conn: Connection)
  {
    && SourceOf(c, Received(conn.request)) == Some(Str("flts"))
    && LoadedRequest(c, conn).Some?
    && LoadedRequest(c, conn).value.messageType == Num(RequestExit)
  }

  /** The client's message loads and comes from "flts" but is not an EXIT request. */
  predicate IsForwardedRequest(c: Codec, conn: Connection)
  {
    SourceOf(c, Received(conn.request)) == Some(Str("flts")) && !IsExitRequest(c, conn)
  }

  /**
   * `handle_client_connection` on the accepted socket `h`. A message that
   * raises while loading ends the handler with nothing done; a source other
   * than "flts" is ignored; an EXIT request gets the exit reply on its
   * socket, which is closed, and a None on the exit queue; any other
   * request is framed onto stdout and its socket queued.
   */
  function HandleConnection(c: Codec, st: BridgeState, h: Handle, conn: Connection): BridgeState
  {
    var message := Received(conn.request);
    match LoadObject(c, message)
    case None => st
    case Some(m) =>
      if LoadDict(Defaults, m).clientSource != Str("flts") then st
      else
        var req := LoadDict(RequestInit(conn.uuid), m);
        if req.messageType == Num(RequestExit) then
          var reply := c.dumps(Obj(ToDict(ExitReply(req.id))));
          st.(sockets := CloseSocket(SendAll(st.sockets, h, reply), h), exitQueue := st.exitQueue + [false])
        else
          st.(stdout := st.stdout + EncodeFrame(message), socketQueue := st.socketQueue + [Waiting(h)])
  }

  // -----------------------------------------------------------------------
  // The server thread (start_server)

  /** `bind` and `listen`; a failure is caught and the server socket closed. */
  function Listen(st: BridgeState, bindOk: bool): BridgeState
  {
    if bindOk then st.(listening := true) else st.(serverClosed := true)
  }

  /** Empty the exit queue; listening stops iff one of its items is falsy. */
  function Drain(st: BridgeState): BridgeState
  {
    st.(exitQueue := [], listening := st.listening && false !in st.exitQueue)
  }

  /** `server.accept()`: the oldest client gets the next handle, an open socket with nothing sent. */
  function Accept(st: BridgeState): BridgeState
    requires st.backlog != []
  {
    st.(backlog := st.backlog[1..], sockets := st.sockets[st.nextHandle := SocketLog([], false)], nextHandle := st.nextHandle + 1)
  }

  /** The end of the server loop: when listening has stopped, `finally` closes the server socket. */
  function CloseIfStopped(st: BridgeState): BridgeState
  {
    if st.listening then st else st.(serverClosed := true)
  }

  /**
   * One turn of the server loop: accept the oldest client, handle it to
   * completion, drain the exit queue; if listening stopped, the loop ends
   * and the server socket is closed.
   */
  function ServeOne(c: Codec, st: BridgeState): BridgeState
    requires st.listening && st.backlog != []
  {
    CloseIfStopped(Drain(HandleConnection(c, Accept(st), st.nextHandle, st.backlog[0])))
  }

  /** The server loop until it stops listening or no client is left to accept. */
  function Serve(c: Codec, st: BridgeState): BridgeState
    decreases |st.backlog|
  {
    if st.listening && st.backlog != [] then Serve(c, ServeOne(c, st)) else st
  }

  // -----------------------------------------------------------------------
  // The reader thread (read_thread_func)

  /**
   * One turn of the reader loop: at the end of stdin put the sentinel on
   * the socket queue and stop; a truncated header makes `struct.unpack`
   * raise, which ends the thread; a frame is delivered.
   */
  function ReadOne(st: BridgeState): BridgeState
  {
    match ReadFrame(st.stdin)
    case EndOfStream => st.(socketQueue := st.socketQueue + [NoMore], readerRunning := false)
    case BadHeader => st.(stdin := [], readerRunning := false)
    case Frame(p, rest) => Deliver(st.(stdin := rest), p)
  }

  function ReaderMeasure(st: BridgeState): nat
  {
    |st.stdin| + if st.readerRunning then 1 else 0
  }

  /** The reader loop until the thread stops. */
  function ReadAll(st: BridgeState): BridgeState
    decreases ReaderMeasure(st)
  {
    if st.readerRunning then
      ReadOneMeasure(st);
      ReadAll(ReadOne(st))
    else st
  }

  // -----------------------------------------------------------------------
  // The process (port_number, start_bridge)

  /** `port_number()`: the configured port, or -1 when the configuration has none. */
  function PortNumber(configured: Option<int>): (port: int)
    ensures configured.Some? ==> port == configured.value
    ensures port == -1 <==> configured.None? || configured == Some(-1)
  {
    match configured
    case Some(p) => p
    case None => -1
  }

  /**
   * `bind` and `connect` accept a TCP port in 0..65535; any other value
   * raises OverflowError. The no-port value -1 is out of range.
   */
  function PortInRange(port: int): (ok: bool)
    ensures ok ==> port != -1
  {
    0 <= port < 0x1_0000
  }

  /** One loop turn of the thread the schedule names; a thread that has stopped takes none. */
  function Step(c: Codec, st: BridgeState, t: Turn): BridgeState
  {
    match t
    case ServerTurn => if st.listening && st.backlog != [] then ServeOne(c, st) else st
    case ReaderTurn => if st.readerRunning then ReadOne(st) else st
  }

  function RunSchedule(c: Codec, st: BridgeState, schedule: seq<Turn>): BridgeState
    decreases |schedule|
  {
    if schedule == [] then st else RunSchedule(c, Step(c, st, schedule[0]), schedule[1..])
  }

  /**
   * `start_bridge`: with no port, exit with status 1 before any thread
   * starts. Otherwise start the reader and bind the server. A port out of
   * range makes `bind` raise OverflowError, which `start_server` does not
   * catch: `finally` closes the server and the exception ends the process
   * with status 1, while the reader may have taken the turns `schedule`
   * gives it. Otherwise run the two threads in the order `schedule`
   * gives, then let the server and the reader run to their ends. The
   * process exits with 0 once the server has stopped listening; a server
   * still waiting in `accept` keeps it alive.
   */
  function RunBridge(c: Codec, configured: Option<int>, bindOk: bool, schedule: seq<Turn>, st: BridgeState): (BridgeState, ExitStatus)
  {
    if PortNumber(configured) == -1 then (st, Exited(1))
    else if !PortInRange(PortNumber(configured)) then
      (RunSchedule(c, st.(readerRunning := true, serverClosed := true, listening := false), schedule), Exited(1))
    else
      var started := Listen(st.(readerRunning := true), bindOk);
      var last := ReadAll(Serve(c, RunSchedule(c, started, schedule)));
      (last, if last.listening then StillListening else Exited(0))
  }

  // -----------------------------------------------------------------------
  // Lemmas

  lemma ReadOneMeasure(st: BridgeState)
    requires st.readerRunning
    ensures ReaderMeasure(ReadOne(st)) < ReaderMeasure(st)
  {
    match ReadFrame(st.stdin)
    case EndOfStream =>
    case BadHeader =>
    case Frame(p, rest) =>
      DeliverKeeps(st.(stdin := rest), p);
  }

  /** A delivery touches only the socket queue and the sockets. */
  lemma {:induction false} DeliverKeeps(st: BridgeState, response: seq<byte>)
    ensures Deliver(st, response) == st.(socketQueue := Deliver(st, response).socketQueue, sockets := Deliver(st, response).sockets)
    ensures Deliver(st, response).sockets.Keys == st.sockets.Keys
    decreases |st.socketQueue|
  {
    if st.socketQueue != [] && st.socketQueue[0].Waiting? && response != [] {
      var h := st.socketQueue[0].client;
      DeliverKeeps(st.(socketQueue := st.socketQueue[1..], sockets := CloseSocket(SendAll(st.sockets, h, response), h)), response);
    }
  }

  /**
   * Taking the oldest item off the queue keeps the invariant, when at most
   * the socket of that item changes.
   */
  lemma PopValid(st: BridgeState, s: map<Handle, SocketLog>)
    requires Valid(st) && st.socketQueue != []
    requires s.Keys == st.sockets.Keys
    requires forall k :: k in st.sockets && !(st.socketQueue[0].Waiting? && k == st.socketQueue[0].client) ==> s[k] == st.sockets[k]
    ensures Valid(st.(socketQueue := st.socketQueue[1..], sockets := s))
  {
    var q := st.socketQueue;
    var r := st.(socketQueue := q[1..], sockets := s);
    forall i | 0 <= i < |r.socketQueue| && r.socketQueue[i].Waiting?
      ensures r.socketQueue[i].client in r.sockets && !r.sockets[r.socketQueue[i].client].closed
    {
      assert r.socketQueue[i] == q[i + 1];
    }
    forall i, j | 0 <= i < j < |r.socketQueue| && r.socketQueue[i].Waiting? && r.socketQueue[j].Waiting?
      ensures r.socketQueue[i].client != r.socketQueue[j].client
    {
      assert r.socketQueue[i] == q[i + 1] && r.socketQueue[j] == q[j + 1];
    }
  }

  /**
   * What a delivery does with a non-empty response: every client before
   * the first sentinel receives the response and is closed, those clients
   * and the sentinel leave the queue, and no other socket changes.
   */
  lemma {:induction false} DeliverBroadcast(st: BridgeState, response: seq<byte>)
    requires Valid(st) && response != []
    ensures var q := st.socketQueue;
      var k := FirstNoMore(q);
      var r := Deliver(st, response);
      && r.socketQueue == (if k < |q| then q[k + 1..] else [])
      && r.sockets.Keys == st.sockets.Keys
      && (forall h :: h in st.sockets ==>
            r.sockets[h] == if Waiting(h) in q[..k] then SocketLog(st.sockets[h].sent + response, true) else st.sockets[h])
    decreases |st.socketQueue|
  {
    var q := st.socketQueue;
    if q != [] && q[0].Waiting? {
      var h0 := q[0].client;
      var s := CloseSocket(SendAll(st.sockets, h0, response), h0);
      var mid := st.(socketQueue := q[1..], sockets := s);
      PopValid(st, s);
      DeliverBroadcast(mid, response);
      var r := Deliver(st, response);
      assert r == Deliver(mid, response);
      var k := FirstNoMore(q);
      var k' := FirstNoMore(q[1..]);
      assert k' == k - 1;
      assert r.socketQueue == (if k < |q| then q[k + 1..] else []) by {
        if k < |q| {
          assert q[1..][k' + 1..] == q[k + 1..];
        }
      }
      BroadcastSocketsStep(st, response, r.sockets);
    }
  }

  /**
   * The sockets after a broadcast, from those after the broadcast to the
   * rest of the queue once its first client has been served.
   */
  lemma BroadcastSocketsStep(st: BridgeState, response: seq<byte>, r: map<Handle, SocketLog>)
    requires Valid(st) && st.socketQueue != [] && st.socketQueue[0].Waiting? && r.Keys == st.sockets.Keys
    requires var q := st.socketQueue;
      var h0 := q[0].client;
      var s := CloseSocket(SendAll(st.sockets, h0, response), h0);
      var k' := FirstNoMore(q[1..]);
      forall h :: h in s ==> r[h] == if Waiting(h) in q[1..][..k'] then SocketLog(s[h].sent + response, true) else s[h]
    ensures var q := st.socketQueue;
      forall h :: h in st.sockets ==>
        r[h] == if Waiting(h) in q[..FirstNoMore(q)] then SocketLog(st.sockets[h].sent + response, true) else st.sockets[h]
  {
    var q := st.socketQueue;
    var h0 := q[0].client;
    var k := FirstNoMore(q);
    assert k == 1 + FirstNoMore(q[1..]);
    assert q[1..][..k - 1] == q[1..k];
    forall h | h in st.sockets
      ensures r[h] == if Waiting(h) in q[..k] then SocketLog(st.sockets[h].sent + response, true) else st.sockets[h]
    {
      PrefixMembership(q, k, h);
      if h == h0 {
        NotLaterInQueue(st, k);
      }
    }
  }

  lemma PrefixMembership(q: seq<Pending>, k: nat, h: Handle)
    requires 0 < k <= |q|
    ensures Waiting(h) in q[..k] <==> q[0] == Waiting(h) || Waiting(h) in q[1..k]
  {
    assert q[..k] == [q[0]] + q[1..k];
  }

  /** A client first in the queue occurs nowhere else in it. */
  lemma NotLaterInQueue(st: BridgeState, k: nat)
    requires Valid(st) && st.socketQueue != [] && st.socketQueue[0].Waiting? && 0 < k <= |st.socketQueue|
    ensures Waiting(st.socketQueue[0].client) !in st.socketQueue[1..k]
  {
    var q := st.socketQueue;
    var later := q[1..k];
    forall j | 0 <= j < |later| ensures later[j] != Waiting(q[0].client) {
      assert later[j] == q[j + 1];
    }
  }

  /**
   * The other cases of a delivery: with nothing queued it does nothing;
   * with an empty response and a client first in line, that client alone
   * is closed, with nothing written to it, and delivery stops.
   */
  lemma DeliverEmptyCases(st: BridgeState, response: seq<byte>)
    ensures st.socketQueue == [] ==> Deliver(st, response) == st
    ensures response == [] && st.socketQueue != [] && st.socketQueue[0].Waiting? ==>
      Deliver(st, response) == st.(socketQueue := st.socketQueue[1..], sockets := CloseSocket(st.sockets, st.socketQueue[0].client))
    ensures st.socketQueue != [] && st.socketQueue[0] == NoMore ==>
      Deliver(st, response) == st.(socketQueue := st.socketQueue[1..])
  {
  }

  /** A delivery keeps the invariant. */
  lemma {:induction false} DeliverValid(st: BridgeState, response: seq<byte>)
    requires Valid(st)
    ensures Valid(Deliver(st, response))
    decreases |st.socketQueue|
  {
    var q := st.socketQueue;
    if q != [] {
      if q[0].NoMore? {
        PopValid(st, st.sockets);
      } else if response == [] {
        PopValid(st, CloseSocket(st.sockets, q[0].client));
      } else {
        var h0 := q[0].client;
        var s := CloseSocket(SendAll(st.sockets, h0, response), h0);
        PopValid(st, s);
        DeliverValid(st.(socketQueue := q[1..], sockets := s), response);
      }
    }
  }

  /**
   * The one-request-at-a-time use the clients rely on: when exactly one client is
   * waiting, a non-empty response reaches that client, which is closed,
   * and the queue is left empty.
   */
  lemma SingleWaitingClientGetsResponse(st: BridgeState, h: Handle, response: seq<byte>)
    requires Valid(st) && st.socketQueue == [Waiting(h)] && response != []
    ensures Deliver(st, response).socketQueue == []
    ensures Deliver(st, response).sockets == st.sockets[h := SocketLog(st.sockets[h].sent + response, true)]
  {
    DeliverBroadcast(st, response);
    assert FirstNoMore(st.socketQueue) == 1;
    assert st.socketQueue[..1] == [Waiting(h)];
    var r := Deliver(st, response);
    assert r.sockets.Keys == st.sockets[h := SocketLog(st.sockets[h].sent + response, true)].Keys;
  }

  /**
   * Responses are not matched to clients one by one: with two clients
   * waiting, the first response reaches both of them.
   */
  lemma OneResponseReachesEveryWaitingClient(st: BridgeState, a: Handle, b: Handle, response: seq<byte>)
    requires Valid(st) && st.socketQueue == [Waiting(a), Waiting(b)] && response != []
    ensures Deliver(st, response).socketQueue == []
    ensures a in st.sockets && b in st.sockets
    ensures a in Deliver(st, response).sockets && b in Deliver(st, response).sockets
    ensures Deliver(st, response).sockets[a].sent == st.sockets[a].sent + response
    ensures Deliver(st, response).sockets[b].sent == st.sockets[b].sent + response
  {
    DeliverBroadcast(st, response);
    assert FirstNoMore(st.socketQueue) == 2;
    assert st.socketQueue[..2] == [Waiting(a), Waiting(b)];
    assert Waiting(a) in st.socketQueue[..2] && Waiting(b) in st.socketQueue[..2];
  }

  /** The fields a client loads from the exit reply: source "chrome", SUCCESS, the echoed id and the closing message. */
  lemma ExitReplyDecodes(c: Codec, requestId: Json)
    requires Inverse(c)
    ensures LoadObject(c, c.dumps(Obj(ToDict(ExitReply(requestId))))) == Some(ToDict(ExitReply(requestId)))
    ensures LoadDict(ResponseInit, ToDict(ExitReply(requestId))) ==
      MessageFields(requestId, Str("chrome"), Num(ResponseSuccess), Obj(map["msg" := Str(ExitMessage)]))
    ensures IsSuccessful(LoadDict(ResponseInit, ToDict(ExitReply(requestId))))
  {
    TextRoundTrip(c, ExitReply(requestId), ResponseInit);
  }

  /** The three outcomes of handling one connection. */
  lemma HandleConnectionSpec(c: Codec, st: BridgeState, h: Handle, conn: Connection)
    ensures var r := HandleConnection(c, st, h, conn);
      && (SourceOf(c, Received(conn.request)) != Some(Str("flts")) ==> r == st)
      && (IsExitRequest(c, conn) ==>
            && r.stdout == st.stdout && r.socketQueue == st.socketQueue
            && r.exitQueue == st.exitQueue + [false]
            && r.sockets == CloseSocket(SendAll(st.sockets, h, c.dumps(Obj(ToDict(ExitReply(LoadedRequest(c, conn).value.id))))), h)
            && r == st.(sockets := r.sockets, exitQueue := r.exitQueue))
      && (IsForwardedRequest(c, conn) ==>
            && r.stdout == st.stdout + EncodeFrame(Received(conn.request))
            && r.socketQueue == st.socketQueue + [Waiting(h)]
            && r == st.(stdout := r.stdout, socketQueue := r.socketQueue))
  {
  }

  /** The id the exit reply echoes: the request's "requestId", or the generated id when the request has none. */
  lemma ExitReplyEchoesId(c: Codec, conn: Connection)
    requires IsExitRequest(c, conn)
    ensures var m := LoadObject(c, Received(conn.request)).value;
      LoadedRequest(c, conn).value.id == if "requestId" in m then m["requestId"] else Str(conn.uuid)
  {
    LoadDictFields(RequestInit(conn.uuid), LoadObject(c, Received(conn.request)).value);
  }

  /** Forwarding puts on stdout exactly one frame, which Chrome reads back as the client's message. */
  lemma ForwardedFrameReadsBack(c: Codec, st: BridgeState, h: Handle, conn: Connection, after: seq<byte>)
    requires IsForwardedRequest(c, conn)
    ensures var r := HandleConnection(c, st, h, conn);
      |r.stdout| >= |st.stdout| && ReadFrame(r.stdout[|st.stdout|..] + after) == Frame(Received(conn.request), after)
  {
    var r := HandleConnection(c, st, h, conn);
    HandleConnectionSpec(c, st, h, conn);
    assert r.stdout[|st.stdout|..] == EncodeFrame(Received(conn.request));
    ReadEncodedFrame(Received(conn.request), after);
  }

  /** Handling a freshly accepted socket keeps the invariant. */
  lemma HandleConnectionValid(c: Codec, st: BridgeState, h: Handle, conn: Connection)
    requires Valid(st) && h in st.sockets && !st.sockets[h].closed
    requires forall i :: 0 <= i < |st.socketQueue| ==> st.socketQueue[i] != Waiting(h)
    ensures Valid(HandleConnection(c, st, h, conn))
  {
    HandleConnectionSpec(c, st, h, conn);
  }

  /** One server turn keeps the invariant. */
  lemma ServeOneValid(c: Codec, st: BridgeState)
    requires Valid(st) && st.listening && st.backlog != []
    ensures Valid(ServeOne(c, st))
  {
    var h := st.nextHandle;
    var accepted := Accept(st);
    assert Valid(accepted) && h in accepted.sockets && !accepted.sockets[h].closed;
    assert forall i :: 0 <= i < |st.socketQueue| ==> st.socketQueue[i] != Waiting(h);
    HandleConnectionValid(c, accepted, h, st.backlog[0]);
    var handled := HandleConnection(c, accepted, h, st.backlog[0]);
    assert Valid(Drain(handled));
  }

  /** One reader turn keeps the invariant. */
  lemma ReadOneValid(st: BridgeState)
    requires Valid(st)
    ensures Valid(ReadOne(st))
  {
    match ReadFrame(st.stdin)
    case EndOfStream =>
    case BadHeader =>
    case Frame(p, rest) =>
      DeliverValid(st.(stdin := rest), p);
  }

  /** What one server turn does besides handling: accept, and stop iff the client asked to exit. */
  lemma ServeOneSpec(c: Codec, st: BridgeState)
    requires st.listening && st.backlog != [] && st.exitQueue == []
    ensures var r := ServeOne(c, st);
      && r.backlog == st.backlog[1..] && r.nextHandle == st.nextHandle + 1 && r.exitQueue == []
      && (r.listening <==> !IsExitRequest(c, st.backlog[0]))
      && r.serverClosed == (st.serverClosed || IsExitRequest(c, st.backlog[0]))
  {
    var h := st.nextHandle;
    var accepted := Accept(st);
    HandleConnectionSpec(c, accepted, h, st.backlog[0]);
  }

  /** The index of the first client that asks to exit, or the number of clients when none does. */
  function FirstExit(c: Codec, clients: seq<Connection>): (k: nat)
    ensures k <= |clients|
    ensures forall i :: 0 <= i < k ==> !IsExitRequest(c, clients[i])
    ensures k < |clients| ==> IsExitRequest(c, clients[k])
  {
    if clients == [] then 0
    else if IsExitRequest(c, clients[0]) then 0
    else 1 + FirstExit(c, clients[1..])
  }

  /**
   * The server handles the clients up to and including the first EXIT
   * request and no client after it; it stops listening and closes its
   * socket iff such a request came.
   */
  lemma {:induction false} ServeStopsAtFirstExit(c: Codec, st: BridgeState)
    requires st.listening && st.exitQueue == [] && !st.serverClosed
    ensures var b := st.backlog;
      var k := FirstExit(c, b);
      var r := Serve(c, st);
      && r.backlog == (if k < |b| then b[k + 1..] else [])
      && r.nextHandle == st.nextHandle + (if k < |b| then k + 1 else |b|)
      && (r.listening <==> k == |b|)
      && (r.serverClosed <==> k < |b|)
    decreases |st.backlog|
  {
    var b := st.backlog;
    if b != [] {
      ServeOneSpec(c, st);
      var next := ServeOne(c, st);
      assert Serve(c, st) == Serve(c, next);
      if IsExitRequest(c, b[0]) {
        assert Serve(c, next) == next;
      } else {
        ServeStopsAtFirstExit(c, next);
        assert FirstExit(c, b) == 1 + FirstExit(c, b[1..]);
        var k := FirstExit(c, b);
        if k < |b| {
          assert b[1..][k..] == b[k + 1..];
        }
      }
    }
  }

  /** At the end of stdin a reader turn puts the sentinel on the socket queue and stops the reader. */
  lemma ReadOneAtEnd(st: BridgeState)
    requires st.stdin == []
    ensures ReadOne(st) == st.(socketQueue := st.socketQueue + [NoMore], readerRunning := false)
  {
  }

  /** A truncated length header stops the reader with nothing put on the socket queue. */
  lemma ReadOneBadHeader(st: BridgeState)
    requires 0 < |st.stdin| < HeaderSize
    ensures ReadOne(st) == st.(stdin := [], readerRunning := false)
  {
  }

  /** The reader always stops, keeping the invariant. */
  lemma {:induction false} ReadAllStops(st: BridgeState)
    requires Valid(st)
    ensures !ReadAll(st).readerRunning
    ensures Valid(ReadAll(st))
    decreases ReaderMeasure(st)
  {
    if st.readerRunning {
      ReadOneMeasure(st);
      ReadOneValid(st);
      ReadAllStops(ReadOne(st));
    }
  }

  /**
   * The single-flight round trip: a client whose request is forwarded
   * while no one else waits receives the next frame Chrome writes (when it
   * is not empty), verbatim, and its socket is closed.
   */
  lemma ForwardThenRespond(c: Codec, st: BridgeState, response: seq<byte>, later: seq<byte>)
    requires Valid(st) && st.listening && st.exitQueue == [] && st.socketQueue == []
    requires st.backlog != [] && IsForwardedRequest(c, st.backlog[0])
    requires response != [] && |response| < Two31
    requires st.stdin == EncodeFrame(response) + later
    ensures var h := st.nextHandle;
      var r := ReadOne(ServeOne(c, st));
      && r.stdout == st.stdout + EncodeFrame(Received(st.backlog[0].request))
      && h in r.sockets && r.sockets[h] == SocketLog(response, true)
      && r.socketQueue == [] && r.stdin == later
  {
    var h := st.nextHandle;
    ServeForwarded(c, st);
    ServeOneValid(c, st);
    var served := ServeOne(c, st);
    ReadEncodedFrame(response, later);
    assert ReadOne(served) == Deliver(served.(stdin := later), response);
    SingleWaitingClientGetsResponse(served.(stdin := later), h, response);
  }

  /** A server turn that forwards a request leaves its client alone on the queue, open, with nothing sent. */
  lemma ServeForwarded(c: Codec, st: BridgeState)
    requires Valid(st) && st.listening && st.exitQueue == [] && st.socketQueue == []
    requires st.backlog != [] && IsForwardedRequest(c, st.backlog[0])
    ensures var h := st.nextHandle;
      var r := ServeOne(c, st);
      && r.stdout == st.stdout + EncodeFrame(Received(st.backlog[0].request))
      && r.socketQueue == [Waiting(h)] && r.stdin == st.stdin
      && h in r.sockets && r.sockets[h] == SocketLog([], false)
  {
    var h := st.nextHandle;
    var accepted := Accept(st);
    HandleConnectionSpec(c, accepted, h, st.backlog[0]);
    var handled := HandleConnection(c, accepted, h, st.backlog[0]);
    assert handled.exitQueue == [];
    assert ServeOne(c, st) == Drain(handled);
  }

  /** A schedule of turns keeps the invariant. */
  lemma {:induction false} RunScheduleValid(c: Codec, st: BridgeState, schedule: seq<Turn>)
    requires Valid(st)
    ensures Valid(RunSchedule(c, st, schedule))
    decreases |schedule|
  {
    if schedule != [] {
      var next := Step(c, st, schedule[0]);
      match schedule[0] {
        case ServerTurn => if st.listening && st.backlog != [] { ServeOneValid(c, st); }
        case ReaderTurn => if st.readerRunning { ReadOneValid(st); }
      }
      RunScheduleValid(c, next, schedule[1..]);
    }
  }

  lemma {:induction false} ServeValid(c: Codec, st: BridgeState)
    requires Valid(st)
    ensures Valid(Serve(c, st))
    ensures !(Serve(c, st).listening && Serve(c, st).backlog != [])
    ensures !st.listening ==> Serve(c, st) == st
    ensures st.listening && !Serve(c, st).listening ==> Serve(c, st).serverClosed
    decreases |st.backlog|
  {
    if st.listening && st.backlog != [] {
      ServeOneValid(c, st);
      ServeValid(c, ServeOne(c, st));
    }
  }

  /**
   * The startup gate: without a configured port the process exits with
   * status 1 and nothing is touched. Otherwise it ends with the reader
   * stopped and either exits with status 0, having stopped listening, or
   * is still listening with no client left to accept.
   */
  lemma RunBridgeSpec(c: Codec, configured: Option<int>, bindOk: bool, schedule: seq<Turn>, st: BridgeState)
    requires Valid(st)
    ensures var (last, status) := RunBridge(c, configured, bindOk, schedule, st);
      && (status == Exited(1) <==> PortNumber(configured) == -1 || !PortInRange(PortNumber(configured)))
      && (PortNumber(configured) == -1 ==> last == st)
      && (PortNumber(configured) != -1 && !PortInRange(PortNumber(configured)) ==>
            last.serverClosed && !last.listening && Valid(last))
      && (PortInRange(PortNumber(configured)) ==>
            && !last.readerRunning && Valid(last)
            && (status == Exited(0) <==> !last.listening)
            && (status == StillListening ==> last.backlog == []))
  {
    if PortNumber(configured) != -1 && !PortInRange(PortNumber(configured)) {
      var started := st.(readerRunning := true, serverClosed := true, listening := false);
      RunScheduleValid(c, started, schedule);
      RunScheduleKeepsStoppedServer(c, started, schedule);
    } else if PortNumber(configured) != -1 {
      var started := Listen(st.(readerRunning := true), bindOk);
      RunScheduleValid(c, started, schedule);
      var scheduled := RunSchedule(c, started, schedule);
      ServeValid(c, scheduled);
      var served := Serve(c, scheduled);
      ReadAllStops(served);
      ReadAllKeepsServer(served);
    }
  }

  /** With the server stopped, a schedule moves only the reader: the server stays closed and not listening. */
  lemma {:induction false} RunScheduleKeepsStoppedServer(c: Codec, st: BridgeState, schedule: seq<Turn>)
    requires !st.listening && st.serverClosed
    ensures !RunSchedule(c, st, schedule).listening && RunSchedule(c, st, schedule).serverClosed
    decreases |schedule|
  {
    if schedule != [] {
      var next := Step(c, st, schedule[0]);
      if schedule[0] == ReaderTurn && st.readerRunning {
        match ReadFrame(st.stdin) {
          case EndOfStream =>
          case BadHeader =>
          case Frame(p, rest) => DeliverKeeps(st.(stdin := rest), p);
        }
      }
      RunScheduleKeepsStoppedServer(c, next, schedule[1..]);
    }
  }

  /** The reader does not touch the server's state. */
  lemma {:induction false} ReadAllKeepsServer(st: BridgeState)
    ensures ReadAll(st).listening == st.listening && ReadAll(st).backlog == st.backlog
    decreases ReaderMeasure(st)
  {
    if st.readerRunning {
      ReadOneMeasure(st);
      match ReadFrame(st.stdin) {
        case EndOfStream =>
        case BadHeader =>
        case Frame(p, rest) => DeliverKeeps(st.(stdin := rest), p);
      }
      ReadAllKeepsServer(ReadOne(st));
    }
  }

  // -----------------------------------------------------------------------
  // The process as an object whose fields the threads update

  class BridgeProcess {
    const codec: Codec
    var stdin: seq<byte>
    var stdout: seq<byte>
    var backlog: seq<Connection>
    var sockets: map<Handle, SocketLog>
    var nextHandle: Handle
    var socketQueue: seq<Pending>
    var exitQueue: seq<bool>
    var listening: bool
    var serverClosed: bool
    var readerRunning: bool

    function State(): BridgeState
      reads this
    {
      BridgeState(stdin, stdout, backlog, sockets, nextHandle, socketQueue, exitQueue, listening, serverClosed, readerRunning)
    }

    constructor (c: Codec, input: seq<byte>, clients: seq<Connection>)
      ensures codec == c && State() == Initial(input, clients)
    {
      codec := c;
      stdin, stdout, backlog := input, [], clients;
      sockets, nextHandle := map[], 0;
      socketQueue, exitQueue := [], [];
      listening, serverClosed, readerRunning := false, false, false;
    }

    /** `send_request_to_chrome`: write the length, then the message. */
    method SendRequestToChrome(message: seq<byte>)
      requires |message| < Two31
      modifies this
      ensures State() == old(State()).(stdout := old(stdout) + EncodeFrame(message))
    {
      stdout := stdout + PackLength(|message|);
      stdout := stdout + message;
    }

    /** `send_response_to_flts`. */
    method SendResponseToFlts(response: seq<byte>)
      modifies this
      ensures State() == Deliver(old(State()), response)
    {
      while socketQueue != []
        invariant Deliver(State(), response) == Deliver(old(State()), response)
        decreases |socketQueue|
      {
        var client := socketQueue[0];
        socketQueue := socketQueue[1..];
        if client.NoMore? {
          return;
        }
        if response == [] {
          // close the client; sys.exit(0) ends this delivery
          sockets := CloseSocket(sockets, client.client);
          return;
        }
        sockets := SendAll(sockets, client.client, response);
        sockets := CloseSocket(sockets, client.client);
      }
    }

    /** `exit_response`: answer an EXIT request on its own socket and close it. */
    method ExitResponse(exSocket: Handle, requestId: Json)
      modifies this
      ensures State() == old(State()).(sockets := CloseSocket(SendAll(old(sockets), exSocket, codec.dumps(Obj(ToDict(ExitReply(requestId))))), exSocket))
    {
      var resp := new BaseMessage.Response();
      resp.messageType := Num(ResponseSuccess);
      resp.data := Obj(map["msg" := Str(ExitMessage)]);
      resp.id := requestId;
      var text := resp.ToJson(codec);
      sockets := SendAll(sockets, exSocket, text);
      sockets := CloseSocket(sockets, exSocket);
    }

    /** `handle_client_connection` on the accepted socket `h`. */
    method HandleClientConnection(h: Handle, conn: Connection)
      modifies this
      ensures State() == HandleConnection(codec, old(State()), h, conn)
    {
      var message := Received(conn.request);
      var src := Source(codec, message);
      if src.None? {
        return;  // json.loads raised: the handler thread ends
      }
      if src.value == Str("flts") {
        var req := new BaseMessage.Request(conn.uuid);
        var ok := req.LoadFromJson(codec, message);
        assert ok;  // Source has already loaded the same text
        if req.messageType == Num(RequestExit) {
          ExitResponse(h, req.id);
          exitQueue := exitQueue + [false];
          return;  // sys.exit(0) ends the handler thread
        }
        SendRequestToChrome(message);
        socketQueue := socketQueue + [Waiting(h)];
      }
    }

    /** The `while not exit_q.empty()` loop of `start_server`. */
    method DrainExitQueue()
      modifies this
      ensures State() == Drain(old(State()))
    {
      while exitQueue != []
        invariant Drain(State()) == Drain(old(State()))
        decreases |exitQueue|
      {
        var item := exitQueue[0];
        exitQueue := exitQueue[1..];
        if !item {
          listening := false;
        }
      }
    }

    /** The `bind` and `listen` of `start_server`. */
    method ListenOn(bindOk: bool)
      modifies this
      ensures State() == Listen(old(State()), bindOk)
    {
      if bindOk {
        listening := true;
      } else {
        serverClosed := true;  // socket.error is caught; finally: server.close()
      }
    }

    /** One turn of the `while continue_listen` loop. */
    method ServeNext()
      requires listening && backlog != []
      modifies this
      ensures State() == ServeOne(codec, old(State()))
    {
      ghost var before := State();
      var conn := backlog[0];
      var h := nextHandle;
      backlog := backlog[1..];
      sockets := sockets[h := SocketLog([], false)];
      nextHandle := h + 1;
      assert State() == Accept(before);
      ghost var accepted := State();
      HandleClientConnection(h, conn);  // the handler thread, started and joined
      ghost var handled := State();
      assert handled == HandleConnection(codec, accepted, before.nextHandle, before.backlog[0]);
      DrainExitQueue();
      assert State() == Drain(handled);
      if !listening {
        serverClosed := true;  // the loop ends; finally: server.close()
      }
    }

    /** The `while continue_listen` loop, as long as there is a client to accept. */
    method ServeAll()
      modifies this
      ensures State() == Serve(codec, old(State()))
    {
      while listening && backlog != []
        invariant Serve(codec, State()) == Serve(codec, old(State()))
        decreases |backlog|
      {
        ServeNext();
      }
    }

    /** `start_server`. */
    method StartServer(bindOk: bool)
      modifies this
      ensures State() == Serve(codec, Listen(old(State()), bindOk))
    {
      ListenOn(bindOk);
      ServeAll();
    }

    /** One turn of the `while 1` loop of `read_thread_func`. */
    method ReadNext()
      modifies this
      ensures State() == ReadOne(old(State()))
    {
      match ReadFrame(stdin)
      case EndOfStream =>
        socketQueue := socketQueue + [NoMore];
        readerRunning := false;  // sys.exit(0) ends the reader
      case BadHeader =>
        stdin := [];
        readerRunning := false;  // struct.error ends the reader
      case Frame(p, rest) =>
        stdin := rest;
        SendResponseToFlts(p);
    }

    /** `read_thread_func`. */
    method ReadThreadFunc()
      modifies this
      ensures State() == ReadAll(old(State()))
    {
      while readerRunning
        invariant ReadAll(State()) == ReadAll(old(State()))
        decreases ReaderMeasure(State())
      {
        ReadOneMeasure(State());
        ReadNext();
      }
    }

    /** The two threads taking their loop turns in the order `schedule` gives. */
    method RunTurns(schedule: seq<Turn>)
      modifies this
      ensures State() == RunSchedule(codec, old(State()), schedule)
    {
      ghost var started := State();
      for i := 0 to |schedule|
        invariant RunSchedule(codec, State(), schedule[i..]) == RunSchedule(codec, started, schedule)
      {
        assert schedule[i..][1..] == schedule[i + 1..];
        match schedule[i]
        case ServerTurn =>
          if listening && backlog != [] {
            ServeNext();
          }
        case ReaderTurn =>
          if readerRunning {
            ReadNext();
          }
      }
    }

    /** `start_bridge`, with the threads' turns interleaved as `schedule` says. */
    method StartBridge(configured: Option<int>, bindOk: bool, schedule: seq<Turn>) returns (status: ExitStatus)
      modifies this
      ensures (State(), status) == RunBridge(codec, configured, bindOk, schedule, old(State()))
    {
      var port := PortNumber(configured);
      if port == -1 {
        return Exited(1);
      }
      readerRunning := true;
      if !PortInRange(port) {
        // bind raises OverflowError; finally: server.close(); the process exits with 1
        serverClosed, listening := true, false;
        RunTurns(schedule);
        return Exited(1);
      }
      ListenOn(bindOk);
      RunTurns(schedule);
      ServeAll();
      ReadThreadFunc();
      status := if listening then StillListening else Exited(0);
    }
  }
}
