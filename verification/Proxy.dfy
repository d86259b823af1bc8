/** The proxy as a transition system: every session, the selector's registrations, the resolver threads and
    the notification queue (src/server/client_session.c, src/server/target_connection.c, src/utils/selector.c).

    Results of system calls are inputs of the handlers. Every dereference of a session, a resolver job or an
    address list checks that the object is still allocated, and every free or close that it still is; the flag
    `fault` records the first violation. `hist` remembers what happened to each session, also after it is freed. */
module Proxy {
  import opened Basics
  import opened Socks5

  type Fd = nat
  type Sid = nat
  type Jid = nat

  const FD_LIMIT: nat := 1024
  const BUFFER_SIZE: nat := 4096
  const AF_INET := 2
  const AF_INET6 := 10
  const EMFILE := 24

  datatype Interest = Interest(read: bool, write: bool)

  const NOOP := Interest(false, false)
  const READ := Interest(true, false)
  const WRITE := Interest(false, true)

  datatype Stage = Greeting | Auth | Request | Resolving | Connecting | Relay | Closing

  datatype Address = Address(family: int, bytes: seq<byte>, port: nat)

  datatype Destination = NoDestination | Named(name: seq<byte>) | Numeric(bytes: seq<byte>)

  /** client_state_t. `readBuf` is read_buffer[..read_len], `writeBuf` is write_buffer[..write_len], and so on;
      `cursor` is the list from target_address_current on. */
  datatype Session = Session(
    readBuf: seq<byte>, writeBuf: seq<byte>, writeOff: nat,
    c2t: seq<byte>, c2tOff: nat, t2c: seq<byte>, t2cOff: nat,
    clientFd: Option<Fd>, targetFd: Option<Fd>,
    addresses: Option<Jid>, cursor: seq<Address>, job: Option<Jid>, lastError: int,
    username: seq<byte>, destination: Destination, port: nat, accessLogged: bool,
    stage: Stage, relayStarted: bool)

  datatype Kind = ClientItem | TargetItem

  datatype Item = Item(kind: Kind, interest: Interest, sid: Sid)

  /** struct resolver_job; the list in `result` is known by the job that looked it up. */
  datatype Job = Job(fd: Fd, state: Option<Sid>, result: bool, status: int, done: bool)

  /** Where a resolver thread stands: inside getaddrinfo, before its critical section, or after it. */
  datatype Thread = Lookup | Publish(status: int, result: bool) | Notify(fd: Fd) | Discard(result: bool)

  datatype Metrics = Metrics(historical: nat, concurrent: nat, successful: nat, failed: nat, upstream: nat, downstream: nat)

  // ---------------------------------------------------------------- what the environment reports

  /** recv: `Received([])` is the end of the stream. */
  datatype Recv = Received(bytes: seq<byte>) | RecvBlocked | RecvFailed

  datatype Send = Sent(n: nat) | SendBlocked | SendFailed

  /** getsockopt(SO_ERROR). */
  datatype SoError = Reported(error: int) | QueryFailed(errno: int)

  /** One call of start_target_connection; `fd` is the descriptor the kernel would like to hand out. */
  datatype Attempt =
    | NoSocket(errno: int)
    | NotNonBlocking(fd: Fd, errno: int)
    | ConnectFailed(fd: Fd, errno: int)
    | Underway(fd: Fd, errno: int)

  /** What the calls of one handler return, and the user table as management left it by then. */
  datatype Io = Io(recv: Recv, sends: seq<Send>, soError: SoError, attempts: seq<Attempt>,
                   resolverStarts: bool, staleWouldBlock: bool, users: UserMap)

  // ---------------------------------------------------------------- history

  /** A decided message together with the user table it was decided under. */
  datatype Decision = Decision(bytes: seq<byte>, users: UserMap)

  datatype Outcome = Pending | Failed(errno: int) | Connected

  datatype Try = Try(address: Address, outcome: Outcome)

  datatype Record = Record(user: seq<byte>, destination: Destination, port: nat, success: bool)

  datatype Ending = Open | ClientStreamEnded | TargetStreamEnded

  datatype Hist = Hist(
    c2tIn: seq<byte>, c2tOut: seq<byte>, t2cIn: seq<byte>, t2cOut: seq<byte>,
    greeting: Option<Decision>, auth: Option<Decision>,
    request: Option<ConnectRequest>, lookup: Option<Jid>, resolved: Option<Jid>, candidates: seq<Address>,
    tried: seq<Try>, replies: seq<byte>, succeeded: bool, records: seq<Record>, ending: Ending)

  const BLANK := Hist([], [], [], [], None, None, None, None, None, [], [], [], false, [], Open)

  datatype Answer = Answer(status: int, addresses: seq<Address>)

  /** Which session asked for which name, and what its thread's lookup returned. */
  datatype Origin = Origin(sid: Sid, name: seq<byte>, port: nat, answer: Option<Answer>)

  datatype World = World(
    table: map<Fd, Item>, open: set<Fd>, heap: map<Sid, Session>,
    jobs: map<Jid, Job>, lists: map<Jid, seq<Address>>, threads: map<Jid, Thread>, queue: seq<Fd>,
    metrics: Metrics, active: int,
    hist: seq<Hist>, origins: seq<Origin>,
    staleErrnoTested: bool, fault: bool)

  const START := World(map[], {}, map[], map[], map[], map[], [], Metrics(0, 0, 0, 0, 0, 0), 0, [], [], false, false)

  // ---------------------------------------------------------------- primitives

  function Fault(w: World): World {
    w.(fault := true)
  }

  function Put(w: World, sid: Sid, s: Session): World {
    w.(heap := w.heap[sid := s])
  }

  function Past(w: World, sid: Sid): Hist {
    if sid < |w.hist| then w.hist[sid] else BLANK
  }

  function Remember(w: World, sid: Sid, h: Hist): World {
    if sid < |w.hist| then w.(hist := w.hist[sid := h]) else w
  }

  function CloseFd(w: World, fd: Fd): World {
    if fd in w.open then w.(open := w.open - {fd}) else Fault(w)
  }

  function FreeList(w: World, l: Jid): World {
    if l in w.lists then w.(lists := w.lists - {l}) else Fault(w)
  }

  function FreeJob(w: World, j: Jid): World {
    if j in w.jobs then w.(jobs := w.jobs - {j}) else Fault(w)
  }

  /** free(state), which must not leave a registration other than `closing` pointing at the session. */
  function FreeSession(w: World, sid: Sid, closing: Fd): World {
    w.(heap := w.heap - {sid},
       fault := w.fault || sid !in w.heap || exists fd | fd in w.table && fd != closing :: w.table[fd].sid == sid)
  }

  /** The descriptor the kernel hands out: not open, and the wanted one if that is possible. */
  function FreshFd(open: set<Fd>, want: Fd): (fd: Fd)
    ensures fd >= want && fd !in open
    ensures want !in open ==> fd == want
    decreases open
  {
    if want !in open then want else FreshFd(open - {want}, want + 1)
  }

  // ---------------------------------------------------------------- selector calls

  function SetInterest(w: World, fd: Fd, interest: Interest): World {
    if fd in w.table then w.(table := w.table[fd := w.table[fd].(interest := interest)]) else w
  }

  function Register(w: World, fd: Fd, item: Item): World
    requires Registrable(w, fd)
  {
    w.(table := w.table[fd := item])
  }

  predicate Registrable(w: World, fd: Fd) {
    fd < FD_LIMIT && fd !in w.table
  }

  /** Sessions that hold a target descriptor: the measure of nested unregistrations. */
  function Linked(w: World): set<Sid> {
    set sid | sid in w.heap && w.heap[sid].targetFd.Some?
  }

  /** selector_unregister_fd; it succeeds exactly when `fd in w.table`. */
  function Unregister(w: World, fd: Fd): World
    decreases Linked(w), 1
  {
    if fd !in w.table then w
    else
      var item := w.table[fd];
      var closed := if item.kind == ClientItem then ClientClose(w, fd, item.sid) else TargetClose(w, fd, item.sid);
      if fd in closed.table then closed.(table := closed.table - {fd}) else Fault(closed)
  }

  /** client_close */
  function ClientClose(w: World, fd: Fd, sid: Sid): World
    decreases Linked(w), 0, 1
  {
    if sid !in w.heap then Fault(w) else FinishClose(UnlinkTarget(w, fd, sid), fd, sid)
  }

  /** client_close up to the unregistration of the target (lines 81-92). */
  function UnlinkTarget(w: World, fd: Fd, sid: Sid): World
    requires sid in w.heap
    decreases Linked(w), 0, 0
  {
    var s := w.heap[sid];
    var s1 := if s.clientFd == Some(fd) then s.(clientFd := None) else s;
    var w1 := Put(w, sid, s1.(targetFd := None));
    if s.targetFd.None? then w1
    else
      assert sid in Linked(w) && sid !in Linked(w1) && Linked(w1) <= Linked(w);
      if s.targetFd.value in w1.table then Unregister(w1, s.targetFd.value) else CloseFd(w1, s.targetFd.value)
  }

  /** client_close after the target was unlinked (lines 94-101). */
  function FinishClose(w: World, fd: Fd, sid: Sid): World {
    DropSession(FreeAddresses(DetachResolver(w, sid), sid), fd, sid)
  }

  /** Count the session out, free it and close its descriptor (lines 96-101). */
  function DropSession(w: World, fd: Fd, sid: Sid): World {
    var m := w.metrics;
    var w1 := w.(metrics := m.(concurrent := if m.concurrent > 0 then m.concurrent - 1 else 0), active := w.active - 1);
    CloseFd(FreeSession(w1, sid, fd), fd)
  }

  /** target_close */
  function TargetClose(w: World, fd: Fd, sid: Sid): World {
    if sid !in w.heap then Fault(w)
    else
      var s := w.heap[sid];
      CloseFd(if s.targetFd == Some(fd) then Put(w, sid, s.(targetFd := None)) else w, fd)
  }

  /** target_connection_detach_resolver */
  function DetachResolver(w: World, sid: Sid): World {
    if sid !in w.heap then Fault(w)
    else
      var s := w.heap[sid];
      match s.job
      case None => w
      case Some(j) =>
        if j !in w.jobs then Fault(w)
        else
          var job := w.jobs[j];
          var w1 := w.(jobs := w.jobs[j := job.(state := None)]);
          var w2 :=
            if job.done then FreeJob(if job.result then FreeList(w1, j) else w1, j)
            else w1;
          Put(w2, sid, s.(job := None))
  }

  /** target_connection_free_addresses */
  function FreeAddresses(w: World, sid: Sid): World {
    if sid !in w.heap then Fault(w)
    else
      var s := w.heap[sid];
      match s.addresses
      case None => w
      case Some(l) => Put(FreeList(w, l), sid, s.(addresses := None, cursor := []))
  }

  // ---------------------------------------------------------------- client_session.c

  /** client_session_update_relay_interests */
  function UpdateRelayInterests(w: World, sid: Sid): World {
    if sid !in w.heap then Fault(w)
    else
      var s := w.heap[sid];
      if !s.relayStarted then w
      else
        var w1 := if s.clientFd.Some?
                  then SetInterest(w, s.clientFd.value, Interest(|s.c2t| == 0, |s.t2c| > s.t2cOff)) else w;
        if s.targetFd.Some?
        then SetInterest(w1, s.targetFd.value, Interest(|s.t2c| == 0, |s.c2t| > s.c2tOff)) else w1
  }

  /** client_session_close_connection */
  function CloseConnection(w: World, sid: Sid): World {
    if sid !in w.heap then Fault(w)
    else
      var s := w.heap[sid];
      if s.clientFd.Some? then Unregister(Put(w, sid, s.(clientFd := None)), s.clientFd.value)
      else if s.targetFd.Some? then
        var w1 := Put(w, sid, s.(targetFd := None));
        if s.targetFd.value in w1.table then Unregister(w1, s.targetFd.value) else CloseFd(w1, s.targetFd.value)
      else w
  }

  datatype Flushed = Drained | Blocked | Broken

  datatype FlushResult = FlushResult(off: nat, end: Flushed)

  /** The send loops: send from `off` on until everything went out, a send would block or a send fails.
      A run of the loop that consumes all of `sends` is followed by a would-block. */
  function Flush(buffer: seq<byte>, off: nat, sends: seq<Send>): (r: FlushResult)
    ensures off <= r.off
    ensures off <= |buffer| ==> r.off <= |buffer|
    ensures r.end == Drained <==> r.off >= |buffer|
    decreases |sends|
  {
    if off >= |buffer| then FlushResult(off, Drained)
    else if sends == [] || sends[0].SendBlocked? then FlushResult(off, Blocked)
    else if sends[0].SendFailed? || sends[0].n == 0 then FlushResult(off, Broken)
    else Flush(buffer, off + Min(sends[0].n, |buffer| - off), sends[1..])
  }

  function Slice(s: seq<byte>, a: nat, b: nat): seq<byte> {
    if a <= b <= |s| then s[a..b] else []
  }

  /** client_write */
  function ClientWrite(w: World, fd: Fd, sid: Sid, sends: seq<Send>): World {
    if sid !in w.heap then Fault(w)
    else
      var s := w.heap[sid];
      var f := Flush(s.writeBuf, s.writeOff, sends);
      match f.end
      case Blocked => Put(w, sid, s.(writeOff := f.off))
      case Broken => CloseConnection(Put(w, sid, s.(writeOff := f.off)), sid)
      case Drained =>
        if |s.writeBuf| > 0 then ClientReplied(Put(w, sid, s.(writeBuf := [], writeOff := 0)), fd, sid)
        else if s.stage != Relay then SetInterest(w, fd, READ)
        else ClientFlush(w, sid, sends)
  }

  /** client_write after the whole pending reply went out (lines 132-144). */
  function ClientReplied(w: World, fd: Fd, sid: Sid): World {
    if sid !in w.heap then Fault(w)
    else
      var s := w.heap[sid];
      if s.stage == Closing then Unregister(w, fd)
      else if s.stage == Relay && !s.relayStarted then
        UpdateRelayInterests(Put(w, sid, s.(relayStarted := true)), sid)
      else SetInterest(w, fd, READ)
  }

  /** client_write in the relay: the target-to-client send loop (lines 152-176). */
  function ClientFlush(w: World, sid: Sid, sends: seq<Send>): World {
    if sid !in w.heap then Fault(w)
    else
      var s := w.heap[sid];
      var f := Flush(s.t2c, s.t2cOff, sends);
      var sent := Slice(s.t2c, s.t2cOff, f.off);
      var h := Past(w, sid);
      var w1 := Remember(w, sid, h.(t2cOut := h.t2cOut + sent))
                .(metrics := w.metrics.(downstream := w.metrics.downstream + |sent|));
      match f.end
      case Blocked => Put(w1, sid, s.(t2cOff := f.off))
      case Broken => CloseConnection(Put(w1, sid, s.(t2cOff := f.off)), sid)
      case Drained => UpdateRelayInterests(Put(w1, sid, s.(t2c := [], t2cOff := 0)), sid)
  }

  /** Put a reply in the write buffer, change stage and drop what was read. */
  function Answering(s: Session, reply: seq<byte>, next: Stage): Session {
    s.(writeBuf := reply, writeOff := 0, stage := next, readBuf := [])
  }

  /** client_read */
  function ClientRead(w: World, fd: Fd, sid: Sid, io: Io): World {
    if sid !in w.heap then Fault(w)
    else
      var s := w.heap[sid];
      if s.stage == Relay then ClientReadRelay(w, fd, sid, io)
      else
        match io.recv
        case RecvBlocked => w
        case RecvFailed => CloseConnection(w, sid)
        case Received(bytes) =>
          var got := Take(bytes, if |s.readBuf| <= BUFFER_SIZE then BUFFER_SIZE - |s.readBuf| else 0);
          if got == [] then CloseConnection(w, sid)
          else
            var w1 := Put(w, sid, s.(readBuf := s.readBuf + got));
            if s.stage == Greeting then ReadGreeting(w1, fd, sid, io.users)
            else if s.stage == Auth then ReadAuth(w1, fd, sid, io.users)
            else if s.stage == Request then ReadRequest(w1, fd, sid, io)
            else
              // falls out of the if-chain to the errno test, with the errno of some earlier call
              var w2 := w1.(staleErrnoTested := true);
              if io.staleWouldBlock then w2 else CloseConnection(w2, sid)
  }

  /** client_read in the relay stage (lines 182-222). */
  function ClientReadRelay(w: World, fd: Fd, sid: Sid, io: Io): World {
    if sid !in w.heap then Fault(w)
    else
      var s := w.heap[sid];
      if |s.c2t| != 0 then UpdateRelayInterests(w, sid)
      else
        match io.recv
        case RecvBlocked => w
        case RecvFailed => CloseConnection(w, sid)
        case Received(bytes) =>
          var got := Take(bytes, BUFFER_SIZE);
          var h := Past(w, sid);
          if got == [] then CloseConnection(Remember(w, sid, h.(ending := ClientStreamEnded)), sid)
          else
            var w1 := Put(Remember(w, sid, h.(c2tIn := h.c2tIn + got)), sid, s.(c2t := got, c2tOff := 0));
            var w2 := UpdateRelayInterests(w1, sid);
            if s.targetFd.Some? then TargetWrite(w2, s.targetFd.value, sid, io) else w2
  }

  function ReadGreeting(w: World, fd: Fd, sid: Sid, users: UserMap): World {
    if sid !in w.heap then Fault(w)
    else
      var s := w.heap[sid];
      var h := Past(w, sid);
      match DecideGreeting(s.readBuf, users)
      case GreetingWait => w
      case GreetingDrop => Unregister(w, fd)
      case GreetingChoose(chosen) =>
        var next := if chosen == METHOD_USERNAME_PASSWORD then Auth
                    else if chosen == METHOD_NO_AUTH then Request else Closing;
        var w1 := Remember(w, sid, h.(greeting := Some(Decision(s.readBuf, users))));
        SetInterest(Put(w1, sid, Answering(s, GreetingResponse(chosen), next)), fd, WRITE)
  }

  function ReadAuth(w: World, fd: Fd, sid: Sid, users: UserMap): World {
    if sid !in w.heap then Fault(w)
    else
      var s := w.heap[sid];
      var h := Past(w, sid);
      var w1 := Remember(w, sid, h.(auth := Some(Decision(s.readBuf, users))));
      match DecideAuth(s.readBuf, users)
      case AuthWait => w
      case AuthReject => SetInterest(Put(w1, sid, Answering(s, AuthResponse(AUTH_FAILURE), Closing)), fd, WRITE)
      case AuthAccept(user) =>
        SetInterest(Put(w1, sid, Answering(s.(username := user), AuthResponse(AUTH_SUCCESS), Request)), fd, WRITE)
  }

  function ReadRequest(w: World, fd: Fd, sid: Sid, io: Io): World {
    if sid !in w.heap then Fault(w)
    else
      match DecideRequest(w.heap[sid].readBuf)
      case RequestWait => w
      case RequestReject(code) => SetInterest(Discarding(Refuse(w, sid, code, false), sid), fd, WRITE)
      case RequestConnect(request) =>
        Discarding(Begin(w, fd, sid, request, io), sid)
  }

  /** read_len = 0 */
  function Discarding(w: World, sid: Sid): World {
    if sid in w.heap then Put(w, sid, w.heap[sid].(readBuf := [])) else Fault(w)
  }

  /** Prepare a failure reply to the CONNECT request, count it, log it if asked to, and go closing. */
  function Refuse(w: World, sid: Sid, code: byte, logged: bool): World {
    if sid !in w.heap then Fault(w)
    else
      var h := Past(w, sid);
      var w1 := Remember(w, sid, h.(replies := h.replies + [code]))
                .(metrics := w.metrics.(failed := w.metrics.failed + 1));
      var w2 := if logged then LogAccess(w1, sid, false) else w1;
      if sid !in w2.heap then Fault(w2)
      else Put(w2, sid, w2.heap[sid].(writeBuf := RequestResponse(code), writeOff := 0, stage := Closing))
  }

  predicate HasDestination(s: Session) {
    s.destination != NoDestination && s.destination != Named([])
  }

  /** access_log_client_connection */
  function LogAccess(w: World, sid: Sid, success: bool): World {
    if sid !in w.heap then Fault(w)
    else
      var s := w.heap[sid];
      if s.accessLogged || !HasDestination(s) then w
      else
        var h := Past(w, sid);
        Put(Remember(w, sid, h.(records := h.records + [Record(s.username, s.destination, s.port, success)])),
            sid, s.(accessLogged := true))
  }

  // ---------------------------------------------------------------- target_connection.c

  // errno and EAI values of Linux
  const ENETUNREACH := 101
  const EHOSTUNREACH := 113
  const EHOSTDOWN := 112
  const ENODATA := 61
  const ECONNREFUSED := 111
  const ETIMEDOUT := 110
  const EAI_AGAIN := -3
  const EAI_NONAME := -2
  const EAI_NODATA := -5

  /** socks5_reply_for_errno */
  function ReplyForErrno(error: int): (r: byte)
    ensures r == REPLY_SUCCESS <==> error == 0
  {
    if error == 0 then REPLY_SUCCESS
    else if error == ENETUNREACH then REPLY_NETWORK_UNREACHABLE
    else if error == EHOSTUNREACH || error == EHOSTDOWN || error == ENODATA then REPLY_HOST_UNREACHABLE
    else if error == ECONNREFUSED then REPLY_CONNECTION_REFUSED
    else if error == ETIMEDOUT then REPLY_TTL_EXPIRED
    else REPLY_GENERAL_FAILURE
  }

  /** socks5_reply_for_gai_error */
  function ReplyForGaiError(error: int): (r: byte)
    ensures r == REPLY_SUCCESS <==> error == 0
  {
    if error == 0 then REPLY_SUCCESS
    else if error == EAI_AGAIN then REPLY_TTL_EXPIRED
    else if error == EAI_NONAME || error == EAI_NODATA then REPLY_HOST_UNREACHABLE
    else REPLY_GENERAL_FAILURE
  }

  /** target_connection_begin */
  function Begin(w: World, fd: Fd, sid: Sid, request: ConnectRequest, io: Io): World {
    var w0 := FreeAddresses(w, sid);
    if sid !in w0.heap then Fault(w0)
    else
      var s := w0.heap[sid].(lastError := 0, port := request.port, accessLogged := false,
                             destination := if request.atyp == ATYP_DOMAIN then Named(CString(request.address))
                                            else Numeric(request.address));
      var h := Past(w0, sid);
      var w1 := Put(Remember(w0, sid, h.(request := Some(request))), sid, s);
      if request.atyp == ATYP_DOMAIN then BeginLookup(DetachResolver(w1, sid), fd, sid, request, io)
      else
        var address := Address(if request.atyp == ATYP_IPV4 then AF_INET else AF_INET6, request.address, request.port);
        var w2 := Remember(w1, sid, Past(w1, sid).(candidates := [address]));
        AfterStart(StartConnection(w2, sid, address, FirstAttempt(io.attempts)), fd, sid)
  }

  /** What target_connection_begin and target_connection_on_resolve do after starting a connection. */
  function AfterStart(started: Started, fd: Fd, sid: Sid): World {
    var w := started.w;
    if sid !in w.heap then Fault(w)
    else if started.ok then SetInterest(w, fd, NOOP)
    else SetInterest(Refuse(w, sid, ReplyForErrno(w.heap[sid].lastError), true), fd, WRITE)
  }

  /** start_target_resolution and what target_connection_begin does around it. */
  function BeginLookup(w: World, fd: Fd, sid: Sid, request: ConnectRequest, io: Io): World {
    if sid !in w.heap then Fault(w)
    else if !io.resolverStarts then SetInterest(Refuse(w, sid, REPLY_GENERAL_FAILURE, true), fd, WRITE)
    else
      var s := w.heap[sid];
      var j := |w.origins|;
      var w1 := w.(origins := w.origins + [Origin(sid, CString(request.address), request.port, None)],
                   jobs := w.jobs[j := Job(if s.clientFd.Some? then s.clientFd.value else 0, Some(sid), false, EAI_AGAIN, false)],
                   threads := w.threads[j := Lookup]);
      var w2 := Remember(w1, sid, Past(w1, sid).(lookup := Some(j)));
      SetInterest(Put(w2, sid, s.(job := Some(j), stage := Resolving)), fd, NOOP)
  }

  function FirstAttempt(attempts: seq<Attempt>): Attempt {
    if attempts == [] then NoSocket(EMFILE) else attempts[0]
  }

  datatype Started = Started(w: World, ok: bool)

  /** start_target_connection with register_connecting_socket. The attempt is recorded with the errno that the
      code stores for it. */
  function StartConnection(w: World, sid: Sid, address: Address, attempt: Attempt): (r: Started)
    ensures sid in w.heap ==> sid in r.w.heap && r.w.heap[sid].cursor == w.heap[sid].cursor
  {
    if sid !in w.heap then Started(Fault(w), false)
    else
      var s := w.heap[sid];
      match attempt
      case NoSocket(errno) => AttemptFailed(w, sid, address, errno)
      case NotNonBlocking(want, errno) =>
        var fd := FreshFd(w.open, want);
        AttemptFailed(CloseFd(w.(open := w.open + {fd}), fd), sid, address, errno)
      case ConnectFailed(want, errno) =>
        var fd := FreshFd(w.open, want);
        var w1 := Put(w.(open := w.open + {fd}), sid, s.(targetFd := Some(fd)));
        AttemptFailed(Put(CloseFd(w1, fd), sid, s.(targetFd := None)), sid, address, errno)
      case Underway(want, errno) =>
        var fd := FreshFd(w.open, want);
        var w1 := Put(w.(open := w.open + {fd}), sid, s.(targetFd := Some(fd)));
        if !Registrable(w1, fd)
        then AttemptFailed(Put(CloseFd(w1, fd), sid, s.(targetFd := None)), sid, address, errno)
        else
          var h := Past(w1, sid);
          var w2 := Remember(w1, sid, h.(tried := h.tried + [Try(address, Pending)]));
          Started(Put(Register(w2, fd, Item(TargetItem, WRITE, sid)), sid, s.(targetFd := Some(fd), stage := Connecting)), true)
  }

  /** An attempt that failed at once: remember its errno. */
  function AttemptFailed(w: World, sid: Sid, address: Address, errno: int): (r: Started)
    ensures sid in w.heap ==> sid in r.w.heap && r.w.heap[sid].cursor == w.heap[sid].cursor
  {
    if sid !in w.heap then Started(Fault(w), false)
    else
      var h := Past(w, sid);
      Started(Put(Remember(w, sid, h.(tried := h.tried + [Try(address, Failed(errno))])),
                  sid, w.heap[sid].(lastError := errno)), false)
  }

  predicate Usable(address: Address) {
    address.family == AF_INET || address.family == AF_INET6
  }

  /** start_next_target_connection */
  function StartNext(w: World, sid: Sid, attempts: seq<Attempt>): Started
    decreases if sid in w.heap then |w.heap[sid].cursor| else 0
  {
    if sid !in w.heap then Started(Fault(w), false)
    else
      var s := w.heap[sid];
      if s.cursor == [] then Started(w, false)
      else if s.addresses.None? || s.addresses.value !in w.lists then Started(Fault(w), false)
      else
        var current := s.cursor[0];
        var w1 := Put(w, sid, s.(cursor := s.cursor[1..]));
        if !Usable(current) then StartNext(w1, sid, attempts)
        else
          var r := StartConnection(w1, sid, current, FirstAttempt(attempts));
          if r.ok then r else StartNext(r.w, sid, if attempts == [] then [] else attempts[1..])
  }

  /** target_write */
  function TargetWrite(w: World, fd: Fd, sid: Sid, io: Io): World {
    if sid !in w.heap then Fault(w)
    else if w.heap[sid].stage == Connecting then
      if io.soError == Reported(0) then TargetConnected(SetInterest(w, fd, NOOP), sid)
      else
        var errno := if io.soError.Reported? then io.soError.error else io.soError.errno;
        var s := w.heap[sid];
        var w1 := Unregister(Put(MarkLastTry(w, sid, Failed(errno)), sid, s.(lastError := errno)), fd);
        if sid !in w1.heap then Fault(w1)
        else TargetFailed(StartNext(w1, sid, io.attempts), sid)
    else TargetFlush(w, sid, io.sends)
  }

  /** Record the outcome of the attempt under way. */
  function MarkLastTry(w: World, sid: Sid, outcome: Outcome): World {
    var h := Past(w, sid);
    if h.tried == [] then w
    else
      var last := |h.tried| - 1;
      Remember(w, sid, h.(tried := h.tried[last := Try(h.tried[last].address, outcome)]))
  }

  /** target_write once the pending connect succeeded. */
  function TargetConnected(w: World, sid: Sid): World {
    if sid !in w.heap then Fault(w)
    else
      var w0 := MarkLastTry(w, sid, Connected);
      var h := Past(w0, sid);
      var w1 := Remember(w0, sid, h.(replies := h.replies + [REPLY_SUCCESS], succeeded := true))
                .(metrics := w.metrics.(successful := w.metrics.successful + 1));
      var w2 := LogAccess(w1, sid, true);
      if sid !in w2.heap then Fault(w2)
      else
        var s := w2.heap[sid];
        var w3 := Put(w2, sid, s.(writeBuf := RequestResponse(REPLY_SUCCESS), writeOff := 0, stage := Relay));
        if s.clientFd.Some? then SetInterest(w3, s.clientFd.value, WRITE) else w3
  }

  /** target_write after a failed connect: wait for the next attempt, or refuse when there is none left. */
  function TargetFailed(started: Started, sid: Sid): World {
    var w := started.w;
    if sid !in w.heap then Fault(w)
    else if started.ok then w
    else
      var s := w.heap[sid];
      var w1 := Refuse(w, sid, ReplyForErrno(s.lastError), true);
      if s.clientFd.Some? then SetInterest(w1, s.clientFd.value, WRITE) else w1
  }

  /** target_write in the relay: the client-to-target send loop (lines 336-360). */
  function TargetFlush(w: World, sid: Sid, sends: seq<Send>): World {
    if sid !in w.heap then Fault(w)
    else
      var s := w.heap[sid];
      var f := Flush(s.c2t, s.c2tOff, sends);
      var sent := Slice(s.c2t, s.c2tOff, f.off);
      var h := Past(w, sid);
      var w1 := Remember(w, sid, h.(c2tOut := h.c2tOut + sent))
                .(metrics := w.metrics.(upstream := w.metrics.upstream + |sent|));
      match f.end
      case Blocked => Put(w1, sid, s.(c2tOff := f.off))
      case Broken => CloseConnection(Put(w1, sid, s.(c2tOff := f.off)), sid)
      case Drained => UpdateRelayInterests(Put(w1, sid, s.(c2t := [], c2tOff := 0)), sid)
  }

  /** target_read */
  function TargetRead(w: World, fd: Fd, sid: Sid, io: Io): World {
    if sid !in w.heap then Fault(w)
    else
      var s := w.heap[sid];
      if |s.t2c| != 0 then UpdateRelayInterests(w, sid)
      else
        match io.recv
        case RecvBlocked => w
        case RecvFailed => CloseConnection(w, sid)
        case Received(bytes) =>
          var got := Take(bytes, BUFFER_SIZE);
          var h := Past(w, sid);
          if got == [] then CloseConnection(Remember(w, sid, h.(ending := TargetStreamEnded)), sid)
          else
            var w1 := Put(Remember(w, sid, h.(t2cIn := h.t2cIn + got)), sid, s.(t2c := got, t2cOff := 0));
            var w2 := UpdateRelayInterests(w1, sid);
            if s.clientFd.Some? then ClientWrite(w2, s.clientFd.value, sid, io.sends) else w2
  }

  /** target_connection_on_resolve */
  function OnResolve(w: World, fd: Fd, sid: Sid, io: Io): World {
    if sid !in w.heap then Fault(w)
    else
      var s := w.heap[sid];
      if s.stage != Resolving || s.job.None? then w
      else if s.job.value !in w.jobs then Fault(w)
      else if !w.jobs[s.job.value].done then w
      else TakeAnswer(w, fd, sid, s.job.value, io)
  }

  /** target_connection_on_resolve with a finished job: take its list, free it and start connecting. */
  function TakeAnswer(w: World, fd: Fd, sid: Sid, j: Jid, io: Io): World {
    if sid !in w.heap || j !in w.jobs then Fault(w)
    else
      var s := w.heap[sid];
      var job := w.jobs[j];
      var w1 := Put(FreeJob(w, j), sid, s.(job := None));
      if job.status != 0 || !job.result then
        // a lookup that failed with a list would leak it; getaddrinfo returns no list on failure
        SetInterest(Refuse(w1, sid, ReplyForGaiError(job.status), true), fd, WRITE)
      else if j !in w1.lists then Fault(w1)
      else
        var h := Past(w1, sid);
        var w2 := Put(Remember(w1, sid, h.(resolved := Some(j), candidates := Filter(w1.lists[j]))),
                      sid, s.(job := None, addresses := Some(j), cursor := w1.lists[j]));
        AfterStart(StartNext(w2, sid, io.attempts), fd, sid)
  }

  /** The addresses of a list that the proxy can connect to, in order. */
  function Filter(list: seq<Address>): seq<Address> {
    if list == [] then []
    else if Usable(list[0]) then [list[0]] + Filter(list[1..])
    else Filter(list[1..])
  }

  // ---------------------------------------------------------------- the resolver thread

  /** getaddrinfo returns. A failing lookup yields no list. */
  function LookupReturns(w: World, j: Jid, answer: Answer): World {
    if j !in w.jobs || j >= |w.origins| then Fault(w)
    else
      var found := answer.status == 0 && answer.addresses != [];
      w.(threads := w.threads[j := Publish(answer.status, found)],
         lists := if found then w.lists[j := answer.addresses] else w.lists,
         origins := w.origins[j := w.origins[j].(answer := Some(Answer(answer.status, if found then answer.addresses else [])))])
  }

  /** The critical section of resolve_target. */
  function Publishing(w: World, j: Jid, status: int, result: bool): World {
    if j !in w.jobs then Fault(w)
    else
      var job := w.jobs[j];
      w.(jobs := w.jobs[j := job.(result := result, status := status, done := true)],
         threads := w.threads[j := if job.state.Some? then Notify(job.fd) else Discard(result)])
  }

  /** One atomic step of the resolver thread of job `j`: getaddrinfo returning `answer`, the critical section,
      and what follows it. */
  function ThreadStep(w: World, j: Jid, answer: Answer): World {
    if j !in w.threads then w
    else
      match w.threads[j]
      case Lookup => LookupReturns(w, j, answer)
      case Publish(status, result) => Publishing(w, j, status, result)
      case Notify(fd) => w.(queue := [fd] + w.queue, threads := w.threads - {j})
      case Discard(result) => FreeJob(if result then FreeList(w, j) else w, j).(threads := w.threads - {j})
  }

  // ---------------------------------------------------------------- events

  datatype Event =
    | Accept(want: Fd)
    | Ready(fd: Fd, readable: bool, writable: bool, onRead: Io, onWrite: Io)
    | Drain(io: Io)
    | ThreadRuns(j: Jid, answer: Answer)

  /** One connection accepted by accept_connection. */
  function AcceptClient(w: World, want: Fd): World {
    var fd := FreshFd(w.open, want);
    var w1 := w.(open := w.open + {fd});
    if !Registrable(w1, fd) then CloseFd(w1, fd)
    else
      var sid := |w.hist|;
      var m := w1.metrics;
      Register(w1, fd, Item(ClientItem, READ, sid))
        .(heap := w1.heap[sid := Fresh(fd)], hist := w1.hist + [BLANK],
          metrics := m.(historical := m.historical + 1, concurrent := m.concurrent + 1), active := w1.active + 1)
  }

  const ANONYMOUS: seq<byte> := [97, 110, 111, 110, 121, 109, 111, 117, 115]

  function Fresh(fd: Fd): Session {
    Session([], [], 0, [], 0, [], 0, Some(fd), None, None, [], None, 0, ANONYMOUS, NoDestination, 0, false, Greeting, false)
  }

  function Readable(w: World, fd: Fd, kind: Kind, sid: Sid, io: Io): World {
    if kind == ClientItem then ClientRead(w, fd, sid, io) else TargetRead(w, fd, sid, io)
  }

  function Writable(w: World, fd: Fd, kind: Kind, sid: Sid, io: Io): World {
    if kind == ClientItem then ClientWrite(w, fd, sid, io.sends) else TargetWrite(w, fd, sid, io)
  }

  /** The body of handle_iteration for one descriptor; the key is captured before the read handler runs. */
  function Dispatch(w: World, fd: Fd, readable: bool, writable: bool, onRead: Io, onWrite: Io): World {
    if fd !in w.table then w
    else
      var item := w.table[fd];
      var w1 := if readable && item.interest.read then Readable(w, fd, item.kind, item.sid, onRead) else w;
      if writable && fd in w1.table && w1.table[fd].interest.write
      then Writable(w1, fd, w1.table[fd].kind, item.sid, onWrite)
      else w1
  }

  /** The body of handle_block_notifications for one queued notification. Only client items have a handle_block;
      calling that of a target item would be a call through a null pointer. */
  function DrainOne(w: World, io: Io): World {
    if w.queue == [] then w
    else
      var fd := w.queue[0];
      var w1 := w.(queue := w.queue[1..]);
      if fd !in w1.table then w1
      else if w1.table[fd].kind == ClientItem then OnResolve(w1, fd, w1.table[fd].sid, io)
      else Fault(w1)
  }

  function Step(w: World, e: Event): World {
    match e
    case Accept(want) => AcceptClient(w, want)
    case Ready(fd, readable, writable, onRead, onWrite) => Dispatch(w, fd, readable, writable, onRead, onWrite)
    case Drain(io) => DrainOne(w, io)
    case ThreadRuns(j, answer) => ThreadStep(w, j, answer)
  }

  function Run(w: World, events: seq<Event>): World
    decreases |events|
  {
    if events == [] then w else Step(Run(w, events[..|events| - 1]), events[|events| - 1])
  }

  /** What happens once the loop has stopped: selector_destroy unregisters one descriptor after the other, in any
      order, and the resolver threads go on in between and afterwards. */
  datatype Winding = Unregisters(fd: Fd) | Resolves(j: Jid, answer: Answer)

  function Wind(w: World, step: Winding): World {
    match step
    case Unregisters(fd) => Unregister(w, fd)
    case Resolves(j, answer) => ThreadStep(w, j, answer)
  }

  function WindDown(w: World, steps: seq<Winding>): World
    decreases |steps|
  {
    if steps == [] then w else Wind(WindDown(w, steps[..|steps| - 1]), steps[|steps| - 1])
  }
}
