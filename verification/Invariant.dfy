/** The invariant of the proxy: what holds between any two events. */
module Invariant {
  import opened Basics
  import opened Socks5
  import opened Proxy

  // ---------------------------------------------------------------- registrations, descriptors and sessions

  ghost predicate Registered(w: World, fd: Fd, kind: Kind, sid: Sid) {
    fd in w.table && w.table[fd].kind == kind && w.table[fd].sid == sid
  }

  /** The registration of `fd` belongs to a live session that holds `fd` in the matching field. */
  ghost predicate Owned(w: World, fd: Fd)
    requires fd in w.table
  {
    var item := w.table[fd];
    && fd < FD_LIMIT
    && item.sid in w.heap
    && (if item.kind == ClientItem then w.heap[item.sid].clientFd == Some(fd)
        else w.heap[item.sid].targetFd == Some(fd))
  }

  /** The descriptors of a live session are registered for it. */
  ghost predicate Anchored(w: World, sid: Sid)
    requires sid in w.heap
  {
    var s := w.heap[sid];
    && sid < |w.hist|
    && s.clientFd.Some? && Registered(w, s.clientFd.value, ClientItem, sid)
    && (s.targetFd.Some? ==> Registered(w, s.targetFd.value, TargetItem, sid))
  }

  ghost predicate Linkage(w: World) {
    && w.open == w.table.Keys
    && (forall fd | fd in w.table :: Owned(w, fd))
    && (forall sid | sid in w.heap :: Anchored(w, sid))
  }

  // ---------------------------------------------------------------- resolver jobs, threads and address lists

  /** Session that asked for job `j` and still waits for it. */
  ghost predicate Waiting(w: World, j: Jid)
    requires j < |w.origins|
  {
    w.origins[j].sid in w.heap && w.heap[w.origins[j].sid].job == Some(j)
  }

  /** Session that took the list of job `j` and has not freed it. */
  ghost predicate Holding(w: World, j: Jid)
    requires j < |w.origins|
  {
    w.origins[j].sid in w.heap && w.heap[w.origins[j].sid].addresses == Some(j)
  }

  /** The lookup of job `j` returned `status`, and the list exists exactly when `result` says so. */
  ghost predicate Answered(w: World, j: Jid, status: int, result: bool)
    requires j < |w.origins|
  {
    var answer := w.origins[j].answer;
    && answer.Some?
    && answer.value.status == status
    && (result <==> j in w.lists)
    && (if result then status == 0 && w.lists[j] == answer.value.addresses != [] else answer.value.addresses == [])
  }

  ghost predicate JobPhase(w: World, j: Jid)
    requires j < |w.origins| && j in w.jobs
  {
    var job := w.jobs[j];
    && !Holding(w, j)
    && job.state == (if Waiting(w, j) then Some(w.origins[j].sid) else None)
    && (Waiting(w, j) ==> w.heap[w.origins[j].sid].clientFd == Some(job.fd))
    && if !job.done then
         j in w.threads && match w.threads[j]
                           case Lookup => j !in w.lists && w.origins[j].answer.None?
                           case Publish(status, result) => Answered(w, j, status, result)
                           case _ => false
       else
         && Answered(w, j, job.status, job.result)
         && if Waiting(w, j) then
              if j in w.threads then w.threads[j] == Notify(job.fd) else job.fd in w.queue
            else j in w.threads && w.threads[j] == Discard(job.result)
  }

  ghost predicate Phase(w: World, j: Jid)
    requires j < |w.origins|
  {
    if j in w.jobs then JobPhase(w, j)
    else
      && !Waiting(w, j)
      && (j in w.threads ==> w.threads[j].Notify?)
      && (Holding(w, j) <==> j in w.lists)
      && (Holding(w, j) ==> Answered(w, j, 0, true))
  }

  /** A session waits only for a job it started, and holds only a list it asked for. */
  ghost predicate OwnRequests(w: World, sid: Sid)
    requires sid in w.heap
  {
    var s := w.heap[sid];
    && (s.job.Some? ==> s.job.value < |w.origins| && w.origins[s.job.value].sid == sid && s.job.value in w.jobs)
    && (s.addresses.Some? ==> s.addresses.value < |w.origins| && w.origins[s.addresses.value].sid == sid
                              && s.addresses.value in w.lists)
    && (s.job.Some? ==> s.addresses.None?)
  }

  /** The address a request spells out. */
  ghost function Literal(r: ConnectRequest): Address {
    Address(if r.atyp == ATYP_IPV4 then AF_INET else AF_INET6, r.address, r.port)
  }

  /** The lookup of a history is one its session started, for the name and port of its request. */
  ghost predicate AskedFor(origins: seq<Origin>, sid: Sid, h: Hist)
    requires h.lookup.Some?
  {
    && h.lookup.value < |origins| && h.request.Some? && h.request.value.atyp == ATYP_DOMAIN
    && var o := origins[h.lookup.value];
    o.sid == sid && o.name == CString(h.request.value.address) && o.port == h.request.value.port
  }

  /** A name was asked for and led to no list. */
  ghost predicate Unresolved(h: Hist) {
    h.request.Some? && h.request.value.atyp == ATYP_DOMAIN && h.resolved.None?
  }

  /** Why such a request is refused with `code`: its lookup could not be started, or returned no list. */
  ghost predicate Explains(origins: seq<Origin>, h: Hist, code: byte) {
    if h.lookup.None? then code == REPLY_GENERAL_FAILURE
    else
      && h.lookup.value < |origins| && origins[h.lookup.value].answer.Some?
      && var answer := origins[h.lookup.value].answer.value;
      && (answer.status != 0 || answer.addresses == [])
      && code == ReplyForGaiError(answer.status)
  }

  /** The addresses a session may try are those of its own request. */
  ghost predicate OwnAnswer(w: World, sid: Sid)
    requires sid < |w.hist|
  {
    var h := w.hist[sid];
    && (h.lookup.Some? ==> AskedFor(w.origins, sid, h))
    && (sid in w.heap && w.heap[sid].job.Some? ==> AskedFor(w.origins, sid, h.(lookup := w.heap[sid].job)))
    && (h.resolved.Some? ==>
          && h.lookup == h.resolved
          && var answer := w.origins[h.resolved.value].answer;
          answer.Some? && answer.value.status == 0 && h.candidates == Filter(answer.value.addresses))
    && (Unresolved(h) && h.replies != [] ==> Explains(w.origins, h, h.replies[0]))
    && (h.request.None? ==> h.candidates == [])
    && (h.resolved.None? && h.request.Some? && h.request.value.atyp == ATYP_DOMAIN ==> h.candidates == [])
    && (h.request.Some? && h.request.value.atyp != ATYP_DOMAIN ==>
          h.candidates == [Literal(h.request.value)])
  }

  ghost predicate Resolution(w: World) {
    && (forall j | j in w.jobs || j in w.threads || j in w.lists :: j < |w.origins|)
    && (forall j | 0 <= j < |w.origins| :: Phase(w, j))
    && (forall sid | sid in w.heap :: OwnRequests(w, sid))
    && (forall sid | 0 <= sid < |w.hist| :: OwnAnswer(w, sid))
  }

  // ---------------------------------------------------------------- counters

  datatype Tally = Successes | Failures | Upstream | Downstream

  ghost function Amount(h: Hist, t: Tally): nat {
    match t
    case Successes => if h.succeeded then 1 else 0
    case Failures => if h.succeeded then 0 else |h.replies|
    case Upstream => |h.c2tOut|
    case Downstream => |h.t2cOut|
  }

  ghost function Sum(hist: seq<Hist>, t: Tally): nat {
    if hist == [] then 0 else Sum(hist[..|hist| - 1], t) + Amount(hist[|hist| - 1], t)
  }

  ghost function Meter(m: Metrics, t: Tally): nat {
    match t
    case Successes => m.successful
    case Failures => m.failed
    case Upstream => m.upstream
    case Downstream => m.downstream
  }

  ghost predicate Accounts(w: World) {
    && w.active == |w.heap|
    && w.metrics.concurrent == |w.heap|
    && w.metrics.historical == |w.hist|
    && (forall t :: Meter(w.metrics, t) == Sum(w.hist, t))
  }

  // ---------------------------------------------------------------- what happened to a session

  /** The session passed the negotiation: it presented credentials that were valid then, or it was greeted while
      no user was configured and offered "no authentication" without offering passwords. */
  ghost predicate Admitted(h: Hist) {
    if h.auth.Some? then DecideAuth(h.auth.value.bytes, h.auth.value.users).AuthAccept?
    else h.greeting.Some? && DecideGreeting(h.greeting.value.bytes, h.greeting.value.users) == GreetingChoose(METHOD_NO_AUTH)
  }

  ghost function AdmittedName(h: Hist): seq<byte>
    requires Admitted(h)
  {
    if h.auth.Some? then DecideAuth(h.auth.value.bytes, h.auth.value.users).user else ANONYMOUS
  }

  ghost function Addresses(tried: seq<Try>): seq<Address> {
    seq(|tried|, i requires 0 <= i < |tried| => tried[i].address)
  }

  /** The errno a run of failed attempts ends with. */
  ghost function LastErrno(tried: seq<Try>): int {
    if tried == [] || !tried[|tried| - 1].outcome.Failed? then 0 else tried[|tried| - 1].outcome.errno
  }

  ghost predicate AllFailed(tried: seq<Try>) {
    forall i | 0 <= i < |tried| :: tried[i].outcome.Failed?
  }

  /** Every attempt but the last failed; the last one stands as `outcome`. */
  ghost predicate EndsWith(tried: seq<Try>, outcome: Outcome) {
    tried != [] && tried[|tried| - 1].outcome == outcome && AllFailed(tried[..|tried| - 1])
  }

  ghost predicate CandidatesKnown(h: Hist) {
    h.request.Some? && (h.request.value.atyp != ATYP_DOMAIN || h.resolved.Some?)
  }

  /** The destination a request names. */
  ghost function DestinationOf(r: ConnectRequest): Destination {
    if r.atyp == ATYP_DOMAIN then Named(CString(r.address)) else Numeric(r.address)
  }

  /** The access records that a history calls for: one, once the request is answered, if its destination has a name. */
  ghost function Records(h: Hist): seq<Record> {
    if h.request.Some? && h.replies != [] && Admitted(h) && DestinationOf(h.request.value) != Named([])
    then [Record(AdmittedName(h), DestinationOf(h.request.value), h.request.value.port, h.succeeded)]
    else []
  }

  /** What is true of a session's history at any time, also after the session is gone. */
  ghost predicate HistOk(h: Hist) {
    && h.c2tOut <= h.c2tIn && h.t2cOut <= h.t2cIn
    && |h.replies| <= 1 && h.records == Records(h)
    && Addresses(h.tried) <= h.candidates
    && (AllFailed(h.tried) || EndsWith(h.tried, Pending) || EndsWith(h.tried, Connected))
    && (h.succeeded <==> EndsWith(h.tried, Connected))
    && (h.succeeded ==> h.replies == [REPLY_SUCCESS])
    && (h.replies != [] && !h.succeeded && CandidatesKnown(h) ==>
          Addresses(h.tried) == h.candidates && AllFailed(h.tried)
          && h.replies[0] == ReplyForErrno(LastErrno(h.tried)))
    && (h.request.Some? ==> Admitted(h))
    && (h.request.None? && h.replies != [] ==> h.replies[0] in {1, 7, 8})
    && (h.request.None? ==> h.lookup.None?)
    && (h.c2tIn != [] || h.t2cIn != [] ==> h.succeeded)
    && (h.ending == ClientStreamEnded ==> h.c2tIn == h.c2tOut)
    && (h.ending == TargetStreamEnded ==> h.t2cIn == h.t2cOut)
  }

  // ---------------------------------------------------------------- one live session

  ghost predicate Quiet(s: Session) {
    s.c2t == [] && s.c2tOff == 0 && s.t2c == [] && s.t2cOff == 0 && !s.relayStarted
  }

  ghost predicate NoReply(s: Session) {
    s.writeBuf == [] && s.writeOff == 0
  }

  ghost predicate ReplyPending(s: Session) {
    s.writeOff < |s.writeBuf| <= 10
  }

  ghost predicate NoTarget(s: Session) {
    s.targetFd.None? && s.job.None? && s.addresses.None? && s.cursor == []
  }

  /** A relay buffer is empty and reset, or has bytes left to send. */
  ghost predicate Loaded(buffer: seq<byte>, off: nat) {
    |buffer| <= BUFFER_SIZE && if buffer == [] then off == 0 else off < |buffer|
  }

  ghost predicate Undecided(s: Session) {
    match s.stage
    case Greeting => DecideGreeting(s.readBuf, map[]) == GreetingWait
    case Auth => DecideAuth(s.readBuf, map[]) == AuthWait
    case Request => DecideRequest(s.readBuf) == RequestWait
    case _ => false
  }

  /** Stage, buffers and armed interests agree. */
  ghost predicate StageOk(s: Session, client: Interest, target: Option<Interest>) {
    match s.stage
    case Greeting => Quiet(s) && NoTarget(s) && NoReply(s) && client == READ && Undecided(s)
    case Auth => Quiet(s) && NoTarget(s) && HandshakeOk(s, client)
    case Request => Quiet(s) && NoTarget(s) && HandshakeOk(s, client)
    case Resolving => Quiet(s) && NoReply(s) && s.readBuf == [] && client == NOOP
                      && s.targetFd.None? && s.job.Some? && s.addresses.None? && s.cursor == []
    case Connecting => Quiet(s) && NoReply(s) && s.readBuf == [] && client == NOOP
                       && s.job.None? && s.targetFd.Some? && target == Some(WRITE)
    case Relay =>
      && s.readBuf == [] && s.job.None? && s.targetFd.Some?
      && if !s.relayStarted then Quiet(s) && ReplyPending(s) && client == WRITE && target == Some(NOOP)
         else
           && NoReply(s) && Loaded(s.c2t, s.c2tOff) && Loaded(s.t2c, s.t2cOff)
           && client == Interest(s.c2t == [], s.t2c != [])
           && target == Some(Interest(s.t2c == [], s.c2t != []))
    case Closing => Quiet(s) && ReplyPending(s) && s.readBuf == [] && client == WRITE && s.targetFd.None? && s.job.None?
  }

  /** Between messages of the negotiation: a reply is going out, or the next message is incomplete. */
  ghost predicate HandshakeOk(s: Session, client: Interest) {
    if s.writeBuf != [] then ReplyPending(s) && s.readBuf == [] && client == WRITE
    else NoReply(s) && client == READ && Undecided(s)
  }

  /** Bytes received are the bytes sent onward followed by what is buffered. */
  ghost predicate Flow(s: Session, h: Hist) {
    && s.c2tOff <= |s.c2t| && h.c2tIn == h.c2tOut + s.c2t[s.c2tOff..]
    && s.t2cOff <= |s.t2c| && h.t2cIn == h.t2cOut + s.t2c[s.t2cOff..]
  }

  ghost predicate NoRequestYet(h: Hist) {
    && h.request.None? && h.lookup.None? && h.resolved.None? && h.candidates == [] && h.tried == []
    && h.replies == [] && !h.succeeded && h.records == []
  }

  /** The reply that what was decided so far calls for. */
  ghost function PendingReply(stage: Stage, h: Hist): seq<byte> {
    match stage
    case Auth => GreetingResponse(METHOD_USERNAME_PASSWORD)
    case Request => if h.auth.Some? then AuthResponse(AUTH_SUCCESS) else GreetingResponse(METHOD_NO_AUTH)
    case Relay => RequestResponse(REPLY_SUCCESS)
    case _ => if h.replies != [] then RequestResponse(h.replies[0])
              else if h.auth.Some? then AuthResponse(AUTH_FAILURE) else GreetingResponse(METHOD_NO_ACCEPTABLE)
  }

  /** A session that goes closing without a reply to a request failed the negotiation. */
  ghost predicate TurnedAway(h: Hist) {
    if h.auth.Some? then DecideAuth(h.auth.value.bytes, h.auth.value.users) == AuthReject
    else h.greeting.Some?
         && DecideGreeting(h.greeting.value.bytes, h.greeting.value.users) == GreetingChoose(METHOD_NO_ACCEPTABLE)
  }

  ghost predicate AskedForPassword(h: Hist) {
    h.greeting.Some?
    && DecideGreeting(h.greeting.value.bytes, h.greeting.value.users) == GreetingChoose(METHOD_USERNAME_PASSWORD)
  }

  /** The history of a live session fits its stage. */
  ghost predicate Story(s: Session, h: Hist) {
    && Flow(s, h) && h.ending == Open && (s.writeBuf != [] ==> s.writeBuf == PendingReply(s.stage, h))
    && (s.stage != Greeting && s.stage != Auth && s.stage != Closing ==> Admitted(h) && s.username == AdmittedName(h))
    && match s.stage
       case Greeting => NoRequestYet(h) && h.greeting.None? && h.auth.None? && s.username == ANONYMOUS
       case Auth => NoRequestYet(h) && h.auth.None? && s.username == ANONYMOUS && AskedForPassword(h)
       case Request => NoRequestYet(h)
       case Resolving => h.request.Some? && h.request.value.atyp == ATYP_DOMAIN && s.lastError == 0 && Unanswered(s, h)
                         && h.lookup == s.job && h.resolved.None? && h.tried == []
       case Connecting => CandidatesKnown(h) && Unanswered(s, h) && EndsWith(h.tried, Pending) && Ahead(s, h)
       case Relay => CandidatesKnown(h) && h.succeeded
       case Closing => !h.succeeded && (h.replies == [] ==> TurnedAway(h))
  }

  ghost predicate Unanswered(s: Session, h: Hist) {
    h.replies == [] && !h.succeeded && h.records == [] && !s.accessLogged && Remembers(s, h)
  }

  /** The session knows who asked for what. */
  ghost predicate Remembers(s: Session, h: Hist) {
    && h.request.Some? && Admitted(h) && s.username == AdmittedName(h)
    && s.destination == DestinationOf(h.request.value) && s.port == h.request.value.port
  }

  /** What was tried and what the cursor still offers make up the candidates. */
  ghost predicate Ahead(s: Session, h: Hist) {
    && Addresses(h.tried) + Filter(s.cursor) == h.candidates
    && (s.cursor != [] ==> s.addresses.Some?)
  }

  ghost function ClientInterest(w: World, sid: Sid): Interest
    requires sid in w.heap && Anchored(w, sid)
  {
    w.table[w.heap[sid].clientFd.value].interest
  }

  ghost function TargetInterest(w: World, sid: Sid): Option<Interest>
    requires sid in w.heap && Anchored(w, sid)
  {
    if w.heap[sid].targetFd.None? then None else Some(w.table[w.heap[sid].targetFd.value].interest)
  }

  ghost predicate SessionOk(w: World, sid: Sid)
    requires sid in w.heap
  {
    && Anchored(w, sid)
    && StageOk(w.heap[sid], ClientInterest(w, sid), TargetInterest(w, sid))
    && Story(w.heap[sid], w.hist[sid])
  }

  // ---------------------------------------------------------------- the invariant

  /** Everything but the state of the sessions one by one. */
  ghost predicate Core(w: World) {
    && !w.fault && !w.staleErrnoTested
    && Linkage(w)
    && Resolution(w)
    && Accounts(w)
    && (forall sid | 0 <= sid < |w.hist| :: HistOk(w.hist[sid]))
  }

  /** The invariant while a handler is working on session `x`. */
  ghost predicate InvExcept(w: World, x: Sid) {
    Core(w) && forall sid | sid in w.heap && sid != x :: SessionOk(w, sid)
  }

  ghost predicate Inv(w: World) {
    Core(w) && forall sid | sid in w.heap :: SessionOk(w, sid)
  }

  // ---------------------------------------------------------------- lookups in a running server

  /** A notification of `fd` finds its session waiting for a job that is done and whose thread has ended. */
  ghost predicate Due(w: World, fd: Fd) {
    && fd in w.table && w.table[fd].kind == ClientItem && w.table[fd].sid in w.heap
    && var s := w.heap[w.table[fd].sid];
    && s.clientFd == Some(fd) && s.job.Some? && s.job.value in w.jobs && w.jobs[s.job.value].done
    && s.job.value !in w.threads
  }

  /** While the server runs, every job is waited for, every thread has its job, and the queued notifications are due
      and distinct. */
  ghost predicate Awaited(w: World) {
    && (forall j | j in w.jobs :: j < |w.origins| && Waiting(w, j))
    && (forall j | j in w.threads :: j in w.jobs)
    && (forall k | 0 <= k < |w.queue| :: Due(w, w.queue[k]))
    && (forall i, k | 0 <= i < k < |w.queue| :: w.queue[i] != w.queue[k])
  }
}
