/**
 * ootle/events.go: WatchEvents, the reconnecting event watch.
 *
 * A server is any function from the connection number and the request to what the connection
 * then delivers, so the theorems speak of every server and every run. Time is in whole seconds.
 */
module Watch {
  import opened Prelude
  import opened Sse
  import opened SseLaws

  /** The indexer's HTTP 410, any other stream failure, or a transport that cannot stream. */
  datatype StreamError = Gone | Fault(code: nat) | Unsupported

  /** Where, if anywhere, the context is cancelled during a connection. */
  datatype Halt = Never | AtSend(k: nat) | AfterStream | AtTimer

  datatype Conn = Conn(frames: seq<Frame>, error: Option<StreamError>, halt: Halt)

  datatype Request = Request(afterId: Option<string>, lastEventId: string)

  type Server = (nat, Request) -> Conn

  /** Whether the transport has the optional streaming capability. */
  datatype Transport = Plain | Streaming(server: Server)

  datatype End = Pruned | CtxDone | NotStreaming

  const BACKOFF_MIN: nat := 1
  const BACKOFF_MAX: nat := 5

  // ---- What a run has seen ----

  /** The connections of a run, the latest outermost. */
  datatype Run = Start | Then(earlier: Run, conn: Conn) {
    function Count(): nat {
      if Start? then 0 else earlier.Count() + 1
    }
  }

  /** The id of the last frame that decoded, or c if none did. */
  function Cursor<E>(c: string, frames: seq<Frame>, decode: Frame -> Option<E>): string {
    if frames == [] then c
    else if decode(frames[|frames| - 1]).Some? then frames[|frames| - 1].id
    else Cursor(c, frames[..|frames| - 1], decode)
  }

  function Seed(afterId: Option<string>): string {
    if afterId.Some? then afterId.value else ""
  }

  /** The cursor a run has reached: the id of the last frame it decoded, or the seed. */
  function CursorAfter<E>(afterId: Option<string>, run: Run, decode: Frame -> Option<E>): string {
    if run.Start? then Seed(afterId) else Cursor(CursorAfter(afterId, run.earlier, decode), run.conn.frames, decode)
  }

  /** The request that follows a run: one cursor only, and after_id only without one. */
  function NextRequest<E>(afterId: Option<string>, run: Run, decode: Frame -> Option<E>): Request {
    var c := CursorAfter(afterId, run, decode);
    Request(if c == "" then afterId else None, c)
  }

  /** Every connection is the server's answer to the request its predecessors lead to. */
  predicate Played<E>(afterId: Option<string>, server: Server, decode: Frame -> Option<E>, run: Run) {
    run.Start?
    || (Played(afterId, server, decode, run.earlier)
        && run.conn == server(run.earlier.Count(), NextRequest(afterId, run.earlier, decode)))
  }

  function Requests<E>(afterId: Option<string>, run: Run, decode: Frame -> Option<E>): seq<Request> {
    if run.Start? then [] else Requests(afterId, run.earlier, decode) + [NextRequest(afterId, run.earlier, decode)]
  }

  predicate Productive<E>(conn: Conn, decode: Frame -> Option<E>) {
    Decoded(conn.frames, decode) != []
  }

  /** How many connections in a row, up to the last, delivered nothing. */
  function Streak<E>(run: Run, decode: Frame -> Option<E>): nat {
    if run.Start? || Productive(run.conn, decode) then 0 else 1 + Streak(run.earlier, decode)
  }

  function Pow2(n: nat): nat {
    if n == 0 then 1 else 2 * Pow2(n - 1)
  }

  function Min(a: nat, b: nat): nat {
    if a < b then a else b
  }

  /** The wait after a run, in seconds. */
  function Wait<E>(run: Run, decode: Frame -> Option<E>): nat {
    var u := Streak(run, decode);
    if u == 0 then BACKOFF_MIN else Min(Pow2(u - 1), BACKOFF_MAX)
  }

  function Waits<E>(run: Run, decode: Frame -> Option<E>): (r: seq<nat>)
    ensures |r| == run.Count()
  {
    if run.Start? then [] else Waits(run.earlier, decode) + [Wait(run, decode)]
  }

  function Errors(run: Run): seq<StreamError> {
    if run.Start? then []
    else if run.conn.error.Some? then Errors(run.earlier) + [run.conn.error.value]
    else Errors(run.earlier)
  }

  // ---- The error buffer ----

  /**
   * Sends err into the one-slot buffer, displacing an unread warning. The consumer may take the
   * buffered value before any step; drains(n) says whether it does before step n.
   */
  method Displace(slot: Option<StreamError>, err: StreamError, drains: nat -> bool, step: nat)
    returns (slot': Option<StreamError>, attempts: nat)
    ensures slot' == Some(err)
    ensures attempts == if slot.None? || drains(step) then 1 else 2
  {
    slot', attempts := slot, 0;
    var sent, n := false, step;
    while !sent
      invariant sent ==> slot' == Some(err)
      invariant attempts <= 2 && (attempts == 2 ==> sent) && (attempts == 0 ==> slot' == slot && n == step && !sent)
      invariant attempts == 1 && !sent ==> slot.Some? && !drains(step) && slot'.None?
      invariant sent ==> attempts == if slot.None? || drains(step) then 1 else 2
      decreases 2 - attempts, !sent
    {
      if drains(n) {
        slot' := None;
      }
      n := n + 1;
      attempts := attempts + 1;
      if slot'.None? {
        slot', sent := Some(err), true;
      } else {
        slot' := None;
      }
    }
  }

  // ---- The watch ----

  /** The context wins one of the connection's sends. */
  predicate Cut<E>(conn: Conn, decode: Frame -> Option<E>) {
    conn.halt.AtSend? && conn.halt.k < |Decoded(conn.frames, decode)|
  }

  /** How a connection ends the watch, if it does. */
  function Ends<E>(conn: Conn, decode: Frame -> Option<E>): Option<End> {
    if Cut(conn, decode) then Some(CtxDone)
    else if conn.halt.AfterStream? then Some(CtxDone)
    else if conn.error == Some(Gone) then Some(Pruned)
    else if conn.halt.AtTimer? then Some(CtxDone)
    else None
  }

  predicate GoesOn<E>(run: Run, decode: Frame -> Option<E>) {
    run.Start? || (GoesOn(run.earlier, decode) && Ends(run.conn, decode).None?)
  }

  /** The events the consumer took from one connection. */
  function Taken<E>(conn: Conn, decode: Frame -> Option<E>): seq<E> {
    var events := Decoded(conn.frames, decode);
    if Cut(conn, decode) then events[..conn.halt.k] else events
  }

  /** Reads one connection to its end, or until the context wins a send. */
  method ReadConnection<E>(conn: Conn, decode: Frame -> Option<E>, lastId: string)
    returns (lastId': string, events: seq<E>, delivered: bool, cancelled: bool)
    ensures events == Taken(conn, decode)
    ensures cancelled <==> Cut(conn, decode)
    ensures !cancelled ==> lastId' == Cursor(lastId, conn.frames, decode)
    ensures !cancelled ==> delivered == Productive(conn, decode)
  {
    lastId', events, delivered := lastId, [], false;
    var i := 0;
    while i < |conn.frames|
      invariant i <= |conn.frames|
      invariant lastId' == Cursor(lastId, conn.frames[..i], decode)
      invariant events == Decoded(conn.frames[..i], decode) && delivered == (events != [])
      invariant conn.halt.AtSend? ==> |events| <= conn.halt.k
    {
      var frame := conn.frames[i];
      OneMoreFrame(lastId, conn.frames, i, decode);
      match decode(frame) {
        case None =>
        case Some(event) =>
          lastId' := frame.id;
          delivered := true;
          if conn.halt == AtSend(|events|) {
            CutHere(conn, i, decode);
            return lastId', events, delivered, true;
          }
          events := events + [event];
      }
      i := i + 1;
    }
    assert conn.frames[..i] == conn.frames;
    cancelled := false;
  }

  lemma OneMoreFrame<E>(c: string, frames: seq<Frame>, i: nat, decode: Frame -> Option<E>)
    requires i < |frames|
    ensures Cursor(c, frames[..i + 1], decode)
            == if decode(frames[i]).Some? then frames[i].id else Cursor(c, frames[..i], decode)
    ensures Decoded(frames[..i + 1], decode)
            == Decoded(frames[..i], decode) + if decode(frames[i]).Some? then [decode(frames[i]).value] else []
  {
    assert frames[..i + 1][..i] == frames[..i];
  }

  /** The context wins the send of the i-th frame's event: what was sent is what came before it. */
  lemma CutHere<E>(conn: Conn, i: nat, decode: Frame -> Option<E>)
    requires i < |conn.frames| && decode(conn.frames[i]).Some?
    requires conn.halt == AtSend(|Decoded(conn.frames[..i], decode)|)
    ensures Cut(conn, decode) && Taken(conn, decode) == Decoded(conn.frames[..i], decode)
  {
    var before, after := conn.frames[..i], conn.frames[i..];
    assert conn.frames == before + after;
    DecodedConcat(before, after, decode);
    DecodedSome(after, decode);
  }

  lemma {:induction false} DecodedSome<E>(frames: seq<Frame>, decode: Frame -> Option<E>)
    requires frames != [] && decode(frames[0]).Some?
    ensures Decoded(frames, decode) != []
  {
    if |frames| > 1 {
      DecodedSome(frames[..|frames| - 1], decode);
    }
  }

  /** When the next connection's error would be sent: an earlier one is still unread in the buffer. */
  predicate Unread(run: Run, drains: nat -> bool) {
    run.Then? && !drains(run.Count()) && (run.conn.error.Some? || Unread(run.earlier, drains))
  }

  /** A connection's error, if the watch gets to report it. */
  function Reported<E>(conn: Conn, decode: Frame -> Option<E>): Option<StreamError> {
    if Cut(conn, decode) || conn.halt.AfterStream? then None else conn.error
  }

  /** The errors that become warnings: a 410, and any other that finds the buffer empty. */
  function Warnings<E>(run: Run, decode: Frame -> Option<E>, drains: nat -> bool): seq<StreamError> {
    if run.Start? then []
    else
      var earlier, error := Warnings(run.earlier, decode, drains), Reported(run.conn, decode);
      if error.Some? && (error.value == Gone || !Unread(run.earlier, drains)) then earlier + [error.value] else earlier
  }

  function AllTaken<E>(run: Run, decode: Frame -> Option<E>): seq<E> {
    if run.Start? then [] else AllTaken(run.earlier, decode) + Taken(run.conn, decode)
  }

  /** The backoff a connection that delivers nothing will wait. */
  ghost function NextBackoff<E>(run: Run, decode: Frame -> Option<E>): nat {
    Min(Pow2(Streak(run, decode)), BACKOFF_MAX)
  }

  /** What a watch has done: asked, delivered, waited, and warned of. */
  datatype Log<E> = Log(requests: seq<Request>, delivered: seq<E>, waits: seq<nat>, warnings: seq<StreamError>)

  ghost predicate LogOf<E>(log: Log<E>, afterId: Option<string>, server: Server, decode: Frame -> Option<E>,
                           drains: nat -> bool, run: Run) {
    && Played(afterId, server, decode, run)
    && log.requests == Requests(afterId, run, decode)
    && log.delivered == AllTaken(run, decode)
    && log.waits == (if StopsUnwaited(run, decode) then Waits(run.earlier, decode) else Waits(run, decode))
    && log.warnings == Warnings(run, decode, drains)
  }

  /** The last connection was cancelled or pruned before its wait could start. */
  predicate StopsUnwaited<E>(run: Run, decode: Frame -> Option<E>) {
    run.Then? &&
    (run.conn.halt.AfterStream? || run.conn.error == Some(Gone)
     || (run.conn.halt.AtSend? && run.conn.halt.k < |Decoded(run.conn.frames, decode)|))
  }

  /** The loop's variables. */
  datatype Vars<E> = Vars(lastId: string, backoff: nat, slot: Option<StreamError>, log: Log<E>) {

    function Ask(afterId: Option<string>): Request {
      if lastId != "" then Request(None, lastId) else Request(afterId, lastId)
    }

    /** One turn of the loop, with the consumer having emptied the error buffer or not. */
    function After(request: Request, conn: Conn, decode: Frame -> Option<E>, drained: bool): Vars<E> {
      var log1 := log.(requests := log.requests + [request], delivered := log.delivered + Taken(conn, decode));
      if Cut(conn, decode) || conn.halt.AfterStream? then this.(log := log1)
      else if conn.error == Some(Gone) then this.(log := log1.(warnings := log.warnings + [Gone]))
      else
        var slot1 := if drained then None else slot;
        var warns := conn.error.Some? && slot1.None?;
        var productive := Productive(conn, decode);
        var wait := if productive then BACKOFF_MIN else backoff;
        Vars(Cursor(lastId, conn.frames, decode),
             if productive then BACKOFF_MIN else Min(2 * backoff, BACKOFF_MAX),
             if warns then conn.error else slot1,
             log1.(waits := log.waits + [wait],
                   warnings := if warns then log.warnings + [conn.error.value] else log.warnings))
    }
  }

  function Begin<E>(afterId: Option<string>): Vars<E> {
    Vars(Seed(afterId), BACKOFF_MIN, None, Log([], [], [], []))
  }

  function VarsAfter<E>(afterId: Option<string>, decode: Frame -> Option<E>, drains: nat -> bool, run: Run): Vars<E> {
    if run.Start? then Begin(afterId)
    else
      var v := VarsAfter(afterId, decode, drains, run.earlier);
      v.After(v.Ask(afterId), run.conn, decode, drains(run.earlier.Count()))
  }

  /** One turn of the reconnect loop: stream the connection, report its error, wait. */
  method Turn<E>(v: Vars<E>, request: Request, conn: Conn, decode: Frame -> Option<E>, drains: nat -> bool, step: nat)
    returns (v': Vars<E>, end: Option<End>)
    ensures end == Ends(conn, decode) && (end.None? <==> Quiet(conn, decode))
    ensures v'.log == v.After(request, conn, decode, drains(step)).log
    ensures end.None? ==> v' == v.After(request, conn, decode, drains(step))
  {
    var lastId, events, productive, cancelled := ReadConnection(conn, decode, v.lastId);
    var log := v.log.(requests := v.log.requests + [request], delivered := v.log.delivered + events);
    if cancelled || conn.halt.AfterStream? {
      return v.(log := log), Some(CtxDone);
    }
    var slot, backoff := v.slot, v.backoff;
    if drains(step) {
      slot := None;
    }
    if conn.error == Some(Gone) {
      var attempts;
      slot, attempts := Displace(slot, Gone, drains, step + 1);
      return v.(log := log.(warnings := log.warnings + [slot.value])), Some(Pruned);
    }
    if conn.error.Some? && slot.None? {
      slot, log := conn.error, log.(warnings := log.warnings + [conn.error.value]);
    }
    if productive {
      backoff := BACKOFF_MIN;
    }
    log := log.(waits := log.waits + [backoff]);
    if conn.halt.AtTimer? {
      return Vars(lastId, backoff, slot, log), Some(CtxDone);
    }
    if !productive {
      backoff := backoff * 2;
      if backoff > BACKOFF_MAX {
        backoff := BACKOFF_MAX;
      }
    }
    return Vars(lastId, backoff, slot, log), None;
  }

  /** Where a watch stands: still going, or over with its last connection. */
  predicate Stands<E>(run: Run, decode: Frame -> Option<E>, end: Option<End>) {
    match end
    case None => GoesOn(run, decode)
    case Some(_) => run.Then? && GoesOn(run.earlier, decode) && Ends(run.conn, decode) == end
  }

  /** The n-th connection of a run. */
  function ConnAt(run: Run, n: nat): Conn
    requires n < run.Count()
  {
    if n == run.earlier.Count() then run.conn else ConnAt(run.earlier, n)
  }

  /** A connection that ended with no 410, and whose every event was sent and every wait waited. */
  predicate Quiet<E>(conn: Conn, decode: Frame -> Option<E>) {
    && conn.error != Some(Gone)
    && (conn.halt.Never? || (conn.halt.AtSend? && |Decoded(conn.frames, decode)| <= conn.halt.k))
  }

  ghost predicate QuietUpTo<E>(run: Run, decode: Frame -> Option<E>, m: nat)
    requires m <= run.Count()
  {
    forall n :: 0 <= n < m ==> Quiet(ConnAt(run, n), decode)
  }

  lemma QuietEarlier<E>(run: Run, decode: Frame -> Option<E>)
    requires run.Then?
    ensures ConnAt(run, run.earlier.Count()) == run.conn
    ensures QuietUpTo(run, decode, run.earlier.Count()) <==> QuietUpTo(run.earlier, decode, run.earlier.Count())
    ensures QuietUpTo(run, decode, run.Count()) <==>
              QuietUpTo(run.earlier, decode, run.earlier.Count()) && Quiet(run.conn, decode)
  {
    var last := run.earlier.Count();
    assert forall n :: 0 <= n < last ==> ConnAt(run, n) == ConnAt(run.earlier, n);
    if QuietUpTo(run, decode, last) {
      forall n | 0 <= n < last ensures Quiet(ConnAt(run.earlier, n), decode) {
        assert Quiet(ConnAt(run, n), decode);
      }
    }
    if QuietUpTo(run, decode, run.Count()) {
      assert Quiet(ConnAt(run, last), decode);
    }
  }

  /** When a watch stops: at the first connection that was cancelled or refused with a 410, and not before. */
  ghost predicate StopsRight<E>(run: Run, decode: Frame -> Option<E>, end: Option<End>) {
    if end.None? then
      QuietUpTo(run, decode, run.Count())
    else
      && run.Count() > 0 && QuietUpTo(run, decode, run.Count() - 1)
      && var last := ConnAt(run, run.Count() - 1);
         && !Quiet(last, decode)
         && (end == Some(Pruned) <==>
               last.error == Some(Gone) && !last.halt.AfterStream?
               && (last.halt.AtSend? ==> |Decoded(last.frames, decode)| <= last.halt.k))
         && (end == Some(CtxDone) <==> end != Some(Pruned))
  }

  lemma {:induction false} GoesOnWhile<E>(run: Run, decode: Frame -> Option<E>)
    ensures GoesOn(run, decode) <==> QuietUpTo(run, decode, run.Count())
  {
    if run.Then? {
      GoesOnWhile(run.earlier, decode);
      QuietEarlier(run, decode);
    }
  }

  lemma StopsWhen<E>(run: Run, decode: Frame -> Option<E>, end: Option<End>)
    requires end != Some(NotStreaming)
    ensures Stands(run, decode, end) <==> StopsRight(run, decode, end)
  {
    GoesOnWhile(run, decode);
    if run.Then? {
      GoesOnWhile(run.earlier, decode);
      QuietEarlier(run, decode);
    }
  }

  /** The reconnect loop, for a number of rounds. */
  method Reconnect<E>(afterId: Option<string>, server: Server, decode: Frame -> Option<E>, drains: nat -> bool,
                      rounds: nat)
    returns (run: Run, log: Log<E>, end: Option<End>)
    ensures StopsRight(run, decode, end) && (end.None? ==> run.Count() == rounds)
    ensures Stands(run, decode, end) && LogOf(log, afterId, server, decode, drains, run)
  {
    var v := Begin(afterId);
    run, end := Start, None;
    var round := 0;
    while round < rounds && end.None?
      invariant run.Count() == round <= rounds && Stands(run, decode, end)
      invariant Served(afterId, server, decode, drains, run)
      invariant v.log == VarsAfter(afterId, decode, drains, run).log
      invariant end.None? ==> v == VarsAfter(afterId, decode, drains, run)
      decreases rounds - round
    {
      var request := if v.lastId != "" then Request(None, v.lastId) else Request(afterId, v.lastId);
      var conn := server(round, request);
      v, end := Turn(v, request, conn, decode, drains, round);
      run := Then(run, conn);
      round := round + 1;
    }
    log := v.log;
    StopsWhen(run, decode, end);
    VarsMeanLog(afterId, server, decode, drains, run, end);
  }

  /** Without streaming, one error and nothing else; with it, the log of the run the watch makes. */
  method WatchEvents<E>(afterId: Option<string>, transport: Transport, decode: Frame -> Option<E>,
                        drains: nat -> bool, rounds: nat)
    returns (run: Run, log: Log<E>, end: Option<End>)
    ensures transport.Plain? ==> run == Start && log == Log([], [], [], [Unsupported]) && end == Some(NotStreaming)
    ensures transport.Streaming? ==>
              && StopsRight(run, decode, end) && (end.None? ==> run.Count() == rounds)
              && Stands(run, decode, end) && LogOf(log, afterId, transport.server, decode, drains, run)
  {
    if transport.Plain? {
      return Start, Log([], [], [], [Unsupported]), Some(NotStreaming);
    }
    run, log, end := Reconnect(afterId, transport.server, decode, drains, rounds);
  }

  predicate Served<E>(afterId: Option<string>, server: Server, decode: Frame -> Option<E>, drains: nat -> bool,
                      run: Run) {
    run.Start?
    || (Served(afterId, server, decode, drains, run.earlier)
        && run.conn == server(run.earlier.Count(), VarsAfter(afterId, decode, drains, run.earlier).Ask(afterId)))
  }

  lemma BackoffStep<E>(run: Run, decode: Frame -> Option<E>)
    requires run.Then?
    ensures Wait(run, decode) == if Productive(run.conn, decode) then BACKOFF_MIN else NextBackoff(run.earlier, decode)
    ensures NextBackoff(run, decode)
            == if Productive(run.conn, decode) then BACKOFF_MIN
              else Min(2 * NextBackoff(run.earlier, decode), BACKOFF_MAX)
  {
  }

  lemma {:induction false} CursorMeans<E>(afterId: Option<string>, decode: Frame -> Option<E>, drains: nat -> bool,
                                          run: Run)
    requires GoesOn(run, decode)
    ensures VarsAfter(afterId, decode, drains, run).lastId == CursorAfter(afterId, run, decode)
  {
    if run.Then? {
      CursorMeans(afterId, decode, drains, run.earlier);
    }
  }

  lemma {:induction false} BackoffMeans<E>(afterId: Option<string>, decode: Frame -> Option<E>, drains: nat -> bool,
                                           run: Run)
    requires GoesOn(run, decode)
    ensures VarsAfter(afterId, decode, drains, run).backoff == NextBackoff(run, decode)
    ensures VarsAfter(afterId, decode, drains, run).log.waits == Waits(run, decode)
  {
    if run.Then? {
      BackoffMeans(afterId, decode, drains, run.earlier);
      BackoffStep(run, decode);
    }
  }

  /** All but the last connection let the watch go on. */
  predicate WentOn<E>(run: Run, decode: Frame -> Option<E>) {
    run.Then? ==> GoesOn(run.earlier, decode)
  }

  lemma {:induction false} RequestsMean<E>(afterId: Option<string>, server: Server, decode: Frame -> Option<E>,
                                           drains: nat -> bool, run: Run)
    requires WentOn(run, decode) && Served(afterId, server, decode, drains, run)
    ensures VarsAfter(afterId, decode, drains, run).log.requests == Requests(afterId, run, decode)
    ensures Played(afterId, server, decode, run)
  {
    if run.Then? {
      RequestsMean(afterId, server, decode, drains, run.earlier);
      CursorMeans(afterId, decode, drains, run.earlier);
    }
  }

  lemma {:induction false} DeliveredMeans<E>(afterId: Option<string>, decode: Frame -> Option<E>, drains: nat -> bool,
                                             run: Run)
    requires WentOn(run, decode)
    ensures VarsAfter(afterId, decode, drains, run).log.delivered == AllTaken(run, decode)
  {
    if run.Then? {
      DeliveredMeans(afterId, decode, drains, run.earlier);
    }
  }

  /** The buffer is full exactly when an error of the run is unread. */
  lemma {:induction false} SlotMeans<E>(afterId: Option<string>, decode: Frame -> Option<E>, drains: nat -> bool,
                                        run: Run)
    requires GoesOn(run, decode)
    ensures VarsAfter(afterId, decode, drains, run).slot.Some? && !drains(run.Count()) <==> Unread(run, drains)
  {
    if run.Then? {
      SlotMeans(afterId, decode, drains, run.earlier);
    }
  }

  lemma {:induction false} WarningsMean<E>(afterId: Option<string>, decode: Frame -> Option<E>, drains: nat -> bool,
                                           run: Run)
    requires WentOn(run, decode)
    ensures VarsAfter(afterId, decode, drains, run).log.warnings == Warnings(run, decode, drains)
  {
    if run.Then? {
      WarningsMean(afterId, decode, drains, run.earlier);
      SlotMeans(afterId, decode, drains, run.earlier);
    }
  }

  /** Connection j failed, and the consumer has not emptied the buffer since. */
  predicate LeftUnread(run: Run, drains: nat -> bool, j: nat) {
    j < run.Count() && ConnAt(run, j).error.Some? && forall k :: j < k <= run.Count() ==> !drains(k)
  }

  /** So an error is dropped exactly when the consumer has not read since an earlier failure. */
  lemma {:induction false} UnreadIff(run: Run, drains: nat -> bool)
    ensures Unread(run, drains) <==> exists j: nat :: LeftUnread(run, drains, j)
  {
    if run.Then? {
      UnreadIff(run.earlier, drains);
      var n := run.earlier.Count();
      if Unread(run, drains) {
        if run.conn.error.Some? {
          assert LeftUnread(run, drains, n);
        } else {
          var j: nat :| LeftUnread(run.earlier, drains, j);
          assert LeftUnread(run, drains, j);
        }
      }
      forall j: nat | LeftUnread(run, drains, j) ensures Unread(run, drains) {
        assert !drains(run.Count());
        if j < n {
          assert LeftUnread(run.earlier, drains, j);
        }
      }
    }
  }

  ghost predicate Ascending(ps: seq<nat>) {
    forall i, j :: 0 <= i < j < |ps| ==> ps[i] < ps[j]
  }

  /** The n-th connection's error is reported, and is a 410 or finds no earlier error unread. */
  ghost predicate Warned<E>(run: Run, decode: Frame -> Option<E>, drains: nat -> bool, n: nat) {
    && n < run.Count()
    && var conn := ConnAt(run, n);
       && conn.error.Some? && !conn.halt.AfterStream?
       && (conn.halt.AtSend? ==> |Decoded(conn.frames, decode)| <= conn.halt.k)
       && (conn.error == Some(Gone)
           || forall j: nat :: j < n && ConnAt(run, j).error.Some? ==> exists k: nat :: j < k <= n && drains(k))
  }

  lemma WarnedEarlier<E>(run: Run, decode: Frame -> Option<E>, drains: nat -> bool, n: nat)
    requires run.Then? && n < run.earlier.Count()
    ensures Warned(run, decode, drains, n) <==> Warned(run.earlier, decode, drains, n)
  {
    assert forall j: nat :: j <= n ==> ConnAt(run, j) == ConnAt(run.earlier, j);
  }

  lemma WarnedLast<E>(run: Run, decode: Frame -> Option<E>, drains: nat -> bool)
    requires run.Then?
    ensures var error := Reported(run.conn, decode);
            Warned(run, decode, drains, run.earlier.Count())
            <==> error.Some? && (error.value == Gone || !Unread(run.earlier, drains))
  {
    var n := run.earlier.Count();
    UnreadIff(run.earlier, drains);
    assert forall j: nat :: j < n ==> ConnAt(run, j) == ConnAt(run.earlier, j);
    if Unread(run.earlier, drains) {
      var j: nat :| LeftUnread(run.earlier, drains, j);
      assert ConnAt(run, j).error.Some?;
    } else {
      forall j: nat | j < n && ConnAt(run, j).error.Some? ensures exists k: nat :: j < k <= n && drains(k) {
        assert !LeftUnread(run.earlier, drains, j);
      }
    }
  }

  /** The warnings are the errors of exactly those connections, in order. */
  lemma {:induction false} WarningsAre<E>(run: Run, decode: Frame -> Option<E>, drains: nat -> bool)
    returns (ps: seq<nat>)
    ensures Ascending(ps) && forall n: nat :: n in ps <==> Warned(run, decode, drains, n)
    ensures |Warnings(run, decode, drains)| == |ps|
    ensures forall i :: 0 <= i < |ps| ==>
                          Warned(run, decode, drains, ps[i])
                          && ConnAt(run, ps[i]).error == Some(Warnings(run, decode, drains)[i])
  {
    ps := [];
    if run.Then? {
      var before := WarningsAre(run.earlier, decode, drains);
      var last := run.earlier.Count();
      WarnedLast(run, decode, drains);
      forall n: nat | n < last ensures Warned(run, decode, drains, n) <==> Warned(run.earlier, decode, drains, n) {
        WarnedEarlier(run, decode, drains, n);
      }
      ps := if Warned(run, decode, drains, last) then before + [last] else before;
      forall i | 0 <= i < |before| ensures ConnAt(run, before[i]) == ConnAt(run.earlier, before[i]) {
        assert Warned(run.earlier, decode, drains, before[i]);
      }
    }
  }

  lemma ErrorsGrow(warnings: seq<StreamError>, warnings': seq<StreamError>, run: Run)
    requires run.Then? && multiset(warnings) <= multiset(Errors(run.earlier))
    requires warnings' == warnings || (run.conn.error.Some? && warnings' == warnings + [run.conn.error.value])
    ensures multiset(warnings') <= multiset(Errors(run))
  {
  }

  lemma {:induction false} WarningsAreErrors<E>(run: Run, decode: Frame -> Option<E>, drains: nat -> bool)
    ensures multiset(Warnings(run, decode, drains)) <= multiset(Errors(run))
  {
    if run.Then? {
      WarningsAreErrors(run.earlier, decode, drains);
      ErrorsGrow(Warnings(run.earlier, decode, drains), Warnings(run, decode, drains), run);
    }
  }

  /** A watch that a 410 ends has it as its last warning. */
  lemma {:induction false} PrunedIsLast<E>(run: Run, decode: Frame -> Option<E>, drains: nat -> bool)
    requires run.Then? && Ends(run.conn, decode) == Some(Pruned)
    ensures var warnings := Warnings(run, decode, drains);
            warnings != [] && warnings[|warnings| - 1] == Gone
  {
    assert Reported(run.conn, decode) == Some(Gone);
  }

  /** No error is dropped when the consumer keeps the buffer empty. */
  lemma {:induction false} NoWarningLost<E>(run: Run, decode: Frame -> Option<E>, drains: nat -> bool)
    requires GoesOn(run, decode) && forall n :: drains(n)
    ensures Warnings(run, decode, drains) == Errors(run)
  {
    if run.Then? {
      NoWarningLost(run.earlier, decode, drains);
    }
  }

  lemma WaitsMean<E>(afterId: Option<string>, decode: Frame -> Option<E>, drains: nat -> bool, run: Run)
    requires WentOn(run, decode)
    ensures VarsAfter(afterId, decode, drains, run).log.waits
            == if StopsUnwaited(run, decode) then Waits(run.earlier, decode) else Waits(run, decode)
  {
    if run.Then? {
      BackoffMeans(afterId, decode, drains, run.earlier);
      BackoffStep(run, decode);
    }
  }

  lemma VarsMeanLog<E>(afterId: Option<string>, server: Server, decode: Frame -> Option<E>, drains: nat -> bool,
                       run: Run, end: Option<End>)
    requires Stands(run, decode, end) && Served(afterId, server, decode, drains, run)
    ensures LogOf(VarsAfter(afterId, decode, drains, run).log, afterId, server, decode, drains, run)
  {
    RequestsMean(afterId, server, decode, drains, run);
    DeliveredMeans(afterId, decode, drains, run);
    WaitsMean(afterId, decode, drains, run);
    WarningsMean(afterId, decode, drains, run);
  }
}
