/**
 * ootle/finalization.go with waitResult of ootle/driver.go: subscribe, submit, wait for the frame,
 * then poll. The first part is the client's code against one script of what it sees; the second is
 * the protocol as interleaved steps of client and server; the last lemma ties the two.
 */
module Finalizing {
  import opened Prelude
  import opened Fetching

  const FINALIZED := "TransactionFinalized"

  // ---- transport/transport.go: GetResult ----

  /** One GET of a transaction's result. */
  datatype ResultResponse = HttpFailed(why: string) | BadBody | Raw(raw: string)

  const PENDING := "\"Pending\""

  predicate IsSpace(c: char) {
    c in [' ', '\t', '\n', '\U{B}', '\U{C}', '\r']
  }

  function TrimStart(s: string): string {
    if s != "" && IsSpace(s[0]) then TrimStart(s[1..]) else s
  }

  function TrimEnd(s: string): string {
    if s != "" && IsSpace(s[|s| - 1]) then TrimEnd(s[..|s| - 1]) else s
  }

  predicate IsPending(raw: string) {
    TrimEnd(TrimStart(raw)) == PENDING
  }

  /** The raw result and whether it is final: whatever is not the pending marker is. */
  function GetResult(response: ResultResponse): (r: Result<(string, bool), string>)
    ensures r.Ok? <==> response.Raw?
    ensures r.Err? ==> r.error == if response.HttpFailed? then response.why else "decode"
    ensures r.Ok? ==> r.value.0 == response.raw && (r.value.1 <==> !IsPending(response.raw))
  {
    match response
    case HttpFailed(why) => Err(why)
    case BadBody => Err("decode")
    case Raw(raw) => Ok((raw, !IsPending(raw)))
  }

  predicate Blank(s: string) {
    forall i :: 0 <= i < |s| ==> s[i] in " \t\n\U{B}\U{C}\r"
  }

  /** Trimming undoes blanks around a text that neither starts nor ends with one. */
  lemma {:induction false} TrimStartOf(blank: string, s: string)
    requires Blank(blank) && (s == "" || !IsSpace(s[0]))
    ensures TrimStart(blank + s) == s
  {
    if blank == "" {
      assert blank + s == s;
    } else {
      assert (blank + s)[1..] == blank[1..] + s;
      TrimStartOf(blank[1..], s);
    }
  }

  lemma {:induction false} TrimEndOf(s: string, blank: string)
    requires Blank(blank) && (s == "" || !IsSpace(s[|s| - 1]))
    ensures TrimEnd(s + blank) == s
  {
    if blank == "" {
      assert s + blank == s;
    } else {
      assert (s + blank)[..|s + blank| - 1] == s + blank[..|blank| - 1];
      TrimEndOf(s, blank[..|blank| - 1]);
    }
  }

  lemma {:induction false} TrimmedStart(s: string) returns (blank: string)
    ensures Blank(blank) && s == blank + TrimStart(s)
  {
    blank := "";
    if s != "" && IsSpace(s[0]) {
      var rest := TrimmedStart(s[1..]);
      blank := [s[0]] + rest;
    }
  }

  lemma {:induction false} TrimmedEnd(s: string) returns (blank: string)
    ensures Blank(blank) && s == TrimEnd(s) + blank
  {
    blank := "";
    if s != "" && IsSpace(s[|s| - 1]) {
      var rest := TrimmedEnd(s[..|s| - 1]);
      blank := rest + [s[|s| - 1]];
    }
  }

  ghost predicate MarkedPending(raw: string) {
    exists before, after :: Blank(before) && Blank(after) && raw == before + ("\"Pending\"" + after)
  }

  /** A result is pending exactly when it is the marker, with nothing but white space around it. */
  lemma {:induction false} PendingIff(raw: string)
    ensures IsPending(raw) <==> MarkedPending(raw)
  {
    if IsPending(raw) {
      var before := TrimmedStart(raw);
      var after := TrimmedEnd(TrimStart(raw));
      assert raw == before + (PENDING + after);
    }
    forall before, after | Blank(before) && Blank(after) && raw == before + (PENDING + after) ensures IsPending(raw) {
      TrimStartOf(before, PENDING + after);
      TrimEndOf(PENDING, after);
    }
  }

  // ---- Waiting for the frame ----

  /** What a select of awaitFinalized can yield, the timer apart. */
  datatype Wake =
    | Frame(event: string, txId: Option<string>)
    | EventsClosed
    | ErrsYield(err: Option<string>)
    | CtxDone

  datatype Gate = Opened | Closed | Faulted(why: string) | TimedOut | Cancelled

  predicate Matches(w: Wake, txId: string) {
    w == Frame(FINALIZED, Some(txId))
  }

  /** The gate a wake brings about; None for a frame that is skipped. */
  function GateOf(w: Wake, txId: string): Option<Gate> {
    match w
    case Frame(event, id) => if event == FINALIZED && id == Some(txId) then Some(Opened) else None
    case EventsClosed => Some(Closed)
    case ErrsYield(Some(why)) => Some(Faulted(why))
    case ErrsYield(None) => Some(Closed)
    case CtxDone => Some(Cancelled)
  }

  /** The first gate in a script of wakes. */
  function FirstGate(wakes: seq<Wake>, txId: string): Option<Gate> {
    if wakes == [] then None
    else
      var before := FirstGate(wakes[..|wakes| - 1], txId);
      if before.Some? then before else GateOf(wakes[|wakes| - 1], txId)
  }

  /** The timer fires once the script has no more wakes. */
  method AwaitFinalized(txId: string, wakes: seq<Wake>) returns (gate: Gate, taken: nat)
    ensures gate == FirstGate(wakes, txId).GetOr(TimedOut)
    ensures taken <= |wakes|
    ensures gate == Opened <==> taken > 0 && wakes[taken - 1] == Frame("TransactionFinalized", Some(txId))
    ensures gate == Closed ==> taken > 0 && wakes[taken - 1] in [EventsClosed, ErrsYield(None)]
    ensures gate.Faulted? ==> taken > 0 && wakes[taken - 1] == ErrsYield(Some(gate.why))
    ensures gate == Cancelled ==> taken > 0 && wakes[taken - 1] == CtxDone
    ensures gate == TimedOut ==> taken == |wakes| && (taken > 0 ==> wakes[taken - 1].Frame?)
    ensures forall k :: 0 <= k < taken - 1 ==>
                          wakes[k].Frame? && wakes[k] != Frame("TransactionFinalized", Some(txId))
  {
    taken := 0;
    while taken < |wakes|
      invariant taken <= |wakes|
      invariant FirstGate(wakes[..taken], txId) == None
      invariant forall k :: 0 <= k < taken ==> wakes[k].Frame? && !Matches(wakes[k], txId)
    {
      var w := wakes[taken];
      taken := taken + 1;
      assert wakes[..taken][..taken - 1] == wakes[..taken - 1];
      match w {
        case EventsClosed =>
          FirstGateIsLast(wakes, taken, txId);
          return Closed, taken;
        case Frame(event, id) =>
          if event != FINALIZED {
            continue;
          }
          if id.None? {
            continue;
          }
          if id.value == txId {
            FirstGateIsLast(wakes, taken, txId);
            return Opened, taken;
          }
        case ErrsYield(err) =>
          FirstGateIsLast(wakes, taken, txId);
          if err.Some? {
            return Faulted(err.value), taken;
          }
          return Closed, taken;
        case CtxDone =>
          FirstGateIsLast(wakes, taken, txId);
          return Cancelled, taken;
      }
    }
    assert wakes[..taken] == wakes;
    gate := TimedOut;
  }

  lemma {:induction false} FirstGateIsLast(wakes: seq<Wake>, n: nat, txId: string)
    requires n <= |wakes| && FirstGate(wakes[..n], txId).Some?
    ensures FirstGate(wakes, txId) == FirstGate(wakes[..n], txId)
  {
    if n < |wakes| {
      assert wakes[..|wakes| - 1][..n] == wakes[..n];
      FirstGateIsLast(wakes[..|wakes| - 1], n, txId);
    } else {
      assert wakes[..n] == wakes;
    }
  }

  // ---- Polling ----

  /** How a wait ends. */
  datatype Waited = Final(raw: string) | PollFailed(why: string) | ContextEnded

  /** The end a reply brings about; None when the result is pending. */
  function EndOf(reply: ResultResponse): Option<Waited> {
    match GetResult(reply)
    case Err(why) => Some(PollFailed(why))
    case Ok((raw, finalized)) => if finalized then Some(Final(raw)) else None
  }

  /** The first end among the replies from the n-th on. */
  function EndFrom(polls: seq<ResultResponse>, n: nat): Option<Waited>
    requires n <= |polls|
    decreases |polls| - n
  {
    if n == |polls| then None
    else if EndOf(polls[n]).Some? then EndOf(polls[n])
    else EndFrom(polls, n + 1)
  }

  /** How many polls that takes, the first n included. */
  function MadeFrom(polls: seq<ResultResponse>, n: nat): nat
    requires n <= |polls|
    decreases |polls| - n
  {
    if n == |polls| then n
    else if EndOf(polls[n]).Some? then n + 1
    else MadeFrom(polls, n + 1)
  }

  function FirstEnd(polls: seq<ResultResponse>): Option<Waited> {
    EndFrom(polls, 0)
  }

  function Made(polls: seq<ResultResponse>): nat {
    MadeFrom(polls, 0)
  }

  predicate StillPending(reply: ResultResponse) {
    reply.Raw? && IsPending(reply.raw)
  }

  /** The first reply that is not pending decides, and no poll is made after it. */
  lemma {:induction false} DecidedFrom(polls: seq<ResultResponse>, n: nat)
    requires n < |polls|
    ensures n < MadeFrom(polls, n) <= |polls|
    ensures EndFrom(polls, n) == EndOf(polls[MadeFrom(polls, n) - 1])
    ensures EndFrom(polls, n).None? ==> MadeFrom(polls, n) == |polls|
    decreases |polls| - n
  {
    if EndOf(polls[n]).Some? {
      assert MadeFrom(polls, n) == n + 1;
    } else if n + 1 == |polls| {
      assert MadeFrom(polls, n) == n + 1 && EndFrom(polls, n) == None;
    } else {
      DecidedFrom(polls, n + 1);
    }
  }

  lemma {:induction false} PendingBefore(polls: seq<ResultResponse>, n: nat, k: nat)
    requires n <= k < |polls| && k < MadeFrom(polls, n) - 1
    ensures StillPending(polls[k])
    decreases k - n
  {
    EndIs(polls[n]);
    if n < k {
      PendingBefore(polls, n + 1, k);
    }
  }

  lemma EndIs(reply: ResultResponse)
    ensures EndOf(reply).None? <==> StillPending(reply)
    ensures EndOf(reply).Some? && EndOf(reply).value.Final? ==>
            reply == Raw(EndOf(reply).value.raw) && !IsPending(reply.raw)
  {
  }

  /** The context ends after the last reply in the script; the first poll is made in any case. */
  method WaitResult(polls: seq<ResultResponse>) returns (end: Waited, made: nat)
    requires polls != []
    ensures end == FirstEnd(polls).GetOr(ContextEnded) && made == Made(polls)
  {
    made := 0;
    while made < |polls|
      invariant made <= |polls| && FirstEnd(polls) == EndFrom(polls, made) && Made(polls) == MadeFrom(polls, made)
    {
      var reply := GetResult(polls[made]);
      made := made + 1;
      if reply.Err? {
        return PollFailed(reply.error), made;
      }
      if reply.value.1 {
        return Final(reply.value.0), made;
      }
    }
    end := ContextEnded;
  }

  /** A wait's end: a final result is the first reply not pending, and every k-th before it was. */
  lemma WaitMeans(polls: seq<ResultResponse>, k: nat)
    requires polls != []
    ensures 0 < Made(polls) <= |polls|
    ensures k < Made(polls) - 1 ==> StillPending(polls[k])
    ensures var end, last := FirstEnd(polls).GetOr(ContextEnded), polls[Made(polls) - 1];
            && (end.Final? ==> last == Raw(end.raw) && !IsPending(end.raw))
            && (end.PollFailed? ==> last == HttpFailed(end.why) || (last == BadBody && end.why == "decode"))
            && (end.ContextEnded? ==> Made(polls) == |polls| && StillPending(last))
  {
    DecidedFrom(polls, 0);
    if k < Made(polls) - 1 {
      PendingBefore(polls, 0, k);
    }
    var last := polls[Made(polls) - 1];
    EndIs(last);
    EndIsNeverContext(last);
  }

  lemma EndIsNeverContext(reply: ResultResponse)
    ensures EndOf(reply) != Some(ContextEnded)
  {
  }

  // ---- submitAndWait ----

  /** What the client's environment does: whether it streams, and everything it answers. */
  datatype Weather = Weather(
    streams: bool,
    submit: Result<string, string>,
    wakes: seq<Wake>,
    polls: seq<ResultResponse>)

  /** What the client sends. */
  datatype Sent =
    | FetchSubstates(ids: seq<string>)
    | Subscribe
    | Submit(envelope: seq<byte>)
    | SubmitDryRun(envelope: seq<byte>)
    | CancelStream
    | Get(txId: string)

  datatype Submission = NotSubmitted(why: string) | Submitted(txId: string, end: Waited)

  /** How a submission ends: by the polls alone, whatever the stream does. */
  function Outcome(weather: Weather): Submission {
    match weather.submit
    case Err(why) => NotSubmitted(why)
    case Ok(txId) => Submitted(txId, FirstEnd(weather.polls).GetOr(ContextEnded))
  }

  function Gets(txId: string, n: nat): seq<Sent> {
    if n == 0 then [] else Gets(txId, n - 1) + [Get(txId)]
  }

  /** Subscribe before submit, cancel before the polls, and poll up to the first end. */
  function Wire(weather: Weather, envelope: seq<byte>): seq<Sent> {
    Asked(weather.streams, envelope)
    + if weather.submit.Ok? then Gets(weather.submit.value, Made(weather.polls)) else []
  }

  /** What has been sent when the polls begin. */
  function Asked(streams: bool, envelope: seq<byte>): seq<Sent> {
    if streams then [Subscribe, Submit(envelope), CancelStream] else [Submit(envelope)]
  }

  /** The core's typing of a raw result: it refuses, or its JSON decodes or not. */
  datatype ParseReply = ParseRefused(code: string) | Typed(result: Option<string>)

  type Parser = string -> ParseReply

  function ParseFinalized(parser: Parser, raw: string): Result<string, Failure> {
    match parser(raw)
    case ParseRefused(code) => Err(Failure.Core(code))
    case Typed(None) => Err(Encoding)
    case Typed(Some(result)) => Ok(result)
  }

  /** What a wait comes to for the caller: only a final result is typed. */
  function Typing(end: Waited, parser: Parser): Result<string, Failure> {
    match end
    case Final(raw) => ParseFinalized(parser, raw)
    case PollFailed(why) => Err(Transport(why))
    case ContextEnded => Err(ContextDone)
  }

  /** What the caller of a submission gets. */
  function Answer(outcome: Submission, parser: Parser): Result<string, Failure> {
    match outcome
    case NotSubmitted(why) => Err(Transport(why))
    case Submitted(_, end) => Typing(end, parser)
  }

  lemma AnswerMeans(weather: Weather, parser: Parser)
    ensures Returns(weather, parser, Answer(Outcome(weather), parser))
  {
    WaitReturns(weather.polls, parser);
  }

  // ---- What the caller is returned ----

  /** What typing a raw result comes to. */
  ghost predicate TypedAs(parser: Parser, raw: string, result: Result<string, Failure>) {
    var reply := parser(raw);
    && (reply.ParseRefused? ==> result == Err(Failure.Core(reply.code)))
    && (reply.Typed? && reply.result.None? ==> result == Err(Encoding))
    && (reply.Typed? && reply.result.Some? ==> result == Ok(reply.result.value))
  }

  /** The n-th reply is the first that is not pending. */
  ghost predicate Decides(polls: seq<ResultResponse>, n: nat) {
    n < |polls| && !StillPending(polls[n]) && forall k :: 0 <= k < n ==> StillPending(polls[k])
  }

  /** The result of a wait, from the replies alone. */
  ghost predicate PollsReturn(polls: seq<ResultResponse>, parser: Parser, result: Result<string, Failure>) {
    && (forall n: nat :: Decides(polls, n) ==>
                           && (polls[n].Raw? ==> TypedAs(parser, polls[n].raw, result))
                           && (polls[n].HttpFailed? ==> result == Err(Transport(polls[n].why)))
                           && (polls[n].BadBody? ==> result == Err(Transport("decode"))))
    && ((forall k :: 0 <= k < |polls| ==> StillPending(polls[k])) ==> result == Err(ContextDone))
  }

  /** The result of a submission, from what the client is told. */
  ghost predicate Returns(weather: Weather, parser: Parser, result: Result<string, Failure>) {
    && (weather.submit.Err? ==> result == Err(Transport(weather.submit.error)))
    && (weather.submit.Ok? ==> PollsReturn(weather.polls, parser, result))
  }

  lemma {:induction false} EndAt(polls: seq<ResultResponse>, m: nat, n: nat)
    requires m <= n && Decides(polls, n)
    ensures EndFrom(polls, m) == EndOf(polls[n])
    decreases n - m
  {
    EndIs(polls[n]);
    if m < n {
      EndIs(polls[m]);
      EndAt(polls, m + 1, n);
    }
  }

  lemma {:induction false} NoEnd(polls: seq<ResultResponse>, m: nat)
    requires m <= |polls| && forall k :: 0 <= k < |polls| ==> StillPending(polls[k])
    ensures EndFrom(polls, m) == None
    decreases |polls| - m
  {
    if m < |polls| {
      NoEnd(polls, m + 1);
    }
  }

  /** A raw result is typed by the core, a failure is reported, and a wait the context ends says so. */
  lemma WaitReturns(polls: seq<ResultResponse>, parser: Parser)
    ensures PollsReturn(polls, parser, Typing(FirstEnd(polls).GetOr(ContextEnded), parser))
  {
    forall n: nat | Decides(polls, n) ensures FirstEnd(polls) == EndOf(polls[n]) && EndOf(polls[n]).Some? {
      EndAt(polls, 0, n);
      EndIs(polls[n]);
    }
    if forall k :: 0 <= k < |polls| ==> StillPending(polls[k]) {
      NoEnd(polls, 0);
    }
  }

  /** waitResult and parseFinalized: the tail of every submission. */
  method WaitAndParse(polls: seq<ResultResponse>, parser: Parser)
    returns (result: Result<string, Failure>, made: nat)
    requires polls != []
    ensures made == Made(polls) && result == Typing(FirstEnd(polls).GetOr(ContextEnded), parser)
    ensures PollsReturn(polls, parser, result)
  {
    WaitReturns(polls, parser);
    var end;
    end, made := WaitResult(polls);
    match end {
      case PollFailed(why) => result := Err(Transport(why));
      case ContextEnded => result := Err(ContextDone);
      case Final(raw) => result := ParseFinalized(parser, raw);
    }
  }

  method SubmitAndWait(weather: Weather, envelope: seq<byte>, parser: Parser)
    returns (result: Result<string, Failure>, sent: seq<Sent>)
    requires weather.polls != []
    ensures result == Answer(Outcome(weather), parser) && sent == Wire(weather, envelope)
    ensures Returns(weather, parser, result)
  {
    sent := [];
    if weather.streams {
      sent := sent + [Subscribe];
    }
    sent := sent + [Submit(envelope)];
    if weather.submit.Err? {
      if weather.streams {
        sent := sent + [CancelStream]; // the deferred cancel
      }
      assert sent == Asked(weather.streams, envelope) + [];
      return Err(Transport(weather.submit.error)), sent;
    }
    var txId := weather.submit.value;
    if weather.streams {
      var _, _ := AwaitFinalized(txId, weather.wakes);
      sent := sent + [CancelStream];
    }
    assert sent == Asked(weather.streams, envelope);
    var made;
    result, made := WaitAndParse(weather.polls, parser);
    sent := sent + Gets(txId, made);
  }

  // ---- The protocol, as interleaved steps ----

  /** The server's results, and whether the client streams. */
  datatype Setting = Setting(outcome: string -> string, streams: bool, envelope: seq<byte>)

  datatype Action =
    | ClientSubscribes
    | ClientSubmits
    | ServerAccepts(txId: string)
    | SubmitReturns(reply: Result<string, string>)
    | ServerFinalizes(txId: string)
    | ServerBroadcasts(frame: Wake)
    | ClientReceives
    | StreamEnds(how: Wake)
    | TimerFires
    | ClientPolls(response: ResultResponse)
    | ContextEnds

  /** Schedules of both sides' steps, the latest outermost. */
  datatype Run = Begin | Then(earlier: Run, action: Action)

  datatype Phase =
    | Ready
    | Listening
    | Submitting
    | Waiting(txId: string)
    | Polling(txId: string)
    | Done(outcome: Submission)

  /**
   * accepted, finalized, subscribed and stream are the server's: the client's transaction, all that
   * are final, and what a live subscription has yet to deliver. submit, wakes and polls are what the
   * client has seen.
   */
  datatype State = State(
    phase: Phase,
    accepted: Option<string>,
    finalized: set<string>,
    subscribed: bool,
    stream: seq<Wake>,
    submit: Option<Result<string, string>>,
    wakes: seq<Wake>,
    polls: seq<ResultResponse>,
    sent: seq<Sent>)
  {
    /** A no-replay broadcast: only a live subscription gets the frame. */
    function Broadcast(frame: Wake): State {
      if subscribed then this.(stream := stream + [frame]) else this
    }

    function OpenGate(txId: string): State {
      this.(phase := Polling(txId), subscribed := false, sent := sent + [CancelStream])
    }
  }

  const START := State(Ready, None, {}, false, [], None, [], [], [])

  /** Which steps can happen: the client's by its phase, the server's by its honesty. */
  predicate Enabled(s: State, a: Action, setting: Setting) {
    match a
    case ClientSubscribes => s.phase.Ready? && setting.streams
    case ClientSubmits => s.phase == if setting.streams then Listening else Ready
    case ServerAccepts(txId) => s.phase.Submitting? && s.accepted.None? && txId !in s.finalized
    case SubmitReturns(reply) => s.phase.Submitting? && (reply.Ok? ==> s.accepted == Some(reply.value))
    case ServerFinalizes(txId) => txId !in s.finalized
    case ServerBroadcasts(frame) => frame.Frame?
      && (frame.event == FINALIZED && frame.txId.Some? ==> frame.txId.value in s.finalized)
    case ClientReceives => s.phase.Waiting? && s.stream != []
    case StreamEnds(how) => s.phase.Waiting? && !how.Frame?
    case TimerFires => s.phase.Waiting?
    case ClientPolls(response) =>
      s.phase.Polling?
      && (response.Raw? ==> if s.phase.txId in s.finalized then response.raw == setting.outcome(s.phase.txId)
        else IsPending(response.raw))
    case ContextEnds => s.phase.Polling? && s.polls != []
  }

  function Next(s: State, a: Action, setting: Setting): State
    requires Enabled(s, a, setting)
  {
    match a
    case ClientSubscribes => s.(phase := Listening, subscribed := true, sent := s.sent + [Subscribe])
    case ClientSubmits => s.(phase := Submitting, sent := s.sent + [Submit(setting.envelope)])
    case ServerAccepts(txId) => s.(accepted := Some(txId))
    case SubmitReturns(Err(why)) =>
      s.(phase := Done(NotSubmitted(why)), submit := Some(Err(why)), subscribed := false,
         sent := if setting.streams then s.sent + [CancelStream] else s.sent)
    case SubmitReturns(Ok(txId)) =>
      s.(phase := if setting.streams then Waiting(txId) else Polling(txId), submit := Some(Ok(txId)))
    case ServerFinalizes(txId) => s.(finalized := s.finalized + {txId}).Broadcast(Frame(FINALIZED, Some(txId)))
    case ServerBroadcasts(frame) => s.Broadcast(frame)
    case ClientReceives =>
      var w, txId := s.stream[0], s.phase.txId;
      var s' := s.(stream := s.stream[1..], wakes := s.wakes + [w]);
      if GateOf(w, txId).Some? then s'.OpenGate(txId) else s'
    case StreamEnds(how) => s.(wakes := s.wakes + [how]).OpenGate(s.phase.txId)
    case TimerFires => s.OpenGate(s.phase.txId)
    case ClientPolls(response) =>
      var s' := s.(polls := s.polls + [response], sent := s.sent + [Get(s.phase.txId)]);
      (match EndOf(response)
       case None => s'
       case Some(end) => s'.(phase := Done(Submitted(s.phase.txId, end))))
    case ContextEnds => s.(phase := Done(Submitted(s.phase.txId, ContextEnded)))
  }

  predicate Possible(run: Run, setting: Setting)
    decreases run, 0
  {
    run.Then? ==> Possible(run.earlier, setting) && Enabled(After(run.earlier, setting), run.action, setting)
  }

  function After(run: Run, setting: Setting): State
    requires Possible(run, setting)
    decreases run, 1
  {
    if run.Begin? then START else Next(After(run.earlier, setting), run.action, setting)
  }

  /** What the client has seen of a run, as one script. */
  function Seen(s: State, setting: Setting): Weather
    requires s.submit.Some?
  {
    Weather(setting.streams, s.submit.value, s.wakes, s.polls)
  }

  /** What the client has made of what it has seen. */
  predicate Folded(s: State) {
    match s.phase
    case Ready => s.wakes == [] && s.polls == []
    case Listening => s.wakes == [] && s.polls == []
    case Submitting => s.wakes == [] && s.polls == []
    case Waiting(txId) => s.accepted == Some(txId) && s.submit == Some(Ok(txId)) && FirstGate(s.wakes, txId) == None
      && s.polls == []
    case Polling(txId) => s.submit == Some(Ok(txId)) && FirstEnd(s.polls) == None && Made(s.polls) == |s.polls|
    case Done(NotSubmitted(why)) => s.submit == Some(Err(why))
    case Done(Submitted(txId, end)) =>
      s.submit == Some(Ok(txId)) && end == FirstEnd(s.polls).GetOr(ContextEnded) && Made(s.polls) == |s.polls| > 0
  }

  /** What it has sent by then. */
  predicate Ordered(s: State, setting: Setting) {
    match s.phase
    case Ready => s.sent == []
    case Listening => s.sent == [Subscribe] && setting.streams
    case Submitting => s.sent == if setting.streams then [Subscribe, Submit(setting.envelope)]
      else [Submit(setting.envelope)]
    case Waiting(_) => s.sent == [Subscribe, Submit(setting.envelope)] && setting.streams
    case Polling(txId) => s.sent == Asked(setting.streams, setting.envelope) + Gets(txId, |s.polls|)
    case Done(NotSubmitted(_)) => s.sent == Asked(setting.streams, setting.envelope)
    case Done(Submitted(txId, _)) => s.sent == Asked(setting.streams, setting.envelope) + Gets(txId, |s.polls|)
  }

  lemma FirstGateMore(wakes: seq<Wake>, w: Wake, txId: string)
    requires FirstGate(wakes, txId) == None
    ensures FirstGate(wakes + [w], txId) == GateOf(w, txId)
  {
    assert (wakes + [w])[..|wakes|] == wakes;
  }

  lemma {:induction false} EndMore(polls: seq<ResultResponse>, response: ResultResponse, n: nat)
    requires n <= |polls| && EndFrom(polls, n) == None
    ensures EndFrom(polls + [response], n) == EndOf(response) && MadeFrom(polls + [response], n) == |polls| + 1
    decreases |polls| - n
  {
    if n < |polls| {
      assert (polls + [response])[n] == polls[n];
      EndMore(polls, response, n + 1);
    }
  }

  lemma FirstEndMore(polls: seq<ResultResponse>, response: ResultResponse)
    requires FirstEnd(polls) == None
    ensures FirstEnd(polls + [response]) == EndOf(response) && Made(polls + [response]) == |polls| + 1
  {
    EndMore(polls, response, 0);
  }

  lemma FoldedStep(s: State, a: Action, setting: Setting)
    requires Folded(s) && Enabled(s, a, setting)
    ensures Folded(Next(s, a, setting))
  {
    match a
    case ClientReceives => FirstGateMore(s.wakes, s.stream[0], s.phase.txId);
    case ClientPolls(response) => FirstEndMore(s.polls, response);
    case _ =>
  }

  lemma GetsMore(asked: seq<Sent>, txId: string, n: nat)
    ensures asked + Gets(txId, n) + [Get(txId)] == asked + Gets(txId, n + 1)
  {
  }

  lemma OrderedPoll(s: State, response: ResultResponse, setting: Setting)
    requires Ordered(s, setting) && Enabled(s, ClientPolls(response), setting)
    ensures Ordered(Next(s, ClientPolls(response), setting), setting)
  {
    GetsMore(Asked(setting.streams, setting.envelope), s.phase.txId, |s.polls|);
  }

  lemma OrderedStep(s: State, a: Action, setting: Setting)
    requires Folded(s) && Ordered(s, setting) && Enabled(s, a, setting)
    ensures Ordered(Next(s, a, setting), setting)
  {
    if a.ClientPolls? {
      OrderedPoll(s, a.response, setting);
    }
  }

  lemma {:induction false} RunIsSane(run: Run, setting: Setting)
    requires Possible(run, setting)
    ensures Folded(After(run, setting)) && Ordered(After(run, setting), setting)
  {
    if run.Then? {
      RunIsSane(run.earlier, setting);
      FoldedStep(After(run.earlier, setting), run.action, setting);
      OrderedStep(After(run.earlier, setting), run.action, setting);
    }
  }

  /**
   * Every interleaving that ends is, to the client, one script: its outcome is the polls' first end,
   * as in poll-only mode, and what it has sent is what submitAndWait sends on that script.
   */
  lemma EveryRunIsAScript(run: Run, setting: Setting)
    requires Possible(run, setting) && After(run, setting).phase.Done?
    ensures var s := After(run, setting);
            && s.submit.Some? && s.phase.outcome == Outcome(Seen(s, setting))
            && s.sent == Wire(Seen(s, setting), setting.envelope)
  {
    RunIsSane(run, setting);
  }

  // ---- The stream can delay the answer but not change it ----

  /** The frames on the way name transactions that are final. */
  ghost predicate StreamTruthful(s: State) {
    forall txId :: Frame(FINALIZED, Some(txId)) in s.stream ==> txId in s.finalized
  }

  /** An answer is the server's, and an open gate means there is one. */
  predicate Truthful(s: State, setting: Setting) {
    match s.phase
    case Polling(txId) => FirstGate(s.wakes, txId) == Some(Opened) ==> txId in s.finalized && s.polls == []
    case Done(Submitted(txId, end)) =>
      && (end.Final? ==> txId in s.finalized && end.raw == setting.outcome(txId))
      && (FirstGate(s.wakes, txId) == Some(Opened) ==> !end.ContextEnded? && |s.polls| == 1)
    case _ => true
  }

  ghost predicate OutcomesAreFinal(setting: Setting) {
    forall txId :: !IsPending(setting.outcome(txId))
  }

  lemma StreamTruthfulStep(s: State, a: Action, setting: Setting)
    requires StreamTruthful(s) && Enabled(s, a, setting)
    ensures StreamTruthful(Next(s, a, setting))
  {
  }

  lemma ReceiveIsTruthful(s: State, setting: Setting)
    requires Folded(s) && StreamTruthful(s) && Enabled(s, ClientReceives, setting)
    ensures Truthful(Next(s, ClientReceives, setting), setting)
  {
    var w, txId := s.stream[0], s.phase.txId;
    FirstGateMore(s.wakes, w, txId);
    if GateOf(w, txId) == Some(Opened) {
      assert w == Frame(FINALIZED, Some(txId)) && w in s.stream;
    }
  }

  lemma StreamEndIsTruthful(s: State, how: Wake, setting: Setting)
    requires Folded(s) && Enabled(s, StreamEnds(how), setting)
    ensures Truthful(Next(s, StreamEnds(how), setting), setting)
  {
    FirstGateMore(s.wakes, how, s.phase.txId);
  }

  lemma PollStep(s: State, response: ResultResponse, setting: Setting)
    requires OutcomesAreFinal(setting) && Folded(s) && Truthful(s, setting)
             && Enabled(s, ClientPolls(response), setting)
    ensures Truthful(Next(s, ClientPolls(response), setting), setting)
  {
    assert !IsPending(setting.outcome(s.phase.txId));
  }

  lemma TruthfulStep(s: State, a: Action, setting: Setting)
    requires OutcomesAreFinal(setting) && Folded(s) && StreamTruthful(s) && Truthful(s, setting)
             && Enabled(s, a, setting)
    ensures Truthful(Next(s, a, setting), setting)
  {
    match a
    case ClientReceives => ReceiveIsTruthful(s, setting);
    case StreamEnds(how) => StreamEndIsTruthful(s, how, setting);
    case ClientPolls(response) => PollStep(s, response, setting);
    case _ =>
  }

  lemma {:induction false} RunIsTruthful(run: Run, setting: Setting)
    requires OutcomesAreFinal(setting) && Possible(run, setting)
    ensures StreamTruthful(After(run, setting)) && Truthful(After(run, setting), setting)
  {
    if run.Then? {
      RunIsSane(run.earlier, setting);
      RunIsTruthful(run.earlier, setting);
      StreamTruthfulStep(After(run.earlier, setting), run.action, setting);
      TruthfulStep(After(run.earlier, setting), run.action, setting);
    }
  }

  /**
   * A final answer is the server's, whatever the schedule and whether or not the client streams;
   * once the gate has opened the first poll is the last.
   */
  lemma StreamNeverChangesTheAnswer(run: Run, setting: Setting)
    requires OutcomesAreFinal(setting) && Possible(run, setting)
    requires After(run, setting).phase.Done? && After(run, setting).phase.outcome.Submitted?
    ensures var s := After(run, setting);
            var txId, end := s.phase.outcome.txId, s.phase.outcome.end;
            && s.submit == Some(Ok(txId))
            && (end.Final? ==> txId in s.finalized && end.raw == setting.outcome(txId))
            && (FirstGate(s.wakes, txId) == Some(Opened) ==> !end.ContextEnded? && |s.polls| == 1)
  {
    RunIsSane(run, setting);
    RunIsTruthful(run, setting);
  }

  // ---- No missed broadcast ----

  /**
   * Nothing is accepted before the submit, and a streaming client is subscribed from before it
   * until its gate opens.
   */
  predicate Standing(s: State, setting: Setting) {
    && (s.phase.Ready? || s.phase.Listening? ==> s.accepted.None?)
    && (s.phase.Listening? || s.phase.Waiting? || (setting.streams && s.phase.Submitting?) ==> s.subscribed)
  }

  lemma StandingStep(s: State, a: Action, setting: Setting)
    requires Standing(s, setting) && Enabled(s, a, setting)
    ensures Standing(Next(s, a, setting), setting)
  {
  }

  lemma {:induction false} RunStands(run: Run, setting: Setting)
    requires Possible(run, setting)
    ensures Standing(After(run, setting), setting)
  {
    if run.Then? {
      RunStands(run.earlier, setting);
      StandingStep(After(run.earlier, setting), run.action, setting);
    }
  }

  /** While the client is subscribed and its transaction is final, its frame is still ahead of it. */
  predicate FrameAhead(s: State) {
    s.subscribed && s.accepted.Some? && s.accepted.value in s.finalized ==> Frame(FINALIZED, s.accepted) in s.stream
  }

  lemma FrameAheadStep(s: State, a: Action, setting: Setting)
    requires Folded(s) && Standing(s, setting) && FrameAhead(s) && Enabled(s, a, setting)
    ensures FrameAhead(Next(s, a, setting))
  {
    match a
    case ClientReceives => assert s.stream == [s.stream[0]] + s.stream[1..];
    case _ =>
  }

  /** Not even a frame broadcast before the submit call has returned is missed. */
  lemma {:induction false} NoMissedBroadcast(run: Run, setting: Setting)
    requires Possible(run, setting)
    ensures FrameAhead(After(run, setting)) && Standing(After(run, setting), setting)
  {
    RunStands(run, setting);
    if run.Then? {
      NoMissedBroadcast(run.earlier, setting);
      RunIsSane(run.earlier, setting);
      FrameAheadStep(After(run.earlier, setting), run.action, setting);
    }
  }

  /** n more frames received, nothing else happening. */
  function Receiving(run: Run, n: nat): Run {
    if n == 0 then run else Then(Receiving(run, n - 1), ClientReceives)
  }

  lemma ReceiveStep(run: Run, setting: Setting)
    requires Possible(run, setting) && After(run, setting).phase.Waiting? && After(run, setting).stream != []
    ensures Possible(Then(run, ClientReceives), setting)
    ensures After(Then(run, ClientReceives), setting) == Next(After(run, setting), ClientReceives, setting)
  {
  }

  predicate OnlySkipped(stream: seq<Wake>, n: nat, txId: string)
    requires n <= |stream|
  {
    forall k :: 0 <= k < n ==> GateOf(stream[k], txId) == None
  }

  /** t is s with its first n frames received and skipped. */
  predicate Skipped(s: State, t: State, n: nat) {
    && s.phase.Waiting? && t.phase == s.phase
    && n <= |s.stream| && t.stream == s.stream[n..]
    && FirstGate(t.wakes, s.phase.txId) == None
  }

  lemma SkipOne(s: State, t: State, n: nat, setting: Setting)
    requires Skipped(s, t, n) && n < |s.stream| && GateOf(s.stream[n], s.phase.txId) == None
    ensures t.stream != [] && Skipped(s, Next(t, ClientReceives, setting), n + 1)
  {
    assert t.stream[0] == s.stream[n] && t.stream[1..] == s.stream[n + 1..];
    FirstGateMore(t.wakes, t.stream[0], s.phase.txId);
  }

  lemma {:induction false} ReceivingSkips(run: Run, setting: Setting, s: State, n: nat)
    requires Possible(run, setting) && After(run, setting) == s && Skipped(s, s, 0)
    requires n <= |s.stream| && OnlySkipped(s.stream, n, s.phase.txId)
    ensures Possible(Receiving(run, n), setting) && Skipped(s, After(Receiving(run, n), setting), n)
  {
    if n > 0 {
      ReceivingSkips(run, setting, s, n - 1);
      SkipOne(s, After(Receiving(run, n - 1), setting), n - 1, setting);
      ReceiveStep(Receiving(run, n - 1), setting);
    }
  }

  lemma {:induction false} FirstMatch(stream: seq<Wake>, txId: string) returns (n: nat)
    requires Frame(FINALIZED, Some(txId)) in stream && forall w :: w in stream ==> w.Frame?
    ensures n < |stream| && Matches(stream[n], txId) && OnlySkipped(stream, n, txId)
  {
    if Matches(stream[0], txId) {
      n := 0;
    } else {
      assert stream == [stream[0]] + stream[1..];
      n := FirstMatch(stream[1..], txId);
      n := n + 1;
    }
  }

  /**
   * Subscribing before submitting pays off: once the transaction is final, receiving what is already
   * on the way opens the gate, unless the stream, the timer or the context ends the wait first.
   */
  lemma TheGateOpens(run: Run, setting: Setting) returns (n: nat)
    requires Possible(run, setting)
    requires After(run, setting).phase.Waiting? && After(run, setting).phase.txId in After(run, setting).finalized
    ensures 0 < n <= |After(run, setting).stream| && Possible(Receiving(run, n), setting)
    ensures var s, t := After(run, setting), After(Receiving(run, n), setting);
            t.phase == Polling(s.phase.txId) && FirstGate(t.wakes, s.phase.txId) == Some(Opened)
  {
    var k := FrameComes(run, setting);
    OpensAfter(run, setting, After(run, setting), k);
    n := k + 1;
  }

  lemma FrameComes(run: Run, setting: Setting) returns (k: nat)
    requires Possible(run, setting)
    requires After(run, setting).phase.Waiting? && After(run, setting).phase.txId in After(run, setting).finalized
    ensures var s := After(run, setting);
            k < |s.stream| && Matches(s.stream[k], s.phase.txId) && OnlySkipped(s.stream, k, s.phase.txId)
  {
    NoMissedBroadcast(run, setting);
    RunIsSane(run, setting);
    StreamIsFrames(run, setting);
    var s := After(run, setting);
    k := FirstMatch(s.stream, s.phase.txId);
  }

  lemma OpensAfter(run: Run, setting: Setting, s: State, k: nat)
    requires Possible(run, setting) && After(run, setting) == s && s.phase.Waiting?
    requires k < |s.stream| && Matches(s.stream[k], s.phase.txId) && OnlySkipped(s.stream, k, s.phase.txId)
    ensures Possible(Receiving(run, k + 1), setting)
    ensures var t := After(Receiving(run, k + 1), setting);
            t.phase == Polling(s.phase.txId) && FirstGate(t.wakes, s.phase.txId) == Some(Opened)
  {
    RunIsSane(run, setting);
    ReceivingSkips(run, setting, s, k);
    GateReceived(Receiving(run, k), setting, s.phase.txId);
  }

  lemma GateReceived(run: Run, setting: Setting, txId: string)
    requires Possible(run, setting)
    requires var s := After(run, setting);
             s.phase == Waiting(txId) && s.stream != [] && Matches(s.stream[0], txId)
               && FirstGate(s.wakes, txId) == None
    ensures Possible(Then(run, ClientReceives), setting)
    ensures var t := After(Then(run, ClientReceives), setting);
            t.phase == Polling(txId) && FirstGate(t.wakes, txId) == Some(Opened)
  {
    var s := After(run, setting);
    ReceiveStep(run, setting);
    FirstGateMore(s.wakes, s.stream[0], txId);
  }

  predicate AllFrames(s: State) {
    forall w :: w in s.stream ==> w.Frame?
  }

  lemma AllFramesStep(s: State, a: Action, setting: Setting)
    requires AllFrames(s) && Enabled(s, a, setting)
    ensures AllFrames(Next(s, a, setting))
  {
  }

  lemma {:induction false} StreamIsFrames(run: Run, setting: Setting)
    requires Possible(run, setting)
    ensures AllFrames(After(run, setting))
  {
    if run.Then? {
      StreamIsFrames(run.earlier, setting);
      AllFramesStep(After(run.earlier, setting), run.action, setting);
    }
  }
}
