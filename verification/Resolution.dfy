/**
 * The bounded input-resolution loops of ootle/driver.go (resolveInputs) and ootle/stealth.go
 * (inlined in sendStealthTransfer), as functions of what the core and the transport answer.
 */
module Resolving {
  import opened Prelude
  import opened Fetching

  const MAX_ROUNDS: nat := 3

  type Batch = seq<Fetched>

  /** What an apply call yields: the core refuses, or its envelope lacks a handle, or an answer. */
  datatype Reply = Refused(code: string) | NoHandle | Answer(json: ResolutionJson)

  /** The core, as a function of the batches applied since the build. */
  type Core = seq<Batch> -> Reply

  /** The transport, as a function of the round and the ids requested. */
  type Fetch = (nat, seq<string>) -> Result<Batch, string>

  /** What a loop asked the transport for, what it applied, and how it ended. */
  datatype LoopRun = LoopRun(fetches: seq<seq<string>>, batches: seq<Batch>, end: Option<Failure>)

  /** One apply, and the ids to go on with: None when resolved. */
  function Step(core: Core, batches: seq<Batch>): Result<Option<seq<string>>, Failure> {
    match core(batches)
    case Refused(code) => Err(Failure.Core(code))
    case NoHandle => Err(Internal)
    case Answer(json) =>
      match ParseResolution(json)
      case Err(failure) => Err(failure)
      case Ok(r) =>
        if r.resolved then Ok(None)
        else
          match NextIds(r)
          case Err(failure) => Err(failure)
          case Ok(ids) => Ok(Some(ids))
  }

  /** A round once its fetch has been answered: apply, and the ids of the next, or None when over. */
  function AfterFetch(core: Core, fetches: seq<seq<string>>, batches: seq<Batch>, reply: Result<Batch, string>,
                      round: nat)
    : (LoopRun, Option<seq<string>>)
  {
    match reply
    case Err(why) => (LoopRun(fetches, batches, Some(Transport(why))), None)
    case Ok(batch) =>
      match Step(core, batches + [batch])
      case Err(failure) => (LoopRun(fetches, batches + [batch], Some(failure)), None)
      case Ok(None) => (LoopRun(fetches, batches + [batch], None), None)
      case Ok(Some(next)) =>
        if round + 1 >= MAX_ROUNDS then (LoopRun(fetches, batches + [batch], Some(NotConverged)), None)
        else (LoopRun(fetches, batches + [batch], None), Some(next))
  }

  function Round(core: Core, fetch: Fetch, skipsEmpty: bool, run: LoopRun, ids: seq<string>, round: nat)
    : (LoopRun, Option<seq<string>>)
  {
    if skipsEmpty && ids == [] then AfterFetch(core, run.fetches, run.batches, Ok([]), round)
    else AfterFetch(core, run.fetches + [ids], run.batches, fetch(round, ids), round)
  }

  /**
   * The loop from a given round on. The public driver's fetches in every round; the stealth
   * driver's skips the transport when there is nothing to fetch.
   */
  function Loop(core: Core, fetch: Fetch, skipsEmpty: bool, run: LoopRun, ids: seq<string>, round: nat): LoopRun
    decreases MAX_ROUNDS - round
  {
    var (run', next) := Round(core, fetch, skipsEmpty, run, ids, round);
    if next.None? then run' else Loop(core, fetch, skipsEmpty, run', next.value, round + 1)
  }

  const NOTHING := LoopRun([], [], None)

  function PublicLoop(core: Core, fetch: Fetch, ids: seq<string>): LoopRun {
    Loop(core, fetch, false, NOTHING, ids, 0)
  }

  function StealthLoop(core: Core, fetch: Fetch, ids: seq<string>): LoopRun {
    Loop(core, fetch, true, NOTHING, ids, 0)
  }

  // ---- The two loops agree ----

  function NonEmptyFetches(fetches: seq<seq<string>>): seq<seq<string>> {
    if fetches == [] then []
    else
      var init := NonEmptyFetches(fetches[..|fetches| - 1]);
      if fetches[|fetches| - 1] == [] then init else init + [fetches[|fetches| - 1]]
  }

  ghost predicate EmptyFetchIsEmpty(fetch: Fetch) {
    forall k: nat :: fetch(k, []) == Ok([])
  }

  ghost predicate SameRun(p: LoopRun, s: LoopRun) {
    NonEmptyFetches(p.fetches) == s.fetches && p.batches == s.batches && p.end == s.end
  }

  lemma SkippedFetch(fetches: seq<seq<string>>, ids: seq<string>)
    ensures NonEmptyFetches(fetches + [ids]) == if ids == [] then NonEmptyFetches(fetches)
            else NonEmptyFetches(fetches) + [ids]
  {
    assert (fetches + [ids])[..|fetches|] == fetches;
  }

  /** The rest of a round does not look at what has been fetched before. */
  lemma FetchesDoNotMatter(core: Core, p: seq<seq<string>>, s: seq<seq<string>>, batches: seq<Batch>,
                           reply: Result<Batch, string>, round: nat)
    ensures var ((p', next), (s', next')) := (AfterFetch(core, p, batches, reply, round),
            AfterFetch(core, s, batches, reply, round));
            p'.fetches == p && s'.fetches == s && p'.batches == s'.batches && p'.end == s'.end && next == next'
  {
  }

  lemma RoundsAgree(core: Core, fetch: Fetch, p: LoopRun, s: LoopRun, ids: seq<string>, round: nat)
    requires EmptyFetchIsEmpty(fetch) && SameRun(p, s)
    ensures SameRun(Round(core, fetch, false, p, ids, round).0, Round(core, fetch, true, s, ids, round).0)
    ensures Round(core, fetch, false, p, ids, round).1 == Round(core, fetch, true, s, ids, round).1
  {
    SkippedFetch(p.fetches, ids);
    assert ids == [] ==> fetch(round, ids) == Ok([]);
    var stealth := if ids == [] then s.fetches else s.fetches + [ids];
    FetchesDoNotMatter(core, p.fetches + [ids], stealth, p.batches, fetch(round, ids), round);
  }

  lemma {:induction false} LoopsAgreeFrom(core: Core, fetch: Fetch, p: LoopRun, s: LoopRun, ids: seq<string>,
                                          round: nat)
    requires EmptyFetchIsEmpty(fetch) && SameRun(p, s)
    ensures SameRun(Loop(core, fetch, false, p, ids, round), Loop(core, fetch, true, s, ids, round))
    decreases MAX_ROUNDS - round
  {
    RoundsAgree(core, fetch, p, s, ids, round);
    var (p', next) := Round(core, fetch, false, p, ids, round);
    var (s', _) := Round(core, fetch, true, s, ids, round);
    if next.Some? {
      LoopsAgreeFrom(core, fetch, p', s', next.value, round + 1);
    }
  }

  /** Both loops make the same non-empty fetches, apply the same batches and end the same way. */
  lemma LoopsAgree(core: Core, fetch: Fetch, ids: seq<string>)
    requires EmptyFetchIsEmpty(fetch)
    ensures SameRun(PublicLoop(core, fetch, ids), StealthLoop(core, fetch, ids))
  {
    LoopsAgreeFrom(core, fetch, NOTHING, NOTHING, ids, 0);
  }

  // ---- What a loop does, round by round ----

  lemma LoopOnce(core: Core, fetch: Fetch, skipsEmpty: bool, run: LoopRun, ids: seq<string>, r: nat)
    ensures var (run', ids') := Round(core, fetch, skipsEmpty, run, ids, r);
            Loop(core, fetch, skipsEmpty, run, ids, r) == if ids'.None? then run'
              else Loop(core, fetch, skipsEmpty, run', ids'.value, r + 1)
  {
  }

  /** What of the ids asked for goes to the transport. */
  function FetchesOf(skipsEmpty: bool, asked: seq<seq<string>>): seq<seq<string>> {
    if skipsEmpty then NonEmptyFetches(asked) else asked
  }

  /** The core needs more: the ids it names itself, or else those its want list names. */
  ghost predicate AsksFor(reply: Reply, ids: seq<string>) {
    && reply.Answer? && reply.json.Envelope? && reply.json.status == "need_more"
    && (if reply.json.fetchIds != [] then ids == reply.json.fetchIds
        else if reply.json.wantList.Wants? then ids == FirstSeen(AllSeeds(reply.json.wantList.wants))
        else reply.json.wantList.Absent? && ids == [])
  }

  /** The k-th batch answers the k-th list of ids, which is what the core asked for given the batches before. */
  ghost predicate AskedAndApplied(core: Core, fetch: Fetch, skipsEmpty: bool, asked: seq<seq<string>>,
                                  batches: seq<Batch>) {
    && |batches| <= |asked| <= |batches| + 1
    && (forall k :: 0 <= k < |batches| ==>
                      if skipsEmpty && asked[k] == [] then batches[k] == [] else fetch(k, asked[k]) == Ok(batches[k]))
    && (forall k :: 0 < k < |asked| ==> AsksFor(core(batches[..k]), asked[k]))
  }

  /** The end the core's reply to the n-th apply brings about; more ids are no use after the third. */
  ghost predicate ReplyEnds(reply: Reply, n: nat, end: Option<Failure>) {
    match reply
    case Refused(code) => end == Some(Failure.Core(code))
    case NoHandle => end == Some(Internal)
    case Answer(BadJson) => end == Some(Encoding)
    case Answer(Envelope(status, wantList, fetchIds)) =>
      if status == "resolved" then end == None
      else if status != "need_more" then end == Some(Internal)
      else if fetchIds == [] && wantList.Undecodable? then end == Some(Encoding)
      else end == Some(NotConverged) && n == 3
  }

  /** How a run ends: with a fetch that fails, or with what the core makes of all batches. */
  ghost predicate EndMeans(core: Core, fetch: Fetch, asked: seq<seq<string>>, batches: seq<Batch>,
                           end: Option<Failure>)
    requires |batches| <= |asked| <= |batches| + 1
  {
    if |asked| > |batches| then
      var reply := fetch(|batches|, asked[|batches|]);
      reply.Err? && end == Some(Transport(reply.error))
    else ReplyEnds(core(batches), |batches|, end)
  }

  ghost predicate RunMeans(core: Core, fetch: Fetch, skipsEmpty: bool, asked: seq<seq<string>>, run: LoopRun) {
    && |asked| <= 3
    && run.fetches == FetchesOf(skipsEmpty, asked)
    && AskedAndApplied(core, fetch, skipsEmpty, asked, run.batches)
    && EndMeans(core, fetch, asked, run.batches, run.end)
  }

  lemma StepMeans(core: Core, batches: seq<Batch>)
    ensures var step := Step(core, batches);
            && (step.Err? ==> ReplyEnds(core(batches), |batches|, Some(step.error)))
            && (step == Ok(None) ==> ReplyEnds(core(batches), |batches|, None))
            && (step.Ok? && step.value.Some? ==> AsksFor(core(batches), step.value.value))
  {
  }

  lemma AskedOnce(core: Core, fetch: Fetch, skipsEmpty: bool, asked: seq<seq<string>>, batches: seq<Batch>,
                  ids: seq<string>, batch: Batch)
    requires |asked| == |batches| && AskedAndApplied(core, fetch, skipsEmpty, asked + [ids], batches)
    requires if skipsEmpty && ids == [] then batch == [] else fetch(|asked|, ids) == Ok(batch)
    ensures AskedAndApplied(core, fetch, skipsEmpty, asked + [ids], batches + [batch])
  {
    var all := batches + [batch];
    assert forall k :: 0 <= k <= |batches| ==> all[..k] == batches[..k];
  }

  lemma AskedAgain(core: Core, fetch: Fetch, skipsEmpty: bool, asked: seq<seq<string>>, batches: seq<Batch>,
                   next: seq<string>)
    requires |asked| == |batches| > 0 && AskedAndApplied(core, fetch, skipsEmpty, asked, batches)
    requires AsksFor(core(batches), next)
    ensures AskedAndApplied(core, fetch, skipsEmpty, asked + [next], batches)
  {
    assert batches[..|batches|] == batches;
  }

  /** One more apply, and what it leads to. */
  lemma AppliedNext(core: Core, fetch: Fetch, skipsEmpty: bool, run: LoopRun, asked: seq<seq<string>>,
                    ids: seq<string>, reply: Result<Batch, string>)
    requires |asked| == |run.batches| < 3 && AskedAndApplied(core, fetch, skipsEmpty, asked + [ids], run.batches)
    requires if skipsEmpty && ids == [] then reply == Ok([]) else reply == fetch(|asked|, ids)
    requires run.fetches == FetchesOf(skipsEmpty, asked + [ids])
    ensures var (run', next) := AfterFetch(core, run.fetches, run.batches, reply, |asked|);
            && run'.fetches == run.fetches
            && (next.None? ==> RunMeans(core, fetch, skipsEmpty, asked + [ids], run'))
            && (next.Some? ==> |asked| < 2 && |run'.batches| == |run.batches| + 1
                               && AskedAndApplied(core, fetch, skipsEmpty, asked + [ids] + [next.value], run'.batches))
  {
    if reply.Ok? {
      var batches := run.batches + [reply.value];
      AskedOnce(core, fetch, skipsEmpty, asked, run.batches, ids, reply.value);
      StepMeans(core, batches);
      var step := Step(core, batches);
      if step.Ok? && step.value.Some? {
        AskedAgain(core, fetch, skipsEmpty, asked + [ids], batches, step.value.value);
      }
    }
  }

  lemma RoundMeans(core: Core, fetch: Fetch, skipsEmpty: bool, run: LoopRun, asked: seq<seq<string>>, ids: seq<string>)
    requires |asked| == |run.batches| < 3 && AskedAndApplied(core, fetch, skipsEmpty, asked + [ids], run.batches)
    requires run.fetches == FetchesOf(skipsEmpty, asked)
    ensures var (run', next) := Round(core, fetch, skipsEmpty, run, ids, |asked|);
            && run'.fetches == FetchesOf(skipsEmpty, asked + [ids])
            && (next.None? ==> RunMeans(core, fetch, skipsEmpty, asked + [ids], run'))
            && (next.Some? ==> |asked| < 2 && |run'.batches| == |run.batches| + 1
                               && AskedAndApplied(core, fetch, skipsEmpty, asked + [ids] + [next.value], run'.batches))
  {
    SkippedFetch(asked, ids);
    if skipsEmpty && ids == [] {
      AppliedNext(core, fetch, skipsEmpty, run, asked, ids, Ok([]));
    } else {
      AppliedNext(core, fetch, skipsEmpty, run.(fetches := run.fetches + [ids]), asked, ids, fetch(|asked|, ids));
    }
  }

  lemma {:induction false} LoopMeansFrom(core: Core, fetch: Fetch, skipsEmpty: bool, run: LoopRun,
                                         asked: seq<seq<string>>, ids: seq<string>) returns (all: seq<seq<string>>)
    requires |asked| == |run.batches| < 3 && AskedAndApplied(core, fetch, skipsEmpty, asked + [ids], run.batches)
    requires run.fetches == FetchesOf(skipsEmpty, asked)
    ensures asked + [ids] <= all
    ensures RunMeans(core, fetch, skipsEmpty, all, Loop(core, fetch, skipsEmpty, run, ids, |asked|))
    decreases 3 - |asked|
  {
    RoundMeans(core, fetch, skipsEmpty, run, asked, ids);
    LoopOnce(core, fetch, skipsEmpty, run, ids, |asked|);
    var (run', next) := Round(core, fetch, skipsEmpty, run, ids, |asked|);
    all := asked + [ids];
    if next.Some? {
      all := LoopMeansFrom(core, fetch, skipsEmpty, run', asked + [ids], next.value);
    }
  }

  lemma {:induction false} FirstFetch(asked: seq<seq<string>>)
    requires asked != [] && asked[0] != []
    ensures NonEmptyFetches(asked) != [] && NonEmptyFetches(asked)[0] == asked[0]
  {
    if |asked| > 1 {
      FirstFetch(asked[..|asked| - 1]);
    } else {
      assert asked[..0] == [];
    }
  }

  /** Every run of either loop: at most three rounds, each for what the core asked, up to the end it names. */
  lemma LoopMeans(core: Core, fetch: Fetch, skipsEmpty: bool, ids: seq<string>) returns (asked: seq<seq<string>>)
    ensures asked != [] && asked[0] == ids
    ensures RunMeans(core, fetch, skipsEmpty, asked, Loop(core, fetch, skipsEmpty, NOTHING, ids, 0))
  {
    assert [] + [ids] == [ids];
    asked := LoopMeansFrom(core, fetch, skipsEmpty, NOTHING, [], ids);
  }

  // ---- How deep a discovery the loop can follow ----

  /** The ids of everything applied. */
  function Applied(batches: seq<Batch>): set<string> {
    set b, f | b in batches && f in b :: f.id
  }

  function Discovered(ids: set<string>, next: string -> set<string>): set<string> {
    set a, b | a in ids && b in next(a) :: b
  }

  /** What n discovery steps reach from the seeds, the intent's own needs counting as one step. */
  function Reach(seeds: set<string>, needs: set<string>, next: string -> set<string>, n: nat): set<string> {
    Iterate(Grower(needs, next), seeds, n)
  }

  function Grower(needs: set<string>, next: string -> set<string>): set<string> -> set<string> {
    s => Grow(s, needs, next)
  }

  function Iterate<S>(step: S -> S, start: S, n: nat): S {
    if n == 0 then start else step(Iterate(step, start, n - 1))
  }

  function Grow(before: set<string>, needs: set<string>, next: string -> set<string>): set<string> {
    before + needs + Discovered(before, next)
  }

  /** What is discovered of the ids applied, but not applied. */
  function Rest(batches: seq<Batch>, needs: set<string>, next: string -> set<string>): set<string> {
    needs + Discovered(Applied(batches), next) - Applied(batches)
  }

  /** A core that resolves once it has all it has discovered, and otherwise asks for the rest. */
  ghost predicate AsksForTheRest(core: Core, needs: set<string>, next: string -> set<string>) {
    forall batches: seq<Batch> ::
      var rest := Rest(batches, needs, next);
      && core(batches).Answer? && core(batches).json.Envelope?
      && core(batches).json.status == (if rest == {} then "resolved" else "need_more")
      && (rest != {} ==> (set id | id in core(batches).json.fetchIds) == rest)
  }

  ghost predicate ServesEverything(fetch: Fetch) {
    forall k: nat, ids: seq<string> ::
      fetch(k, ids).Ok? && (set f | f in fetch(k, ids).value :: f.id) == set id | id in ids
  }

  lemma {:induction false} ReachGrows(seeds: set<string>, needs: set<string>, next: string -> set<string>, m: nat,
                                      n: nat)
    requires m <= n
    ensures Reach(seeds, needs, next, m) <= Reach(seeds, needs, next, n)
  {
    if m < n {
      ReachGrows(seeds, needs, next, m, n - 1);
    }
  }

  lemma ReachOnce(seeds: set<string>, needs: set<string>, next: string -> set<string>, n: nat)
    ensures Reach(seeds, needs, next, n + 1) == Grow(Reach(seeds, needs, next, n), needs, next)
  {
  }

  lemma {:induction false} IterateStays<S>(step: S -> S, start: S, m: nat, n: nat)
    requires m <= n && step(Iterate(step, start, m)) == Iterate(step, start, m)
    ensures Iterate(step, start, n) == Iterate(step, start, m)
  {
    if m < n {
      IterateStays(step, start, m, n - 1);
    }
  }

  /** Once a step reaches nothing new, no later step does. */
  lemma {:induction false} ReachSettles(seeds: set<string>, needs: set<string>, next: string -> set<string>, m: nat,
                                        n: nat)
    requires m <= n && Reach(seeds, needs, next, m + 1) == Reach(seeds, needs, next, m)
    ensures Reach(seeds, needs, next, n) == Reach(seeds, needs, next, m)
  {
    ReachOnce(seeds, needs, next, m);
    IterateStays(Grower(needs, next), seeds, m, n);
  }

  lemma AppliedMore(batches: seq<Batch>, batch: Batch)
    ensures Applied(batches + [batch]) == Applied(batches) + set f | f in batch :: f.id
  {
  }

  lemma StepAsks(core: Core, needs: set<string>, next: string -> set<string>, batches: seq<Batch>)
    requires AsksForTheRest(core, needs, next)
    ensures var rest, step := Rest(batches, needs, next), Step(core, batches);
            && (rest == {} ==> step == Ok(None))
            && (rest != {} ==> step.Ok? && step.value.Some? && (set id | id in step.value.value) == rest)
  {
    var json := core(batches).json;
    var rest := Rest(batches, needs, next);
    if rest != {} {
      assert json.status == "need_more" && (set id | id in json.fetchIds) == rest;
      assert json.fetchIds != [];
    }
  }

  lemma FetchApplies(fetch: Fetch, batches: seq<Batch>, ids: seq<string>, r: nat)
    requires ServesEverything(fetch)
    ensures fetch(r, ids).Ok? && Applied(batches + [fetch(r, ids).value]) == Applied(batches) + set id | id in ids
  {
    assert fetch(r, ids).Ok?;
    AppliedMore(batches, fetch(r, ids).value);
  }

  /** What a core that asks for the rest makes of one more batch. */
  lemma BatchAsks(core: Core, needs: set<string>, next: string -> set<string>, fetches: seq<seq<string>>,
                  batches: seq<Batch>,
                  batch: Batch, r: nat)
    requires AsksForTheRest(core, needs, next)
    ensures var (run', ids') := AfterFetch(core, fetches, batches, Ok(batch), r);
            var rest := Rest(batches + [batch], needs, next);
            && run'.batches == batches + [batch]
            && (rest == {} <==> run'.end.None? && ids'.None?)
            && (rest != {} && r + 1 >= MAX_ROUNDS ==> run'.end == Some(NotConverged) && ids'.None?)
            && (rest != {} && r + 1 < MAX_ROUNDS ==> ids'.Some? && (set id | id in ids'.value) == rest)
  {
    StepAsks(core, needs, next, batches + [batch]);
  }

  lemma GrowIsRest(batches: seq<Batch>, needs: set<string>, next: string -> set<string>)
    ensures var here, rest := Applied(batches), Rest(batches, needs, next);
            Grow(here, needs, next) == here + rest && (Grow(here, needs, next) == here <==> rest == {})
  {
    var here, rest := Applied(batches), Rest(batches, needs, next);
    assert here !! rest;
    assert Grow(here, needs, next) == here + rest;
    if rest != {} {
      var id :| id in rest;
      assert id in Grow(here, needs, next) && id !in here;
    }
  }

  /** One round of such a core, when everything within r - 1 steps has been applied. */
  lemma RoundReaches(core: Core, fetch: Fetch, seeds: set<string>, needs: set<string>, next: string -> set<string>,
                     run: LoopRun, ids: seq<string>, r: nat)
    requires AsksForTheRest(core, needs, next) && ServesEverything(fetch)
    requires Applied(run.batches) + (set id | id in ids) == Reach(seeds, needs, next, r)
    ensures var (run', ids') := Round(core, fetch, false, run, ids, r);
            var here, there := Reach(seeds, needs, next, r), Reach(seeds, needs, next, r + 1);
            && |run'.batches| == |run.batches| + 1 && Applied(run'.batches) == here
            && (there == here <==> run'.end.None? && ids'.None?)
            && (there != here && r + 1 >= MAX_ROUNDS ==> run'.end == Some(NotConverged) && ids'.None?)
            && (there != here && r + 1 < MAX_ROUNDS ==>
                  ids'.Some? && Applied(run'.batches) + (set id | id in ids'.value) == there)
  {
    FetchApplies(fetch, run.batches, ids, r);
    var batch := fetch(r, ids).value;
    BatchAsks(core, needs, next, run.fetches + [ids], run.batches, batch, r);
    GrowIsRest(run.batches + [batch], needs, next);
    ReachOnce(seeds, needs, next, r);
  }

  /** A run that ends as it should: resolved if the third step from the seeds reaches nothing new, or given up. */
  ghost predicate EndsRight(last: LoopRun, seeds: set<string>, needs: set<string>, next: string -> set<string>) {
    && (last.end.None? <==> Reach(seeds, needs, next, 3) == Reach(seeds, needs, next, 2))
    && (last.end.None? ==> Applied(last.batches) == Reach(seeds, needs, next, 2))
    && (last.end.Some? ==> last.end == Some(NotConverged) && |last.batches| == MAX_ROUNDS)
  }

  lemma EndsHere(last: LoopRun, seeds: set<string>, needs: set<string>, next: string -> set<string>, r: nat)
    requires r < MAX_ROUNDS && |last.batches| == r + 1 && Applied(last.batches) == Reach(seeds, needs, next, r)
    requires Reach(seeds, needs, next, r + 1) == Reach(seeds, needs, next, r) <==> last.end.None?
    requires last.end.Some? ==> last.end == Some(NotConverged) && r + 1 == MAX_ROUNDS
    ensures EndsRight(last, seeds, needs, next)
  {
    if last.end.None? {
      ReachSettles(seeds, needs, next, r, 2);
      ReachSettles(seeds, needs, next, r, 3);
    }
  }

  lemma {:induction false} ResolvesFrom(core: Core, fetch: Fetch, seeds: set<string>, needs: set<string>,
                                        next: string -> set<string>,
                                        run: LoopRun, ids: seq<string>, r: nat)
    requires AsksForTheRest(core, needs, next) && ServesEverything(fetch) && |run.batches| == r < MAX_ROUNDS
    requires Applied(run.batches) + (set id | id in ids) == Reach(seeds, needs, next, r)
    ensures EndsRight(Loop(core, fetch, false, run, ids, r), seeds, needs, next)
    decreases MAX_ROUNDS - r
  {
    RoundReaches(core, fetch, seeds, needs, next, run, ids, r);
    LoopOnce(core, fetch, false, run, ids, r);
    var (run', ids') := Round(core, fetch, false, run, ids, r);
    if ids'.Some? {
      ResolvesFrom(core, fetch, seeds, needs, next, run', ids'.value, r + 1);
    } else {
      EndsHere(run', seeds, needs, next, r);
    }
  }

  /**
   * The loop resolves exactly when nothing lies more than two discovery steps from the seeds, and
   * then everything discoverable has been applied; otherwise it gives up after three applies.
   */
  lemma {:induction false} ResolvesIffThreeLevels(core: Core, fetch: Fetch, seeds: seq<string>, needs: set<string>,
                                                  next: string -> set<string>)
    requires AsksForTheRest(core, needs, next) && ServesEverything(fetch)
    ensures var run := PublicLoop(core, fetch, seeds);
            var start := set id | id in seeds;
            && (run.end.None? <==> forall n: nat :: Reach(start, needs, next, n) <= Reach(start, needs, next, 2))
            && (run.end.None? ==> forall n: nat :: Reach(start, needs, next, n) <= Applied(run.batches))
            && (run.end.Some? ==> run.end == Some(NotConverged) && |run.batches| == 3)
  {
    var start := set id | id in seeds;
    assert Applied([]) + start == Reach(start, needs, next, 0);
    ResolvesFrom(core, fetch, start, needs, next, NOTHING, seeds, 0);
    ReachGrows(start, needs, next, 2, 3);
    forall n: nat
      ensures Reach(start, needs, next, 3) == Reach(start, needs, next, 2) ==>
              Reach(start, needs, next, n) <= Reach(start, needs, next, 2)
    {
      if Reach(start, needs, next, 3) == Reach(start, needs, next, 2) {
        if n <= 2 {
          ReachGrows(start, needs, next, n, 2);
        } else {
          ReachSettles(start, needs, next, 2, n);
        }
      }
    }
  }

  lemma IdsAreServed(batch: Batch, ids: seq<string>, f: Fetched)
    requires (set g | g in batch :: g.id) == (set id | id in ids) && f in batch
    ensures f.id in ids
  {
    var served := set g | g in batch :: g.id;
    assert f.id in served;
    assert served == set id | id in ids;
  }

  lemma ServesNothing(fetch: Fetch)
    requires ServesEverything(fetch)
    ensures EmptyFetchIsEmpty(fetch)
  {
    forall k: nat ensures fetch(k, []) == Ok([]) {
      assert fetch(k, []).Ok?;
      var batch := fetch(k, []).value;
      if batch != [] {
        IdsAreServed(batch, [], batch[0]);
      }
    }
  }

  /** The stealth driver's loop has the same reach. */
  lemma {:induction false} StealthResolvesIffThreeLevels(core: Core, fetch: Fetch, seeds: seq<string>,
                                                         needs: set<string>,
                                                         next: string -> set<string>)
    requires AsksForTheRest(core, needs, next) && ServesEverything(fetch)
    ensures var run := StealthLoop(core, fetch, seeds);
            var start := set id | id in seeds;
            && (run.end.None? <==> forall n: nat :: Reach(start, needs, next, n) <= Reach(start, needs, next, 2))
            && (run.end.None? ==> forall n: nat :: Reach(start, needs, next, n) <= Applied(run.batches))
            && (run.end.Some? ==> run.end == Some(NotConverged) && |run.batches| == 3)
  {
    ServesNothing(fetch);
    LoopsAgree(core, fetch, seeds);
    ResolvesIffThreeLevels(core, fetch, seeds, needs, next);
  }
}
