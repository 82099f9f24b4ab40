/**
 * The two-phase drivers of ootle/driver.go, driver_generic.go and stealth.go: settle the window,
 * build, resolve, seal, submit, with one deferred free of whatever handle is then live.
 */
module Drivers {
  import opened Prelude
  import opened Fetching
  import opened Epochs
  import opened Cffi
  import opened Finalizing
  import opened Hex
  import opened StealthIntents
  import opened Instructing
  import Resolving

  // ---- What the drivers meet ----

  type Climate = w: Weather | w.polls != [] witness Weather(false, Err(""), [], [BadBody])

  /** The transport's answers: any functions of what it is asked. */
  datatype World = World(
    epochs: EpochSource,
    fetch: Resolving.Fetch,
    dryRun: seq<byte> -> Result<string, string>,
    weather: seq<byte> -> Climate)
  {
    function Fetch(round: nat, ids: seq<string>): Result<Resolving.Batch, string> { fetch(round, ids) }

    function DryRun(envelope: seq<byte>): Result<string, string> { dryRun(envelope) }

    function WeatherOf(envelope: seq<byte>): Climate { weather(envelope) }
  }

  /** The transport, and everything it has been sent. */
  class Net {
    const world: World
    var log: seq<Sent>

    constructor (world: World)
      ensures this.world == world && log == []
    {
      this.world, log := world, [];
    }

    method Fetch(round: nat, ids: seq<string>) returns (reply: Result<Resolving.Batch, string>)
      modifies this
      ensures log == old(log) + [FetchSubstates(ids)] && reply == world.Fetch(round, ids)
    {
      log := log + [FetchSubstates(ids)];
      reply := world.Fetch(round, ids);
    }
  }

  // ---- Resolving ----

  /** A loop's run from a build's want list on. */
  function Resolution(script: Script, world: World, skipsEmpty: bool, wants: WantJson): Resolving.LoopRun {
    match FetchIds(wants)
    case Err(failure) => Resolving.LoopRun([], [], Some(failure))
    case Ok(ids) => TheLoop(script, world, skipsEmpty)(Resolving.NOTHING, ids, 0)
  }

  function Fetches(fetches: seq<seq<string>>): seq<Sent> {
    seq(|fetches|, k requires 0 <= k < |fetches| => FetchSubstates(fetches[k]))
  }

  lemma FetchesMore(fetches: seq<seq<string>>, ids: seq<string>)
    ensures Fetches(fetches + [ids]) == Fetches(fetches) + [FetchSubstates(ids)]
  {
  }

  /** What a resolution leaves: the live handle if there is one, holding what the loop applied. */
  ghost predicate Holds(core: Core, h: Handle?, kind: Kind, batches: seq<Resolving.Batch>)
    reads core, h
  {
    h != null && h.kind == kind && IsLive(h) && h.ptr.value in core.given && core.given[h.ptr.value] == batches
  }

  /**
   * One round after the fetch, as both loops have it: apply, re-point, parse, and the next ids. None
   * when resolved.
   */
  method ApplyAndParse(core: Core, h: Handle, batch: Resolving.Batch, ghost batches: seq<Resolving.Batch>,
                       ghost rest: map<nat, Kind>)
    returns (next: Handle?, ids: Result<Option<seq<string>>, Failure>)
    requires core.Valid() && core.abi == Some(true) && OwnsOnly(core, h, rest) && Holds(core, h, h.kind, batches)
    modifies core, h
    ensures core.Valid() && core.abi == Some(true) && OwnsOnly(core, next, rest)
    ensures next != null ==> fresh(next)
    ensures ids == Resolving.Step(core.script.apply, batches + [batch])
    ensures ids.Ok? ==> Holds(core, next, h.kind, batches + [batch])
  {
    var json;
    next, json := ApplyFetched(core, h, batch, rest);
    if json.Err? {
      return next, Err(json.error);
    }
    var r := ParseResolution(json.value);
    if r.Err? {
      return next, Err(r.error);
    }
    if r.value.resolved {
      return next, Ok(None);
    }
    var more := r.value.fetchIds;
    if more == [] {
      var collected := CollectFetchIds(r.value.wantList);
      if collected.Err? {
        return next, Err(collected.error);
      }
      more := collected.value;
    }
    ids := Ok(Some(more));
  }

  /** What has been sent while a loop has run so far, and what its handle holds. */
  ghost predicate InStep(core: Core, net: Net, h: Handle?, kind: Kind, base: seq<Sent>, run: Resolving.LoopRun,
                         rest: map<nat, Kind>)
    reads core, net, h
  {
    && core.Valid() && core.abi == Some(true) && OwnsOnly(core, h, rest)
    && net.log == base + Fetches(run.fetches)
    && (run.end.None? ==> Holds(core, h, kind, run.batches))
  }

  type LoopFrom = (Resolving.LoopRun, seq<string>, nat) -> Resolving.LoopRun

  /** The loop from any round on, with what the driver's core and transport answer. */
  function TheLoop(script: Script, world: World, skipsEmpty: bool): LoopFrom {
    (run: Resolving.LoopRun, ids: seq<string>, round: nat) =>
      Resolving.Loop(script.apply, world.fetch, skipsEmpty, run, ids, round)
  }

  function AfterRound(loop: LoopFrom, turn: (Resolving.LoopRun, Option<seq<string>>), round: nat): Resolving.LoopRun {
    if turn.1.None? then turn.0 else loop(turn.0, turn.1.value, round + 1)
  }

  /** All that the rounds need of a loop; it unfolds only where a round is named. */
  ghost predicate RoundByRound(script: Script, world: World, skipsEmpty: bool, loop: LoopFrom) {
    forall run: Resolving.LoopRun, ids: seq<string>, round: nat
      {:trigger Resolving.Round(script.apply, world.fetch, skipsEmpty, run, ids, round)} ::
      loop(run, ids, round)
      == AfterRound(loop, Resolving.Round(script.apply, world.fetch, skipsEmpty, run, ids, round), round)
  }

  /** A loop between two rounds: with ids to go on with it is on its way to target, without it has got there. */
  ghost predicate Going(core: Core, net: Net, h: Handle?, failure: Option<Failure>, kind: Kind, loop: LoopFrom,
                        more: Option<seq<string>>, round: nat, base: seq<Sent>, run: Resolving.LoopRun,
                        target: Resolving.LoopRun, rest: map<nat, Kind>)
    reads core, net, h
  {
    && InStep(core, net, h, kind, base, run, rest) && failure == run.end
    && (more.None? ==> run == target)
    && (more.Some? ==> round < Resolving.MAX_ROUNDS && run.end.None? && loop(run, more.value, round) == target)
  }

  /** One round of either loop; only the stealth driver's skips the fetch of an empty list. */
  method Round(core: Core, net: Net, h: Handle?, skipsEmpty: bool, ids: seq<string>, round: nat, ghost kind: Kind,
               ghost loop: LoopFrom, ghost base: seq<Sent>, ghost run: Resolving.LoopRun,
               ghost target: Resolving.LoopRun, ghost rest: map<nat, Kind>)
    returns (next: Handle?, end: Option<Failure>, more: Option<seq<string>>, ghost run': Resolving.LoopRun)
    requires RoundByRound(core.script, net.world, skipsEmpty, loop)
    requires Going(core, net, h, None, kind, loop, Some(ids), round, base, run, target, rest)
    modifies core, net, h
    ensures next != null && next != h ==> fresh(next)
    ensures Going(core, net, next, end, kind, loop, more, round + 1, base, run', target, rest)
    ensures more.Some? ==> end.None? && round + 1 < Resolving.MAX_ROUNDS
  {
    ghost var turn := Resolving.Round(core.script.apply, net.world.fetch, skipsEmpty, run, ids, round);
    run' := turn.0;
    var batch := [];
    if !skipsEmpty || |ids| > 0 {
      var reply := net.Fetch(round, ids);
      FetchesMore(run.fetches, ids);
      if reply.Err? {
        return h, Some(Transport(reply.error)), None, turn.0;
      }
      batch := reply.value;
    }
    var step;
    next, step := ApplyAndParse(core, h, batch, run.batches, rest);
    end := if step.Err? then Some(step.error)
           else if step.value.Some? && round + 1 >= Resolving.MAX_ROUNDS then Some(NotConverged)
           else None;
    more := if end.None? then step.value else None;
  }

  /** The rounds, from the first ids on. */
  method Rounds(core: Core, net: Net, h: Handle, skipsEmpty: bool, first: seq<string>, ghost kind: Kind,
                ghost loop: LoopFrom, ghost base: seq<Sent>, ghost target: Resolving.LoopRun,
                ghost rest: map<nat, Kind>)
    returns (last: Handle?, failure: Option<Failure>)
    requires RoundByRound(core.script, net.world, skipsEmpty, loop)
    requires Going(core, net, h, None, kind, loop, Some(first), 0, base, Resolving.NOTHING, target, rest)
    modifies core, net, h
    ensures last != null && last != h ==> fresh(last)
    ensures Going(core, net, last, failure, kind, loop, None, 0, base, target, target, rest)
  {
    last, failure := h, None;
    ghost var run := Resolving.NOTHING;
    var more, round := Some(first), 0;
    while more.Some?
      invariant last != null && last != h ==> fresh(last)
      invariant Going(core, net, last, failure, kind, loop, more, round, base, run, target, rest)
      invariant more.Some? ==> failure.None? && round < Resolving.MAX_ROUNDS
      decreases more.Some?, Resolving.MAX_ROUNDS - round
    {
      last, failure, more, run :=
        Round(core, net, last, skipsEmpty, more.value, round, kind, loop, base, run, target, rest);
      round := round + 1;
    }
  }

  /**
   * The resolution loop: resolveInputs, which fetches in every round, and sendStealthTransfer's own
   * copy, which skips the fetch of an empty list.
   */
  method Resolve(core: Core, net: Net, h: Handle, skipsEmpty: bool, wants: WantJson, ghost rest: map<nat, Kind>)
    returns (last: Handle?, failure: Option<Failure>)
    requires InStep(core, net, h, h.kind, net.log, Resolving.NOTHING, rest)
    modifies core, net, h
    ensures last != null && last != h ==> fresh(last)
    ensures var run := Resolution(core.script, net.world, skipsEmpty, wants);
            failure == run.end && InStep(core, net, last, h.kind, old(net.log), run, rest)
  {
    var ids := CollectFetchIds(wants);
    if ids.Err? {
      return h, Some(ids.error);
    }
    ghost var target := Resolution(core.script, net.world, skipsEmpty, wants);
    ghost var loop := TheLoop(core.script, net.world, skipsEmpty);
    last, failure := Rounds(core, net, h, skipsEmpty, ids.value, h.kind, loop, net.log, target, rest);
  }

  // ---- Sealing and submitting ----

  /** What a driver sends, and what it returns. */
  datatype Sending = Sending(log: seq<Sent>, result: Result<string, Failure>)

  /** From the sealed hex on: nothing is sent unless it decodes; an evaluation has its own endpoint. */
  function Dispatched(script: Script, world: World, sealed: Result<string, Failure>, evaluates: bool): Sending {
    match sealed
    case Err(failure) => Sending([], Err(failure))
    case Ok(encoded) =>
      match Decode(encoded)
      case None => Sending([], Err(Encoding))
      case Some(envelope) =>
        if evaluates then
          Sending([SubmitDryRun(envelope)],
                  match world.DryRun(envelope)
                  case Ok(raw) => ParseFinalized(script.parse, raw)
                  case Err(why) => Err(Transport(why)))
        else
          var weather := world.WeatherOf(envelope);
          Sending(Wire(weather, envelope), Answer(Outcome(weather), script.parse))
  }

  /** What the caller is returned once the core has sealed: the core's typing of the result, or what failed. */
  ghost predicate SealedReturns(script: Script, world: World, sealed: Result<string, Failure>, evaluates: bool,
                                result: Result<string, Failure>) {
    && (sealed.Err? ==> result == Err(sealed.error))
    && (sealed.Ok? && Decode(sealed.value).None? ==> result == Err(Encoding))
    && (sealed.Ok? && Decode(sealed.value).Some? ==>
          var envelope := Decode(sealed.value).value;
          if evaluates then
            var reply := world.DryRun(envelope);
            && (reply.Err? ==> result == Err(Transport(reply.error)))
            && (reply.Ok? ==> TypedAs(script.parse, reply.value, result))
          else Returns(world.WeatherOf(envelope), script.parse, result))
  }

  lemma DispatchedReturns(script: Script, world: World, sealed: Result<string, Failure>, evaluates: bool)
    ensures SealedReturns(script, world, sealed, evaluates, Dispatched(script, world, sealed, evaluates).result)
  {
    if sealed.Ok? && Decode(sealed.value).Some? {
      AnswerMeans(world.WeatherOf(Decode(sealed.value).value), script.parse);
    }
  }

  method Dispatch(core: Core, net: Net, sealed: Result<string, Failure>, evaluates: bool)
    returns (result: Result<string, Failure>)
    modifies net
    ensures var s := Dispatched(core.script, net.world, sealed, evaluates);
            net.log == old(net.log) + s.log && result == s.result
    ensures SealedReturns(core.script, net.world, sealed, evaluates, result)
  {
    if sealed.Err? {
      return Err(sealed.error);
    }
    var envelope := Decode(sealed.value);
    if envelope.None? {
      return Err(Encoding);
    }
    if evaluates {
      net.log := net.log + [SubmitDryRun(envelope.value)];
      var reply := net.world.DryRun(envelope.value);
      if reply.Err? {
        return Err(Transport(reply.error));
      }
      return ParseFinalized(core.script.parse, reply.value);
    }
    var sent;
    result, sent := SubmitAndWait(net.world.WeatherOf(envelope.value), envelope.value, core.script.parse);
    net.log := net.log + sent;
  }

  /** Everything after the loop. */
  function Concluded(script: Script, world: World, run: Resolving.LoopRun, evaluates: bool): Sending {
    if run.end.Some? then Sending([], Err(run.end.value))
    else Dispatched(script, world, SealOutcome(script.Seal(run.batches, [], "")), evaluates)
  }

  method Conclude(core: Core, net: Net, resolved: Handle?, failure: Option<Failure>, kind: Kind, evaluates: bool,
                  ghost base: seq<Sent>, ghost run: Resolving.LoopRun, ghost rest: map<nat, Kind>)
    returns (result: Result<string, Failure>)
    requires InStep(core, net, resolved, kind, base, run, rest) && failure == run.end
    modifies core, net, resolved
    ensures core.Valid() && core.abi == Some(true) && Owned(core.history) == rest
    ensures var s := Concluded(core.script, net.world, run, evaluates);
            net.log == old(net.log) + s.log && result == s.result
  {
    if failure.Some? {
      FreeHandle(core, resolved, rest);
      return Err(failure.value);
    }
    var sealed := SealAndEncode(core, resolved, [], "", rest);
    result := Dispatch(core, net, sealed, evaluates);
    FreeHandle(core, null, rest);
  }

  /**
   * What every Send driver does with a built handle, its deferred free included: however it ends,
   * the host owns what it owned before the build.
   */
  method Complete(core: Core, net: Net, h: Handle, skipsEmpty: bool, wants: WantJson, evaluates: bool,
                  ghost rest: map<nat, Kind>)
    returns (result: Result<string, Failure>)
    requires InStep(core, net, h, h.kind, net.log, Resolving.NOTHING, rest)
    modifies core, net, h
    ensures core.Valid() && core.abi == Some(true) && Owned(core.history) == rest
    ensures var run := Resolution(core.script, net.world, skipsEmpty, wants);
            var s := Concluded(core.script, net.world, run, evaluates);
            net.log == old(net.log) + Fetches(run.fetches) + s.log && result == s.result
  {
    var handle, failure := Resolve(core, net, h, skipsEmpty, wants, rest);
    ghost var run := Resolution(core.script, net.world, skipsEmpty, wants);
    result := Conclude(core, net, handle, failure, h.kind, evaluates, old(net.log), run, rest);
  }

  // ---- The drivers ----

  /** A client's network: unset, not a known one, or one with a byte. */
  datatype Network = Unset | Unknown | Known(byteValue: byte)

  function ResolveNetworkByte(network: Network): Result<byte, Failure> {
    if network.Known? then Ok(network.byteValue) else Err(Validation)
  }

  datatype PublicIntent = PublicIntent(inputs: seq<string>, minEpoch: Option<uint64>, maxEpoch: uint64, dryRun: bool)

  /** Faucet().Take()'s claim, which the caller keeps a reference to. */
  class FaucetClaim {
    var minEpoch: Option<uint64>
    var maxEpoch: uint64

    constructor (minEpoch: Option<uint64>, maxEpoch: uint64)
      ensures this.minEpoch == minEpoch && this.maxEpoch == maxEpoch
    {
      this.minEpoch, this.maxEpoch := minEpoch, maxEpoch;
    }
  }

  /** On the faucet path the body gives only its dry-run flag, and the claim brings its own epochs. */
  datatype GenericIntent = GenericIntent(body: IntentBody, faucetClaim: FaucetClaim?)

  /** What a driver builds with. */
  datatype Target = Target(network: byte, window: Window)

  /** What a driver checks before the build; the window it builds with can be sequenced in. */
  function Checked(network: Network, noInputs: bool, minEpoch: Option<uint64>, maxEpoch: uint64, epochs: EpochSource)
    : (r: Result<Target, Failure>)
    ensures r.Ok? ==> network == Known(r.value.network) && noInputs
    ensures r.Ok? ==> Sequenceable(r.value.window) && r.value.window.minEpoch == DerefEpoch(minEpoch)
    ensures r.Ok? ==> SettleMaxEpoch(maxEpoch, DerefEpoch(minEpoch), epochs) == Ok(r.value.window.maxEpoch)
    ensures r.Ok? <==> network.Known? && noInputs && SettleMaxEpoch(maxEpoch, DerefEpoch(minEpoch), epochs).Ok?
    ensures !network.Known? || !noInputs ==> r == Err(Validation)
    ensures r.Err? && network.Known? && noInputs ==>
              SettleMaxEpoch(maxEpoch, DerefEpoch(minEpoch), epochs) == Err(r.error)
    ensures network.Known? && noInputs && maxEpoch != 0 && DerefEpoch(minEpoch) <= maxEpoch ==>
              r.Ok? && r.value.window.maxEpoch == maxEpoch
  {
    if !network.Known? || !noInputs then Err(Validation)
    else
      match SettleMaxEpoch(maxEpoch, DerefEpoch(minEpoch), epochs)
      case Err(failure) => Err(failure)
      case Ok(settled) => Ok(Target(network.byteValue, Window(DerefEpoch(minEpoch), settled)))
  }

  /** Whether a driver evaluates instead of submitting: when asked to, unless it is the stealth driver. */
  predicate Evaluates(entry: Entry, dryRun: bool) {
    dryRun && entry != StealthTransfer
  }

  /** A driver's run from the build on: what it sends between the two logs, and what it returns. */
  ghost predicate RunsAs(core: Core, world: World, entry: Entry, target: Target, dryRun: bool,
                         before: seq<Sent>, after: seq<Sent>, result: Result<string, Failure>)
    reads core
  {
    match BuildOutcome(core.script, core.abi == Some(true), entry, target.network, target.window)
    case Err(failure) => after == before && result == Err(failure)
    case Ok(wants) => RunsWith(core.script, world, entry, dryRun, wants, before, after, result)
  }

  predicate RunsWith(script: Script, world: World, entry: Entry, dryRun: bool, wants: WantJson,
                     before: seq<Sent>, after: seq<Sent>, result: Result<string, Failure>) {
    var run := Resolution(script, world, KindOf(entry).Stealth?, wants);
    var s := Concluded(script, world, run, Evaluates(entry, dryRun));
    after == before + Fetches(run.fetches) + s.log && result == s.result
  }

  method Drive(core: Core, net: Net, entry: Entry, network: byte, window: Window, dryRun: bool, evaluates: bool)
    returns (result: Result<string, Failure>)
    requires core.Valid() && evaluates == Evaluates(entry, dryRun)
    modifies core, net
    ensures core.Valid() && Owned(core.history) == Owned(old(core.history))
    ensures RunsAs(core, net.world, entry, Target(network, window), dryRun, old(net.log), net.log, result)
  {
    ghost var rest := Owned(core.history);
    var handle, wants := BuildHandle(core, entry, network, window);
    if wants.Err? {
      return Err(wants.error);
    }
    assert Fetches([]) == [];
    result := Complete(core, net, handle, KindOf(entry).Stealth?, wants.value, evaluates, rest);
  }

  /** What every driver promises: the checks alone decide whether the core is called at all. */
  twostate predicate Promises(core: Core, net: Net, entry: Entry, checked: Result<Target, Failure>, dryRun: bool,
                              new result: Result<string, Failure>)
    reads core, net
  {
    && core.Valid() && Owned(core.history) == Owned(old(core.history))
    && match checked
       case Err(failure) => result == Err(failure) && net.log == old(net.log) && core.history == old(core.history)
       case Ok(target) => RunsAs(core, net.world, entry, target, dryRun, old(net.log), net.log, result)
  }

  method SendPublicTransfer(core: Core, net: Net, network: Network, intent: PublicIntent)
    returns (result: Result<string, Failure>)
    requires core.Valid()
    modifies core, net
    ensures Promises(core, net, Transfer,
            Checked(network, intent.inputs == [], intent.minEpoch, intent.maxEpoch, net.world.epochs),
                     intent.dryRun, result)
  {
    var netByte := ResolveNetworkByte(network);
    if netByte.Err? {
      return Err(netByte.error);
    }
    if |intent.inputs| != 0 {
      return Err(Validation);
    }
    var settled := SettleMaxEpoch(intent.maxEpoch, DerefEpoch(intent.minEpoch), net.world.epochs);
    if settled.Err? {
      return Err(settled.error);
    }
    result := Drive(core, net, Transfer, netByte.value, Window(DerefEpoch(intent.minEpoch), settled.value),
      intent.dryRun, intent.dryRun);
  }

  /** The generic path's checks: what marshals is the intent with its settled window. */
  function CheckedGeneric(network: Network, body: IntentBody, epochs: EpochSource): (r: Result<Target, Failure>)
    ensures r.Ok? ==> Sequenceable(r.value.window) && network == Known(r.value.network)
    ensures r.Ok? <==>
              && network.Known? && body.inputs.GetOr([]) == [] && MarshalIntent(body).Some?
              && SettleMaxEpoch(body.maxEpoch, DerefEpoch(body.minEpoch), epochs).Ok?
    ensures var checked := Checked(network, body.inputs.GetOr([]) == [], body.minEpoch, body.maxEpoch, epochs);
            r == if checked.Err? || MarshalIntent(body).Some? then checked else Err(Encoding)
  {
    match Checked(network, body.inputs.GetOr([]) == [], body.minEpoch, body.maxEpoch, epochs)
    case Err(failure) => Err(failure)
    case Ok(target) =>
      if MarshalIntent(body.(maxEpoch := target.window.maxEpoch)).Some? then Ok(target) else Err(Encoding)
  }

  /** A faucet claim is settled on a copy: the caller's is not among what may change. */
  method SendInstructions(core: Core, net: Net, network: Network, intent: GenericIntent)
    returns (result: Result<string, Failure>)
    requires core.Valid()
    modifies core, net
    ensures intent.faucetClaim == null ==>
              Promises(core, net, Instructions, CheckedGeneric(network, intent.body, net.world.epochs),
                intent.body.dryRun, result)
    ensures intent.faucetClaim != null ==>
              Promises(core, net, Entry.FaucetClaim,
                       Checked(network, intent.body.inputs.GetOr([]) == [], intent.faucetClaim.minEpoch,
                               intent.faucetClaim.maxEpoch, net.world.epochs),
                       intent.body.dryRun, result)
  {
    var netByte := ResolveNetworkByte(network);
    if netByte.Err? {
      return Err(netByte.error);
    }
    if |intent.body.inputs.GetOr([])| != 0 {
      return Err(Validation);
    }
    if intent.faucetClaim != null {
      var claim := new FaucetClaim(intent.faucetClaim.minEpoch, intent.faucetClaim.maxEpoch);
      var settled := SettleMaxEpoch(claim.maxEpoch, DerefEpoch(claim.minEpoch), net.world.epochs);
      if settled.Err? {
        return Err(settled.error);
      }
      claim.maxEpoch := settled.value;
      result := Drive(core, net, Entry.FaucetClaim, netByte.value, Window(DerefEpoch(claim.minEpoch), claim.maxEpoch),
        intent.body.dryRun, intent.body.dryRun);
    } else {
      var settled := SettleMaxEpoch(intent.body.maxEpoch, DerefEpoch(intent.body.minEpoch), net.world.epochs);
      if settled.Err? {
        return Err(settled.error);
      }
      var json := MarshalIntent(intent.body.(maxEpoch := settled.value));
      if json.None? {
        return Err(Encoding);
      }
      result := Drive(core, net, Instructions, netByte.value, Window(DerefEpoch(intent.body.minEpoch), settled.value),
        intent.body.dryRun, intent.body.dryRun);
    }
  }

  /** The stealth driver's checks: any inputs are allowed, but each needs a UTXO id. */
  function CheckedStealth(network: Network, intent: TransferIntent, epochs: EpochSource): (r: Result<Target, Failure>)
    ensures r.Ok? ==> Sequenceable(r.value.window) && network == Known(r.value.network)
    ensures r.Ok? <==>
              && network.Known? && Marshals(intent) && HasUtxoIds(intent)
              && SettleMaxEpoch(intent.maxEpoch, DerefEpoch(intent.minEpoch), epochs).Ok?
    ensures r.Ok? ==> forall o :: o in intent.outputs && o.memo.Some? ==>
                                    (o.memo.value.message.Some? <==> o.memo.value.bytes.None?)
    ensures var checked := Checked(network, true, intent.minEpoch, intent.maxEpoch, epochs);
            r == if checked.Err? then checked
                 else if exists o :: o in intent.outputs && o.memo.Some?
                                     && (o.memo.value.message.Some? <==> o.memo.value.bytes.Some?) then Err(Encoding)
                 else if exists i :: i in intent.inputs && i.utxoId == "" then Err(Validation)
                 else checked
  {
    match Checked(network, true, intent.minEpoch, intent.maxEpoch, epochs)
    case Err(failure) => Err(failure)
    case Ok(target) => if !Marshals(intent) then Err(Encoding) else if HasUtxoIds(intent) then Ok(target)
      else Err(Validation)
  }

  /** The intent's dryRun goes no further: a stealth dry run is submitted like any other. */
  method SendStealthTransfer(core: Core, net: Net, network: Network, intent: TransferIntent)
    returns (result: Result<string, Failure>)
    requires core.Valid()
    modifies core, net
    ensures Promises(core, net, StealthTransfer, CheckedStealth(network, intent, net.world.epochs), intent.dryRun,
            result)
  {
    var netByte := ResolveNetworkByte(network);
    if netByte.Err? {
      return Err(netByte.error);
    }
    var settled := SettleMaxEpoch(intent.maxEpoch, DerefEpoch(intent.minEpoch), net.world.epochs);
    if settled.Err? {
      return Err(settled.error);
    }
    if !Marshals(intent) {
      return Err(Encoding);
    }
    var ids := UtxoSubstateIds(intent);
    if ids.Err? {
      return Err(ids.error);
    }
    result := Drive(core, net, StealthTransfer, netByte.value, Window(DerefEpoch(intent.minEpoch), settled.value),
      intent.dryRun, false);
  }

  // ---- At most one submission, and only of what was sealed ----

  /** The submissions in a log, dry runs included. */
  function Submissions(log: seq<Sent>): seq<Sent> {
    if log == [] then []
    else
      var init, last := Submissions(log[..|log| - 1]), log[|log| - 1];
      if last.Submit? || last.SubmitDryRun? then init + [last] else init
  }

  lemma {:induction false} SubmissionsOfConcat(a: seq<Sent>, b: seq<Sent>)
    ensures Submissions(a + b) == Submissions(a) + Submissions(b)
  {
    if b == [] {
      assert a + b == a;
    } else {
      assert (a + b)[..|a + b| - 1] == a + b[..|b| - 1];
      SubmissionsOfConcat(a, b[..|b| - 1]);
    }
  }

  lemma {:induction false} FetchesSubmitNothing(fetches: seq<seq<string>>)
    ensures Submissions(Fetches(fetches)) == []
  {
    if fetches != [] {
      assert fetches == fetches[..|fetches| - 1] + [fetches[|fetches| - 1]];
      FetchesMore(fetches[..|fetches| - 1], fetches[|fetches| - 1]);
      FetchesSubmitNothing(fetches[..|fetches| - 1]);
    }
  }

  lemma {:induction false} GetsSubmitNothing(txId: string, n: nat)
    ensures Submissions(Gets(txId, n)) == []
  {
    if n > 0 {
      GetsSubmitNothing(txId, n - 1);
    }
  }

  lemma SubmissionsMore(log: seq<Sent>, last: Sent)
    ensures Submissions(log + [last]) == if last.Submit? || last.SubmitDryRun? then Submissions(log) + [last]
            else Submissions(log)
  {
    assert (log + [last])[..|log|] == log;
  }

  lemma AskedSubmitsOnce(streams: bool, envelope: seq<byte>)
    ensures Submissions(Asked(streams, envelope)) == [Submit(envelope)]
  {
    if streams {
      assert Asked(streams, envelope) == [] + [Subscribe] + [Submit(envelope)] + [CancelStream];
      SubmissionsMore([], Subscribe);
      SubmissionsMore([] + [Subscribe], Submit(envelope));
      SubmissionsMore([] + [Subscribe] + [Submit(envelope)], CancelStream);
    } else {
      assert Asked(streams, envelope) == [] + [Submit(envelope)];
      SubmissionsMore([], Submit(envelope));
    }
  }

  lemma WireSubmitsOnce(weather: Weather, envelope: seq<byte>)
    ensures Submissions(Wire(weather, envelope)) == [Submit(envelope)]
  {
    var asked := Asked(weather.streams, envelope);
    AskedSubmitsOnce(weather.streams, envelope);
    if weather.submit.Ok? {
      var gets := Gets(weather.submit.value, Made(weather.polls));
      GetsSubmitNothing(weather.submit.value, Made(weather.polls));
      SubmissionsOfConcat(asked, gets);
    } else {
      assert asked + [] == asked;
    }
  }

  /** The envelope a run would submit: what the seal of everything applied decodes to. */
  function Envelope(script: Script, run: Resolving.LoopRun): Option<seq<byte>> {
    if run.end.Some? then None
    else
      match script.Seal(run.batches, [], "")
      case Sealed(Some(encoded)) => Decode(encoded)
      case _ => None
  }

  /** A driver submits once if the loop resolved and the seal decodes, else not at all; a dry run only evaluates. */
  lemma SubmitsOnce(script: Script, world: World, run: Resolving.LoopRun, evaluates: bool)
    ensures Submissions(Fetches(run.fetches) + Concluded(script, world, run, evaluates).log)
            == match Envelope(script, run)
               case None => []
               case Some(envelope) => [if evaluates then SubmitDryRun(envelope) else Submit(envelope)]
  {
    var log := Concluded(script, world, run, evaluates).log;
    SubmissionsOfConcat(Fetches(run.fetches), log);
    FetchesSubmitNothing(run.fetches);
    if Envelope(script, run).Some? {
      var envelope := Envelope(script, run).value;
      if evaluates {
        assert log == [SubmitDryRun(envelope)] && log[..0] == [];
      } else {
        WireSubmitsOnce(world.WeatherOf(envelope), envelope);
      }
    } else {
      assert log == [];
    }
  }

  // ---- What a driver does, from what the core and the transport answer ----

  /** The ids a want list names, in first-seen order. */
  function Named(wants: WantJson): seq<string> {
    if wants.Wants? then FirstSeen(AllSeeds(wants.wants)) else []
  }

  /** The rounds start with the ids the build's want list names. */
  ghost predicate ResolvesAs(script: Script, world: World, skipsEmpty: bool, wants: WantJson,
                             run: Resolving.LoopRun) {
    if wants.Undecodable? then run == Resolving.LoopRun([], [], Some(Encoding))
    else
      && (!skipsEmpty || Named(wants) != [] ==> run.fetches != [] && run.fetches[0] == Named(wants))
      && exists asked: seq<seq<string>> ::
           asked != [] && asked[0] == Named(wants)
           && Resolving.RunMeans(script.apply, world.fetch, skipsEmpty, asked, run)
  }

  lemma ResolutionMeans(script: Script, world: World, skipsEmpty: bool, wants: WantJson)
    ensures ResolvesAs(script, world, skipsEmpty, wants, Resolution(script, world, skipsEmpty, wants))
  {
    if !wants.Undecodable? {
      var asked := Resolving.LoopMeans(script.apply, world.fetch, skipsEmpty, Named(wants));
      if Named(wants) != [] {
        Resolving.FirstFetch(asked);
      }
    }
  }

  /** What the caller is returned after the rounds. */
  ghost predicate Concludes(script: Script, world: World, run: Resolving.LoopRun, evaluates: bool,
                            result: Result<string, Failure>) {
    var reply := script.Seal(run.batches, [], "");
    && (run.end.Some? ==> result == Err(run.end.value))
    && (run.end.None? && reply.SealRefused? ==> result == Err(Failure.Core(reply.code)))
    && (run.end.None? && reply == Sealed(None) ==> result == Err(Encoding))
    && (run.end.None? && reply.Sealed? && reply.encoded.Some? ==>
          SealedReturns(script, world, Ok(reply.encoded.value), evaluates, result))
  }

  lemma ConcludedMeans(script: Script, world: World, run: Resolving.LoopRun, evaluates: bool)
    ensures Concludes(script, world, run, evaluates, Concluded(script, world, run, evaluates).result)
  {
    DispatchedReturns(script, world, SealOutcome(script.Seal(run.batches, [], "")), evaluates);
  }

  /** What a driver has sent after a build that named wants, and what it returns. */
  ghost predicate ActsThrough(script: Script, world: World, entry: Entry, dryRun: bool, wants: WantJson,
                              run: Resolving.LoopRun, sent: seq<Sent>, result: Result<string, Failure>) {
    && ResolvesAs(script, world, entry == StealthTransfer, wants, run)
    && Concludes(script, world, run, dryRun && entry != StealthTransfer, result)
    && sent == Fetches(run.fetches) + match Envelope(script, run)
                                      case None => []
                                      case Some(e) =>
                                        if dryRun && entry != StealthTransfer then [SubmitDryRun(e)]
                                        else Wire(world.WeatherOf(e), e)
  }

  ghost predicate ActsOn(script: Script, world: World, entry: Entry, dryRun: bool, wants: WantJson, sent: seq<Sent>,
                         result: Result<string, Failure>) {
    exists run :: ActsThrough(script, world, entry, dryRun, wants, run, sent, result)
  }

  /** The same from the build on. */
  ghost predicate Acts(script: Script, world: World, entry: Entry, target: Target, dryRun: bool, sent: seq<Sent>,
                       result: Result<string, Failure>) {
    var reply := script.Build(entry, target.network, target.window);
    && (reply.BuildRefused? ==> sent == [] && result == Err(Failure.Core(reply.code)))
    && (reply.BuiltNoHandle? ==> sent == [] && result == Err(Internal))
    && (reply.Built? ==> ActsOn(script, world, entry, dryRun, reply.wants, sent, result))
  }

  lemma ActsWith(script: Script, world: World, entry: Entry, dryRun: bool, wants: WantJson)
    ensures var stealth, evaluates := entry == StealthTransfer, dryRun && entry != StealthTransfer;
            var run := Resolution(script, world, stealth, wants);
            var s := Concluded(script, world, run, evaluates);
            ActsOn(script, world, entry, dryRun, wants, Fetches(run.fetches) + s.log, s.result)
  {
    var stealth, evaluates := entry == StealthTransfer, dryRun && entry != StealthTransfer;
    var run := Resolution(script, world, stealth, wants);
    ResolutionMeans(script, world, stealth, wants);
    ConcludedMeans(script, world, run, evaluates);
    var s := Concluded(script, world, run, evaluates);
    assert ActsThrough(script, world, entry, dryRun, wants, run, Fetches(run.fetches) + s.log, s.result);
  }

  lemma After(before: seq<Sent>, a: seq<Sent>, b: seq<Sent>)
    ensures before <= before + a + b && (before + a + b)[|before|..] == a + b
  {
  }

  lemma BuiltActs(script: Script, world: World, entry: Entry, dryRun: bool, wants: WantJson,
                  before: seq<Sent>, after: seq<Sent>, result: Result<string, Failure>)
    requires RunsWith(script, world, entry, dryRun, wants, before, after, result)
    ensures before <= after && ActsOn(script, world, entry, dryRun, wants, after[|before|..], result)
  {
    ActsWith(script, world, entry, dryRun, wants);
    var run := Resolution(script, world, KindOf(entry).Stealth?, wants);
    After(before, Fetches(run.fetches), Concluded(script, world, run, Evaluates(entry, dryRun)).log);
  }

  /** Each driver's run: the first fetch is of the ids the build names, and the result is the core's typing. */
  lemma DriverActs(core: Core, world: World, entry: Entry, target: Target, dryRun: bool, before: seq<Sent>,
                   after: seq<Sent>, result: Result<string, Failure>)
    requires core.abi == Some(true) && RunsAs(core, world, entry, target, dryRun, before, after, result)
    ensures before <= after && Acts(core.script, world, entry, target, dryRun, after[|before|..], result)
  {
    var reply := core.script.Build(entry, target.network, target.window);
    if reply.Built? {
      BuiltActs(core.script, world, entry, dryRun, reply.wants, before, after, result);
    }
  }

  // ---- Dry runs ----

  lemma {:induction false} SubmissionsHoldThem(log: seq<Sent>, envelope: seq<byte>)
    ensures Submit(envelope) in Submissions(log) <==> Submit(envelope) in log
  {
    if log != [] {
      SubmissionsHoldThem(log[..|log| - 1], envelope);
      assert log == log[..|log| - 1] + [log[|log| - 1]];
    }
  }

  /** What a driver asked for a dry run sends. */
  function DryRunLog(script: Script, world: World, entry: Entry, run: Resolving.LoopRun): seq<Sent> {
    Fetches(run.fetches) + Concluded(script, world, run, Evaluates(entry, true)).log
  }

  /** It submits for real exactly when it is the stealth driver and there is something to submit. */
  lemma DryRunIsSubmittedIff(script: Script, world: World, entry: Entry, run: Resolving.LoopRun)
    ensures (exists envelope :: Submit(envelope) in DryRunLog(script, world, entry, run)) <==>
              entry.StealthTransfer? && Envelope(script, run).Some?
  {
    var log, envelope := DryRunLog(script, world, entry, run), Envelope(script, run);
    SubmitsOnce(script, world, run, Evaluates(entry, true));
    forall e ensures Submit(e) in log <==> Submit(e) in Submissions(log) {
      SubmissionsHoldThem(log, e);
    }
    if entry.StealthTransfer? && envelope.Some? {
      assert Submit(envelope.value) in Submissions(log);
    }
  }

  /** A core that resolves at once and seals a single byte, over a network that takes it. */
  function AgreeableCore(): Script {
    Script((_, _, _) => Built(Absent),
           _ => Resolving.Answer(ResolutionJson.Envelope("resolved", Absent, [])),
           (_, _) => Ok(""),
           (_, _, _) => Sealed(Some("00")),
           _ => Typed(Some("")),
           _ => true)
  }

  function AgreeableWorld(): World {
    World(NoEpochs, (_, _) => Ok([]), _ => Ok(""), _ => Weather(false, Ok("tx"), [], [Raw("Commit")]))
  }

  const DRY_TRANSFER := TransferIntent("component_1", "resource_1", 1, [], [], 0, 0, None, 5, true, false)

  /** A stealth intent that asks for a dry run, passes the driver's checks, and is submitted. */
  lemma StealthDryRunIsSubmitted()
    ensures DRY_TRANSFER.dryRun && CheckedStealth(Known(16), DRY_TRANSFER, NoEpochs).Ok?
    ensures var script, world := AgreeableCore(), AgreeableWorld();
            exists envelope :: Submit(envelope) in DryRunLog(script, world, StealthTransfer,
              Resolution(script, world, true, Absent))
  {
    var script, world := AgreeableCore(), AgreeableWorld();
    var run := Resolution(script, world, true, Absent);
    var nothing: Resolving.Batch := [];
    assert [] + [nothing] == [nothing];
    assert Resolving.Step(script.apply, [nothing]) == Ok(None);
    assert run == Resolving.LoopRun([], [nothing], None);
    assert Decode("00") == Some([0]) by {
      assert Digit(0) == '0';
      assert [0][1..] == [];
      assert Encode([0]) == "00";
      DecodeEncode([0]);
    }
    DryRunIsSubmittedIff(script, world, StealthTransfer, run);
  }

  /**
   * Given the same answers, the public and the stealth driver's resolutions apply the same batches,
   * make the same non-empty fetches, and conclude alike.
   */
  lemma DriversResolveAlike(script: Script, world: World, wants: WantJson, evaluates: bool)
    requires Resolving.EmptyFetchIsEmpty(world.fetch)
    ensures Resolving.SameRun(Resolution(script, world, false, wants), Resolution(script, world, true, wants))
    ensures Concluded(script, world, Resolution(script, world, false, wants), evaluates)
            == Concluded(script, world, Resolution(script, world, true, wants), evaluates)
  {
    match FetchIds(wants)
    case Err(_) =>
    case Ok(ids) => Resolving.LoopsAgree(script.apply, world.fetch, ids);
  }
}
