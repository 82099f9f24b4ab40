/** ootle/cosign.go: PrepareCosign, and the sealer that owns the resolved handle until it is sealed or closed. */
module Cosigning {
  import opened Prelude
  import opened Fetching
  import opened Epochs
  import opened Drivers
  import Cffi

  // ---- The sealer as a state machine ----

  datatype Op =
    | SetMainSigner(publicKey: string)
    | UnsignedRecord
    | SealWithAuth(auths: seq<string>)
    | Close

  /** The calls made on a sealer, the latest outermost. */
  datatype Ops = Fresh | Then(earlier: Ops, op: Op)

  datatype SealerState = SealerState(token: Option<nat>, mainSigner: string, history: Cffi.History)

  /** Once the token is gone only the main signer can change. */
  function Step(s: SealerState, op: Op): SealerState {
    if op.SetMainSigner? then s.(mainSigner := op.publicKey)
    else if s.token.None? then s
    else
      var t := s.token.value;
      match op
      case UnsignedRecord => s.(history := Cffi.Then(s.history, Cffi.Record(t, s.mainSigner)))
      case SealWithAuth(auths) =>
        s.(token := None, history := Cffi.Then(s.history, Cffi.Seal(Cffi.Public, t, auths, s.mainSigner)))
      case _ => s.(token := None, history := Cffi.Then(s.history, Cffi.Free(Cffi.Public, t)))
  }

  function After(s: SealerState, ops: Ops): SealerState {
    if ops.Fresh? then s else Step(After(s, ops.earlier), ops.op)
  }

  predicate Ends(op: Op) {
    op.SealWithAuth? || op.Close?
  }

  predicate Ended(ops: Ops) {
    ops.Then? && (Ends(ops.op) || Ended(ops.earlier))
  }

  function LastSet(ops: Ops, initial: string): string {
    if ops.Fresh? then initial
    else if ops.op.SetMainSigner? then ops.op.publicKey
    else LastSet(ops.earlier, initial)
  }

  /** The sealer's token is held until the first seal or close; the signer is the last one set. */
  lemma {:induction false} HeldUntilEnded(s: SealerState, ops: Ops)
    requires s.token.Some?
    ensures After(s, ops).token == if Ended(ops) then None else s.token
    ensures After(s, ops).mainSigner == LastSet(ops, s.mainSigner)
  {
    if ops.Then? {
      HeldUntilEnded(s, ops.earlier);
    }
  }

  /** What any calls do to the ledger: the clauses are kept, and the token is released once, at the first end. */
  lemma {:induction false} ReleasedOnce(s: SealerState, ops: Ops)
    requires s.token.Some? && Cffi.Legal(s.history)
    requires s.token.value in Cffi.Owned(s.history) && Cffi.Owned(s.history)[s.token.value] == Cffi.Public
    ensures Cffi.Legal(After(s, ops).history)
    ensures Cffi.Owned(After(s, ops).history) == if Ended(ops) then Cffi.Owned(s.history) - {s.token.value}
            else Cffi.Owned(s.history)
  {
    if ops.Then? {
      ReleasedOnce(s, ops.earlier);
      HeldUntilEnded(s, ops.earlier);
    }
  }

  predicate IsPrefix(a: Ops, b: Ops) {
    a == b || (b.Then? && IsPrefix(a, b.earlier))
  }

  /** No call reaches the core after the end. */
  lemma {:induction false} NothingAfterTheEnd(s: SealerState, ended: Ops, ops: Ops)
    requires s.token.Some? && Ended(ended) && IsPrefix(ended, ops)
    ensures Ended(ops) && After(s, ops).history == After(s, ended).history
  {
    if ended != ops {
      NothingAfterTheEnd(s, ended, ops.earlier);
    }
    HeldUntilEnded(s, ops.earlier);
  }

  predicate SetBetween(a: Ops, b: Ops)
    requires IsPrefix(a, b)
  {
    a != b && (b.op.SetMainSigner? || SetBetween(a, b.earlier))
  }

  lemma {:induction false} SignerKept(a: Ops, b: Ops, initial: string)
    requires IsPrefix(a, b) && !SetBetween(a, b)
    ensures LastSet(b, initial) == LastSet(a, initial)
  {
    if a != b {
      SignerKept(a, b.earlier, initial);
    }
  }

  /** A record and a later seal with no SetMainSigner between them carry the same token and main signer. */
  lemma {:induction false} SameSigner(s: SealerState, before: Ops, ops: Ops, auths: seq<string>)
    requires s.token.Some? && !Ended(ops)
    requires IsPrefix(Then(before, UnsignedRecord), ops) && !SetBetween(Then(before, UnsignedRecord), ops)
    ensures var recorded := After(s, Then(before, UnsignedRecord)).history;
            var signed := After(s, Then(ops, SealWithAuth(auths))).history;
            var signer := LastSet(before, s.mainSigner);
            && recorded == Cffi.Then(After(s, before).history, Cffi.Record(s.token.value, signer))
            && signed == Cffi.Then(After(s, ops).history, Cffi.Seal(Cffi.Public, s.token.value, auths, signer))
  {
    var record := Then(before, UnsignedRecord);
    SignerKept(record, ops, s.mainSigner);
    NotEndedBefore(record, ops);
    HeldUntilEnded(s, before);
    HeldUntilEnded(s, ops);
  }

  lemma {:induction false} NotEndedBefore(a: Ops, b: Ops)
    requires IsPrefix(a, b) && !Ended(b)
    ensures !Ended(a)
  {
    if a != b {
      NotEndedBefore(a, b.earlier);
    }
  }

  // ---- The sealer itself ----

  class CosignSealer {
    const core: Cffi.Core
    var handle: Cffi.Handle?
    var mainSigner: string

    ghost predicate Valid()
      reads this, core, handle
    {
      && core.Valid() && core.abi == Some(true)
      && (handle != null ==> handle.kind == Cffi.Public && handle.ptr.Some? && core.Owns(handle.ptr.value, Cffi.Public))
    }

    ghost function State(): SealerState
      reads this, core, handle
      requires Valid()
    {
      SealerState(if handle == null then None else handle.ptr, mainSigner, core.history)
    }

    constructor (core: Cffi.Core, handle: Cffi.Handle)
      requires core.Valid() && core.abi == Some(true) && handle.kind == Cffi.Public
      requires handle.ptr.Some? && core.Owns(handle.ptr.value, Cffi.Public)
      ensures this.core == core && Valid() && this.handle == handle
      ensures State() == SealerState(handle.ptr, "", core.history)
    {
      this.core, this.handle, mainSigner := core, handle, "";
    }

    method SetMainSigner(publicKey: string)
      requires Valid()
      modifies this`mainSigner
      ensures Valid() && State() == Step(old(State()), Op.SetMainSigner(publicKey))
    {
      mainSigner := publicKey;
    }

    method UnsignedRecord() returns (result: Result<string, Failure>)
      requires Valid()
      modifies core
      ensures Valid() && State() == Step(old(State()), Op.UnsignedRecord) && core.given == old(core.given)
      ensures handle == null ==> result == Err(Internal)
      ensures handle != null ==>
                result == match core.script.Record(core.given[handle.ptr.value], mainSigner)
                          case Ok(json) => Ok(json)
                          case Err(code) => Err(Failure.Core(code))
    {
      if handle == null {
        return Err(Internal);
      }
      result := Cffi.UnsignedRecord(core, handle, mainSigner);
    }

    method SealWithAuth(auths: seq<string>) returns (result: Result<string, Failure>)
      requires Valid()
      modifies this`handle, core, handle
      ensures Valid() && State() == Step(old(State()), Op.SealWithAuth(auths))
      ensures old(handle) == null ==> result == Err(Internal)
      ensures old(handle) != null ==>
                result == Cffi.SealOutcome(core.script.Seal(old(core.given[handle.ptr.value]), auths, mainSigner))
    {
      if handle == null {
        return Err(Internal);
      }
      var h := handle;
      handle := null;
      ghost var rest := Cffi.Owned(core.history) - {h.ptr.value};
      assert rest[h.ptr.value := Cffi.Public] == Cffi.Owned(core.history);
      result := Cffi.SealAndEncode(core, h, auths, mainSigner, rest);
    }

    method Close()
      requires Valid()
      modifies this`handle, core, handle
      ensures Valid() && State() == Step(old(State()), Op.Close)
    {
      if handle == null {
        return;
      }
      ghost var rest := Cffi.Owned(core.history) - {handle.ptr.value};
      assert rest[handle.ptr.value := Cffi.Public] == Cffi.Owned(core.history);
      Cffi.FreeHandle(core, handle, rest);
      handle := null;
    }
  }

  /**
   * On success the host owns one more token, the sealer's, and nothing else has changed hands; on
   * failure it owns what it did. Nothing is submitted either way.
   */
  method PrepareCosign(core: Cffi.Core, net: Net, network: Network, intent: PublicIntent)
    returns (sealer: CosignSealer?, failure: Option<Failure>)
    requires core.Valid()
    modifies core, net
    ensures core.Valid() && (sealer == null <==> failure.Some?)
    ensures sealer != null ==>
              && fresh(sealer) && sealer.Valid() && sealer.core == core && sealer.mainSigner == ""
                && sealer.handle != null
              && sealer.handle.ptr.value !in Cffi.Owned(old(core.history))
              && Cffi.Owned(core.history) == Cffi.Owned(old(core.history))[sealer.handle.ptr.value := Cffi.Public]
    ensures failure.Some? ==> Cffi.Owned(core.history) == Cffi.Owned(old(core.history))
    ensures match Checked(network, intent.inputs == [], intent.minEpoch, intent.maxEpoch, net.world.epochs)
            case Err(why) => failure == Some(why) && net.log == old(net.log) && core.history == old(core.history)
            case Ok(target) =>
              match Cffi.BuildOutcome(core.script, core.abi == Some(true), Cffi.Transfer, target.network, target.window)
              case Err(why) => failure == Some(why) && net.log == old(net.log)
              case Ok(wants) =>
                var run := Drivers.Resolution(core.script, net.world, false, wants);
                && failure == run.end && net.log == old(net.log) + Fetches(run.fetches)
                && (sealer != null ==>
                      sealer.handle.ptr.value in core.given && core.given[sealer.handle.ptr.value] == run.batches)
  {
    sealer := null;
    var netByte := ResolveNetworkByte(network);
    if netByte.Err? {
      return null, Some(netByte.error);
    }
    if |intent.inputs| != 0 {
      return null, Some(Validation);
    }
    var settled := SettleMaxEpoch(intent.maxEpoch, DerefEpoch(intent.minEpoch), net.world.epochs);
    if settled.Err? {
      return null, Some(settled.error);
    }
    ghost var rest := Cffi.Owned(core.history);
    var window := Window(DerefEpoch(intent.minEpoch), settled.value);
    var built, wants := Cffi.BuildHandle(core, Cffi.Transfer, netByte.value, window);
    if wants.Err? {
      return null, Some(wants.error);
    }
    assert Fetches([]) == [];
    var handle;
    handle, failure := Resolve(core, net, built, false, wants.value, rest);
    if failure.Some? {
      Cffi.FreeHandle(core, handle, rest);
      return null, failure;
    }
    sealer := new CosignSealer(core, handle);
  }
}
