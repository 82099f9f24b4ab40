/**
 * internal/cffi/cffi.go: ownership of the core's opaque handles.
 *
 * The C side hands out a new ownership token with every handle it returns, even when the pointer is
 * the one it was given. The header's safety clauses are the preconditions of its functions here.
 */
module Cffi {
  import opened Prelude
  import opened Fetching
  import opened Epochs
  import Finalizing
  import Resolving

  /** Public and stealth handles are different types with their own apply, seal and free. */
  datatype Kind = Public | Stealth

  datatype Entry = Transfer | Instructions | FaucetClaim | StealthTransfer

  function KindOf(entry: Entry): Kind {
    if entry.StealthTransfer? then Stealth else Public
  }

  /** One call across the C boundary, with the token it was given and the one it returned. */
  datatype Call =
    | Build(entry: Entry, network: byte, window: Window, granted: Option<nat>)
    | Apply(kind: Kind, token: nat, batch: Resolving.Batch, granted: Option<nat>)
    | Seal(kind: Kind, token: nat, auths: seq<string>, mainSigner: string)
    | Record(token: nat, mainSigner: string)
    | Free(kind: Kind, token: nat)
  {
    function Used(): Option<nat> {
      if Build? then None else Some(token)
    }

    function Grants(): Option<nat> {
      if Build? || Apply? then granted else None
    }

    function HandleKind(): Kind {
      match this
      case Build(entry, _, _, _) => KindOf(entry)
      case Record(_, _) => Public
      case _ => kind
    }

    /** Consuming and freeing calls end their token; a record only borrows it. */
    predicate Ends(t: nat) {
      (Apply? || Seal? || Free?) && token == t
    }
  }

  /** The calls made so far, the latest outermost. */
  datatype History = Idle | Then(earlier: History, call: Call)

  // ---- The ledger ----

  /** What a call leaves the host owning, and as which kind of handle. */
  function OwnedAfter(before: map<nat, Kind>, call: Call): map<nat, Kind> {
    var kept := if call.Used().Some? && call.Ends(call.token) then before - {call.token} else before;
    if call.Grants().Some? then kept[call.Grants().value := call.HandleKind()] else kept
  }

  function Owned(h: History): map<nat, Kind> {
    if h.Idle? then map[] else OwnedAfter(Owned(h.earlier), h.call)
  }

  function Granted(h: History): set<nat> {
    if h.Idle? then {}
    else Granted(h.earlier) + if h.call.Grants().Some? then {h.call.Grants().value} else {}
  }

  /** The header's safety clauses: every call uses a token the host owns, of the right kind. */
  predicate Legal(h: History) {
    h.Then? ==>
      && Legal(h.earlier)
      && (h.call.Used().Some? ==>
            h.call.token in Owned(h.earlier) && Owned(h.earlier)[h.call.token] == h.call.HandleKind())
      && (h.call.Grants().Some? ==> h.call.Grants().value !in Granted(h.earlier))
  }

  // ---- The same discipline, said of each token's whole life ----

  /** What happens to one token. */
  datatype Event = Got(kind: Kind) | Borrowed(kind: Kind) | Ended(kind: Kind)

  function EventsOf(call: Call, t: nat): seq<Event> {
    (if call.Used() != Some(t) then []
     else if call.Ends(t) then [Ended(call.HandleKind())]
     else [Borrowed(call.HandleKind())])
    + (if call.Grants() == Some(t) then [Got(call.HandleKind())] else [])
  }

  function LifeOf(h: History, t: nat): seq<Event> {
    if h.Idle? then [] else LifeOf(h.earlier, t) + EventsOf(h.call, t)
  }

  /** A linear life: got once, first; then only borrowed, as the same kind; ended at most once, last. */
  ghost predicate Linear(life: seq<Event>) {
    life != [] ==>
      && life[0].Got?
      && (forall i :: 0 < i < |life| ==> !life[i].Got? && life[i].kind == life[0].kind)
      && (forall i :: 0 <= i < |life| - 1 ==> !life[i].Ended?)
  }

  /** Got and not ended: a leak, unless someone still owns it. */
  predicate Outstanding(life: seq<Event>) {
    life != [] && !life[|life| - 1].Ended?
  }

  /** What a token's life says of the ledger. */
  ghost predicate Accounted(h: History, t: nat) {
    var life := LifeOf(h, t);
    && (t in Granted(h) <==> life != [])
    && (t in Owned(h) <==> Outstanding(life))
    && (t in Owned(h) ==> Owned(h)[t] == life[0].kind)
  }

  /** A linear life goes on with a borrow or an end while it lasts, and starts by being got. */
  lemma LifeGoesOn(life: seq<Event>, e: Event)
    requires Linear(life)
    requires if e.Got? then life == [] else Outstanding(life) && life[0].kind == e.kind
    ensures Linear(life + [e])
  {
  }

  lemma LegalEvents(h: History, t: nat)
    requires h.Then? && Legal(h) && Linear(LifeOf(h.earlier, t)) && Accounted(h.earlier, t)
    ensures Linear(LifeOf(h, t))
  {
    var life, events := LifeOf(h.earlier, t), EventsOf(h.call, t);
    if |events| == 1 {
      assert events == [events[0]];
      LifeGoesOn(life, events[0]);
    } else {
      assert life + [] == life;
    }
  }

  lemma LegalAccount(h: History, t: nat)
    requires h.Then? && Legal(h) && Accounted(h.earlier, t)
    ensures Accounted(h, t)
  {
    assert Owned(h) == OwnedAfter(Owned(h.earlier), h.call);
    if EventsOf(h.call, t) == [] {
      assert LifeOf(h, t) == LifeOf(h.earlier, t);
    }
  }

  lemma {:induction false} LegalLife(h: History, t: nat)
    requires Legal(h)
    ensures Linear(LifeOf(h, t)) && Accounted(h, t)
  {
    if h.Then? {
      LegalLife(h.earlier, t);
      LegalEvents(h, t);
      LegalAccount(h, t);
    }
  }

  lemma LinearPrefix(a: seq<Event>, b: seq<Event>)
    requires Linear(a + b)
    ensures Linear(a)
  {
    if a != [] {
      assert forall i :: 0 <= i < |a| ==> (a + b)[i] == a[i];
    }
  }

  ghost predicate EveryLifeLinear(h: History) {
    forall t: nat :: Linear(LifeOf(h, t))
  }

  /** What can come next in a linear life. */
  lemma LinearNext(life: seq<Event>, more: seq<Event>, k: nat)
    requires Linear(life + more) && k < |more|
    ensures more[k].Got? ==> life == [] && k == 0
    ensures k == 0 && !more[k].Got? ==> Outstanding(life) && life[0].kind == more[k].kind
  {
    var all := life + more;
    assert all[|life| + k] == more[k];
    if life != [] {
      assert all[0] == life[0] && all[|life| - 1] == life[|life| - 1];
    }
  }

  lemma {:induction false} LinearLivesAreLegal(h: History)
    requires EveryLifeLinear(h)
    ensures Legal(h)
  {
    if h.Then? {
      forall t: nat ensures Linear(LifeOf(h.earlier, t)) {
        assert Linear(LifeOf(h, t));
        LinearPrefix(LifeOf(h.earlier, t), EventsOf(h.call, t));
      }
      LinearLivesAreLegal(h.earlier);
      if h.call.Used().Some? {
        var t := h.call.token;
        assert Linear(LifeOf(h, t));
        LinearNext(LifeOf(h.earlier, t), EventsOf(h.call, t), 0);
        LegalLife(h.earlier, t);
      }
      if h.call.Grants().Some? {
        var t := h.call.Grants().value;
        assert Linear(LifeOf(h, t));
        LinearNext(LifeOf(h.earlier, t), EventsOf(h.call, t), |EventsOf(h.call, t)| - 1);
        LegalLife(h.earlier, t);
      }
    }
  }

  /**
   * Keeping the header's clause at every call is the same as giving every token a linear life.
   */
  lemma LegalIffLinear(h: History)
    ensures Legal(h) <==> EveryLifeLinear(h)
  {
    if Legal(h) {
      forall t: nat ensures Linear(LifeOf(h, t)) {
        LegalLife(h, t);
      }
    } else if EveryLifeLinear(h) {
      LinearLivesAreLegal(h);
      assert false;
    }
  }

  /** A run that keeps the clauses and ends owning what it owned has given every token it got a whole life. */
  lemma NothingLeaks(before: History, after: History)
    requires Legal(before) && Legal(after) && Owned(before) == Owned(after)
    ensures EveryLifeLinear(after)
    ensures forall t: nat :: Outstanding(LifeOf(after, t)) <==> Outstanding(LifeOf(before, t))
  {
    LegalIffLinear(after);
    forall t: nat ensures Outstanding(LifeOf(after, t)) <==> Outstanding(LifeOf(before, t)) {
      LegalLife(before, t);
      LegalLife(after, t);
    }
  }

  // ---- The C side ----

  datatype BuildReply = BuildRefused(code: string) | BuiltNoHandle | Built(wants: WantJson)

  /** A seal's data is an encoded transaction in hex, or JSON that does not decode as one. */
  datatype SealReply = SealRefused(code: string) | Sealed(encoded: Option<string>)

  /** The core's answers: any functions of what it was given. */
  datatype Script = Script(
    build: (Entry, byte, Window) -> BuildReply,
    apply: Resolving.Core,
    record: (seq<Resolving.Batch>, string) -> Result<string, string>,
    seal: (seq<Resolving.Batch>, seq<string>, string) -> SealReply,
    parse: Finalizing.Parser,
    abiMatches: nat -> bool)
  {
    function Build(entry: Entry, network: byte, window: Window): BuildReply { build(entry, network, window) }

    function Apply(batches: seq<Resolving.Batch>): Resolving.Reply { apply(batches) }

    function Record(batches: seq<Resolving.Batch>, mainSigner: string): Result<string, string> {
      record(batches, mainSigner)
    }

    function Seal(batches: seq<Resolving.Batch>, auths: seq<string>, mainSigner: string): SealReply {
      seal(batches, auths, mainSigner)
    }

    function AbiMatches(probe: nat): bool { abiMatches(probe) }
  }

  /** Every token granted so far is below n. */
  predicate GrantedBelow(h: History, n: nat) {
    h.Then? ==> GrantedBelow(h.earlier, n) && (h.call.Grants().Some? ==> h.call.Grants().value < n)
  }

  lemma {:induction false} NextIsFresh(h: History, n: nat)
    requires GrantedBelow(h, n)
    ensures n !in Granted(h) && n !in Owned(h) && GrantedBelow(h, n + 1)
  {
    if h.Then? {
      NextIsFresh(h.earlier, n);
      StaysBelow(h.earlier, n, n + 1);
    }
  }

  lemma {:induction false} StaysBelow(h: History, n: nat, m: nat)
    requires GrantedBelow(h, n) && n <= m
    ensures GrantedBelow(h, m)
  {
    if h.Then? {
      StaysBelow(h.earlier, n, m);
    }
  }

  class Core {
    const script: Script
    /** ensureABI's cached check, and how often the library's tag was compared. */
    var abi: Option<bool>
    var probes: nat
    var history: History
    /** The batches each handle has been given, by token; the next token to grant. */
    var given: map<nat, seq<Resolving.Batch>>
    var next: nat

    ghost predicate Valid()
      reads this
    {
      && Legal(history)
      && GrantedBelow(history, next)
      && Owned(history).Keys <= given.Keys
      && (history.Then? ==> abi == Some(true))
      && probes == if abi.Some? then 1 else 0
    }

    ghost predicate Owns(t: nat, kind: Kind)
      reads this
    {
      t in Owned(history) && Owned(history)[t] == kind
    }

    constructor (script: Script)
      ensures Valid() && history == Idle && this.script == script
    {
      this.script, abi, probes, history, given, next := script, None, 0, Idle, map[], 0;
    }

    /** sync.Once around the ABI tag comparison: one comparison, its outcome kept. */
    method EnsureAbi() returns (ok: bool)
      requires Valid()
      modifies this`abi, this`probes
      ensures Valid() && abi == Some(ok)
      ensures old(abi).Some? ==> abi == old(abi)
      ensures old(abi).None? ==> ok == script.AbiMatches(0)
    {
      if abi.None? {
        abi, probes := Some(script.AbiMatches(probes)), probes + 1;
      }
      ok := abi.value;
    }

    method CBuild(entry: Entry, network: byte, window: Window) returns (reply: BuildReply, granted: Option<nat>)
      requires Valid() && abi == Some(true)
      modifies this`history, this`given, this`next
      ensures Valid() && reply == script.Build(entry, network, window)
      ensures granted.Some? <==> reply.Built?
      ensures history == Then(old(history), Build(entry, network, window, granted))
      ensures granted.Some? ==> granted.value !in Owned(old(history)) && given == old(given)[granted.value := []]
      ensures granted.None? ==> given == old(given)
    {
      NextIsFresh(history, next);
      reply := script.Build(entry, network, window);
      granted := None;
      if reply.Built? {
        granted, given, next := Some(next), given[next := []], next + 1;
      }
      ghost var before := Owned(history);
      history := Then(history, Build(entry, network, window, granted));
      assert Owned(history) == OwnedAfter(before, history.call);
    }

    /** Consumes the handle, even on error; returns a handle only on success. */
    method CApply(kind: Kind, t: nat, batch: Resolving.Batch) returns (reply: Resolving.Reply, granted: Option<nat>)
      requires Valid() && Owns(t, kind) && abi == Some(true)
      modifies this`history, this`given, this`next
      ensures Valid() && reply == script.Apply(old(given)[t] + [batch])
      ensures granted.Some? <==> reply.Answer?
      ensures history == Then(old(history), Apply(kind, t, batch, granted))
      ensures granted.Some? ==> granted.value !in Owned(old(history))
      ensures granted.Some? ==> given == old(given)[granted.value := old(given)[t] + [batch]]
      ensures granted.None? ==> given == old(given)
    {
      NextIsFresh(history, next);
      reply := script.Apply(given[t] + [batch]);
      granted := None;
      if reply.Answer? {
        granted, given, next := Some(next), given[next := given[t] + [batch]], next + 1;
      }
      ghost var before := Owned(history);
      history := Then(history, Apply(kind, t, batch, granted));
      assert Owned(history) == OwnedAfter(before, history.call);
    }

    /** Consumes the handle, even on error; returns none. */
    method CSeal(kind: Kind, t: nat, auths: seq<string>, mainSigner: string) returns (reply: SealReply)
      requires Valid() && Owns(t, kind) && abi == Some(true)
      modifies this`history
      ensures Valid() && reply == script.Seal(given[t], auths, mainSigner)
      ensures history == Then(old(history), Seal(kind, t, auths, mainSigner))
    {
      reply := script.Seal(given[t], auths, mainSigner);
      ghost var before := Owned(history);
      history := Then(history, Seal(kind, t, auths, mainSigner));
      assert Owned(history) == OwnedAfter(before, history.call);
    }

    /** Borrows the handle. */
    method CRecord(t: nat, mainSigner: string) returns (reply: Result<string, string>)
      requires Valid() && Owns(t, Public) && abi == Some(true)
      modifies this`history
      ensures Valid() && reply == script.Record(given[t], mainSigner)
      ensures history == Then(old(history), Record(t, mainSigner))
    {
      reply := script.Record(given[t], mainSigner);
      ghost var before := Owned(history);
      history := Then(history, Record(t, mainSigner));
      assert Owned(history) == OwnedAfter(before, history.call);
    }

    method CFree(kind: Kind, t: nat)
      requires Valid() && Owns(t, kind) && abi == Some(true)
      modifies this`history
      ensures Valid() && history == Then(old(history), Free(kind, t))
    {
      ghost var before := Owned(history);
      history := Then(history, Free(kind, t));
      assert Owned(history) == OwnedAfter(before, history.call);
    }
  }

  // ---- The Go wrappers ----

  /** The Go-side handle; ptr is None once a consuming call has taken it. */
  class Handle {
    const kind: Kind
    var ptr: Option<nat>

    constructor (kind: Kind, t: nat)
      ensures this.kind == kind && ptr == Some(t)
    {
      this.kind, ptr := kind, Some(t);
    }
  }

  predicate IsLive(h: Handle?)
    reads h
  {
    h != null && h.ptr.Some?
  }

  /** A handle a wrapper may be given: nil, spent, or one the host owns. */
  ghost predicate Usable(core: Core, h: Handle?)
    reads core, h
  {
    IsLive(h) ==> core.Owns(h.ptr.value, h.kind)
  }

  /** What the host owns through h, on top of rest: at most one token. */
  ghost predicate OwnsOnly(core: Core, h: Handle?, rest: map<nat, Kind>)
    reads core, h
  {
    if IsLive(h) then
      h.ptr.value !in rest && Owned(core.history) == rest[h.ptr.value := h.kind]
    else
      Owned(core.history) == rest
  }

  method BuildHandle(core: Core, entry: Entry, network: byte, window: Window)
    returns (h: Handle?, wants: Result<WantJson, Failure>)
    requires core.Valid()
    modifies core
    ensures core.Valid() && core.abi.Some? && (old(core.abi).Some? ==> core.abi == old(core.abi))
    ensures wants == BuildOutcome(core.script, core.abi.value, entry, network, window)
    ensures core.abi == Some(false) ==> wants == Err(Internal)
    ensures core.abi == Some(true) ==>
              var reply := core.script.Build(entry, network, window);
              && (reply.Built? ==> wants == Ok(reply.wants))
              && (reply.BuildRefused? ==> wants == Err(Failure.Core(reply.code)))
              && (reply.BuiltNoHandle? ==> wants == Err(Internal))
    ensures OwnsOnly(core, h, Owned(old(core.history)))
    ensures h == null <==> wants.Err?
    ensures h != null ==> fresh(h) && h.kind == KindOf(entry) && h.ptr.Some?
    ensures h != null ==> h.kind == if entry == StealthTransfer then Stealth else Public
    ensures h != null ==> core.abi == Some(true) && h.ptr.value in core.given && core.given[h.ptr.value] == []
    ensures core.history == old(core.history)
            || (core.history.Then? && core.history.earlier == old(core.history)
                && core.history.call.Build? && core.history.call.entry == entry
                && core.history.call.network == network && core.history.call.window == window)
  {
    h := null;
    var ok := core.EnsureAbi();
    if !ok {
      return null, Err(Internal);
    }
    var reply, granted := core.CBuild(entry, network, window);
    match reply {
      case BuildRefused(code) =>
        wants := Err(Failure.Core(code));
      case BuiltNoHandle =>
        wants := Err(Internal);
      case Built(json) =>
        h := new Handle(KindOf(entry), granted.value);
        wants := Ok(json);
    }
  }

  function BuildOutcome(script: Script, abiOk: bool, entry: Entry, network: byte,
                        window: Window): Result<WantJson, Failure> {
    if !abiOk then Err(Internal)
    else
      match script.Build(entry, network, window)
      case BuildRefused(code) => Err(Failure.Core(code))
      case BuiltNoHandle => Err(Internal)
      case Built(json) => Ok(json)
  }

  function ApplyOutcome(reply: Resolving.Reply): Result<ResolutionJson, Failure> {
    match reply
    case Refused(code) => Err(Failure.Core(code))
    case NoHandle => Err(Internal)
    case Answer(json) => Ok(json)
  }

  /**
   * ApplyFetchedSubstates and its stealth twin. Whatever the outcome, a live h is spent; without a
   * matching ABI, or given nil or a spent handle, the core is not called.
   */
  method ApplyFetched(core: Core, h: Handle?, batch: Resolving.Batch, ghost rest: map<nat, Kind>)
    returns (next: Handle?, result: Result<ResolutionJson, Failure>)
    requires core.Valid() && OwnsOnly(core, h, rest)
    modifies core, h
    ensures core.Valid() && (old(core.abi).Some? ==> core.abi == old(core.abi))
    ensures next != null ==> fresh(next) && IsLive(next) && next.ptr.value in core.given
    ensures next != null <==> result.Ok?
    ensures core.abi == Some(false) || !old(IsLive(h)) ==>
              next == null && result == Err(Internal) && core.history == old(core.history)
                && (h != null ==> h.ptr == old(h.ptr))
    ensures core.abi == Some(true) && old(IsLive(h)) ==>
              && !IsLive(h) && OwnsOnly(core, next, rest)
              && result == ApplyOutcome(core.script.Apply(old(core.given[h.ptr.value]) + [batch]))
              && (var reply := core.script.Apply(old(core.given[h.ptr.value]) + [batch]);
                  && (reply.Answer? ==> result == Ok(reply.json))
                  && (reply.Refused? ==> result == Err(Failure.Core(reply.code)))
                  && (reply.NoHandle? ==> result == Err(Internal)))
              && (next != null ==>
                next.kind == h.kind && core.given[next.ptr.value] == old(core.given[h.ptr.value]) + [batch])
  {
    next := null;
    var ok := core.EnsureAbi();
    if !ok || h == null || h.ptr.None? {
      return null, Err(Internal);
    }
    var ptr := h.ptr.value;
    h.ptr := None;
    var reply, granted := core.CApply(h.kind, ptr, batch);
    assert rest[ptr := h.kind] - {ptr} == rest;
    result := ApplyOutcome(reply);
    if reply.Answer? {
      next := new Handle(h.kind, granted.value);
    }
  }

  function SealOutcome(reply: SealReply): Result<string, Failure> {
    match reply
    case SealRefused(code) => Err(Failure.Core(code))
    case Sealed(None) => Err(Encoding)
    case Sealed(Some(encoded)) => Ok(encoded)
  }

  /** The seal wrappers and the decoding of their data: the public, stealth and co-signed ones alike. */
  method SealAndEncode(core: Core, h: Handle?, auths: seq<string>, mainSigner: string, ghost rest: map<nat, Kind>)
    returns (result: Result<string, Failure>)
    requires core.Valid() && OwnsOnly(core, h, rest)
    modifies core, h
    ensures core.Valid() && (old(core.abi).Some? ==> core.abi == old(core.abi))
    ensures core.abi == Some(false) || !old(IsLive(h)) ==>
              result == Err(Internal) && core.history == old(core.history) && (h != null ==> h.ptr == old(h.ptr))
    ensures core.abi == Some(true) && old(IsLive(h)) ==>
              && !IsLive(h) && OwnsOnly(core, null, rest)
              && core.history == Then(old(core.history), Seal(h.kind, old(h.ptr.value), auths, mainSigner))
              && result == SealOutcome(core.script.Seal(old(core.given[h.ptr.value]), auths, mainSigner))
              && (var reply := core.script.Seal(old(core.given[h.ptr.value]), auths, mainSigner);
                  && (reply.SealRefused? ==> result == Err(Failure.Core(reply.code)))
                  && (reply == Sealed(None) ==> result == Err(Encoding))
                  && (reply.Sealed? && reply.encoded.Some? ==> result == Ok(reply.encoded.value)))
  {
    var ok := core.EnsureAbi();
    if !ok || h == null || h.ptr.None? {
      return Err(Internal);
    }
    var ptr := h.ptr.value;
    h.ptr := None;
    var reply := core.CSeal(h.kind, ptr, auths, mainSigner);
    assert rest[ptr := h.kind] - {ptr} == rest;
    result := SealOutcome(reply);
  }

  method UnsignedRecord(core: Core, h: Handle?, mainSigner: string) returns (result: Result<string, Failure>)
    requires core.Valid() && Usable(core, h) && (h != null ==> h.kind == Public)
    modifies core
    ensures core.Valid() && (old(core.abi).Some? ==> core.abi == old(core.abi))
    ensures Owned(core.history) == Owned(old(core.history)) && core.given == old(core.given)
    ensures core.abi == Some(false) || !IsLive(h) ==> result == Err(Internal) && core.history == old(core.history)
    ensures core.abi == Some(true) && IsLive(h) ==>
              && core.history == Then(old(core.history), Record(h.ptr.value, mainSigner))
              && result == (match core.script.Record(core.given[h.ptr.value], mainSigner)
                            case Ok(json) => Ok(json)
                            case Err(code) => Err(Failure.Core(code)))
  {
    var ok := core.EnsureAbi();
    if !ok || h == null || h.ptr.None? {
      return Err(Internal);
    }
    var reply := core.CRecord(h.ptr.value, mainSigner);
    match reply {
      case Ok(json) => result := Ok(json);
      case Err(code) => result := Err(Failure.Core(code));
    }
  }

  /** Null-safe; frees a live handle and marks it spent. */
  method FreeHandle(core: Core, h: Handle?, ghost rest: map<nat, Kind>)
    requires core.Valid() && OwnsOnly(core, h, rest)
    modifies core, h
    ensures core.Valid() && core.abi == old(core.abi) && !IsLive(h) && OwnsOnly(core, null, rest)
    ensures core.history == if old(IsLive(h)) then Then(old(core.history), Free(h.kind, old(h.ptr.value)))
            else old(core.history)
  {
    if h == null || h.ptr.None? {
      return;
    }
    core.CFree(h.kind, h.ptr.value);
    assert rest[h.ptr.value := h.kind] - {h.ptr.value} == rest;
    h.ptr := None;
  }
}
