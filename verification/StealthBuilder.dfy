/**
 * ootle/stealth_builder.go and the intent of ootle/stealth.go: the fluent builder's running sums and
 * lists, its two guards, and the split of an intent into wire inputs, spend secrets and UTXO ids.
 */
module StealthIntents {
  import opened Prelude
  import opened Fetching

  const WORD: nat := MAX_U64 + 1

  datatype Spend = Spend(commitment: string, ownerKey: string, secret: string, utxoId: string)

  /** Exactly one of the two must be set for a memo to marshal. */
  datatype Memo = Memo(message: Option<string>, bytes: Option<seq<byte>>)

  predicate MemoMarshals(m: Memo) {
    m.message.Some? != m.bytes.Some?
  }

  /** A confidential output, without the optional view key, tag and value promise. */
  datatype Output = Output(
    account: string,
    view: string,
    amount: uint64,
    resource: string,
    revealed: uint64,
    memo: Option<Memo>,
    payTo: string)

  const PAY_TO_STEALTH := "StealthPublicKey"

  function NewStealthOutput(account: string, view: string, amount: uint64, resource: string): Output {
    Output(account, view, amount, resource, 0, None, PAY_TO_STEALTH)
  }

  datatype TransferIntent = TransferIntent(
    fromAccount: string,
    resource: string,
    fee: uint64,
    inputs: seq<Spend>,
    outputs: seq<Output>,
    revealedInput: uint64,
    revealedOutput: uint64,
    minEpoch: Option<uint64>,
    maxEpoch: uint64,
    dryRun: bool,
    payFeeFromRevealed: bool)

  // ---- The builder's calls ----

  datatype Call =
    | Fee(microTari: uint64)
    | SpendRevealedInput(amount: uint64)
    | SpendUtxo(spend: Spend)
    | ToOutput(output: Output)
    | ToRevealedOutput(amount: uint64)
    | PayFeeFromRevealed
    | MinEpoch(epoch: uint64)
    | MaxEpoch(epoch: uint64)
    | DryRun

  /** The calls made on a builder started for an account and a resource, the latest outermost. */
  datatype Calls = New(fromAccount: string, resource: string) | Then(earlier: Calls, call: Call) {
    function FromAccount(): string {
      if New? then fromAccount else earlier.FromAccount()
    }

    function Resource(): string {
      if New? then resource else earlier.Resource()
    }
  }

  function Spends(c: Calls): seq<Spend> {
    if c.New? then []
    else if c.call.SpendUtxo? then Spends(c.earlier) + [c.call.spend]
    else Spends(c.earlier)
  }

  function Outputs(c: Calls): seq<Output> {
    if c.New? then []
    else if c.call.ToOutput? then Outputs(c.earlier) + [c.call.output]
    else Outputs(c.earlier)
  }

  /** What one call adds to the revealed inputs, to the declared revealed outputs, and to the outputs' own deposits. */
  function In(call: Call): nat {
    if call.SpendRevealedInput? then call.amount else 0
  }

  function Declared(call: Call): nat {
    if call.ToRevealedOutput? then call.amount else 0
  }

  function Deposited(call: Call): nat {
    if call.ToOutput? then call.output.revealed else 0
  }

  /** The mathematical total of a quantity over all calls. */
  function Total(c: Calls, quantity: Call -> nat): nat {
    if c.New? then 0 else Total(c.earlier, quantity) + quantity(c.call)
  }

  predicate Called(c: Calls, call: Call) {
    c.Then? && (c.call == call || Called(c.earlier, call))
  }

  /** The last epoch set, if any. */
  function LastMin(c: Calls): Option<uint64> {
    if c.New? then None else if c.call.MinEpoch? then Some(c.call.epoch) else LastMin(c.earlier)
  }

  function LastMax(c: Calls): uint64 {
    if c.New? then 0 else if c.call.MaxEpoch? then c.call.epoch else LastMax(c.earlier)
  }

  /** What Intent returns after a history of calls; the sums are Go's, modulo 2^64. */
  function IntentOf(c: Calls, fee: uint64): Result<TransferIntent, Failure> {
    if Total(c, Deposited) % WORD != Total(c, Declared) % WORD then Err(Validation)
    else if Spends(c) != [] && Total(c, In) % WORD == 0 && !Called(c, PayFeeFromRevealed) then Err(Validation)
    else
      Ok(TransferIntent(c.FromAccount(), c.Resource(), fee, Spends(c), Outputs(c), Total(c, In) % WORD,
        Total(c, Declared) % WORD,
                        LastMin(c), LastMax(c), Called(c, DryRun), Called(c, PayFeeFromRevealed)))
  }

  lemma WrapIsModulo(total: nat, a: uint64, b: uint64)
    requires a == total % WORD
    ensures WrapAdd(a, b) == (total + b) % WORD
  {
  }

  class StealthTransferBuilder {
    const fromAccount: string
    const resource: string
    var fee: uint64
    var inputs: seq<Spend>
    var outputs: seq<Output>
    var revealedInput: uint64
    var revealedOutput: uint64
    var payFeeFromRevealed: bool
    var minEpoch: Option<uint64>
    var maxEpoch: uint64
    var dryRun: bool
    ghost var calls: Calls

    /** The fields are those of the calls made. */
    ghost predicate Valid()
      reads this
    {
      && fromAccount == calls.FromAccount() && resource == calls.Resource()
      && inputs == Spends(calls) && outputs == Outputs(calls)
      && revealedInput == Total(calls, In) % WORD && revealedOutput == Total(calls, Declared) % WORD
      && payFeeFromRevealed == Called(calls, Call.PayFeeFromRevealed) && dryRun == Called(calls, Call.DryRun)
      && minEpoch == LastMin(calls) && maxEpoch == LastMax(calls)
    }

    constructor (fromAccount: string, resource: string)
      ensures Valid() && calls == New(fromAccount, resource)
    {
      this.fromAccount, this.resource := fromAccount, resource;
      fee, inputs, outputs, revealedInput, revealedOutput := 0, [], [], 0, 0;
      payFeeFromRevealed, minEpoch, maxEpoch, dryRun, calls := false, None, 0, false, New(fromAccount, resource);
    }

    method Fee(microTari: uint64)
      requires Valid()
      modifies this
      ensures Valid() && calls == Then(old(calls), Call.Fee(microTari))
    {
      fee, calls := microTari, Then(calls, Call.Fee(microTari));
    }

    method SpendRevealedInput(amount: uint64)
      requires Valid()
      modifies this
      ensures Valid() && calls == Then(old(calls), Call.SpendRevealedInput(amount))
      ensures revealedInput == (old(revealedInput) + amount) % 0x1_0000_0000_0000_0000
    {
      WrapIsModulo(Total(calls, In), revealedInput, amount);
      revealedInput, calls := WrapAdd(revealedInput, amount), Then(calls, Call.SpendRevealedInput(amount));
    }

    method SpendUtxo(commitment: string, ownerKey: string, secret: string, utxoId: string)
      requires Valid()
      modifies this
      ensures Valid() && calls == Then(old(calls), Call.SpendUtxo(Spend(commitment, ownerKey, secret, utxoId)))
      ensures inputs == old(inputs) + [Spend(commitment, ownerKey, secret, utxoId)]
    {
      var spend := Spend(commitment, ownerKey, secret, utxoId);
      inputs, calls := inputs + [spend], Then(calls, Call.SpendUtxo(spend));
    }

    method ToOutput(output: Output)
      requires Valid()
      modifies this
      ensures Valid() && calls == Then(old(calls), Call.ToOutput(output)) && outputs == old(outputs) + [output]
    {
      outputs, calls := outputs + [output], Then(calls, Call.ToOutput(output));
    }

    /** A pure confidential output of the builder's own resource. */
    method ToStealthOutput(account: string, view: string, amount: uint64)
      requires Valid()
      modifies this
      ensures Valid() && calls == Then(old(calls), Call.ToOutput(NewStealthOutput(account, view, amount, resource)))
      ensures outputs == old(outputs) + [Output(account, view, amount, resource, 0, None, "StealthPublicKey")]
    {
      ToOutput(NewStealthOutput(account, view, amount, resource));
    }

    method ToRevealedOutput(amount: uint64)
      requires Valid()
      modifies this
      ensures Valid() && calls == Then(old(calls), Call.ToRevealedOutput(amount))
      ensures revealedOutput == (old(revealedOutput) + amount) % 0x1_0000_0000_0000_0000
    {
      WrapIsModulo(Total(calls, Declared), revealedOutput, amount);
      revealedOutput, calls := WrapAdd(revealedOutput, amount), Then(calls, Call.ToRevealedOutput(amount));
    }

    method PayFeeFromRevealed()
      requires Valid()
      modifies this
      ensures Valid() && calls == Then(old(calls), Call.PayFeeFromRevealed)
    {
      payFeeFromRevealed, calls := true, Then(calls, Call.PayFeeFromRevealed);
    }

    method MinEpoch(epoch: uint64)
      requires Valid()
      modifies this
      ensures Valid() && calls == Then(old(calls), Call.MinEpoch(epoch))
    {
      minEpoch, calls := Some(epoch), Then(calls, Call.MinEpoch(epoch));
    }

    method MaxEpoch(epoch: uint64)
      requires Valid()
      modifies this
      ensures Valid() && calls == Then(old(calls), Call.MaxEpoch(epoch))
    {
      maxEpoch, calls := epoch, Then(calls, Call.MaxEpoch(epoch));
    }

    method DryRun()
      requires Valid()
      modifies this
      ensures Valid() && calls == Then(old(calls), Call.DryRun)
    {
      dryRun, calls := true, Then(calls, Call.DryRun);
    }

    /** The fee is the argument's; the one set with Fee is not read. */
    method Intent(fee: uint64) returns (result: Result<TransferIntent, Failure>)
      requires Valid()
      ensures result == IntentOf(calls, fee) && (result.Err? ==> result.error == Validation)
    {
      var perOutputRevealed := SumRevealed(outputs);
      DepositsAreOutputs(calls);
      if perOutputRevealed != revealedOutput {
        return Err(Validation);
      }
      if |inputs| > 0 && revealedInput == 0 && !payFeeFromRevealed {
        return Err(Validation);
      }
      result := Ok(TransferIntent(fromAccount, resource, fee, inputs, outputs, revealedInput, revealedOutput,
        minEpoch, maxEpoch,
                                  dryRun, payFeeFromRevealed));
    }
  }

  function Deposits(outputs: seq<Output>): nat {
    if outputs == [] then 0 else Deposits(outputs[..|outputs| - 1]) + outputs[|outputs| - 1].revealed
  }

  method SumRevealed(outputs: seq<Output>) returns (sum: uint64)
    ensures sum == Deposits(outputs) % WORD
  {
    sum := 0;
    var i := 0;
    while i < |outputs|
      invariant i <= |outputs| && sum == Deposits(outputs[..i]) % WORD
    {
      WrapIsModulo(Deposits(outputs[..i]), sum, outputs[i].revealed);
      assert outputs[..i + 1][..i] == outputs[..i];
      sum := WrapAdd(sum, outputs[i].revealed);
      i := i + 1;
    }
    assert outputs[..i] == outputs;
  }

  lemma {:induction false} DepositsAreOutputs(c: Calls)
    ensures Deposits(Outputs(c)) == Total(c, Deposited)
  {
    if c.Then? {
      DepositsAreOutputs(c.earlier);
      if c.call.ToOutput? {
        assert Outputs(c)[..|Outputs(c)| - 1] == Outputs(c.earlier);
      }
    }
  }

  // ---- Order does not matter to the totals ----

  function Bag(c: Calls): multiset<Call> {
    if c.New? then multiset{} else Bag(c.earlier) + multiset{c.call}
  }

  /** The calls without one occurrence of x. */
  lemma {:induction false} Without(c: Calls, x: Call, quantity: Call -> nat) returns (rest: Calls)
    requires x in Bag(c)
    ensures Bag(c) == Bag(rest) + multiset{x} && Total(c, quantity) == Total(rest, quantity) + quantity(x)
  {
    if c.call == x {
      rest := c.earlier;
    } else {
      rest := Without(c.earlier, x, quantity);
      rest := Then(rest, c.call);
    }
  }

  lemma BagIsNotEmpty(c: Calls)
    requires c.Then?
    ensures Bag(c) != multiset{}
  {
    assert c.call in Bag(c);
  }

  lemma {:induction false} TotalsIgnoreOrder(a: Calls, b: Calls, quantity: Call -> nat)
    requires Bag(a) == Bag(b)
    ensures Total(a, quantity) == Total(b, quantity)
  {
    if a.Then? {
      assert a.call in Bag(b);
      var rest := Without(b, a.call, quantity);
      assert Bag(a.earlier) == Bag(a) - multiset{a.call} == Bag(rest);
      TotalsIgnoreOrder(a.earlier, rest, quantity);
    } else if b.Then? {
      BagIsNotEmpty(b);
    }
  }

  // ---- What the guards guard ----

  predicate RevealedFits(c: Calls) {
    Total(c, In) < WORD && Total(c, Declared) < WORD && Total(c, Deposited) < WORD
  }

  predicate FeeIsSigned(c: Calls) {
    Spends(c) == [] || Total(c, In) % WORD != 0 || Called(c, PayFeeFromRevealed)
  }

  /** Totals that differ get past the guard exactly when the sums overflow a different number of times. */
  lemma MismatchAccepted(c: Calls, fee: uint64)
    ensures IntentOf(c, fee).Ok? && Total(c, Deposited) != Total(c, Declared) <==>
              && FeeIsSigned(c)
              && Total(c, Deposited) % WORD == Total(c, Declared) % WORD
              && Total(c, Deposited) / WORD != Total(c, Declared) / WORD
  {
    var a, b := Total(c, Deposited), Total(c, Declared);
    assert a == a / WORD * WORD + a % WORD && b == b / WORD * WORD + b % WORD;
  }

  /** The calls other than Fee. */
  function WithoutFees(c: Calls): Calls {
    if c.New? then c
    else if c.call.Fee? then WithoutFees(c.earlier)
    else Then(WithoutFees(c.earlier), c.call)
  }

  /** The fee last set with Fee. */
  function LastFee(c: Calls): uint64 {
    if c.New? then 0 else if c.call.Fee? then c.call.microTari else LastFee(c.earlier)
  }

  /**
   * Fee has no effect: no call of it changes an intent, which carries the fee last set exactly when
   * Intent is given that fee again.
   */
  lemma FeesAreIgnored(c: Calls, fee: uint64)
    ensures IntentOf(c, fee) == IntentOf(WithoutFees(c), fee)
    ensures IntentOf(c, fee).Ok? ==> (IntentOf(c, fee).value.fee == LastFee(c) <==> fee == LastFee(c))
  {
    ListsIgnoreFees(c);
    FlagsIgnoreFees(c);
    TotalIgnoresFees(c, In);
    TotalIgnoresFees(c, Declared);
    TotalIgnoresFees(c, Deposited);
  }

  /** A builder told a fee of 5 pays 7 when that is Intent's argument. */
  lemma FeeIsLost()
    ensures var c := Then(New("component_1", "resource_1"), Fee(5));
            LastFee(c) == 5 && IntentOf(c, 7).Ok? && IntentOf(c, 7).value.fee == 7
  {
    var start := New("component_1", "resource_1");
    var c := Then(start, Fee(5));
    assert Total(start, Deposited) == Total(start, Declared) == 0 && Spends(start) == [];
    assert Total(c, Deposited) == Total(c, Declared) == 0 && Spends(c) == [];
  }

  lemma {:induction false} ListsIgnoreFees(c: Calls)
    ensures c.FromAccount() == WithoutFees(c).FromAccount() && c.Resource() == WithoutFees(c).Resource()
    ensures Spends(c) == Spends(WithoutFees(c)) && Outputs(c) == Outputs(WithoutFees(c))
  {
    if c.Then? {
      ListsIgnoreFees(c.earlier);
    }
  }

  lemma {:induction false} FlagsIgnoreFees(c: Calls)
    ensures LastMin(c) == LastMin(WithoutFees(c)) && LastMax(c) == LastMax(WithoutFees(c))
    ensures Called(c, DryRun) == Called(WithoutFees(c), DryRun)
    ensures Called(c, PayFeeFromRevealed) == Called(WithoutFees(c), PayFeeFromRevealed)
  {
    if c.Then? {
      FlagsIgnoreFees(c.earlier);
    }
  }

  lemma {:induction false} TotalIgnoresFees(c: Calls, quantity: Call -> nat)
    requires forall n: uint64 :: quantity(Fee(n)) == 0
    ensures Total(c, quantity) == Total(WithoutFees(c), quantity)
  {
    if c.Then? {
      TotalIgnoresFees(c.earlier, quantity);
      if c.call.Fee? {
        assert quantity(Fee(c.call.microTari)) == 0;
      }
    }
  }

  lemma SmallModulo(n: nat)
    requires n < WORD
    ensures n % WORD == n
  {
  }

  /** When the sums fit, an intent is returned exactly when the two totals agree and someone signs the fee. */
  lemma GuardsAreExact(c: Calls, fee: uint64)
    requires RevealedFits(c)
    ensures IntentOf(c, fee).Ok? <==>
              && Total(c, Deposited) == Total(c, Declared)
              && (Spends(c) == [] || Total(c, In) > 0 || Called(c, PayFeeFromRevealed))
    ensures IntentOf(c, fee).Ok? ==>
              IntentOf(c, fee).value.revealedInput == Total(c, In)
                && IntentOf(c, fee).value.revealedOutput == Total(c, Declared)
  {
    SmallModulo(Total(c, In));
    SmallModulo(Total(c, Declared));
    SmallModulo(Total(c, Deposited));
  }

  /** When they do not, the guard accepts outputs that deposit 2^64 with nothing declared. */
  lemma GuardWraps()
    ensures var c := Then(Then(New("", ""), ToOutput(Output("", "", 0, "", MAX_U64, None, ""))),
            ToOutput(Output("", "", 0, "", 1, None, "")));
            && IntentOf(c, 0).Ok? && IntentOf(c, 0).value.revealedOutput == 0
            && Total(c, Deposited) == 0x1_0000_0000_0000_0000 && Total(c, Declared) == 0
  {
    var one := Then(New("", ""), ToOutput(Output("", "", 0, "", MAX_U64, None, "")));
    var two := Then(one, ToOutput(Output("", "", 0, "", 1, None, "")));
    assert Total(one, Deposited) == MAX_U64;
    assert Total(two, Deposited) == WORD;
    assert Total(two, Declared) == 0;
    assert Spends(two) == [];
  }

  // ---- Splitting an intent ----

  /** The intent's JSON fails only on a memo. */
  predicate Marshals(intent: TransferIntent) {
    forall n :: 0 <= n < |intent.outputs| && intent.outputs[n].memo.Some? ==> MemoMarshals(intent.outputs[n].memo.value)
  }

  datatype WireInput = WireInput(commitment: string, ownerKey: string)

  /** MarshalJSON's input list: the on-wire half of each spend, in place. */
  method WireInputs(intent: TransferIntent) returns (wire: array<WireInput>)
    ensures fresh(wire) && wire.Length == |intent.inputs|
    ensures forall n :: 0 <= n < wire.Length ==>
            wire[n] == WireInput(intent.inputs[n].commitment, intent.inputs[n].ownerKey)
  {
    wire := new WireInput[|intent.inputs|](_ => WireInput("", ""));
    for n := 0 to |intent.inputs|
      invariant forall k :: 0 <= k < n ==> wire[k] == WireInput(intent.inputs[k].commitment, intent.inputs[k].ownerKey)
    {
      wire[n] := WireInput(intent.inputs[n].commitment, intent.inputs[n].ownerKey);
    }
  }

  method SpendSecrets(intent: TransferIntent) returns (secrets: array<string>)
    ensures fresh(secrets) && secrets.Length == |intent.inputs|
    ensures forall n :: 0 <= n < secrets.Length ==> secrets[n] == intent.inputs[n].secret
  {
    secrets := new string[|intent.inputs|](_ => "");
    for n := 0 to |intent.inputs|
      invariant forall k :: 0 <= k < n ==> secrets[k] == intent.inputs[k].secret
    {
      secrets[n] := intent.inputs[n].secret;
    }
  }

  predicate HasUtxoIds(intent: TransferIntent) {
    forall n :: 0 <= n < |intent.inputs| ==> intent.inputs[n].utxoId != ""
  }

  method UtxoSubstateIds(intent: TransferIntent) returns (result: Result<seq<string>, Failure>)
    ensures result.Ok? <==> HasUtxoIds(intent)
    ensures result.Err? ==> result.error == Validation
    ensures result.Ok? ==>
              |result.value| == |intent.inputs|
              && forall n :: 0 <= n < |intent.inputs| ==> result.value[n] == intent.inputs[n].utxoId
  {
    var ids := [];
    for n := 0 to |intent.inputs|
      invariant |ids| == n
      invariant forall k :: 0 <= k < n ==> ids[k] == intent.inputs[k].utxoId && ids[k] != ""
    {
      if intent.inputs[n].utxoId == "" {
        return Err(Validation);
      }
      ids := ids + [intent.inputs[n].utxoId];
    }
    result := Ok(ids);
  }

  /** How many of the calls spend a UTXO. */
  function SpendCount(c: Calls): nat {
    if c.New? then 0 else SpendCount(c.earlier) + if c.call.SpendUtxo? then 1 else 0
  }

  /** The n-th SpendUtxo call, counted from 0, is the intent's n-th input. */
  lemma {:induction false} NthSpend(c: Calls, before: Calls, fee: uint64)
    requires IsPrefix(before, c) && before.Then? && before.call.SpendUtxo? && IntentOf(c, fee).Ok?
    ensures SpendCount(before) <= |IntentOf(c, fee).value.inputs| == SpendCount(c)
    ensures IntentOf(c, fee).value.inputs[SpendCount(before) - 1] == before.call.spend
  {
    SpendsAt(c, before);
  }

  predicate IsPrefix(a: Calls, b: Calls) {
    a == b || (b.Then? && IsPrefix(a, b.earlier))
  }

  lemma {:induction false} SpendsAt(c: Calls, before: Calls)
    requires IsPrefix(before, c) && before.Then? && before.call.SpendUtxo?
    ensures SpendCount(before) <= |Spends(c)| == SpendCount(c)
    ensures Spends(c)[SpendCount(before) - 1] == before.call.spend
  {
    SpendsCounted(before);
    if c != before {
      SpendsAt(c.earlier, before);
    }
  }

  /** How many of the calls add an output. */
  function OutputCount(c: Calls): nat {
    if c.New? then 0 else OutputCount(c.earlier) + if c.call.ToOutput? then 1 else 0
  }

  lemma {:induction false} OutputsCounted(c: Calls)
    ensures |Outputs(c)| == OutputCount(c)
  {
    if c.Then? {
      OutputsCounted(c.earlier);
    }
  }

  /** The n-th ToOutput call, counted from 0, is the intent's n-th output. */
  lemma {:induction false} NthOutput(c: Calls, before: Calls)
    requires IsPrefix(before, c) && before.Then? && before.call.ToOutput?
    ensures OutputCount(before) <= |Outputs(c)| == OutputCount(c)
    ensures Outputs(c)[OutputCount(before) - 1] == before.call.output
  {
    OutputsCounted(before);
    if c != before {
      NthOutput(c.earlier, before);
    }
  }

  ghost predicate SetsMin(c: Calls) {
    c.Then? && c.call.MinEpoch?
  }

  ghost predicate SetsMax(c: Calls) {
    c.Then? && c.call.MaxEpoch?
  }

  /** No call after those of before, up to those of c, is of the kind. */
  ghost predicate NoneAfter(before: Calls, c: Calls, kind: Calls -> bool) {
    forall d: Calls :: IsPrefix(before, d) && IsPrefix(d, c) && d != before ==> !kind(d)
  }

  lemma {:induction false} PrefixOfEarlier(before: Calls, c: Calls, kind: Calls -> bool)
    requires IsPrefix(before, c) && c != before && NoneAfter(before, c, kind)
    ensures !kind(c) && NoneAfter(before, c.earlier, kind)
  {
    assert IsPrefix(c, c);
    forall d: Calls | IsPrefix(before, d) && IsPrefix(d, c.earlier) && d != before ensures !kind(d) {
      assert IsPrefix(d, c);
    }
  }

  lemma {:induction false} EpochsAreLast(c: Calls, before: Calls)
    requires IsPrefix(before, c)
    ensures NoneAfter(before, c, SetsMin) ==> LastMin(c) == LastMin(before)
    ensures NoneAfter(before, c, SetsMax) ==> LastMax(c) == LastMax(before)
  {
    if c != before {
      EpochsAreLast(c.earlier, before);
      if NoneAfter(before, c, SetsMin) {
        PrefixOfEarlier(before, c, SetsMin);
      }
      if NoneAfter(before, c, SetsMax) {
        PrefixOfEarlier(before, c, SetsMax);
      }
    }
  }

  lemma {:induction false} RootIs(c: Calls, root: Calls)
    requires IsPrefix(root, c) && root.New?
    ensures c.FromAccount() == root.fromAccount && c.Resource() == root.resource
  {
    if c != root {
      RootIs(c.earlier, root);
    }
  }

  lemma {:induction false} CalledIff(c: Calls, call: Call)
    ensures Called(c, call) <==> call in Bag(c)
  {
    if c.Then? {
      CalledIff(c.earlier, call);
    }
  }

  /**
   * Where an intent's fields come from: the account and resource the builder was started for, the last
   * epoch of each kind, whether a flag was ever set, and every output in order.
   */
  lemma IntentFields(c: Calls, before: Calls, fee: uint64)
    requires IsPrefix(before, c) && IntentOf(c, fee).Ok?
    ensures var intent := IntentOf(c, fee).value;
            && intent.fee == fee
            && (intent.dryRun <==> DryRun in Bag(c))
            && (intent.payFeeFromRevealed <==> PayFeeFromRevealed in Bag(c))
            && (before.New? ==> intent.fromAccount == before.fromAccount && intent.resource == before.resource)
            && (before.New? && NoneAfter(before, c, SetsMin) ==> intent.minEpoch == None)
            && (before.New? && NoneAfter(before, c, SetsMax) ==> intent.maxEpoch == 0)
            && (SetsMin(before) && NoneAfter(before, c, SetsMin) ==> intent.minEpoch == Some(before.call.epoch))
            && (SetsMax(before) && NoneAfter(before, c, SetsMax) ==> intent.maxEpoch == before.call.epoch)
            && (before.Then? && before.call.ToOutput? ==>
                  && OutputCount(before) <= |intent.outputs| == OutputCount(c)
                  && intent.outputs[OutputCount(before) - 1] == before.call.output)
  {
    CalledIff(c, DryRun);
    CalledIff(c, PayFeeFromRevealed);
    EpochsAreLast(c, before);
    if before.New? {
      RootIs(c, before);
    } else if before.call.ToOutput? {
      NthOutput(c, before);
    }
  }

  lemma {:induction false} SpendsCounted(c: Calls)
    ensures |Spends(c)| == SpendCount(c)
  {
    if c.Then? {
      SpendsCounted(c.earlier);
    }
  }
}
