/**
 * ootle/result.go's search of a diff for new substates and its transaction outcomes, and the loop of
 * examples/stealth/to_stealth/main.go that enumerates substates by excluding what it has seen.
 */
module Results {
  import opened Prelude
  import opened Instructing

  datatype UpSubstate = UpSubstate(substateId: string, version: uint64)

  /** A nil diff, or one with its created substates. */
  datatype Diff = NilDiff | Diff(up: seq<UpSubstate>)

  const PREFIX_UTXO := "utxo_"

  predicate HasPrefix(s: string, prefix: string) {
    |prefix| <= |s| && s[..|prefix|] == prefix
  }

  /** The ids of a diff with a prefix, in order, repetitions included. */
  function Matching(up: seq<UpSubstate>, prefix: string): seq<string> {
    if up == [] then []
    else
      var init, id := Matching(up[..|up| - 1], prefix), up[|up| - 1].substateId;
      if HasPrefix(id, prefix) then init + [id] else init
  }

  function Candidates(d: Diff, prefix: string): seq<string> {
    if d.NilDiff? then [] else Matching(d.up, prefix)
  }

  /** The candidates are the ids with the prefix. */
  lemma {:induction false} CandidatesAre(d: Diff, prefix: string, id: string)
    ensures id in Candidates(d, prefix) <==>
              d.Diff? && prefix <= id && exists i :: 0 <= i < |d.up| && d.up[i].substateId == id
    decreases if d.Diff? then |d.up| else 0
  {
    if d.Diff? && d.up != [] {
      var init := d.up[..|d.up| - 1];
      CandidatesAre(Diff(init), prefix, id);
      assert forall i :: 0 <= i < |init| ==> init[i] == d.up[i];
    }
  }

  /** The first element of ids that is not excluded. */
  function FirstNot(ids: seq<string>, exclude: seq<string>): Option<string> {
    if ids == [] then None
    else if ids[0] !in exclude then Some(ids[0])
    else FirstNot(ids[1..], exclude)
  }

  method ContainsString(xs: seq<string>, want: string) returns (found: bool)
    ensures found <==> want in xs
  {
    for i := 0 to |xs|
      invariant want !in xs[..i]
    {
      if xs[i] == want {
        return true;
      }
    }
    found := false;
  }

  lemma {:induction false} FirstNotOfConcat(a: seq<string>, b: seq<string>, exclude: seq<string>)
    ensures FirstNot(a + b, exclude) == if FirstNot(a, exclude).Some? then FirstNot(a, exclude)
            else FirstNot(b, exclude)
  {
    if a == [] {
      assert a + b == b;
    } else {
      assert (a + b)[1..] == a[1..] + b;
      FirstNotOfConcat(a[1..], b, exclude);
    }
  }

  lemma {:induction false} MatchingOfConcat(a: seq<UpSubstate>, b: seq<UpSubstate>, prefix: string)
    ensures Matching(a + b, prefix) == Matching(a, prefix) + Matching(b, prefix)
  {
    if b == [] {
      assert a + b == a;
    } else {
      assert (a + b)[..|a + b| - 1] == a + b[..|b| - 1];
      MatchingOfConcat(a, b[..|b| - 1], prefix);
    }
  }

  predicate Wanted(id: string, prefix: string, exclude: seq<string>) {
    prefix <= id && id !in exclude
  }

  /** The i-th created substate is the first with the prefix that is not excluded. */
  ghost predicate FirstAt(up: seq<UpSubstate>, i: nat, prefix: string, exclude: seq<string>) {
    i < |up| && Wanted(up[i].substateId, prefix, exclude)
    && forall j :: 0 <= j < i ==> !Wanted(up[j].substateId, prefix, exclude)
  }

  method FirstUp(d: Diff, prefix: string, exclude: seq<string>) returns (r: Option<string>)
    ensures r == FirstNot(Candidates(d, prefix), exclude)
    ensures r.Some? ==> d.Diff? && exists i: nat :: FirstAt(d.up, i, prefix, exclude) && d.up[i].substateId == r.value
    ensures r.None? && d.Diff? ==> forall i :: 0 <= i < |d.up| ==> !Wanted(d.up[i].substateId, prefix, exclude)
  {
    if d.NilDiff? {
      return None;
    }
    var i := 0;
    while i < |d.up|
      invariant i <= |d.up| && FirstNot(Matching(d.up[..i], prefix), exclude) == None
      invariant forall j :: 0 <= j < i ==> !Wanted(d.up[j].substateId, prefix, exclude)
    {
      var id := d.up[i].substateId;
      StepFirst(d.up, i, prefix, exclude);
      i := i + 1;
      if !HasPrefix(id, prefix) {
        continue;
      }
      var excluded := ContainsString(exclude, id);
      if excluded {
        continue;
      }
      assert FirstAt(d.up, i - 1, prefix, exclude);
      return Some(id);
    }
    assert d.up[..i] == d.up;
    r := None;
  }

  /** What one more element adds to the search so far. */
  lemma StepFirst(up: seq<UpSubstate>, i: nat, prefix: string, exclude: seq<string>)
    requires i < |up| && FirstNot(Matching(up[..i], prefix), exclude) == None
    ensures var id := up[i].substateId;
            if HasPrefix(id, prefix) && id !in exclude then FirstNot(Matching(up, prefix), exclude) == Some(id)
            else FirstNot(Matching(up[..i + 1], prefix), exclude) == None
  {
    var id := up[i].substateId;
    assert up[..i + 1][..i] == up[..i];
    var upTo := Matching(up[..i + 1], prefix);
    if HasPrefix(id, prefix) {
      FirstNotOfConcat(Matching(up[..i], prefix), [id], exclude);
      if id !in exclude {
        assert FirstNot([id], exclude) == Some(id);
        assert up == up[..i + 1] + up[i + 1..];
        MatchingOfConcat(up[..i + 1], up[i + 1..], prefix);
        FirstNotOfConcat(upTo, Matching(up[i + 1..], prefix), exclude);
      } else {
        assert FirstNot([id], exclude) == None;
      }
    }
  }

  // ---- Enumerating by exclusion ----

  lemma {:induction false} AllExcluded(ids: seq<string>, exclude: seq<string>)
    requires forall id :: id in ids ==> id in exclude
    ensures FirstNot(ids, exclude) == None
  {
    if ids != [] {
      AllExcluded(ids[1..], exclude);
    }
  }

  /** Excluding the first k distinct ids, the search finds the next one, in order of first occurrence. */
  lemma NextDistinct(ids: seq<string>, k: nat)
    requires k <= |FirstSeen(ids)|
    ensures FirstNot(ids, FirstSeen(ids)[..k]) == if k < |FirstSeen(ids)| then Some(FirstSeen(ids)[k]) else None
  {
    var distinct := FirstSeen(ids);
    FirstSeenHasSameElements(ids);
    if k == |distinct| {
      assert distinct[..k] == distinct;
      AllExcluded(ids, distinct);
    } else {
      var p := FirstSeenKeepsOrder(ids, k);
      FirstSeenHasSameElements(ids[..p]);
      AllExcluded(ids[..p], distinct[..k]);
      assert ids == ids[..p] + ids[p..];
      FirstNotOfConcat(ids[..p], ids[p..], distinct[..k]);
    }
  }

  /** What looking at one UTXO with the recipient's keys comes to. */
  datatype Look = FetchFailed | Missing | ScanFailed | Scanned(isMine: bool, value: uint64)

  datatype ScanResult = Found(id: string, value: uint64) | Failed(id: string) | NothingIsMine

  predicate GoesOn(look: Look) {
    look.Missing? || (look.Scanned? && !look.isMine)
  }

  /**
   * The UTXOs looked at are the distinct ones of the diff in order of first occurrence, up to the
   * first that is the recipient's or fails; the search has been made once more at most.
   */
  method ScanRecipientOutput(d: Diff, look: string -> Look)
    returns (result: ScanResult, tried: seq<string>, searches: nat)
    ensures tried <= FirstSeen(Candidates(d, "utxo_"))
    ensures forall k :: 0 <= k < |tried| - 1 ==> GoesOn(look(tried[k]))
    ensures searches == |tried| + if result.NothingIsMine? then 1 else 0
    ensures match result
            case NothingIsMine =>
              tried == FirstSeen(Candidates(d, "utxo_")) && forall k :: 0 <= k < |tried| ==> GoesOn(look(tried[k]))
            case Found(id, value) => tried != [] && id == tried[|tried| - 1] && look(id) == Scanned(true, value)
            case Failed(id) =>
              tried != [] && id == tried[|tried| - 1] && (look(id).FetchFailed? || look(id).ScanFailed?)
  {
    ghost var distinct := FirstSeen(Candidates(d, PREFIX_UTXO));
    tried, searches := [], 0;
    while true
      invariant tried <= distinct && searches == |tried|
      invariant forall k :: 0 <= k < |tried| ==> GoesOn(look(tried[k]))
      decreases |distinct| - |tried|
    {
      NextDistinct(Candidates(d, PREFIX_UTXO), |tried|);
      assert tried == distinct[..|tried|];
      var next := FirstUp(d, PREFIX_UTXO, tried);
      searches := searches + 1;
      if next.None? {
        return NothingIsMine, tried, searches;
      }
      tried := tried + [next.value];
      match look(next.value) {
        case FetchFailed => return Failed(next.value), tried, searches;
        case Missing => continue;
        case ScanFailed => return Failed(next.value), tried, searches;
        case Scanned(isMine, value) =>
          if isMine {
            return Found(next.value, value), tried, searches;
          }
      }
    }
  }

  // ---- Transaction outcomes ----

  /** The two codes are omitted when empty. */
  datatype RejectReason = RejectReason(code: string, abortCode: string, failureCode: string, message: string)

  const NO_REASON := RejectReason("", "", "", "")

  datatype TransactionOutcome = TransactionOutcome(commit: bool, onlyFeeCommit: Option<RejectReason>,
                                                   reject: Option<RejectReason>)

  const NO_OUTCOME := TransactionOutcome(false, None, None)

  function OmitEmpty(key: string, s: string): map<string, Json> {
    if s == "" then map[] else map[key := JStr(s)]
  }

  function MarshalReason(r: RejectReason): Json {
    JObj(map["code" := JStr(r.code), "message" := JStr(r.message)]
         + OmitEmpty("abort_code", r.abortCode) + OmitEmpty("failure_code", r.failureCode))
  }

  function MarshalOutcome(o: TransactionOutcome): Option<Json> {
    if o.onlyFeeCommit.Some? then Some(Tagged("OnlyFeeCommit", MarshalReason(o.onlyFeeCommit.value)))
    else if o.reject.Some? then Some(Tagged("Reject", MarshalReason(o.reject.value)))
    else if o.commit then Some(JStr("Commit"))
    else None
  }

  function UnmarshalReason(json: Json): Option<RejectReason> {
    if json.JNull? then Some(NO_REASON)
    else if !json.JObj? then None
    else
      match (TextField(json, "code"), TextField(json, "abort_code"), TextField(json, "failure_code"),
        TextField(json, "message"))
      case (Some(code), Some(abort), Some(failure), Some(message)) => Some(RejectReason(code, abort, failure, message))
      case _ => None
  }

  /** UnmarshalJSON sets one field of its receiver and leaves the others as they were. */
  function UnmarshalOutcome(receiver: TransactionOutcome, json: Json): Option<TransactionOutcome> {
    if json.JStr? then
      if json.s == "Commit" then Some(receiver.(commit := true)) else None
    else if Field(json, "OnlyFeeCommit").Some? then
      match UnmarshalReason(Field(json, "OnlyFeeCommit").value)
      case None => None
      case Some(reason) => Some(receiver.(onlyFeeCommit := Some(reason)))
    else if Field(json, "Reject").Some? then
      match UnmarshalReason(Field(json, "Reject").value)
      case None => None
      case Some(reason) => Some(receiver.(reject := Some(reason)))
    else None
  }

  /** An outcome on the wire: a reason under its key, or the bare string; of several fields set one is written. */
  lemma OutcomeOnTheWire(o: TransactionOutcome, reason: RejectReason)
    ensures MarshalOutcome(NO_OUTCOME.(onlyFeeCommit := Some(reason)))
            == Some(JObj(map["OnlyFeeCommit" := MarshalReason(reason)]))
    ensures MarshalOutcome(NO_OUTCOME.(reject := Some(reason))) == Some(JObj(map["Reject" := MarshalReason(reason)]))
    ensures MarshalOutcome(o) == Some(JStr("Commit")) <==> o == TransactionOutcome(true, None, None)
    ensures o.onlyFeeCommit.Some? ==> MarshalOutcome(o) == MarshalOutcome(NO_OUTCOME.(onlyFeeCommit := o.onlyFeeCommit))
    ensures o.onlyFeeCommit.None? && o.reject.Some? ==>
              MarshalOutcome(o) == MarshalOutcome(NO_OUTCOME.(reject := o.reject))
  {
  }

  predicate IsText(json: Json) {
    json.JNull? || json.JStr?
  }

  /** A reason reads from null, or from an object whose four keys hold text where present. */
  ghost predicate ReadsReason(json: Json) {
    json.JNull?
    || (json.JObj?
        && ("code" in json.fields ==> IsText(json.fields["code"]))
        && ("message" in json.fields ==> IsText(json.fields["message"]))
        && ("abort_code" in json.fields ==> IsText(json.fields["abort_code"]))
        && ("failure_code" in json.fields ==> IsText(json.fields["failure_code"])))
  }

  /** Which JSON an outcome reads from: a fee-only commit is looked for before a rejection. */
  lemma OutcomeReads(receiver: TransactionOutcome, json: Json)
    ensures UnmarshalOutcome(receiver, json).Some? <==>
              || json == JStr("Commit")
              || (json.JObj? && "OnlyFeeCommit" in json.fields && ReadsReason(json.fields["OnlyFeeCommit"]))
              || (json.JObj? && "OnlyFeeCommit" !in json.fields && "Reject" in json.fields
                  && ReadsReason(json.fields["Reject"]))
    ensures json.JObj? && json.fields.Keys == {"Reject"} && json.fields["Reject"] == JNull ==>
              UnmarshalOutcome(receiver, json) == Some(receiver.(reject := Some(RejectReason("", "", "", ""))))
  {
  }

  /** The shape of a reason: its code and message always, the two other codes unless empty. */
  lemma ReasonOnTheWire(r: RejectReason)
    ensures var json := MarshalReason(r);
            && Field(json, "code") == Some(JStr(r.code)) && Field(json, "message") == Some(JStr(r.message))
            && Field(json, "abort_code") == (if r.abortCode == "" then None else Some(JStr(r.abortCode)))
            && Field(json, "failure_code") == (if r.failureCode == "" then None else Some(JStr(r.failureCode)))
  {
    assert |"code"| == 4 && |"message"| == 7 && |"abort_code"| == 10 && |"failure_code"| == 12;
  }

  function Count(o: TransactionOutcome): nat {
    (if o.commit then 1 else 0) + (if o.onlyFeeCommit.Some? then 1 else 0) + (if o.reject.Some? then 1 else 0)
  }

  lemma ReasonRoundTrip(r: RejectReason)
    ensures UnmarshalReason(MarshalReason(r)) == Some(r)
  {
    assert |"code"| == 4 && |"message"| == 7 && |"abort_code"| == 10 && |"failure_code"| == 12;
  }

  /** An outcome with one field set comes back as it was from a fresh receiver. */
  lemma OutcomeRoundTrip(o: TransactionOutcome)
    ensures MarshalOutcome(o).Some? <==> Count(o) > 0
    ensures Count(o) == 1 ==> UnmarshalOutcome(NO_OUTCOME, MarshalOutcome(o).value) == Some(o)
  {
    assert |"OnlyFeeCommit"| == 13 && |"Reject"| == 6;
    if o.onlyFeeCommit.Some? {
      ReasonRoundTrip(o.onlyFeeCommit.value);
    } else if o.reject.Some? {
      ReasonRoundTrip(o.reject.value);
    }
  }

  /**
   * Exactly one field is set after unmarshalling if and only if the receiver had none set but the one
   * now decoded: a reused receiver keeps what an earlier outcome left in it.
   */
  lemma OneFieldIff(receiver: TransactionOutcome, json: Json)
    requires UnmarshalOutcome(NO_OUTCOME, json).Some?
    ensures var decoded := UnmarshalOutcome(NO_OUTCOME, json).value;
            var o := UnmarshalOutcome(receiver, json);
            && Count(decoded) == 1 && o.Some?
            && (Count(o.value) == 1 <==>
                  && (receiver.commit ==> decoded.commit)
                  && (receiver.onlyFeeCommit.Some? ==> decoded.onlyFeeCommit.Some?)
                  && (receiver.reject.Some? ==> decoded.reject.Some?))
  {
  }

  /** One that was rejected and then decodes a commit reports both. */
  lemma StaleReject()
    ensures var o := UnmarshalOutcome(TransactionOutcome(false, None, Some(NO_REASON)), JStr("Commit"));
            o.Some? && o.value.commit && o.value.reject.Some?
  {
  }
}
