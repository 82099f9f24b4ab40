/**
 * The sequence algorithms around substate fetching: transport.go's chunked FetchSubstates, and
 * driver.go's collectFetchIDs and parseResolution.
 */
module Fetching {
  import opened Prelude

  // ---- transport/transport.go: FetchSubstates ----

  const FETCH_CHUNK: nat := 20

  datatype Substate = Substate(version: nat, value: string)

  datatype Fetched = Fetched(id: string, version: nat, value: string)

  /** One POST /substates/fetch: a decoded response, or a request, status or decoding failure. */
  datatype Response = Body(substates: map<string, Substate>) | Failed(why: string)

  /** The endpoint, as a function of the number of earlier requests and the ids asked for. */
  type Endpoint = (nat, seq<string>) -> Response

  function Post(endpoint: Endpoint, k: nat, ids: seq<string>): Response {
    endpoint(k, ids)
  }

  /** The entries of ids that the map has, in order, repeated ids included. */
  function Lookup(ids: seq<string>, known: map<string, Substate>): seq<Fetched> {
    if ids == [] then []
    else
      var init, id := Lookup(ids[..|ids| - 1], known), ids[|ids| - 1];
      if id in known then init + [Fetched(id, known[id].version, known[id].value)] else init
  }

  /** ps are the positions of ids that the map has, in order. */
  ghost predicate Hits(ps: seq<nat>, ids: seq<string>, known: map<string, Substate>) {
    && (forall i, j :: 0 <= i < j < |ps| ==> ps[i] < ps[j])
    && (forall p: nat :: p in ps <==> p < |ids| && ids[p] in known)
  }

  /** The n-th record is what the map has for the n-th such id, repetitions kept. */
  ghost predicate ReadOff(records: seq<Fetched>, ps: seq<nat>, ids: seq<string>, known: map<string, Substate>) {
    && Hits(ps, ids, known) && |records| == |ps|
    && forall n :: 0 <= n < |ps| ==>
                     && ps[n] in ps
                     && records[n].id == ids[ps[n]]
                     && records[n].version == known[ids[ps[n]]].version
                     && records[n].value == known[ids[ps[n]]].value
  }

  ghost predicate Answers(records: seq<Fetched>, ids: seq<string>, known: map<string, Substate>) {
    exists ps: seq<nat> :: ReadOff(records, ps, ids, known)
  }

  lemma {:induction false} LookupReadsOff(ids: seq<string>, known: map<string, Substate>) returns (ps: seq<nat>)
    ensures ReadOff(Lookup(ids, known), ps, ids, known)
  {
    ps := [];
    if ids != [] {
      var last := |ids| - 1;
      var before := LookupReadsOff(ids[..last], known);
      ps := OneMoreId(Lookup(ids[..last], known), before, ids, known);
    }
  }

  lemma OneMoreId(records: seq<Fetched>, ps: seq<nat>, ids: seq<string>, known: map<string, Substate>)
    returns (ps': seq<nat>)
    requires ids != [] && ReadOff(records, ps, ids[..|ids| - 1], known)
    ensures var id := ids[|ids| - 1];
            ReadOff(if id in known then records + [Fetched(id, known[id].version, known[id].value)] else records,
                    ps', ids, known)
  {
    var last := |ids| - 1;
    assert forall p: nat :: p < last ==> ids[..last][p] == ids[p];
    assert forall n :: 0 <= n < |ps| ==> ps[n] < last;
    ps' := if ids[last] in known then ps + [last] else ps;
    HitsMore(ps, ps', ids, known);
    assert forall n :: 0 <= n < |ps| ==> ps'[n] == ps[n] && ids[..last][ps[n]] == ids[ps[n]];
  }

  lemma HitsMore(ps: seq<nat>, ps': seq<nat>, ids: seq<string>, known: map<string, Substate>)
    requires ids != [] && Hits(ps, ids[..|ids| - 1], known)
    requires ps' == if ids[|ids| - 1] in known then ps + [|ids| - 1] else ps
    ensures Hits(ps', ids, known)
  {
    var last := |ids| - 1;
    assert forall p: nat :: p < last ==> ids[..last][p] == ids[p];
    forall n | 0 <= n < |ps| ensures ps[n] < last {
      assert ps[n] in ps;
    }
    forall p: nat ensures p in ps' <==> p < |ids| && ids[p] in known {
      if p < last {
        assert p in ps' <==> p in ps;
      }
    }
  }

  function Concat<T>(parts: seq<seq<T>>): seq<T> {
    if parts == [] then [] else Concat(parts[..|parts| - 1]) + parts[|parts| - 1]
  }

  ghost predicate WellChunked(chunks: seq<seq<string>>) {
    forall k :: 0 <= k < |chunks| ==>
                  && 0 < |chunks[k]| <= 20
                  && (k < |chunks| - 1 ==> |chunks[k]| == 20)
  }

  /** The endpoint answers each request from one fixed map, whatever else it sends along. */
  ghost predicate Serves(endpoint: Endpoint, known: map<string, Substate>) {
    forall k: nat, ids: seq<string> ::
      endpoint(k, ids).Body? ==>
        forall id :: id in ids ==>
                       && (id in endpoint(k, ids).substates <==> id in known)
                       && (id in known ==> endpoint(k, ids).substates[id] == known[id])
  }

  lemma {:induction false} LookupOfConcat(a: seq<string>, b: seq<string>, known: map<string, Substate>)
    ensures Lookup(a + b, known) == Lookup(a, known) + Lookup(b, known)
  {
    if b == [] {
      assert a + b == a;
    } else {
      assert (a + b)[..|a + b| - 1] == a + b[..|b| - 1];
      LookupOfConcat(a, b[..|b| - 1], known);
    }
  }

  lemma {:induction false} LookupAgrees(ids: seq<string>, m: map<string, Substate>, known: map<string, Substate>)
    requires forall id :: id in ids ==> (id in m <==> id in known) && (id in known ==> m[id] == known[id])
    ensures Lookup(ids, m) == Lookup(ids, known)
  {
    if ids != [] {
      LookupAgrees(ids[..|ids| - 1], m, known);
      assert ids[|ids| - 1] in ids;
    }
  }

  /** The records of one chunk's response, in the chunk's order. */
  method TakeChunk(chunk: seq<string>, substates: map<string, Substate>) returns (out: seq<Fetched>)
    ensures out == Lookup(chunk, substates) && Answers(out, chunk, substates)
  {
    ghost var _ := LookupReadsOff(chunk, substates);
    out := [];
    var i := 0;
    while i < |chunk|
      invariant i <= |chunk| && out == Lookup(chunk[..i], substates)
    {
      var id := chunk[i];
      assert chunk[..i + 1][..i] == chunk[..i];
      if id in substates {
        var sub := substates[id];
        out := out + [Fetched(id, sub.version, sub.value)];
      }
      i := i + 1;
    }
    assert chunk[..i] == chunk;
  }

  /** Ends of the chunk that starts at start. */
  function ChunkEnd(ids: seq<string>, start: nat): nat {
    if start + FETCH_CHUNK > |ids| then |ids| else start + FETCH_CHUNK
  }

  predicate HasChunk(ids: seq<string>, k: nat) {
    FETCH_CHUNK * k < |ids|
  }

  function Chunk(ids: seq<string>, k: nat): seq<string>
    requires HasChunk(ids, k)
  {
    ids[FETCH_CHUNK * k..ChunkEnd(ids, FETCH_CHUNK * k)]
  }

  /** The first n chunks of ids. */
  function Chunks(ids: seq<string>, n: nat): (chunks: seq<seq<string>>)
    requires n > 0 ==> HasChunk(ids, n - 1)
    ensures |chunks| == n
  {
    if n == 0 then [] else Chunks(ids, n - 1) + [Chunk(ids, n - 1)]
  }

  /** The ids the first n chunks cover. */
  function Covered(ids: seq<string>, n: nat): seq<string> {
    ids[..if FETCH_CHUNK * n < |ids| then FETCH_CHUNK * n else |ids|]
  }

  lemma CoveredMore(ids: seq<string>, n: nat)
    requires HasChunk(ids, n)
    ensures Covered(ids, n + 1) == Covered(ids, n) + Chunk(ids, n)
  {
  }

  lemma ConcatMore<T>(parts: seq<seq<T>>, last: seq<T>)
    ensures Concat(parts + [last]) == Concat(parts) + last
  {
    assert (parts + [last])[..|parts|] == parts;
  }

  lemma {:induction false} ChunksConcat(ids: seq<string>, n: nat)
    requires n > 0 ==> HasChunk(ids, n - 1)
    ensures Concat(Chunks(ids, n)) == Covered(ids, n)
  {
    if n > 0 {
      ChunksConcat(ids, n - 1);
      ConcatMore(Chunks(ids, n - 1), Chunk(ids, n - 1));
      CoveredMore(ids, n - 1);
    }
  }

  lemma {:induction false} ChunksAreFull(ids: seq<string>, n: nat)
    requires n > 0 ==> HasChunk(ids, n - 1)
    ensures WellChunked(Chunks(ids, n))
  {
    if n > 0 {
      ChunksAreFull(ids, n - 1);
      if n > 1 {
        assert Chunks(ids, n - 1)[n - 2] == Chunk(ids, n - 2);
      }
    }
  }

  function Substates(response: Response): map<string, Substate> {
    if response.Body? then response.substates else map[]
  }

  /** The records of the first n responses, chunk by chunk and each in its chunk's order. */
  function Merged(ids: seq<string>, endpoint: Endpoint, n: nat): seq<Fetched>
    requires n > 0 ==> HasChunk(ids, n - 1)
  {
    if n == 0 then []
    else Merged(ids, endpoint, n - 1) + Lookup(Chunk(ids, n - 1), Substates(Post(endpoint, n - 1, Chunk(ids, n - 1))))
  }

  lemma {:induction false} MergedIsOneLookup(ids: seq<string>, endpoint: Endpoint, known: map<string, Substate>, n: nat)
    requires n > 0 ==> HasChunk(ids, n - 1)
    requires Serves(endpoint, known) && AllServed(ids, endpoint, n)
    ensures Merged(ids, endpoint, n) == Lookup(Covered(ids, n), known)
  {
    if n > 0 {
      MergedIsOneLookup(ids, endpoint, known, n - 1);
      var chunk := Chunk(ids, n - 1);
      LookupAgrees(chunk, Substates(Post(endpoint, n - 1, chunk)), known);
      LookupOfConcat(Covered(ids, n - 1), chunk, known);
      CoveredMore(ids, n - 1);
    }
  }

  /** The first n requests have all been answered. */
  predicate AllServed(ids: seq<string>, endpoint: Endpoint, n: nat)
    requires n > 0 ==> HasChunk(ids, n - 1)
  {
    n > 0 ==> AllServed(ids, endpoint, n - 1) && Post(endpoint, n - 1, Chunk(ids, n - 1)).Body?
  }

  /** Whatever map a server serves, the records are what it has for the ids. */
  ghost predicate AnswersAll(records: seq<Fetched>, ids: seq<string>, endpoint: Endpoint) {
    forall known :: Serves(endpoint, known) ==> Answers(records, ids, known)
  }

  lemma AllChunks(ids: seq<string>, endpoint: Endpoint, n: nat)
    requires (n > 0 ==> HasChunk(ids, n - 1)) && !HasChunk(ids, n) && AllServed(ids, endpoint, n)
    ensures n == (|ids| + 19) / 20 && WellChunked(Chunks(ids, n))
    ensures Concat(Chunks(ids, n)) == ids && AnswersAll(Merged(ids, endpoint, n), ids, endpoint)
  {
    ChunksAreFull(ids, n);
    ChunksConcat(ids, n);
    assert Covered(ids, n) == ids;
    forall known | Serves(endpoint, known) ensures Answers(Merged(ids, endpoint, n), ids, known) {
      MergedIsOneLookup(ids, endpoint, known, n);
      var _ := LookupReadsOff(ids, known);
    }
  }

  lemma {:induction false} EachServed(ids: seq<string>, endpoint: Endpoint, n: nat)
    requires (n > 0 ==> HasChunk(ids, n - 1)) && AllServed(ids, endpoint, n)
    ensures forall k :: 0 <= k < n ==> endpoint(k, Chunks(ids, n)[k]).Body?
  {
    if n > 0 {
      EachServed(ids, endpoint, n - 1);
      assert Chunks(ids, n)[n - 1] == Chunk(ids, n - 1);
      assert forall k :: 0 <= k < n - 1 ==> Chunks(ids, n)[k] == Chunks(ids, n - 1)[k];
    }
  }

  /** The requests are full chunks of the first ids; all were answered but the last, which failed. */
  ghost predicate StopsAtFailure(ids: seq<string>, endpoint: Endpoint, requests: seq<seq<string>>, why: string) {
    && requests != [] && WellChunked(requests) && Concat(requests) <= ids
    && (forall k :: 0 <= k < |requests| - 1 ==> endpoint(k, requests[k]).Body?)
    && endpoint(|requests| - 1, requests[|requests| - 1]) == Failed(why)
  }

  lemma FailureStops(ids: seq<string>, endpoint: Endpoint, requests: seq<seq<string>>, why: string)
    requires FailedAtLast(ids, endpoint, requests, why)
    ensures StopsAtFailure(ids, endpoint, requests, why)
  {
    ChunksAreFull(ids, |requests|);
    ChunksConcat(ids, |requests|);
    LastChunk(ids, endpoint, requests);
  }

  lemma LastChunk(ids: seq<string>, endpoint: Endpoint, requests: seq<seq<string>>)
    requires requests != [] && HasChunk(ids, |requests| - 1) && requests == Chunks(ids, |requests|)
    requires AllServed(ids, endpoint, |requests| - 1)
    ensures requests[|requests| - 1] == Chunk(ids, |requests| - 1)
    ensures forall k :: 0 <= k < |requests| - 1 ==> endpoint(k, requests[k]).Body?
  {
    var init := Chunks(ids, |requests| - 1);
    EachServed(ids, endpoint, |requests| - 1);
    assert requests == init + [Chunk(ids, |requests| - 1)];
    assert forall k :: 0 <= k < |init| ==> requests[k] == init[k];
  }

  /** One request and its records. */
  method FetchChunk(endpoint: Endpoint, k: nat, chunk: seq<string>) returns (result: Result<seq<Fetched>, string>)
    ensures Post(endpoint, k, chunk).Failed? ==> result == Err(Post(endpoint, k, chunk).why)
    ensures Post(endpoint, k, chunk).Body? ==> result == Ok(Lookup(chunk, Post(endpoint, k, chunk).substates))
  {
    var response := Post(endpoint, k, chunk);
    if response.Failed? {
      return Err(response.why);
    }
    var records := TakeChunk(chunk, response.substates);
    result := Ok(records);
  }

  /** The requests made are the first chunks, and out is what their responses merge to. */
  predicate MergedSoFar(ids: seq<string>, endpoint: Endpoint, requests: seq<seq<string>>, out: seq<Fetched>) {
    && (requests != [] ==> HasChunk(ids, |requests| - 1))
    && requests == Chunks(ids, |requests|)
    && AllServed(ids, endpoint, |requests|)
    && out == Merged(ids, endpoint, |requests|)
  }

  /** The requests made are the first chunks, and the last of them failed. */
  predicate FailedAtLast(ids: seq<string>, endpoint: Endpoint, requests: seq<seq<string>>, why: string) {
    && requests != [] && HasChunk(ids, |requests| - 1)
    && requests == Chunks(ids, |requests|)
    && AllServed(ids, endpoint, |requests| - 1)
    && Post(endpoint, |requests| - 1, Chunk(ids, |requests| - 1)) == Failed(why)
  }

  /** One more chunk, whose request is answered or fails. */
  lemma OneMoreChunk(ids: seq<string>, endpoint: Endpoint, requests: seq<seq<string>>, out: seq<Fetched>,
                     chunk: seq<string>)
    requires MergedSoFar(ids, endpoint, requests, out)
    requires HasChunk(ids, |requests|) && chunk == Chunk(ids, |requests|)
    ensures var response := Post(endpoint, |requests|, chunk);
            && (response.Body? ==>
              MergedSoFar(ids, endpoint, requests + [chunk], out + Lookup(chunk, response.substates)))
            && (response.Failed? ==> FailedAtLast(ids, endpoint, requests + [chunk], response.why))
  {
  }

  /**
   * The requests sent are the first chunks of ids, up to and including the first that fails; without
   * a failure they are all of ids, and the records are those of one lookup over the whole list.
   */
  method FetchSubstates(ids: seq<string>, endpoint: Endpoint)
    returns (result: Result<seq<Fetched>, string>, requests: seq<seq<string>>)
    ensures result.Err? ==> StopsAtFailure(ids, endpoint, requests, result.error)
    ensures result.Ok? ==>
              && MergedSoFar(ids, endpoint, requests, result.value)
              && |requests| == (|ids| + 19) / 20 && WellChunked(requests) && Concat(requests) == ids
              && AnswersAll(result.value, ids, endpoint)
    ensures ids == [] ==> result == Ok([])
  {
    var out: seq<Fetched> := [];
    requests := [];
    var start := 0;
    while start < |ids|
      invariant start == FETCH_CHUNK * |requests| < |ids| + FETCH_CHUNK
      invariant MergedSoFar(ids, endpoint, requests, out)
    {
      var end := start + FETCH_CHUNK;
      if end > |ids| {
        end := |ids|;
      }
      var chunk := ids[start..end];
      OneMoreChunk(ids, endpoint, requests, out, chunk);
      var reply := FetchChunk(endpoint, |requests|, chunk);
      requests := requests + [chunk];
      if reply.Err? {
        FailureStops(ids, endpoint, requests, reply.error);
        return Err(reply.error), requests;
      }
      out := out + reply.value;
      start := start + FETCH_CHUNK;
    }
    AllChunks(ids, endpoint, |requests|);
    result := Ok(out);
  }

  // ---- ootle/driver.go: collectFetchIDs and parseResolution ----

  /** One entry of a want list; absent address fields are empty. */
  datatype Want = Want(kind: string, componentAddress: string, substateId: string)

  /** The ids one want names to fetch, in order. */
  function Seeds(w: Want): seq<string> {
    var named :=
      if w.kind == "vault_for_resource" || w.kind == "all_component_vaults" then [w.componentAddress]
      else if w.kind == "specific_substate" then [w.substateId]
      else if w.kind == "stealth_utxo" then []
      else [w.componentAddress, w.substateId];
    NonEmpty(named)
  }

  /** Which ids a want names, kind by kind; of both the component comes first. */
  lemma SeedsByKind(w: Want)
    ensures var component := if w.componentAddress == "" then [] else [w.componentAddress];
            var substate := if w.substateId == "" then [] else [w.substateId];
            Seeds(w)
            == if w.kind == "vault_for_resource" || w.kind == "all_component_vaults" then component
               else if w.kind == "specific_substate" then substate
               else if w.kind == "stealth_utxo" then []
               else component + substate
  {
    OneName(w.componentAddress);
    OneName(w.substateId);
    BothNames(w.componentAddress, w.substateId);
  }

  lemma BothNames(a: string, b: string)
    ensures NonEmpty([a, b]) == NonEmpty([a]) + NonEmpty([b])
  {
    TwoNames(a, b, []);
    assert [] + NonEmpty([a]) + NonEmpty([b]) == NonEmpty([a]) + NonEmpty([b]);
    assert [] + NonEmpty([a, b]) == NonEmpty([a, b]);
  }

  lemma OneName(id: string)
    ensures NonEmpty([id]) == if id == "" then [] else [id]
  {
    assert [id][..0] == [];
  }

  function NonEmpty(ids: seq<string>): seq<string> {
    if ids == [] then []
    else if ids[|ids| - 1] == "" then NonEmpty(ids[..|ids| - 1])
    else NonEmpty(ids[..|ids| - 1]) + [ids[|ids| - 1]]
  }

  function AllSeeds(wants: seq<Want>): seq<string> {
    if wants == [] then [] else AllSeeds(wants[..|wants| - 1]) + Seeds(wants[|wants| - 1])
  }

  lemma {:induction false} AllSeedsOfConcat(a: seq<Want>, b: seq<Want>)
    ensures AllSeeds(a + b) == AllSeeds(a) + AllSeeds(b)
  {
    if b == [] {
      assert a + b == a;
    } else {
      assert (a + b)[..|a + b| - 1] == a + b[..|b| - 1];
      AllSeedsOfConcat(a, b[..|b| - 1]);
    }
  }

  /** The seeds of a want list are its wants' seeds, in the wants' order. */
  lemma AllSeedsInOrder(before: seq<Want>, w: Want, after: seq<Want>)
    ensures AllSeeds(before + [w] + after) == AllSeeds(before) + Seeds(w) + AllSeeds(after)
  {
    AllSeedsOfConcat(before + [w], after);
    AllSeedsOfConcat(before, [w]);
    assert [w][..0] == [];
  }

  /** The output slice and the seen set of collectFetchIDs. */
  class IdCollector {
    var out: seq<string>
    var seen: set<string>

    ghost predicate Collected(ids: seq<string>)
      reads this
    {
      out == FirstSeen(ids) && seen == set x | x in out
    }

    constructor ()
      ensures Collected([])
    {
      out, seen := [], {};
    }

    method Add(id: string, ghost before: seq<string>)
      requires Collected(before)
      modifies this
      ensures Collected(before + NonEmpty([id]))
    {
      assert [id][..0] == [];
      assert (before + [id])[..|before|] == before;
      if id == "" {
        assert before + [] == before;
        return;
      }
      if id in seen {
        return;
      }
      seen := seen + {id};
      out := out + [id];
    }
  }

  /** The error classes a driver reports. */
  datatype Failure =
    | Validation
    | Encoding
    | Internal
    | NotConverged
    | ContextDone
    | Core(code: string)
    | Transport(why: string)

  /** The JSON of a want list: missing, not decodable as one, or a list. */
  datatype WantJson = Absent | Undecodable | Wants(wants: seq<Want>)

  function FetchIds(json: WantJson): Result<seq<string>, Failure> {
    match json
    case Absent => Ok([])
    case Undecodable => Err(Encoding)
    case Wants(wants) => Ok(FirstSeen(AllSeeds(wants)))
  }

  method CollectFetchIds(json: WantJson) returns (result: Result<seq<string>, Failure>)
    ensures result == FetchIds(json)
  {
    if json.Undecodable? {
      return Err(Encoding);
    }
    var wants := if json.Wants? then json.wants else [];
    var c := new IdCollector();
    var i := 0;
    while i < |wants|
      invariant i <= |wants| && fresh(c) && c.Collected(AllSeeds(wants[..i]))
    {
      var w := wants[i];
      ghost var before := AllSeeds(wants[..i]);
      assert wants[..i + 1][..i] == wants[..i];
      if w.kind == "vault_for_resource" || w.kind == "all_component_vaults" {
        c.Add(w.componentAddress, before);
      } else if w.kind == "specific_substate" {
        c.Add(w.substateId, before);
      } else if w.kind == "stealth_utxo" {
        assert before + [] == before;
      } else {
        c.Add(w.componentAddress, before);
        c.Add(w.substateId, before + NonEmpty([w.componentAddress]));
        TwoNames(w.componentAddress, w.substateId, before);
      }
      i := i + 1;
    }
    assert wants[..i] == wants;
    result := Ok(c.out);
  }

  /** The ids collected are each want's seeds: no repetition, none missing, none empty. */
  lemma CollectedExactly(wants: seq<Want>)
    ensures var ids := FirstSeen(AllSeeds(wants));
            && Distinct(ids) && FirstSeen(ids) == ids
            && (forall id :: id in ids <==> exists w :: w in wants && id in Seeds(w))
            && "" !in ids
  {
    FirstSeenHasSameElements(AllSeeds(wants));
    FirstSeenOfDistinct(FirstSeen(AllSeeds(wants)));
    AllSeedsAre(wants);
  }

  lemma {:induction false} AllSeedsAre(wants: seq<Want>)
    ensures forall id :: id in AllSeeds(wants) <==> exists w :: w in wants && id in Seeds(w)
    ensures "" !in AllSeeds(wants)
  {
    if wants != [] {
      var init, last := wants[..|wants| - 1], wants[|wants| - 1];
      AllSeedsAre(init);
      assert wants == init + [last];
      NonEmptyIsNonEmpty([last.componentAddress]);
      NonEmptyIsNonEmpty([last.substateId]);
      NonEmptyIsNonEmpty([last.componentAddress, last.substateId]);
    }
  }

  lemma {:induction false} NonEmptyIsNonEmpty(ids: seq<string>)
    ensures forall id :: id in NonEmpty(ids) <==> id in ids && id != ""
  {
    if ids != [] {
      NonEmptyIsNonEmpty(ids[..|ids| - 1]);
      assert ids == ids[..|ids| - 1] + [ids[|ids| - 1]];
    }
  }

  /** The core's answer to an apply, as JSON: undecodable, or its fields. */
  datatype ResolutionJson = BadJson | Envelope(status: string, wantList: WantJson, fetchIds: seq<string>)

  datatype Resolution = Resolution(resolved: bool, fetchIds: seq<string>, wantList: WantJson)

  /** On need_more the want list is re-wrapped; collecting from it gives what the core listed. */
  function ParseResolution(json: ResolutionJson): (r: Result<Resolution, Failure>)
    ensures r.Ok? ==> json.Envelope? && (r.value.resolved <==> json.status == "resolved")
    ensures r.Ok? && !r.value.resolved ==>
              r.value.fetchIds == json.fetchIds && FetchIds(r.value.wantList) == FetchIds(json.wantList)
    ensures r.Err? <==> json.BadJson? || json.status !in ["resolved", "need_more"]
    ensures r.Err? ==> r.error == if json.BadJson? then Encoding else Internal
  {
    if json.BadJson? then Err(Encoding)
    else if json.status == "resolved" then Ok(Resolution(true, [], Absent))
    else if json.status == "need_more" then
      var wantList := if json.wantList.Absent? then Wants([]) else json.wantList;
      assert FetchIds(Wants([])) == Ok([]);
      Ok(Resolution(false, json.fetchIds, wantList))
    else Err(Internal)
  }

  /** The ids to fetch next: the core's own, or those of the want list if it names none. */
  function NextIds(r: Resolution): Result<seq<string>, Failure> {
    if r.fetchIds != [] then Ok(r.fetchIds) else FetchIds(r.wantList)
  }

  lemma TwoNames(a: string, b: string, before: seq<string>)
    ensures before + NonEmpty([a]) + NonEmpty([b]) == before + NonEmpty([a, b])
  {
    assert [a][..0] == [] && [b][..0] == [] && [a, b][..1] == [a];
  }
}
