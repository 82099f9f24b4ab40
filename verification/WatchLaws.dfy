/**
 * What resuming from the last delivered event id guarantees, for every server that replays a log
 * with increasing ids and cuts its answers anywhere.
 */
module WatchLaws {
  import opened Prelude
  import opened Sse
  import opened SseLaws
  import opened Watch

  // ---- The server's log ----

  /** Every frame has an id, and the ids increase; `value` is their numeric value. */
  ghost predicate LogOk(log: seq<Frame>, value: string -> int) {
    && (forall i :: 0 <= i < |log| ==> log[i].id != "")
    && (forall i, j :: 0 <= i < j < |log| ==> value(log[i].id) < value(log[j].id))
  }

  /** s is the position of the first log entry strictly after the cursor c. */
  ghost predicate StrictlyAfter(log: seq<Frame>, value: string -> int, c: string, s: nat) {
    && s <= |log|
    && (forall i :: 0 <= i < s ==> value(log[i].id) <= value(c))
    && (forall i :: s <= i < |log| ==> value(log[i].id) > value(c))
  }

  /** The frames are log[s..t], possibly followed by a cut frame that does not decode. */
  ghost predicate Carries<E>(frames: seq<Frame>, log: seq<Frame>, s: nat, t: nat, decode: Frame -> Option<E>) {
    && s <= t <= |log| && t - s <= |frames|
    && frames[..t - s] == log[s..t]
    && Decoded(frames[t - s..], decode) == []
  }

  /**
   * A server of this log: asked with a cursor it replays from strictly after it (or, if it may
   * overlap, from no later than that); asked without one it starts anywhere. It stops anywhere.
   */
  ghost predicate Replays<E>(server: Server, log: seq<Frame>, value: string -> int, decode: Frame -> Option<E>,
                             overlaps: bool) {
    forall k: nat, q: Request ::
      var frames := server(k, q).frames;
      exists s: nat, t: nat ::
        && Carries(frames, log, s, t, decode)
        && (q.lastEventId != "" ==>
              exists a: nat :: StrictlyAfter(log, value, q.lastEventId, a) && (if overlaps then s <= a else s == a))
  }

  function Events<E>(run: Run, decode: Frame -> Option<E>): seq<E> {
    if run.Start? then [] else Events(run.earlier, decode) + Decoded(run.conn.frames, decode)
  }

  /** What the consumer took is the events received, up to where a cancelled send cut it off. */
  lemma TakenIsPrefix<E>(run: Run, decode: Frame -> Option<E>)
    requires WentOn(run, decode)
    ensures AllTaken(run, decode) <= Events(run, decode)
    ensures GoesOn(run, decode) ==> AllTaken(run, decode) == Events(run, decode)
    ensures run.Then? ==> |AllTaken(run, decode)| == |Events(run.earlier, decode)| + SentOf(run.conn, decode)
  {
    if run.Then? {
      TakenIsPrefix(run.earlier, decode);
    }
  }

  /** How many events a connection's consumer was sent. */
  function SentOf<E>(conn: Conn, decode: Frame -> Option<E>): nat {
    var n := |Decoded(conn.frames, decode)|;
    if conn.halt.AtSend? && conn.halt.k < n then conn.halt.k else n
  }

  // ---- One connection's frames ----

  lemma {:induction false} CursorOfConcat<E>(c: string, a: seq<Frame>, b: seq<Frame>, decode: Frame -> Option<E>)
    ensures Cursor(c, a + b, decode) == Cursor(Cursor(c, a, decode), b, decode)
  {
    if b == [] {
      assert a + b == a;
    } else {
      assert (a + b)[..|a + b| - 1] == a + b[..|b| - 1];
      CursorOfConcat(c, a, b[..|b| - 1], decode);
    }
  }

  lemma {:induction false} CursorWithoutEvents<E>(c: string, frames: seq<Frame>, decode: Frame -> Option<E>)
    requires Decoded(frames, decode) == []
    ensures Cursor(c, frames, decode) == c
  {
    if frames != [] {
      CursorWithoutEvents(c, frames[..|frames| - 1], decode);
    }
  }

  /** The part of a connection that counts is the log segment it carries. */
  lemma CarriedSegment<E>(c: string, frames: seq<Frame>, log: seq<Frame>, s: nat, t: nat, decode: Frame -> Option<E>)
    requires Carries(frames, log, s, t, decode)
    ensures Decoded(frames, decode) == Decoded(log[s..t], decode)
    ensures Cursor(c, frames, decode) == Cursor(c, log[s..t], decode)
  {
    assert frames == frames[..t - s] + frames[t - s..];
    DecodedConcat(frames[..t - s], frames[t - s..], decode);
    CursorOfConcat(c, frames[..t - s], frames[t - s..], decode);
    CursorWithoutEvents(Cursor(c, log[s..t], decode), frames[t - s..], decode);
  }

  /** The last event of a segment: everything after it does not decode, and it sets the cursor. */
  lemma {:induction false} SegmentEnd<E>(c: string, log: seq<Frame>, s: nat, t: nat, decode: Frame -> Option<E>)
    returns (u: nat)
    requires s <= t <= |log|
    ensures s <= u <= t && Decoded(log[s..t], decode) == Decoded(log[s..u], decode)
    ensures u == s ==> Cursor(c, log[s..t], decode) == c
    ensures u > s ==> decode(log[u - 1]).Some? && Cursor(c, log[s..t], decode) == log[u - 1].id
  {
    u := t;
    if s < t {
      assert log[s..t][..t - s - 1] == log[s..t - 1];
      if decode(log[t - 1]).None? {
        u := SegmentEnd(c, log, s, t - 1, decode);
      }
    }
  }

  /** The first event of a segment. */
  lemma {:induction false} SegmentStart<E>(c: string, log: seq<Frame>, s: nat, t: nat, decode: Frame -> Option<E>)
    returns (v: nat)
    requires s <= t <= |log|
    ensures s <= v <= t && Decoded(log[s..t], decode) == Decoded(log[v..t], decode)
    ensures Cursor(c, log[s..t], decode) == Cursor(c, log[v..t], decode)
    ensures v < t ==> decode(log[v]).Some?
    decreases t - s
  {
    v := s;
    if s < t && decode(log[s]).None? {
      assert log[s..t] == [log[s]] + log[s + 1..t];
      DecodedConcat([log[s]], log[s + 1..t], decode);
      CursorOfConcat(c, [log[s]], log[s + 1..t], decode);
      assert [log[s]][..0] == [];
      v := SegmentStart(c, log, s + 1, t, decode);
    }
  }

  lemma AfterEntry(log: seq<Frame>, value: string -> int, i: nat, s: nat)
    requires LogOk(log, value) && i < |log| && StrictlyAfter(log, value, log[i].id, s)
    ensures s == i + 1
  {
    assert i + 1 < |log| ==> value(log[i + 1].id) > value(log[i].id);
  }

  lemma AfterIsUnique(log: seq<Frame>, value: string -> int, c: string, s: nat, s': nat)
    requires StrictlyAfter(log, value, c, s) && StrictlyAfter(log, value, c, s')
    ensures s == s'
  {
    assert s < |log| ==> value(log[s].id) > value(c);
    assert s' < |log| ==> value(log[s'].id) > value(c);
  }

  // ---- Exactly once, in order, without gaps ----

  lemma {:induction false} SeedPosition(log: seq<Frame>, value: string -> int, c: string) returns (s: nat)
    requires LogOk(log, value)
    ensures StrictlyAfter(log, value, c, s)
  {
    s := 0;
    while s < |log| && value(log[s].id) <= value(c)
      invariant s <= |log| && forall i :: 0 <= i < s ==> value(log[i].id) <= value(c)
    {
      s := s + 1;
    }
    assert forall i :: s < i < |log| ==> value(log[s].id) < value(log[i].id);
  }

  /** The events received are those of log[i..j], and the cursor stands right after them. */
  ghost predicate ExactSegment<E>(afterId: Option<string>, log: seq<Frame>, value: string -> int,
                                  decode: Frame -> Option<E>,
                                  run: Run, i: nat, j: nat) {
    && i <= j <= |log|
    && Events(run, decode) == Decoded(log[i..j], decode)
    && (if i == j then CursorAfter(afterId, run, decode) == Seed(afterId)
        else decode(log[j - 1]).Some? && CursorAfter(afterId, run, decode) == log[j - 1].id)
    && (if afterId.Some? then StrictlyAfter(log, value, afterId.value, i) else i < j ==> decode(log[i]).Some?)
  }

  /**
   * Gap-free resume. However often the stream is cut, the events delivered are exactly the log's
   * events from the start (strictly after the AfterID seed, or the first event delivered) up to the
   * cursor, in order and once each.
   */
  lemma {:induction false} ResumeIsExact<E>(afterId: Option<string>, server: Server, log: seq<Frame>,
                                            value: string -> int,
                                            decode: Frame -> Option<E>, run: Run) returns (i: nat, j: nat)
    requires LogOk(log, value) && Replays(server, log, value, decode, false) && Played(afterId, server, decode, run)
    requires afterId.Some? ==> afterId.value != ""
    ensures ExactSegment(afterId, log, value, decode, run, i, j)
  {
    if run.Start? {
      i := 0;
      if afterId.Some? {
        i := SeedPosition(log, value, afterId.value);
      }
      j := i;
    } else {
      i, j := ResumeIsExact(afterId, server, log, value, decode, run.earlier);
      var q := NextRequest(afterId, run.earlier, decode);
      var frames := server(run.earlier.Count(), q).frames;
      var s: nat, t: nat :|
        && Carries(frames, log, s, t, decode)
        && (q.lastEventId != "" ==> exists a: nat :: StrictlyAfter(log, value, q.lastEventId, a) && s == a);
      i, j := ExtendSegment(afterId, log, value, decode, run, i, j, s, t);
    }
  }

  /** A server that replays strictly after the cursor resumes where the segment ends. */
  lemma ResumesAtEnd<E>(afterId: Option<string>, log: seq<Frame>, value: string -> int, decode: Frame -> Option<E>,
                        run: Run, i: nat, j: nat, s: nat)
    requires LogOk(log, value) && ExactSegment(afterId, log, value, decode, run, i, j)
    requires CursorAfter(afterId, run, decode) != "" && StrictlyAfter(log, value, CursorAfter(afterId, run, decode), s)
    ensures s == j
  {
    if i < j {
      AfterEntry(log, value, j - 1, s);
    } else {
      AfterIsUnique(log, value, CursorAfter(afterId, run, decode), s, i);
    }
  }

  lemma SegmentHasCursor<E>(afterId: Option<string>, log: seq<Frame>, value: string -> int, decode: Frame -> Option<E>,
                            run: Run, i: nat, j: nat)
    requires LogOk(log, value) && ExactSegment(afterId, log, value, decode, run, i, j) && i < j
    ensures CursorAfter(afterId, run, decode) != ""
  {
  }

  /** Without a cursor nothing has been delivered, and the segment starts with the first event. */
  lemma FirstSegment<E>(afterId: Option<string>, log: seq<Frame>, value: string -> int, decode: Frame -> Option<E>,
                        run: Run, s: nat, t: nat) returns (v: nat, u: nat)
    requires run.Then? && afterId.None? && CursorAfter(afterId, run.earlier, decode) == ""
             && Events(run.earlier, decode) == []
    requires Carries(run.conn.frames, log, s, t, decode)
    ensures ExactSegment(afterId, log, value, decode, run, v, u)
  {
    CarriedSegment("", run.conn.frames, log, s, t, decode);
    v := SegmentStart("", log, s, t, decode);
    u := SegmentEnd("", log, v, t, decode);
  }

  /** With one, the segment goes on where it ended. */
  lemma NextSegment<E>(afterId: Option<string>, log: seq<Frame>, value: string -> int, decode: Frame -> Option<E>,
                       run: Run, i: nat, j: nat, t: nat) returns (u: nat)
    requires run.Then? && ExactSegment(afterId, log, value, decode, run.earlier, i, j)
    requires CursorAfter(afterId, run.earlier, decode) != "" && Carries(run.conn.frames, log, j, t, decode)
    ensures ExactSegment(afterId, log, value, decode, run, i, u)
  {
    var c := CursorAfter(afterId, run.earlier, decode);
    CarriedSegment(c, run.conn.frames, log, j, t, decode);
    u := SegmentEnd(c, log, j, t, decode);
    Joined(log, i, j, u, decode);
  }

  /** The cursor a run has reached is the seed, or the id of the log entry it has reached. */
  lemma ExtendSegment<E>(afterId: Option<string>, log: seq<Frame>, value: string -> int, decode: Frame -> Option<E>,
                         run: Run, i: nat, j: nat, s: nat, t: nat) returns (i': nat, j': nat)
    requires run.Then? && LogOk(log, value) && (afterId.Some? ==> afterId.value != "")
    requires ExactSegment(afterId, log, value, decode, run.earlier, i, j)
    requires Carries(run.conn.frames, log, s, t, decode)
    requires var c := CursorAfter(afterId, run.earlier, decode); c != "" ==> StrictlyAfter(log, value, c, s)
    ensures ExactSegment(afterId, log, value, decode, run, i', j')
  {
    if i < j {
      SegmentHasCursor(afterId, log, value, decode, run.earlier, i, j);
    }
    if CursorAfter(afterId, run.earlier, decode) == "" {
      assert log[i..j] == [];
      i', j' := FirstSegment(afterId, log, value, decode, run, s, t);
    } else {
      ResumesAtEnd(afterId, log, value, decode, run.earlier, i, j, s);
      i' := i;
      j' := NextSegment(afterId, log, value, decode, run, i, j, t);
    }
  }

  lemma Joined<E>(log: seq<Frame>, i: nat, j: nat, u: nat, decode: Frame -> Option<E>)
    requires i <= j <= u <= |log|
    ensures Decoded(log[i..u], decode) == Decoded(log[i..j], decode) + Decoded(log[j..u], decode)
  {
    assert log[i..u] == log[i..j] + log[j..u];
    DecodedConcat(log[i..j], log[j..u], decode);
  }

  // ---- At least once, when the server may replay too much ----

  /** The log positions of the events of log[s..t]. */
  function Positions<E>(log: seq<Frame>, s: nat, t: nat, decode: Frame -> Option<E>): seq<nat>
    requires s <= t <= |log|
  {
    if s == t then []
    else if decode(log[t - 1]).Some? then Positions(log, s, t - 1, decode) + [t - 1]
    else Positions(log, s, t - 1, decode)
  }

  predicate IsEvent<E>(log: seq<Frame>, p: nat, decode: Frame -> Option<E>) {
    p < |log| && decode(log[p]).Some?
  }

  /** Delivered positions never skip an event: the next one repeats, or is the next event. */
  ghost predicate NeverSkips<E>(log: seq<Frame>, ps: seq<nat>, decode: Frame -> Option<E>) {
    && (forall n :: 0 <= n < |ps| ==> IsEvent(log, ps[n], decode))
    && (forall n, p: nat :: 0 < n < |ps| && ps[n - 1] < p < ps[n] ==> !IsEvent(log, p, decode))
  }

  ghost predicate EventsAt<E>(log: seq<Frame>, ps: seq<nat>, events: seq<E>, decode: Frame -> Option<E>) {
    && |events| == |ps|
    && (forall n :: 0 <= n < |ps| ==> IsEvent(log, ps[n], decode) && decode(log[ps[n]]).value == events[n])
  }

  lemma {:induction false} EventsOfSegment<E>(log: seq<Frame>, s: nat, t: nat, decode: Frame -> Option<E>)
    requires s <= t <= |log|
    ensures EventsAt(log, Positions(log, s, t, decode), Decoded(log[s..t], decode), decode)
  {
    if s < t {
      EventsOfSegment(log, s, t - 1, decode);
      assert log[s..t][..t - s - 1] == log[s..t - 1];
    }
  }

  ghost predicate Increasing(ps: seq<nat>) {
    forall m, n :: 0 <= m < n < |ps| ==> ps[m] < ps[n]
  }

  lemma {:induction false} PositionIff<E>(log: seq<Frame>, s: nat, t: nat, p: nat, decode: Frame -> Option<E>)
    requires s <= t <= |log|
    ensures p in Positions(log, s, t, decode) <==> s <= p < t && IsEvent(log, p, decode)
  {
    if s < t {
      PositionIff(log, s, t - 1, p, decode);
    }
  }

  lemma {:induction false} PositionsIncrease<E>(log: seq<Frame>, s: nat, t: nat, decode: Frame -> Option<E>)
    requires s <= t <= |log|
    ensures Increasing(Positions(log, s, t, decode))
  {
    if s < t {
      PositionsIncrease(log, s, t - 1, decode);
      var init := Positions(log, s, t - 1, decode);
      forall n | 0 <= n < |init| ensures init[n] < t - 1 {
        PositionIff(log, s, t - 1, init[n], decode);
      }
    }
  }

  lemma PositionsOfSegment<E>(log: seq<Frame>, s: nat, t: nat, decode: Frame -> Option<E>)
    requires s <= t <= |log|
    ensures Increasing(Positions(log, s, t, decode))
    ensures forall p: nat :: p in Positions(log, s, t, decode) <==> s <= p < t && IsEvent(log, p, decode)
  {
    PositionsIncrease(log, s, t, decode);
    forall p: nat ensures p in Positions(log, s, t, decode) <==> s <= p < t && IsEvent(log, p, decode) {
      PositionIff(log, s, t, p, decode);
    }
  }

  /** A sorted list of all events of a segment skips none. */
  lemma SegmentSkipsNothing<E>(log: seq<Frame>, s: nat, t: nat, decode: Frame -> Option<E>)
    requires s <= t <= |log|
    ensures NeverSkips(log, Positions(log, s, t, decode), decode)
  {
    var ps := Positions(log, s, t, decode);
    PositionsOfSegment(log, s, t, decode);
    forall n | 0 <= n < |ps| ensures s <= ps[n] < t && IsEvent(log, ps[n], decode) {
      assert ps[n] in ps;
    }
    forall n, p: nat | 0 < n < |ps| && ps[n - 1] < p < ps[n] ensures !IsEvent(log, p, decode) {
      assert p !in ps;
    }
  }

  /**
   * Between two deliveries of a run that never skips, every event in between was delivered. With
   * NeverSkips this is the "no gap" promise for a server that may repeat events.
   */
  lemma {:induction false} NothingBetween<E>(log: seq<Frame>, ps: seq<nat>, a: nat, b: nat, p: nat,
                                             decode: Frame -> Option<E>)
    returns (n: nat)
    requires NeverSkips(log, ps, decode) && a <= b < |ps|
    requires ps[a] <= p <= ps[b] && IsEvent(log, p, decode)
    ensures a <= n <= b && ps[n] == p
    decreases b - a
  {
    if ps[b] == p {
      n := b;
    } else {
      assert ps[b - 1] < p ==> !IsEvent(log, p, decode);
      n := NothingBetween(log, ps, a, b - 1, p, decode);
    }
  }

  lemma {:induction false} CursorOfSegment<E>(c: string, log: seq<Frame>, s: nat, t: nat, decode: Frame -> Option<E>)
    requires s <= t <= |log|
    ensures var ps := Positions(log, s, t, decode);
            && (forall n :: 0 <= n < |ps| ==> s <= ps[n] < t)
            && Cursor(c, log[s..t], decode) == if ps == [] then c else log[ps[|ps| - 1]].id
  {
    if s < t {
      CursorOfSegment(c, log, s, t - 1, decode);
      assert log[s..t][..t - s - 1] == log[s..t - 1];
    }
  }

  /** Appending a segment that starts no later than right after the last delivery skips nothing. */
  lemma AppendSegment<E>(log: seq<Frame>, ps: seq<nat>, s: nat, t: nat, decode: Frame -> Option<E>)
    requires NeverSkips(log, ps, decode) && s <= t <= |log|
    requires ps != [] ==> s <= ps[|ps| - 1] + 1
    ensures NeverSkips(log, ps + Positions(log, s, t, decode), decode)
  {
    var more := Positions(log, s, t, decode);
    var all := ps + more;
    SegmentSkipsNothing(log, s, t, decode);
    PositionsOfSegment(log, s, t, decode);
    forall n, p: nat | 0 < n < |all| && all[n - 1] < p < all[n] ensures !IsEvent(log, p, decode) {
      if n == |ps| {
        FirstOfSegment(log, s, t, p, decode);
      } else if n > |ps| {
        assert all[n - 1] == more[n - 1 - |ps|] && all[n] == more[n - |ps|];
      } else {
        assert all[n - 1] == ps[n - 1] && all[n] == ps[n];
      }
    }
  }

  lemma FirstOfSegment<E>(log: seq<Frame>, s: nat, t: nat, p: nat, decode: Frame -> Option<E>)
    requires s <= t <= |log| && Positions(log, s, t, decode) != [] && s <= p < Positions(log, s, t, decode)[0]
    ensures !IsEvent(log, p, decode)
  {
    var ps := Positions(log, s, t, decode);
    PositionsOfSegment(log, s, t, decode);
    assert ps[0] in ps;
    assert p !in ps;
  }

  lemma EventsAtConcat<E>(log: seq<Frame>, ps: seq<nat>, qs: seq<nat>, a: seq<E>, b: seq<E>, decode: Frame -> Option<E>)
    requires EventsAt(log, ps, a, decode) && EventsAt(log, qs, b, decode)
    ensures EventsAt(log, ps + qs, a + b, decode)
  {
  }

  /** Where a run with an overlapping server has got to. */
  ghost predicate Reached<E>(afterId: Option<string>, log: seq<Frame>, value: string -> int, decode: Frame -> Option<E>,
                             run: Run, ps: seq<nat>) {
    && EventsAt(log, ps, Events(run, decode), decode) && NeverSkips(log, ps, decode)
    && (if ps == [] then CursorAfter(afterId, run, decode) == Seed(afterId)
        else ps[|ps| - 1] < |log| && CursorAfter(afterId, run, decode) == log[ps[|ps| - 1]].id)
    && (ps != [] && afterId.Some? ==>
          forall p: nat :: p < ps[0] && IsEvent(log, p, decode) ==> value(log[p].id) <= value(afterId.value))
  }

  /**
   * At-least-once resume: with a server that may replay too much, the events received sit at log
   * positions that never skip an event, starting no later than the first one after the seed.
   */
  lemma {:induction false} ResumeNeverSkips<E>(afterId: Option<string>, server: Server, log: seq<Frame>,
                                               value: string -> int,
                                               decode: Frame -> Option<E>, run: Run) returns (ps: seq<nat>)
    requires LogOk(log, value) && Replays(server, log, value, decode, true) && Played(afterId, server, decode, run)
    requires afterId.Some? ==> afterId.value != ""
    ensures Reached(afterId, log, value, decode, run, ps)
  {
    if run.Start? {
      ps := [];
    } else {
      var before := ResumeNeverSkips(afterId, server, log, value, decode, run.earlier);
      var q := NextRequest(afterId, run.earlier, decode);
      var frames := server(run.earlier.Count(), q).frames;
      var s: nat, t: nat :|
        && Carries(frames, log, s, t, decode)
        && (q.lastEventId != "" ==> exists a: nat :: StrictlyAfter(log, value, q.lastEventId, a) && s <= a);
      if q.lastEventId == "" {
        ps := ReachFurther(afterId, log, value, decode, run, before, s, t, 0);
      } else {
        var a: nat :| StrictlyAfter(log, value, q.lastEventId, a) && s <= a;
        ps := ReachFurther(afterId, log, value, decode, run, before, s, t, a);
      }
    }
  }

  lemma ReachFurther<E>(afterId: Option<string>, log: seq<Frame>, value: string -> int, decode: Frame -> Option<E>,
                        run: Run, ps: seq<nat>, s: nat, t: nat, a: nat) returns (ps': seq<nat>)
    requires run.Then? && LogOk(log, value) && (afterId.Some? ==> afterId.value != "")
    requires Reached(afterId, log, value, decode, run.earlier, ps)
    requires Carries(run.conn.frames, log, s, t, decode)
    requires var c := CursorAfter(afterId, run.earlier, decode); c != "" ==> StrictlyAfter(log, value, c, a) && s <= a
    ensures Reached(afterId, log, value, decode, run, ps')
  {
    var c := CursorAfter(afterId, run.earlier, decode);
    var more := Positions(log, s, t, decode);
    ps' := ps + more;
    if ps != [] {
      AfterEntry(log, value, ps[|ps| - 1], a);
    }
    CarriedSegment(c, run.conn.frames, log, s, t, decode);
    EventsOfSegment(log, s, t, decode);
    EventsAtConcat(log, ps, more, Events(run.earlier, decode), Decoded(log[s..t], decode), decode);
    AppendSegment(log, ps, s, t, decode);
    CursorOfSegment(c, log, s, t, decode);
    if ps == [] && more != [] && afterId.Some? {
      forall p: nat | p < ps'[0] && IsEvent(log, p, decode) ensures value(log[p].id) <= value(afterId.value) {
        if s <= p {
          FirstOfSegment(log, s, t, p, decode);
        }
      }
    }
  }

  // ---- What the consumer is handed ----

  /** Gap-free delivery: exactly those events, or the first of them when a cancel cut the last send off. */
  lemma DeliveredIsExact<E>(afterId: Option<string>, server: Server, log: seq<Frame>, value: string -> int,
                            decode: Frame -> Option<E>, run: Run) returns (i: nat, j: nat)
    requires LogOk(log, value) && Replays(server, log, value, decode, false) && Played(afterId, server, decode, run)
    requires (afterId.Some? ==> afterId.value != "") && WentOn(run, decode)
    ensures ExactSegment(afterId, log, value, decode, run, i, j)
    ensures AllTaken(run, decode) <= Decoded(log[i..j], decode)
    ensures GoesOn(run, decode) ==> AllTaken(run, decode) == Decoded(log[i..j], decode)
    ensures run.Then? ==> |AllTaken(run, decode)| == |Events(run.earlier, decode)| + SentOf(run.conn, decode)
  {
    i, j := ResumeIsExact(afterId, server, log, value, decode, run);
    TakenIsPrefix(run, decode);
  }

  /** The first events of a run that never skips sit at the first of its positions. */
  lemma FirstPositions<E>(log: seq<Frame>, all: seq<nat>, events: seq<E>, taken: seq<E>, decode: Frame -> Option<E>)
    returns (ps: seq<nat>)
    requires EventsAt(log, all, events, decode) && NeverSkips(log, all, decode) && taken <= events
    ensures ps <= all && (taken == events ==> ps == all)
    ensures EventsAt(log, ps, taken, decode) && NeverSkips(log, ps, decode)
  {
    ps := all[..|taken|];
  }

  /** At-least-once delivery: the events handed over sit at positions that never skip one. */
  lemma DeliveredNeverSkips<E>(afterId: Option<string>, server: Server, log: seq<Frame>, value: string -> int,
                               decode: Frame -> Option<E>, run: Run) returns (ps: seq<nat>)
    requires LogOk(log, value) && Replays(server, log, value, decode, true) && Played(afterId, server, decode, run)
    requires (afterId.Some? ==> afterId.value != "") && WentOn(run, decode)
    ensures EventsAt(log, ps, AllTaken(run, decode), decode) && NeverSkips(log, ps, decode)
    ensures ps != [] && afterId.Some? ==>
              forall p: nat :: p < ps[0] && IsEvent(log, p, decode) ==> value(log[p].id) <= value(afterId.value)
    ensures GoesOn(run, decode) ==> Reached(afterId, log, value, decode, run, ps)
  {
    var all := ResumeNeverSkips(afterId, server, log, value, decode, run);
    TakenIsPrefix(run, decode);
    ps := FirstPositions(log, all, Events(run, decode), AllTaken(run, decode), decode);
  }

  // ---- A cut in the bytes ----

  /** A leftover is a whole log entry, or decodes to nothing. */
  lemma LeftoverCarries<E(!new)>(log: seq<Frame>, s: nat, n: nat, last: seq<Frame>, ending: Ending,
                          decode: Frame -> Option<E>)
    returns (t: nat)
    requires s + n < |log| && Leftover(last, log[s + n], ending) && SelfDelimiting(log[s + n], decode)
    ensures Carries(log[s..s + n] + last, log, s, t, decode)
  {
    var frames := log[s..s + n] + last;
    if last == [log[s + n]] {
      t := s + n + 1;
      assert frames == log[s..t] && frames[t - s..] == [];
    } else {
      t := s + n;
      assert frames[..n] == log[s..t] && frames[n..] == last;
    }
  }

  lemma PartCarries<E(!new)>(log: seq<Frame>, s: nat, n: nat, last: seq<Frame>, ending: Ending,
                             decode: Frame -> Option<E>)
    returns (t: nat)
    requires s + n <= |log|
    requires if s + n == |log| then last == []
             else Leftover(last, log[s + n], ending) && SelfDelimiting(log[s + n], decode)
    ensures Carries(log[s..s + n] + last, log, s, t, decode)
  {
    if s + n == |log| {
      t := s + n;
      assert log[s..t] + [] == log[s..t] && log[s..t][n..] == [];
    } else {
      t := LeftoverCarries(log, s, n, last, ending, decode);
    }
  }

  /** A server that prints its log from s on, and whose bytes are cut anywhere, carries a segment of it. */
  lemma CutCarries<E(!new)>(log: seq<Frame>, s: nat, at: nat, ending: Ending, decode: Frame -> Option<E>)
    returns (t: nat)
    requires s <= |log| && AllPrintable(log[s..]) && at <= |Print(log[s..])|
    requires forall p :: s <= p < |log| ==> SelfDelimiting(log[p], decode)
    ensures Carries(Parsed(Print(log[s..])[..at], ending), log, s, t, decode)
  {
    var n, last := CutFrames(log[s..], at, ending);
    SliceFrom(log, s, n);
    t := PartCarries(log, s, n, last, ending, decode);
  }

  lemma SliceFrom(log: seq<Frame>, s: nat, n: nat)
    requires s + n <= |log|
    ensures |log[s..]| == |log| - s && log[s..][..n] == log[s..s + n]
    ensures n < |log[s..]| ==> log[s..][n] == log[s + n]
  {
  }

  function LastOf<E>(frames: seq<Frame>, decode: Frame -> Option<E>): Option<Frame> {
    if frames == [] then None
    else if decode(frames[|frames| - 1]).Some? then Some(frames[|frames| - 1])
    else LastOf(frames[..|frames| - 1], decode)
  }

  /** The last frame a run decoded. */
  function LastDecoded<E>(run: Run, decode: Frame -> Option<E>): Option<Frame> {
    if run.Start? then None
    else
      var last := LastOf(run.conn.frames, decode);
      if last.Some? then last else LastDecoded(run.earlier, decode)
  }

  lemma {:induction false} CursorOfLast<E>(c: string, frames: seq<Frame>, decode: Frame -> Option<E>)
    ensures Cursor(c, frames, decode) == match LastOf(frames, decode) case None => c case Some(f) => f.id
  {
    if frames != [] && decode(frames[|frames| - 1]).None? {
      CursorOfLast(c, frames[..|frames| - 1], decode);
    }
  }

  lemma {:induction false} CursorIsLastDecoded<E>(afterId: Option<string>, run: Run, decode: Frame -> Option<E>)
    ensures CursorAfter(afterId, run, decode) == match LastDecoded(run, decode) case None => Seed(afterId)
            case Some(f) => f.id
  {
    if run.Then? {
      CursorIsLastDecoded(afterId, run.earlier, decode);
      CursorOfLast(CursorAfter(afterId, run.earlier, decode), run.conn.frames, decode);
    }
  }

  /** Every request is recorded, and every connection is the server's answer to the one recorded for it. */
  lemma {:induction false} RequestAt<E>(afterId: Option<string>, server: Server, decode: Frame -> Option<E>, run: Run,
                                        n: nat)
    requires Played(afterId, server, decode, run)
    ensures |Requests(afterId, run, decode)| == run.Count()
    ensures n < run.Count() ==> ConnAt(run, n) == server(n, Requests(afterId, run, decode)[n])
  {
    if run.Then? {
      RequestAt(afterId, server, decode, run.earlier, n);
    }
  }

  /** The request after a run: its cursor is the last decoded frame's id, or the seed while there is none. */
  lemma RequestAfter<E>(afterId: Option<string>, run: Run, decode: Frame -> Option<E>)
    ensures var last, request := LastDecoded(run, decode), NextRequest(afterId, run, decode);
            && (last.Some? ==> request.lastEventId == last.value.id)
            && (last.None? ==> request.lastEventId == if afterId.Some? then afterId.value else "")
            && (request.lastEventId == "" ==> request.afterId == afterId)
            && (request.lastEventId != "" ==> request.afterId == None)
  {
    CursorIsLastDecoded(afterId, run, decode);
  }

  /**
   * The after_id parameter of a seeded watch is not sent on the first connect. It is sent exactly when
   * the last frame decoded had no id: the place is then lost, and the watch starts over from the seed.
   */
  lemma AfterIdSentIff<E>(afterId: Option<string>, run: Run, decode: Frame -> Option<E>)
    requires afterId.Some? && afterId.value != ""
    ensures NextRequest(afterId, Start, decode) == Request(None, afterId.value)
    ensures var last := LastDecoded(run, decode);
            && (NextRequest(afterId, run, decode).afterId.Some? <==> last.Some? && last.value.id == "")
            && (NextRequest(afterId, run, decode).afterId.Some? ==>
              NextRequest(afterId, run, decode) == Request(afterId, ""))
  {
    CursorIsLastDecoded(afterId, run, decode);
  }

  /** The u connections up to the n-th delivered nothing, and the one before them did, if there is one. */
  ghost predicate Unproductive<E>(run: Run, decode: Frame -> Option<E>, n: nat, u: nat)
    requires u <= n + 1 <= run.Count()
  {
    && (forall m :: n - u < m <= n ==> Decoded(ConnAt(run, m).frames, decode) == [])
    && (u <= n ==> Decoded(ConnAt(run, n - u).frames, decode) != [])
  }

  lemma {:induction false} StreakIs<E>(run: Run, decode: Frame -> Option<E>, u: nat)
    requires run.Then? && u <= run.Count() && Unproductive(run, decode, run.Count() - 1, u)
    ensures Streak(run, decode) == u
  {
    var last := run.earlier.Count();
    assert ConnAt(run, last) == run.conn;
    if u > 0 {
      assert !Productive(run.conn, decode);
      if run.earlier.Then? {
        EarlierUnproductive(run, decode, last - 1, u - 1);
        StreakIs(run.earlier, decode, u - 1);
      }
    }
  }

  lemma EarlierUnproductive<E>(run: Run, decode: Frame -> Option<E>, n: nat, u: nat)
    requires run.Then? && u <= n + 1 <= run.earlier.Count() && Unproductive(run, decode, n, u)
    ensures Unproductive(run.earlier, decode, n, u)
  {
    assert forall m: nat :: m <= n ==> ConnAt(run, m) == ConnAt(run.earlier, m);
    forall m | n - u < m <= n ensures Decoded(ConnAt(run.earlier, m).frames, decode) == [] {
      assert Decoded(ConnAt(run, m).frames, decode) == [];
    }
  }

  lemma {:induction false} Pow2Grows(n: nat)
    ensures Pow2(n) >= 1 && (n >= 3 ==> Pow2(n) >= 8)
  {
    if n > 0 {
      Pow2Grows(n - 1);
    }
  }

  /** The wait after the n-th connection: 1, 1, 2, 4 and then 5 seconds after 0, 1, 2, 3 and more unproductive ones. */
  lemma {:induction false} WaitAfter<E>(run: Run, decode: Frame -> Option<E>, n: nat, u: nat)
    requires u <= n + 1 <= run.Count() && Unproductive(run, decode, n, u)
    ensures Waits(run, decode)[n] == if u <= 1 then 1 else if u == 2 then 2 else if u == 3 then 4 else 5
  {
    if n < run.earlier.Count() {
      EarlierUnproductive(run, decode, n, u);
      WaitAfter(run.earlier, decode, n, u);
    } else {
      StreakIs(run, decode, u);
      if u > 3 {
        Pow2Grows(u - 1);
      } else if u == 3 {
        assert Pow2(2) == 4;
      }
    }
  }

  /** Every wait is between one and five seconds. */
  lemma {:induction false} WaitsAreBounded<E>(run: Run, decode: Frame -> Option<E>)
    ensures forall w :: w in Waits(run, decode) ==> 1 <= w <= 5
  {
    if run.Then? {
      WaitsAreBounded(run.earlier, decode);
      Pow2Grows(Streak(run.earlier, decode));
    }
  }
}
