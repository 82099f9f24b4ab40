/**
 * transport/sse.go: the reader of one Server-Sent-Events response body.
 *
 * A char stands for one byte of the body. The parser is specified by grouping the body's lines
 * into blocks; ReadStream is the source's line-driven loop over mutable accumulators.
 */
module Sse {
  import opened Prelude

  datatype Frame = Frame(event: string, id: string, data: string)

  // ---- Text ----

  /** Where c first occurs in s, or |s|. */
  function IndexOf(s: string, c: char): (i: nat)
    ensures i <= |s|
  {
    if s == "" || s[0] == c then 0 else 1 + IndexOf(s[1..], c)
  }

  lemma {:induction false} IndexOfIsFirst(s: string, c: char)
    ensures c !in s[..IndexOf(s, c)]
    ensures IndexOf(s, c) < |s| ==> s[IndexOf(s, c)] == c
    ensures IndexOf(s, c) < |s| <==> c in s
  {
    if s != "" && s[0] != c {
      IndexOfIsFirst(s[1..], c);
      assert s == [s[0]] + s[1..];
      assert s[..IndexOf(s, c)] == [s[0]] + s[1..][..IndexOf(s[1..], c)];
    }
  }

  lemma {:induction false} FirstIsIndexOf(s: string, c: char, i: nat)
    requires i <= |s| && c !in s[..i] && (i < |s| ==> s[i] == c)
    ensures IndexOf(s, c) == i
  {
    if i > 0 {
      assert s[0] == s[..i][0];
      assert s[1..][..i - 1] == s[..i][1..];
      FirstIsIndexOf(s[1..], c, i - 1);
    }
  }

  /** Drops every trailing c. */
  function TrimRight(s: string, c: char): string {
    if s != "" && s[|s| - 1] == c then TrimRight(s[..|s| - 1], c) else s
  }

  lemma {:induction false} TrimRightIsLongest(s: string, c: char)
    ensures TrimRight(s, c) <= s && (TrimRight(s, c) == "" || TrimRight(s, c)[|TrimRight(s, c)| - 1] != c)
    ensures forall i :: |TrimRight(s, c)| <= i < |s| ==> s[i] == c
  {
    if s != "" && s[|s| - 1] == c {
      TrimRightIsLongest(s[..|s| - 1], c);
    }
  }

  function SplitField(line: string): (r: (string, string))
    ensures ':' !in line ==> r == (line, "")
    ensures ':' in line ==>
              && ':' !in r.0
              && (line == r.0 + ": " + r.1 || (line == r.0 + ":" + r.1 && !(" " <= r.1)))
  {
    var i := IndexOf(line, ':');
    IndexOfIsFirst(line, ':');
    if i == |line| then
      assert line[..i] == line;
      (line, "")
    else
      var value := line[i + 1..];
      assert line == line[..i] + ":" + value;
      if " " <= value then
        assert value == " " + value[1..];
        (line[..i], value[1..])
      else (line[..i], value)
  }

  // ---- What a body means ----

  /** The body's lines, without terminators and trailing CRs; a last line may be unterminated. */
  function Lines(s: string): seq<string> {
    if s == "" then []
    else
      var i := IndexOf(s, '\n');
      if i == |s| then [TrimRight(s, '\r')]
      else [TrimRight(s[..i], '\r')] + Lines(s[i + 1..])
  }

  /** The blocks of lines that a blank line has ended, and the block still open after them. */
  function Closed(lines: seq<string>): seq<seq<string>> {
    if lines == [] then []
    else
      var init := lines[..|lines| - 1];
      if lines[|lines| - 1] == "" then Closed(init) + [Open(init)] else Closed(init)
  }

  function Open(lines: seq<string>): seq<string> {
    if lines == [] || lines[|lines| - 1] == "" then []
    else Open(lines[..|lines| - 1]) + [lines[|lines| - 1]]
  }

  predicate IsComment(line: string) {
    ":" <= line
  }

  datatype FieldName = EventField | IdField | DataField | UnknownField

  function NameOf(field: string): FieldName {
    if field == "event" then EventField
    else if field == "id" then IdField
    else if field == "data" then DataField
    else UnknownField
  }

  /** The values a block gives to one field, in order. */
  function Values(block: seq<string>, name: FieldName): seq<string> {
    if block == [] then []
    else
      var line := block[|block| - 1];
      var earlier := Values(block[..|block| - 1], name);
      if !IsComment(line) && NameOf(SplitField(line).0) == name then earlier + [SplitField(line).1] else earlier
  }

  function LastOr(values: seq<string>): string {
    if values == [] then "" else values[|values| - 1]
  }

  function Join(parts: seq<string>): string {
    if parts == [] then ""
    else if |parts| == 1 then parts[0]
    else Join(parts[..|parts| - 1]) + "\n" + parts[|parts| - 1]
  }

  /** A block is one frame if it has a data line, and nothing otherwise. */
  function BlockFrames(block: seq<string>): seq<Frame> {
    if Values(block, DataField) == [] then []
    else [Frame(LastOr(Values(block, EventField)), LastOr(Values(block, IdField)), Join(Values(block, DataField)))]
  }

  function Frames(blocks: seq<seq<string>>): seq<Frame> {
    if blocks == [] then []
    else Frames(blocks[..|blocks| - 1]) + BlockFrames(blocks[|blocks| - 1])
  }

  /** Frames emitted while reading, before any flush. */
  function Dispatched(body: string): seq<Frame> {
    Frames(Closed(Lines(body)))
  }

  /** Frames emitted when the body ends with EOF: the open block is flushed too. */
  function Flushed(body: string): seq<Frame> {
    Dispatched(body) + BlockFrames(Open(Lines(body)))
  }

  // ---- The reader ----

  /** How reading ends: EOF, a read error, or a read error after the context was cancelled. */
  datatype Ending = Eof | Broken | Cancelled

  /** What readStream does to its channels and body, in order. */
  datatype Op =
    | Send(frame: Frame)
    | SendErr(cause: Ending)
    | Refuse(failure: Opening)
    | CloseErrs
    | CloseOut
    | CloseBody

  /** How the request for a stream comes out. */
  datatype Opening = NoRequest | Unauthorized | Unreachable | Answered(status: nat)

  function Sends(frames: seq<Frame>): seq<Op> {
    seq(|frames|, i requires 0 <= i < |frames| => Send(frames[i]))
  }

  const CLOSING: seq<Op> := [CloseErrs, CloseOut, CloseBody]

  function Parsed(body: string, ending: Ending): seq<Frame> {
    if ending.Eof? then Flushed(body) else Dispatched(body)
  }

  /**
   * The channel operations of a whole run. The consumer takes `patience` frames; at the next one
   * the cancelled context wins the select.
   */
  function Trace(body: string, ending: Ending, patience: nat): seq<Op> {
    var all := Parsed(body, ending);
    if patience < |all| then Sends(all[..patience]) + CLOSING
    else Sends(all) + (if ending.Cancelled? then [] else [SendErr(ending)]) + CLOSING
  }

  /** bufio's ReadString('\n'): the text up to and including LF, or the rest with an error. */
  method ReadString(body: string, pos: nat) returns (line: string, next: nat, failed: bool)
    requires pos <= |body|
    ensures pos <= next <= |body| && line == body[pos..next]
    ensures failed ==> next == |body| && '\n' !in line
    ensures !failed ==> line != "" && line[|line| - 1] == '\n' && '\n' !in line[..|line| - 1]
  {
    var i := IndexOf(body[pos..], '\n');
    IndexOfIsFirst(body[pos..], '\n');
    failed := pos + i == |body|;
    next := if failed then |body| else pos + i + 1;
    line := body[pos..next];
    assert failed ==> line == body[pos..][..i];
    assert !failed ==> line[..|line| - 1] == body[pos..][..i];
  }

  /** The reader's per-frame accumulators, and the frames sent so far. */
  datatype Reader = Reader(event: string, id: string, data: string, hasData: bool, sent: seq<Frame>) {
    function Dispatched(): Reader {
      Reader("", "", "", false, if hasData then sent + [Frame(event, id, data)] else sent)
    }

    function After(line: string): Reader {
      if line == "" then Dispatched()
      else if IsComment(line) then this
      else
        var (field, value) := SplitField(line);
        match NameOf(field)
        case EventField => this.(event := value)
        case IdField => this.(id := value)
        case DataField => this.(data := (if hasData then data + "\n" else data) + value, hasData := true)
        case UnknownField => this
    }
  }

  function Read(lines: seq<string>): Reader {
    if lines == [] then Reader("", "", "", false, [])
    else Read(lines[..|lines| - 1]).After(lines[|lines| - 1])
  }

  /** The accumulators as readStream's closure holds them, and the channel operations done. */
  class Accumulators {
    const patience: nat
    var event: string
    var id: string
    var data: string
    var hasData: bool
    var ops: seq<Op>
    ghost var sent: seq<Frame>

    ghost predicate Valid()
      reads this
    {
      ops == Sends(sent) && |sent| <= patience
    }

    ghost function Abs(): Reader
      reads this
    {
      Reader(event, id, data, hasData, sent)
    }

    constructor (patience: nat)
      ensures Valid() && this.patience == patience && Abs() == Read([])
    {
      this.patience := patience;
      event, id, data, hasData, ops, sent := "", "", "", false, [], [];
    }

    /** Sends the pending frame, if it has data, and resets; stops if the context wins the send. */
    method Dispatch() returns (cancelled: bool)
      requires Valid()
      modifies this
      ensures Valid()
      ensures cancelled <==> old(hasData && |sent| == patience)
      ensures Abs() == if cancelled then old(Abs()) else old(Abs()).Dispatched()
    {
      if hasData {
        if |ops| == patience {
          return true;
        }
        var frame := Frame(event, id, data);
        ops, sent := ops + [Send(frame)], sent + [frame];
      }
      event, id, data, hasData := "", "", "", false;
      return false;
    }

    method Line(trimmed: string) returns (cancelled: bool)
      requires Valid()
      modifies this
      ensures Valid()
      ensures cancelled <==> trimmed == "" && old(hasData && |sent| == patience)
      ensures Abs() == if cancelled then old(Abs()) else old(Abs()).After(trimmed)
    {
      if trimmed == "" {
        cancelled := Dispatch();
      } else if ":" <= trimmed {
        // A keep-alive comment.
        cancelled := false;
      } else {
        cancelled := false;
        var (field, value) := SplitField(trimmed);
        match NameOf(field) {
          case EventField =>
            event := value;
          case IdField =>
            id := value;
          case DataField =>
            data := (if hasData then data + "\n" else data) + value;
            hasData := true;
          case UnknownField =>
        }
      }
    }
  }

  method ReadStream(body: string, ending: Ending, patience: nat) returns (ops: seq<Op>)
    ensures ops == Trace(body, ending, patience)
  {
    var acc := new Accumulators(patience);
    var pos, failed := 0, false;
    ghost var done: seq<string> := [];
    assert body[0..] == body;
    while !failed
      invariant fresh(acc) && acc.Valid() && acc.patience == patience
      invariant pos <= |body| && (failed ==> pos == |body|)
      invariant Lines(body) == done + Lines(body[pos..])
      invariant acc.Abs() == Read(done)
      decreases |body| - pos, !failed
    {
      var line, next;
      line, next, failed := ReadString(body, pos);
      if line != "" {
        var trimmed := TrimRight(TrimRight(line, '\n'), '\r');
        NextLine(body, pos, next, line, failed, done);
        var cancelled := acc.Line(trimmed);
        if cancelled {
          SentSoFar(body, ending, done, trimmed, Lines(body[next..]));
          CutShort(body, ending, acc.sent);
          return acc.ops + CLOSING;
        }
        done := done + [trimmed];
      }
      pos := next;
    }
    assert done == Lines(body);
    ReadBody(body);
    if ending.Cancelled? {
      return acc.ops + CLOSING;
    }
    if ending.Eof? {
      var cancelled := acc.Dispatch();
      if cancelled {
        CutShort(body, ending, acc.sent);
        return acc.ops + CLOSING;
      }
    }
    return acc.ops + [SendErr(ending)] + CLOSING;
  }

  lemma NextLine(body: string, pos: nat, next: nat, line: string, last: bool, done: seq<string>)
    requires pos < next <= |body| && line == body[pos..next]
    requires last ==> next == |body| && '\n' !in line
    requires !last ==> line[|line| - 1] == '\n' && '\n' !in line[..|line| - 1]
    requires Lines(body) == done + Lines(body[pos..])
    ensures var trimmed := TrimRight(TrimRight(line, '\n'), '\r');
            && Lines(body) == done + [trimmed] + Lines(body[next..])
            && Read(done + [trimmed]) == Read(done).After(trimmed)
  {
    var trimmed := TrimRight(TrimRight(line, '\n'), '\r');
    assert Lines(body[pos..]) == [trimmed] + Lines(body[next..]) by {
      LinesStep(body[pos..], line, last);
      assert body[pos..][|line|..] == body[next..];
    }
    Regroup(done, trimmed, Lines(body[next..]));
    ReadStep(done, trimmed);
  }

  lemma Regroup(a: seq<string>, x: string, b: seq<string>)
    ensures a + ([x] + b) == a + [x] + b
  {
  }

  lemma ReadStep(lines: seq<string>, line: string)
    ensures Read(lines + [line]) == Read(lines).After(line)
  {
    assert (lines + [line])[..|lines|] == lines;
  }

  /** The line machine computes what the blocks say. */
  lemma ReadBody(body: string)
    ensures Read(Lines(body)).sent == Dispatched(body)
    ensures Read(Lines(body)).Dispatched().sent == Flushed(body)
  {
    ReadIsBlocks(Lines(body));
  }

  lemma JoinGrows(parts: seq<string>, last: string)
    ensures Join(parts + [last]) == if parts == [] then last else Join(parts) + "\n" + last
  {
    assert (parts + [last])[..|parts|] == parts;
  }

  lemma ValuesGrow(block: seq<string>, line: string, name: FieldName)
    ensures Values(block + [line], name)
            == if !IsComment(line) && NameOf(SplitField(line).0) == name then Values(block, name) + [SplitField(line).1]
               else Values(block, name)
  {
    assert (block + [line])[..|block|] == block;
  }

  /** The accumulators hold the open block, and what was sent is the closed blocks' frames. */
  lemma {:induction false} ReadIsBlocks(lines: seq<string>)
    ensures Read(lines).sent == Frames(Closed(lines))
    ensures Read(lines).event == LastOr(Values(Open(lines), EventField))
    ensures Read(lines).id == LastOr(Values(Open(lines), IdField))
    ensures Read(lines).data == Join(Values(Open(lines), DataField))
    ensures Read(lines).hasData == (Values(Open(lines), DataField) != [])
  {
    if lines != [] {
      var init, line := lines[..|lines| - 1], lines[|lines| - 1];
      assert lines == init + [line];
      ReadIsBlocks(init);
      if line == "" {
        BlankLine(init, []);
      } else {
        ContentLine(init, line);
        ValuesGrow(Open(init), line, EventField);
        ValuesGrow(Open(init), line, IdField);
        ValuesGrow(Open(init), line, DataField);
        JoinGrows(Values(Open(init), DataField), SplitField(line).1);
      }
    }
  }

  lemma ContentLine(lines: seq<string>, line: string)
    requires line != ""
    ensures Closed(lines + [line]) == Closed(lines)
    ensures Open(lines + [line]) == Open(lines) + [line]
  {
    assert (lines + [line])[..|lines|] == lines;
  }

  lemma BlankLine(lines: seq<string>, rest: seq<string>)
    ensures Frames(Closed(lines + [""])) == Frames(Closed(lines)) + BlockFrames(Open(lines))
    ensures Frames(Closed(lines + [""])) <= Frames(Closed(lines + [""] + rest))
    ensures Open(lines + [""]) == []
  {
    assert (lines + [""])[..|lines|] == lines;
    assert (Closed(lines) + [Open(lines)])[..|Closed(lines)|] == Closed(lines);
    ClosedGrows(lines + [""], rest);
  }

  lemma LinesStep(rest: string, line: string, last: bool)
    requires line != "" && line <= rest
    requires last ==> line == rest && '\n' !in line
    requires !last ==> line[|line| - 1] == '\n' && '\n' !in line[..|line| - 1]
    ensures Lines(rest) == [TrimRight(TrimRight(line, '\n'), '\r')] + Lines(rest[|line|..])
  {
    if last {
      assert rest[..|rest|] == rest;
      FirstIsIndexOf(rest, '\n', |rest|);
    } else {
      var n := |line| - 1;
      assert rest[n] == '\n' && line[..n] == rest[..n];
      FirstIsIndexOf(rest, '\n', n);
    }
  }

  lemma {:induction false} ClosedGrows(a: seq<string>, b: seq<string>)
    ensures Closed(a) <= Closed(a + b)
    ensures Frames(Closed(a)) <= Frames(Closed(a + b))
  {
    if b == [] {
      assert a + b == a;
    } else {
      ClosedGrows(a, b[..|b| - 1]);
      assert (a + b)[..|a + b| - 1] == a + b[..|b| - 1];
    }
  }

  lemma SentSoFar(body: string, ending: Ending, done: seq<string>, blank: string, rest: seq<string>)
    requires Lines(body) == done + [blank] + rest && blank == "" && Read(done).hasData
    ensures Read(done).sent < Parsed(body, ending)
  {
    ReadIsBlocks(done);
    BlankLine(done, rest);
  }

  /** A run that stops for the context has sent the first frames of everything it could send. */
  lemma CutShort(body: string, ending: Ending, sent: seq<Frame>)
    requires sent < Parsed(body, ending)
    ensures Trace(body, ending, |sent|) == Sends(sent) + CLOSING
  {
    assert Parsed(body, ending)[..|sent|] == sent;
  }

  // ---- Opening a stream ----

  /** The headers that matter: a cursor is sent only if there is one. */
  datatype Headers = Headers(accept: string, lastEventId: Option<string>)

  predicate Opens(opening: Opening) {
    opening.Answered? && 200 <= opening.status < 300
  }

  /**
   * The channel operations of a whole stream. A failed open closes out before errs, but only after
   * its error is in errs.
   */
  function StreamTrace(opening: Opening, body: string, ending: Ending, patience: nat): seq<Op> {
    if Opens(opening) then Trace(body, ending, patience)
    else (if opening.Answered? then [CloseBody] else []) + [Refuse(opening), CloseOut, CloseErrs]
  }

  method Fail(opening: Opening) returns (ops: seq<Op>)
    ensures ops == [Refuse(opening), CloseOut, CloseErrs]
  {
    ops := [Refuse(opening)];
    ops := ops + [CloseOut];
    ops := ops + [CloseErrs];
  }

  method OpenStream(lastEventId: string, opening: Opening, body: string, ending: Ending, patience: nat)
    returns (headers: Option<Headers>, ops: seq<Op>)
    ensures headers.None? <==> opening.NoRequest?
    ensures headers.Some? ==>
              && headers.value.accept == "text/event-stream"
              && headers.value.lastEventId == if lastEventId == "" then None else Some(lastEventId)
    ensures ops == StreamTrace(opening, body, ending, patience)
    ensures DoAll(ops).Some? && EndsAs(DoAll(ops).value, opening, body, ending, patience)
  {
    ChannelsAreDisciplined(opening, body, ending, patience);
    if opening.NoRequest? {
      ops := Fail(opening);
      return None, ops;
    }
    var h := Headers("text/event-stream", None);
    if lastEventId != "" {
      h := h.(lastEventId := Some(lastEventId));
    }
    if opening.Unauthorized? || opening.Unreachable? {
      ops := Fail(opening);
      return Some(h), ops;
    }
    if opening.status < 200 || opening.status >= 300 {
      ops := Fail(opening);
      return Some(h), [CloseBody] + ops;
    }
    ops := ReadStream(body, ending, patience);
    return Some(h), ops;
  }

  // ---- The channels ----

  /** What has gone through the channels, and which are closed; errs buffers one error. */
  datatype Channels = Channels(out: seq<Frame>, error: Option<Op>, outClosed: bool, errsClosed: bool, bodyClosed: bool)

  const OPEN := Channels([], None, false, false, false)

  /**
   * One operation. None for what must not happen: a send on or a second close of a closed channel, a
   * second error with nobody bound to take the first, or closing out while a consumer that then
   * receives from errs, as the watch does, would find it neither closed nor filled.
   */
  function Do(before: Option<Channels>, op: Op): Option<Channels> {
    match before
    case None => None
    case Some(c) =>
      match op
      case Send(f) => if c.outClosed then None else Some(c.(out := c.out + [f]))
      case SendErr(_) => if c.errsClosed || c.error.Some? then None else Some(c.(error := Some(op)))
      case Refuse(_) => if c.errsClosed || c.error.Some? then None else Some(c.(error := Some(op)))
      case CloseErrs => if c.errsClosed then None else Some(c.(errsClosed := true))
      case CloseOut => if c.outClosed || (c.error.None? && !c.errsClosed) then None else Some(c.(outClosed := true))
      case CloseBody => if c.bodyClosed then None else Some(c.(bodyClosed := true))
  }

  function DoAll(ops: seq<Op>): Option<Channels> {
    if ops == [] then Some(OPEN) else Do(DoAll(ops[..|ops| - 1]), ops[|ops| - 1])
  }

  lemma DoMore(ops: seq<Op>, op: Op)
    ensures DoAll(ops + [op]) == Do(DoAll(ops), op)
  {
    assert (ops + [op])[..|ops|] == ops;
  }

  lemma {:induction false} SendsDone(frames: seq<Frame>)
    ensures DoAll(Sends(frames)) == Some(OPEN.(out := frames))
  {
    if frames == [] {
      assert Sends(frames) == [];
    } else {
      var init, last := frames[..|frames| - 1], frames[|frames| - 1];
      SendsDone(init);
      assert Sends(frames) == Sends(init) + [Send(last)];
      DoMore(Sends(init), Send(last));
      assert frames == init + [last];
    }
  }

  lemma ClosingDone(ops: seq<Op>, c: Channels)
    requires DoAll(ops) == Some(c) && !c.outClosed && !c.errsClosed && !c.bodyClosed
    ensures DoAll(ops + CLOSING) == Some(c.(outClosed := true, errsClosed := true, bodyClosed := true))
  {
    DoMore(ops, CloseErrs);
    DoMore(ops + [CloseErrs], CloseOut);
    DoMore(ops + [CloseErrs] + [CloseOut], CloseBody);
    assert ops + CLOSING == ops + [CloseErrs] + [CloseOut] + [CloseBody];
  }

  /** What a consumer of this patience gets: frames, then one error unless the context was cancelled. */
  ghost predicate EndsAs(c: Channels, opening: Opening, body: string, ending: Ending, patience: nat) {
    && c.outClosed && c.errsClosed && (c.bodyClosed <==> opening.Answered?)
    && if opening.Answered? && 200 <= opening.status < 300 then
         var all := Parsed(body, ending);
         if patience < |all| then c.out == all[..patience] && c.error == None
         else c.out == all && c.error == if ending.Cancelled? then None else Some(SendErr(ending))
       else c.out == [] && c.error == Some(Refuse(opening))
  }

  lemma FailureDone(ops: seq<Op>, c: Channels, opening: Opening)
    requires DoAll(ops) == Some(c) && !c.outClosed && !c.errsClosed && c.error.None?
    ensures DoAll(ops + [Refuse(opening), CloseOut, CloseErrs])
            == Some(c.(error := Some(Refuse(opening)), outClosed := true, errsClosed := true))
  {
    DoMore(ops, Refuse(opening));
    DoMore(ops + [Refuse(opening)], CloseOut);
    DoMore(ops + [Refuse(opening)] + [CloseOut], CloseErrs);
    assert ops + [Refuse(opening), CloseOut, CloseErrs] == ops + [Refuse(opening)] + [CloseOut] + [CloseErrs];
  }

  lemma TraceDone(body: string, ending: Ending, patience: nat)
    ensures var all := Parsed(body, ending);
            var sent := if patience < |all| then all[..patience] else all;
            DoAll(Trace(body, ending, patience))
            == Some(Channels(sent, if patience < |all| || ending.Cancelled? then None else Some(SendErr(ending)),
                             true, true, true))
  {
    var all := Parsed(body, ending);
    var sent := if patience < |all| then all[..patience] else all;
    SendsDone(sent);
    if patience < |all| || ending.Cancelled? {
      ClosingDone(Sends(sent), OPEN.(out := sent));
      assert Sends(sent) + [] == Sends(sent);
    } else {
      DoMore(Sends(sent), SendErr(ending));
      ClosingDone(Sends(sent) + [SendErr(ending)], OPEN.(out := sent, error := Some(SendErr(ending))));
    }
  }

  /** Every stream keeps the discipline to its end: at most one error, and every channel closed once. */
  lemma ChannelsAreDisciplined(opening: Opening, body: string, ending: Ending, patience: nat)
    ensures var done := DoAll(StreamTrace(opening, body, ending, patience));
            done.Some? && EndsAs(done.value, opening, body, ending, patience)
  {
    if Opens(opening) {
      TraceDone(body, ending, patience);
    } else if opening.Answered? {
      DoMore([], CloseBody);
      assert [] + [CloseBody] == [CloseBody];
      FailureDone([CloseBody], OPEN.(bodyClosed := true), opening);
    } else {
      FailureDone([], OPEN, opening);
      assert StreamTrace(opening, body, ending, patience) == [] + [Refuse(opening), CloseOut, CloseErrs];
    }
  }

  /** At every moment of a stream, once out is closed a receive from errs returns at once. */
  lemma {:induction false} ReceiveReturns(ops: seq<Op>, n: nat)
    requires n <= |ops| && DoAll(ops).Some?
    ensures DoAll(ops[..n]).Some?
    ensures DoAll(ops[..n]).value.outClosed ==>
              DoAll(ops[..n]).value.errsClosed || DoAll(ops[..n]).value.error.Some?
  {
    if n < |ops| {
      assert ops[..|ops| - 1][..n] == ops[..n];
      ReceiveReturns(ops[..|ops| - 1], n);
    } else {
      assert ops[..n] == ops;
      if n > 0 {
        ReceiveReturns(ops[..n - 1], n - 1);
        assert ops[..n - 1][..n - 1] == ops[..n - 1];
      }
    }
  }
}
