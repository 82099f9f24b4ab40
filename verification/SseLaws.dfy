/**
 * Laws of the SSE reader: it inverts a printer, ignores CRLF and comment lines, and reads a cut
 * body as a cut list of frames.
 */
module SseLaws {
  import opened Prelude
  import opened Sse

  // ---- Concatenating bodies ----

  predicate EndsLine(s: string) {
    s == "" || s[|s| - 1] == '\n'
  }

  predicate IsLine(line: string) {
    line != "" && line[|line| - 1] == '\n' && '\n' !in line[..|line| - 1]
  }

  lemma LinesOfLine(line: string, rest: string)
    requires IsLine(line)
    ensures Lines(line + rest) == [TrimRight(TrimRight(line, '\n'), '\r')] + Lines(rest)
  {
    LinesStep(line + rest, line, false);
    assert (line + rest)[|line|..] == rest;
  }

  lemma FirstLine(a: string) returns (line: string, rest: string)
    requires a != "" && EndsLine(a)
    ensures a == line + rest && IsLine(line) && EndsLine(rest) && |rest| < |a|
  {
    var i := IndexOf(a, '\n');
    IndexOfIsFirst(a, '\n');
    assert a[|a| - 1] in a;
    line, rest := a[..i + 1], a[i + 1..];
    assert line[..i] == a[..i];
    assert rest != "" ==> rest[|rest| - 1] == a[|a| - 1];
  }

  lemma {:induction false} LinesOfConcat(a: string, b: string)
    requires EndsLine(a)
    ensures Lines(a + b) == Lines(a) + Lines(b)
    decreases |a|
  {
    if a == "" {
      assert a + b == b;
    } else {
      var line, rest := FirstLine(a);
      LinesOfConcat(rest, b);
      LinesOfLine(line, rest);
      LinesOfLine(line, rest + b);
      Assoc(line, rest, b);
      Assoc([TrimRight(TrimRight(line, '\n'), '\r')], Lines(rest), Lines(b));
    }
  }

  lemma OneLine(line: string)
    requires '\n' !in line
    ensures Lines(line + "\n") == [TrimRight(line, '\r')]
  {
    var s := line + "\n";
    assert s[..|line|] == line;
    FirstIsIndexOf(s, '\n', |line|);
    assert s[|line| + 1..] == "";
  }

  lemma UnfinishedLine(line: string)
    requires '\n' !in line && line != ""
    ensures Lines(line) == [TrimRight(line, '\r')]
  {
    assert line[..|line|] == line;
    FirstIsIndexOf(line, '\n', |line|);
  }

  // ---- Line endings and comments do not matter ----

  function Crlf(s: string): string {
    if s == "" then "" else (if s[0] == '\n' then "\r\n" else [s[0]]) + Crlf(s[1..])
  }

  lemma {:induction false} CrlfOfConcat(a: string, b: string)
    ensures Crlf(a + b) == Crlf(a) + Crlf(b)
  {
    if a == "" {
      assert a + b == b;
    } else {
      CrlfOfConcat(a[1..], b);
      assert (a + b)[1..] == a[1..] + b;
      var head := if a[0] == '\n' then "\r\n" else [a[0]];
      assert head + (Crlf(a[1..]) + Crlf(b)) == (head + Crlf(a[1..])) + Crlf(b);
    }
  }

  lemma {:induction false} CrlfOfLine(a: string)
    requires '\n' !in a
    ensures Crlf(a) == a
  {
    if a != "" {
      assert a[0] in a;
      CrlfOfLine(a[1..]);
    }
  }

  lemma TrimExtraCr(a: string)
    ensures TrimRight(a + "\r", '\r') == TrimRight(a, '\r')
  {
    assert (a + "\r")[..|a|] == a;
  }

  lemma {:induction false} LinesOfCrlf(s: string)
    ensures Lines(Crlf(s)) == Lines(s)
  {
    var i := IndexOf(s, '\n');
    IndexOfIsFirst(s, '\n');
    var head := s[..i];
    CrlfOfLine(head);
    if i == |s| {
      assert head == s;
    } else {
      var rest := s[i + 1..];
      assert s == head + "\n" + rest;
      CrlfOfConcat(head + "\n", rest);
      CrlfOfConcat(head, "\n");
      assert Crlf("\n") == "\r\n" by { assert "\n"[1..] == ""; }
      assert Crlf(head + "\n") == (head + "\r") + "\n";
      LinesOfCrlf(rest);
      LinesOfConcat((head + "\r") + "\n", Crlf(rest));
      OneLine(head + "\r");
      TrimExtraCr(head);
    }
  }

  /** A line that no accumulator takes. */
  predicate Inert(line: string) {
    line != "" && (IsComment(line) || NameOf(SplitField(line).0).UnknownField?)
  }

  /** The text before the line's first colon, or the whole line, is the name. */
  predicate Names(line: string, name: string) {
    line == name || name + ":" <= line
  }

  lemma NamesIff(line: string, name: string)
    requires ':' !in name
    ensures Names(line, name) <==> SplitField(line).0 == name
  {
    if name + ":" <= line {
      assert line[..|name|] == name && line[|name|] == ':';
      FirstIsIndexOf(line, ':', |name|);
    }
  }

  /** Replacing every LF by CRLF changes nothing, whatever the body is. */
  lemma CrlfInsensitive(body: string)
    ensures Dispatched(Crlf(body)) == Dispatched(body)
    ensures Flushed(Crlf(body)) == Flushed(body)
  {
    LinesOfCrlf(body);
  }

  lemma {:induction false} LineIgnored(before: seq<string>, comment: string, after: seq<string>)
    requires Inert(comment)
    ensures Read(before + [comment] + after) == Read(before + after)
  {
    if after == [] {
      assert before + [comment] + after == before + [comment] && before + after == before;
      ReadStep(before, comment);
    } else {
      var init, line := after[..|after| - 1], after[|after| - 1];
      LineIgnored(before, comment, init);
      assert before + [comment] + after == (before + [comment] + init) + [line];
      assert before + after == (before + init) + [line];
      ReadStep(before + [comment] + init, line);
      ReadStep(before + init, line);
    }
  }

  /** A line with text before its first colon that is no field name, inserted between two lines, changes nothing. */
  lemma UnknownFieldInsensitive(a: string, text: string, b: string)
    requires EndsLine(a) && '\n' !in text
    requires var line := TrimRight(text, '\r');
             line != "" && !Names(line, "event") && !Names(line, "id") && !Names(line, "data")
    ensures Dispatched(a + (text + "\n") + b) == Dispatched(a + b)
    ensures Flushed(a + (text + "\n") + b) == Flushed(a + b)
  {
    var line := TrimRight(text, '\r');
    InsertedLine(a, text, b);
    NamesIff(line, "event");
    NamesIff(line, "id");
    NamesIff(line, "data");
    LinesOfConcat(a, b);
    LineIgnored(Lines(a), line, Lines(b));
    ReadBody(a + (text + "\n") + b);
    ReadBody(a + b);
  }

  /** So does a comment line. */
  lemma CommentInsensitive(a: string, comment: string, b: string)
    requires EndsLine(a) && '\n' !in comment
    ensures Dispatched(a + (":" + comment + "\n") + b) == Dispatched(a + b)
    ensures Flushed(a + (":" + comment + "\n") + b) == Flushed(a + b)
  {
    var text := ":" + comment;
    TrimRightIsLongest(text, '\r');
    assert text[0] == ':';
    assert "event"[0] == 'e' && "id"[0] == 'i' && "data"[0] == 'd';
    UnknownFieldInsensitive(a, text, b);
  }

  /** A field line, with or without a space after its colon, or with no colon and an empty value. */
  predicate Says(line: string, name: string, value: string) {
    line == name + ": " + value || (line == name + ":" + value && !(" " <= value)) || (line == name && value == "")
  }

  lemma SaysSplits(line: string, name: string, value: string)
    requires Says(line, name, value) && ':' !in name && name != ""
    ensures SplitField(line) == (name, value) && line != "" && !IsComment(line)
  {
    NamesIff(line, name);
    if line != name {
      assert line[..|name|] == name && line[|name|] == ':';
      FirstIsIndexOf(line, ':', |name|);
      var rest := line[|name| + 1..];
      assert rest == " " + value || rest == value;
      assert rest == " " + value ==> rest[1..] == value;
    }
  }

  /** What each line adds to what is pending, and what a blank line sends of it. */
  lemma LineMeans(lines: seq<string>, line: string, value: string)
    ensures var r, r' := Read(lines), Read(lines + [line]);
            && (Says(line, "event", value) ==> r' == r.(event := value))
            && (Says(line, "id", value) ==> r' == r.(id := value))
            && (Says(line, "data", value) ==>
                  r' == r.(data := if r.hasData then r.data + "\n" + value else value, hasData := true))
            && (line == "" ==>
                  r' == Reader("", "", "", false,
                               if r.hasData then r.sent + [Frame(r.event, r.id, r.data)] else r.sent))
  {
    ReadStep(lines, line);
    ReadIsBlocks(lines);
    assert |"event"| == 5 && |"id"| == 2 && |"data"| == 4;
    assert Says(line, "event", value) ==> SplitField(line) == ("event", value) && line != "" && !IsComment(line) by {
      if Says(line, "event", value) {
        SaysSplits(line, "event", value);
      }
    }
    assert Says(line, "id", value) ==> SplitField(line) == ("id", value) && line != "" && !IsComment(line) by {
      if Says(line, "id", value) {
        SaysSplits(line, "id", value);
      }
    }
    assert Says(line, "data", value) ==> SplitField(line) == ("data", value) && line != "" && !IsComment(line) by {
      if Says(line, "data", value) {
        SaysSplits(line, "data", value);
      }
    }
  }

  lemma InsertedLine(a: string, text: string, b: string)
    requires EndsLine(a) && '\n' !in text
    ensures Lines(a + (text + "\n") + b) == Lines(a) + [TrimRight(text, '\r')] + Lines(b)
  {
    var line := text + "\n";
    Assoc(a, line, b);
    LinesOfConcat(a, line + b);
    LinesOfConcat(line, b);
    OneLine(text);
    Assoc(Lines(a), Lines(line), Lines(b));
  }

  // ---- Printing and reading back ----

  function SplitLf(s: string): (r: seq<string>)
    ensures |r| > 0
  {
    if s == "" then [""]
    else
      var init, c := SplitLf(s[..|s| - 1]), s[|s| - 1];
      if c == '\n' then init + [""] else init[..|init| - 1] + [init[|init| - 1] + [c]]
  }

  predicate PrintableLine(line: string) {
    '\n' !in line && (line == "" || line[|line| - 1] != '\r')
  }

  /** A frame the printer can represent: only its data may span lines, and no line ends in CR. */
  predicate Printable(f: Frame) {
    && PrintableLine(f.event)
    && PrintableLine(f.id)
    && forall line :: line in SplitLf(f.data) ==> PrintableLine(line)
  }

  function FieldText(name: string, value: string): string {
    name + ": " + value
  }

  function DataLines(parts: seq<string>): seq<string> {
    seq(|parts|, i requires 0 <= i < |parts| => FieldText("data", parts[i]))
  }

  function HeadLines(f: Frame): seq<string> {
    [FieldText("event", f.event), FieldText("id", f.id)]
  }

  function FrameLines(f: Frame): seq<string> {
    HeadLines(f) + DataLines(SplitLf(f.data)) + [""]
  }

  function Text(lines: seq<string>): string {
    if lines == [] then "" else Text(lines[..|lines| - 1]) + lines[|lines| - 1] + "\n"
  }

  function PrintFrame(f: Frame): string {
    Text(FrameLines(f))
  }

  function Print(frames: seq<Frame>): string {
    if frames == [] then "" else Print(frames[..|frames| - 1]) + PrintFrame(frames[|frames| - 1])
  }

  lemma {:induction false} LinesOfText(lines: seq<string>)
    requires forall line :: line in lines ==> PrintableLine(line)
    ensures Lines(Text(lines)) == lines && EndsLine(Text(lines))
  {
    if lines != [] {
      var init, line := lines[..|lines| - 1], lines[|lines| - 1];
      LinesOfText(init);
      assert Text(lines) == Text(init) + (line + "\n");
      LinesOfConcat(Text(init), line + "\n");
      assert line in lines;
      OneLine(line);
      assert lines == init + [line];
    }
  }

  lemma {:induction false} JoinSplit(s: string)
    ensures Join(SplitLf(s)) == s
  {
    if s != "" {
      var init, c := SplitLf(s[..|s| - 1]), s[|s| - 1];
      JoinSplit(s[..|s| - 1]);
      assert s == s[..|s| - 1] + [c];
      if c == '\n' {
        JoinGrows(init, "");
      } else {
        var front, last := init[..|init| - 1], init[|init| - 1];
        assert init == front + [last];
        JoinGrows(front, last);
        JoinGrows(front, last + [c]);
        if front != [] {
          assert (Join(front) + "\n" + last) + [c] == Join(front) + "\n" + (last + [c]);
        }
      }
    }
  }

  // ---- Reading printed frames ----

  /** A reader between two frames. */
  function Idle(sent: seq<Frame>): Reader {
    Reader("", "", "", false, sent)
  }

  function Feed(r: Reader, lines: seq<string>): Reader {
    if lines == [] then r else Feed(r, lines[..|lines| - 1]).After(lines[|lines| - 1])
  }

  lemma {:induction false} ReadConcat(a: seq<string>, b: seq<string>)
    ensures Read(a + b) == Feed(Read(a), b)
  {
    if b == [] {
      assert a + b == a;
    } else {
      ReadConcat(a, b[..|b| - 1]);
      assert a + b == (a + b[..|b| - 1]) + [b[|b| - 1]];
      ReadStep(a + b[..|b| - 1], b[|b| - 1]);
    }
  }

  lemma FieldLine(name: string, value: string)
    requires name in ["event", "id", "data"]
    ensures FieldText(name, value) != "" && !IsComment(FieldText(name, value))
    ensures SplitField(FieldText(name, value)) == (name, value)
    ensures NameOf("event") == EventField && NameOf("id") == IdField && NameOf("data") == DataField
  {
    var line := FieldText(name, value);
    assert |"event"| == 5 && |"id"| == 2 && |"data"| == 4;
    assert ':' !in name && line[..|name|] == name;
    FirstIsIndexOf(line, ':', |name|);
    assert line[|name| + 1..] == " " + value;
    assert (" " + value)[1..] == value;
  }

  lemma FeedStep(r: Reader, lines: seq<string>, line: string)
    ensures Feed(r, lines + [line]) == Feed(r, lines).After(line)
  {
    assert (lines + [line])[..|lines|] == lines;
  }

  lemma FeedHead(f: Frame, sent: seq<Frame>)
    ensures Feed(Idle(sent), [FieldText("event", f.event)]) == Reader(f.event, "", "", false, sent)
    ensures Feed(Idle(sent), HeadLines(f)) == Reader(f.event, f.id, "", false, sent)
  {
    var first := [FieldText("event", f.event)];
    assert first == [] + first && HeadLines(f) == first + [FieldText("id", f.id)];
    FieldLine("event", f.event);
    FieldLine("id", f.id);
    FeedStep(Idle(sent), [], FieldText("event", f.event));
    FeedStep(Idle(sent), first, FieldText("id", f.id));
  }

  predicate Gathered(r: Reader, base: Reader, parts: seq<string>) {
    r == base.(data := Join(parts), hasData := parts != [])
  }

  lemma GatherOne(r: Reader, base: Reader, r': Reader, parts: seq<string>)
    requires parts != [] && Gathered(r, base, parts[..|parts| - 1])
    requires r' == r.(data := (if r.hasData then r.data + "\n" else r.data) + parts[|parts| - 1], hasData := true)
    ensures Gathered(r', base, parts)
  {
    assert |parts| == 1 ==> parts[..0] == [] && parts == [parts[0]];
  }

  /** Data lines read after lines that left no data pending. */
  lemma {:induction false} FeedDataLines(start: Reader, before: seq<string>, base: Reader, parts: seq<string>)
    requires Feed(start, before) == base && !base.hasData && base.data == ""
    ensures Gathered(Feed(start, before + DataLines(parts)), base, parts)
  {
    if parts == [] {
      assert before + DataLines(parts) == before;
    } else {
      var init := parts[..|parts| - 1];
      assert parts == init + [parts[|parts| - 1]];
      FeedDataLines(start, before, base, init);
      OneMoreData(start, before, init, parts[|parts| - 1]);
      GatherOne(Feed(start, before + DataLines(init)), base, Feed(start, before + DataLines(parts)), parts);
    }
  }

  lemma OneMoreData(start: Reader, before: seq<string>, init: seq<string>, last: string)
    ensures var r := Feed(start, before + DataLines(init));
            Feed(start, before + DataLines(init + [last]))
            == r.(data := (if r.hasData then r.data + "\n" else r.data) + last, hasData := true)
  {
    var line := FieldText("data", last);
    assert DataLines(init + [last]) == DataLines(init) + [line];
    Assoc(before, DataLines(init), [line]);
    FeedStep(start, before + DataLines(init), line);
    AfterData(Feed(start, before + DataLines(init)), last);
  }

  lemma FeedData(f: Frame, sent: seq<Frame>, parts: seq<string>)
    ensures Feed(Idle(sent), HeadLines(f) + DataLines(parts))
            == Reader(f.event, f.id, Join(parts), parts != [], sent)
  {
    FeedHead(f, sent);
    FeedDataLines(Idle(sent), HeadLines(f), Feed(Idle(sent), HeadLines(f)), parts);
  }

  lemma Assoc<T>(a: seq<T>, b: seq<T>, c: seq<T>)
    ensures a + (b + c) == (a + b) + c
  {
  }

  lemma AfterData(r: Reader, value: string)
    ensures r.After(FieldText("data", value))
            == r.(data := (if r.hasData then r.data + "\n" else r.data) + value, hasData := true)
  {
    FieldLine("data", value);
  }

  lemma FeedFrame(f: Frame, sent: seq<Frame>)
    ensures Feed(Idle(sent), FrameLines(f)) == Idle(sent + [f])
  {
    var parts := SplitLf(f.data);
    FeedData(f, sent, parts);
    FeedStep(Idle(sent), HeadLines(f) + DataLines(parts), "");
    JoinSplit(f.data);
  }

  ghost predicate AllPrintable(frames: seq<Frame>) {
    forall f :: f in frames ==> Printable(f)
  }

  lemma FrameLinesPrintable(f: Frame)
    requires Printable(f)
    ensures forall line :: line in FrameLines(f) ==> PrintableLine(line)
  {
    forall i | 0 <= i < |FrameLines(f)| ensures PrintableLine(FrameLines(f)[i]) {
      var parts := SplitLf(f.data);
      if 2 <= i < 2 + |parts| {
        assert FrameLines(f)[i] == FieldText("data", parts[i - 2]);
        assert parts[i - 2] in parts;
        FieldTextPrintable("data", parts[i - 2]);
      } else if i < 2 {
        FieldTextPrintable("event", f.event);
        FieldTextPrintable("id", f.id);
      }
    }
  }

  lemma FieldTextPrintable(name: string, value: string)
    requires name in ["event", "id", "data"] && PrintableLine(value)
    ensures PrintableLine(FieldText(name, value))
  {
  }

  lemma PrintedLines(f: Frame)
    requires Printable(f)
    ensures Lines(PrintFrame(f)) == FrameLines(f) && EndsLine(PrintFrame(f))
  {
    FrameLinesPrintable(f);
    LinesOfText(FrameLines(f));
  }

  lemma ReadOneMore(before: string, sent: seq<Frame>, f: Frame)
    requires EndsLine(before) && Read(Lines(before)) == Idle(sent) && Printable(f)
    ensures Read(Lines(before + PrintFrame(f))) == Idle(sent + [f]) && EndsLine(before + PrintFrame(f))
  {
    PrintedLines(f);
    LinesOfConcat(before, PrintFrame(f));
    ReadConcat(Lines(before), FrameLines(f));
    FeedFrame(f, sent);
  }

  lemma {:induction false} ReadPrinted(frames: seq<Frame>)
    requires AllPrintable(frames)
    ensures Read(Lines(Print(frames))) == Idle(frames) && EndsLine(Print(frames))
  {
    if frames != [] {
      var init, f := frames[..|frames| - 1], frames[|frames| - 1];
      assert AllPrintable(init) && Printable(f);
      ReadPrinted(init);
      ReadOneMore(Print(init), init, f);
      assert frames == init + [f] && f in frames;
    }
  }

  /** Printing and reading back is the identity on printable frames, and leaves nothing to flush. */
  lemma {:induction false} RoundTrip(frames: seq<Frame>)
    requires AllPrintable(frames)
    ensures Dispatched(Print(frames)) == frames
    ensures Flushed(Print(frames)) == frames
  {
    ReadPrinted(frames);
    ReadBody(Print(frames));
  }

  /** A frame without its blank line goes out at EOF, and at no other end of the body. */
  lemma FlushedAtEof(frames: seq<Frame>, f: Frame, ending: Ending)
    requires AllPrintable(frames) && Printable(f)
    ensures Parsed(Print(frames) + Text(HeadLines(f) + DataLines(SplitLf(f.data))), ending)
            == if ending.Eof? then frames + [f] else frames
  {
    var lines := HeadLines(f) + DataLines(SplitLf(f.data));
    assert FrameLines(f) == lines + [""];
    FrameLinesPrintable(f);
    assert forall line :: line in lines ==> line in FrameLines(f);
    LinesOfText(lines);
    ReadPrinted(frames);
    LinesOfConcat(Print(frames), Text(lines));
    ReadConcat(Lines(Print(frames)), lines);
    FeedData(f, frames, SplitLf(f.data));
    JoinSplit(f.data);
    ReadBody(Print(frames) + Text(lines));
  }

  // ---- Truncation ----

  lemma {:induction false} CutText(lines: seq<string>, k: nat) returns (n: nat, part: string)
    requires k <= |Text(lines)|
    ensures n <= |lines| && Text(lines)[..k] == Text(lines[..n]) + part
    ensures part == "" || (n < |lines| && part <= lines[n])
  {
    if k == |Text(lines)| {
      n, part := |lines|, "";
      assert lines[..n] == lines;
      assert Text(lines)[..k] == Text(lines) + part;
    } else {
      var init, line := lines[..|lines| - 1], lines[|lines| - 1];
      if k <= |Text(init)| {
        n, part := CutText(init, k);
        assert init[..n] == lines[..n];
        assert Text(lines)[..k] == Text(init)[..k];
      } else {
        n, part := |init|, line[..k - |Text(init)|];
        assert lines[..n] == init;
      }
    }
  }

  /** A cut field line has a cut name, or the whole name and a cut value. */
  lemma CutField(name: string, value: string, line: string)
    requires ':' !in name && name != "" && line <= FieldText(name, value) && line != ""
    ensures |line| < |name| ==> SplitField(line).0 == line && line <= name
    ensures |line| >= |name| ==> SplitField(line).0 == name && SplitField(line).1 <= value
  {
    var whole := FieldText(name, value);
    if |line| <= |name| {
      assert line == name[..|line|];
      assert ':' !in line;
    } else {
      assert line[..|name|] == name && line[|name|] == whole[|name|] == ':';
      FirstIsIndexOf(line, ':', |name|);
      var rest := line[|name| + 1..];
      assert rest <= " " + value;
      assert rest != "" ==> rest[0] == ' ' && rest[1..] <= value;
    }
  }

  lemma CutName(name: string, cut: string)
    requires name in ["event", "id", "data"] && cut <= name && cut != "" && |cut| < |name|
    ensures NameOf(cut).UnknownField?
  {
    assert "event"[0] == 'e' && "id"[0] == 'i' && "data"[0] == 'd';
    assert |"event"| == 5 && |"id"| == 2 && |"data"| == 4;
    assert cut[0] == name[0];
  }

  /** What an unfinished field line does to a reader: nothing, or it adds a cut value. */
  lemma PartialLine(name: string, value: string, part: string)
    requires name in ["event", "id", "data"] && part <= FieldText(name, value) && part != ""
    ensures var line := TrimRight(part, '\r');
            && line != "" && !IsComment(line)
            && (NameOf(SplitField(line).0) == NameOf(name) ==> SplitField(line).1 <= value)
            && (NameOf(SplitField(line).0) != NameOf(name) ==> NameOf(SplitField(line).0).UnknownField?)
  {
    var line := TrimRight(part, '\r');
    assert "event"[0] == 'e' && "id"[0] == 'i' && "data"[0] == 'd';
    TrimRightIsLongest(part, '\r');
    assert part[0] == FieldText(name, value)[0] == name[0];
    assert line != "" && line[0] == name[0];
    assert ':' !in name;
    CutField(name, value, line);
    if |line| < |name| {
      CutName(name, line);
    }
  }

  // ---- The frame a cut leaves ----

  lemma {:induction false} JoinPrefix(parts: seq<string>, n: nat, value: string)
    requires n < |parts| && value <= parts[n]
    ensures Join(parts[..n]) <= Join(parts)
    ensures (if n > 0 then Join(parts[..n]) + "\n" else "") + value <= Join(parts)
  {
    var init := parts[..|parts| - 1];
    assert parts == init + [parts[|parts| - 1]];
    JoinGrows(init, parts[|parts| - 1]);
    if n == |parts| - 1 {
      assert parts[..n] == init;
    } else {
      JoinPrefix(init, n, value);
      assert init[..n] == parts[..n];
    }
  }

  /** What flushing a reader in the middle of f adds: nothing, or f with a cut body. */
  ghost predicate CutOf(r: Reader, f: Frame, sent: seq<Frame>) {
    && r.sent == sent
    && (r.hasData ==> r.event == f.event && r.id == f.id && r.data <= f.data)
  }

  lemma CutInHead(f: Frame, sent: seq<Frame>, n: nat, part: string)
    requires n < 2 && part != "" && part <= FrameLines(f)[n]
    ensures CutOf(Feed(Idle(sent), FrameLines(f)[..n] + [TrimRight(part, '\r')]), f, sent)
  {
    FeedHead(f, sent);
    var before, line := FrameLines(f)[..n], TrimRight(part, '\r');
    assert n == 0 ==> before == [];
    assert n == 1 ==> before == [FieldText("event", f.event)];
    FieldLine("id", f.id);
    if n == 0 {
      PartialLine("event", f.event, part);
    } else {
      PartialLine("id", f.id, part);
    }
    FeedStep(Idle(sent), before, line);
  }

  lemma CutInData(f: Frame, sent: seq<Frame>, n: nat, part: string)
    requires n < |SplitLf(f.data)| && part <= FieldText("data", SplitLf(f.data)[n])
    ensures var before := HeadLines(f) + DataLines(SplitLf(f.data)[..n]);
            CutOf(Feed(Idle(sent), if part == "" then before else before + [TrimRight(part, '\r')]), f, sent)
  {
    var parts := SplitLf(f.data);
    var before := HeadLines(f) + DataLines(parts[..n]);
    FeedData(f, sent, parts[..n]);
    JoinSplit(f.data);
    JoinPrefix(parts, n, "");
    if part != "" {
      var line := TrimRight(part, '\r');
      PartialLine("data", parts[n], part);
      FieldLine("data", parts[n]);
      FeedStep(Idle(sent), before, line);
      if NameOf(SplitField(line).0) == DataField {
        JoinPrefix(parts, n, SplitField(line).1);
      }
    }
  }

  /** The lines a cut of f leaves, n of them whole and then an unfinished one, read from idle. */
  lemma CutLines(f: Frame, sent: seq<Frame>, n: nat, part: string)
    requires n < |FrameLines(f)| && part <= FrameLines(f)[n]
    ensures var before := FrameLines(f)[..n];
            CutOf(Feed(Idle(sent), if part == "" then before else before + [TrimRight(part, '\r')]), f, sent)
  {
    var lines, parts := FrameLines(f), SplitLf(f.data);
    if n == |lines| - 1 {
      assert lines[..n] == HeadLines(f) + DataLines(parts);
      FeedData(f, sent, parts);
      JoinSplit(f.data);
    } else if n >= 2 {
      assert lines[..n] == HeadLines(f) + DataLines(parts[..n - 2]);
      CutInData(f, sent, n - 2, part);
    } else if part == "" {
      FeedHead(f, sent);
      assert n == 0 ==> lines[..n] == [];
      assert n == 1 ==> lines[..n] == [FieldText("event", f.event)];
    } else {
      CutInHead(f, sent, n, part);
    }
  }

  lemma CutFrame(f: Frame, sent: seq<Frame>, k: nat)
    requires Printable(f) && k <= |PrintFrame(f)|
    ensures var r := Feed(Idle(sent), Lines(PrintFrame(f)[..k]));
            r == Idle(sent + [f]) || CutOf(r, f, sent)
  {
    FrameLinesPrintable(f);
    var n, part := CutText(FrameLines(f), k);
    LinesOfCut(FrameLines(f), k, n, part);
    if n == |FrameLines(f)| {
      assert FrameLines(f)[..n] == FrameLines(f);
      FeedFrame(f, sent);
    } else {
      CutLines(f, sent, n, part);
    }
  }

  lemma LinesOfCut(lines: seq<string>, k: nat, n: nat, part: string)
    requires forall line :: line in lines ==> PrintableLine(line)
    requires n <= |lines| && k <= |Text(lines)| && Text(lines)[..k] == Text(lines[..n]) + part
    requires part == "" || (n < |lines| && part <= lines[n])
    ensures Lines(Text(lines)[..k]) == if part == "" then lines[..n] else lines[..n] + [TrimRight(part, '\r')]
  {
    LinesOfText(lines[..n]);
    LinesOfConcat(Text(lines[..n]), part);
    if part != "" {
      assert lines[n] in lines;
      UnfinishedLine(part);
    }
  }

  /** Where a cut of a printed list falls: after n whole frames, k bytes into the next. */
  lemma TakeWithin(a: string, b: string, at: nat)
    requires at <= |a + b|
    ensures (a + b)[..at] == if at <= |a| then a[..at] else a + b[..at - |a|]
  {
  }

  lemma {:induction false} CutPrint(frames: seq<Frame>, at: nat) returns (n: nat, k: nat)
    requires at <= |Print(frames)|
    ensures n <= |frames| && (n == |frames| ==> k == 0) && (n < |frames| ==> k <= |PrintFrame(frames[n])|)
    ensures Print(frames)[..at]
            == Print(frames[..n]) + if n == |frames| then "" else PrintFrame(frames[n])[..k]
  {
    if frames == [] {
      n, k := 0, 0;
    } else {
      var init, last := frames[..|frames| - 1], frames[|frames| - 1];
      TakeWithin(Print(init), PrintFrame(last), at);
      if at <= |Print(init)| {
        n, k := CutPrint(init, at);
        assert init[..n] == frames[..n];
        assert n == |init| ==> PrintFrame(frames[n])[..k] == "";
      } else {
        n, k := |init|, at - |Print(init)|;
      }
    }
  }

  /** The typed events of a frame list; a frame that does not decode is skipped. */
  function Decoded<E>(frames: seq<Frame>, decode: Frame -> Option<E>): seq<E> {
    if frames == [] then []
    else
      var init := Decoded(frames[..|frames| - 1], decode);
      match decode(frames[|frames| - 1])
      case None => init
      case Some(e) => init + [e]
  }

  lemma {:induction false} DecodedConcat<E>(a: seq<Frame>, b: seq<Frame>, decode: Frame -> Option<E>)
    ensures Decoded(a + b, decode) == Decoded(a, decode) + Decoded(b, decode)
  {
    if b == [] {
      assert a + b == a;
    } else {
      DecodedConcat(a, b[..|b| - 1], decode);
      assert (a + b)[..|a + b| - 1] == a + b[..|b| - 1];
    }
  }

  /** No proper prefix of the frame's body decodes, as with a JSON object. */
  ghost predicate SelfDelimiting<E(!new)>(f: Frame, decode: Frame -> Option<E>) {
    forall body: string :: body < f.data ==> decode(Frame(f.event, f.id, body)).None?
  }

  /**
   * A connection cut at any byte yields, after the EOF flush and decode-and-skip, the first events
   * of the whole stream: never a wrong one, never one out of order.
   */
  lemma TruncationSafe<E(!new)>(frames: seq<Frame>, at: nat, decode: Frame -> Option<E>)
    requires AllPrintable(frames) && at <= |Print(frames)|
    requires forall f :: f in frames ==> SelfDelimiting(f, decode)
    ensures Decoded(Flushed(Print(frames)[..at]), decode) <= Decoded(Flushed(Print(frames)), decode)
  {
    RoundTrip(frames);
    var n, k := CutPrint(frames, at);
    if n == |frames| {
      assert frames[..n] == frames;
      assert Print(frames)[..at] == Print(frames);
    } else {
      assert frames[n] in frames;
      var last := FlushedCut(frames[..n], frames[n], k);
      DecodedCut(frames[n], last, decode);
      DecodedPrefix(frames, n, last, decode);
    }
  }

  lemma DecodedPrefix<E>(frames: seq<Frame>, n: nat, last: seq<Frame>, decode: Frame -> Option<E>)
    requires n < |frames| && Decoded(last, decode) <= Decoded([frames[n]], decode)
    ensures Decoded(frames[..n] + last, decode) <= Decoded(frames, decode)
  {
    var whole, f, rest := frames[..n], frames[n], frames[n + 1..];
    DecodedConcat(whole, last, decode);
    DecodedConcat(whole, [f], decode);
    DecodedConcat(whole + [f], rest, decode);
    assert frames == (whole + [f]) + rest;
  }

  lemma DecodedCut<E(!new)>(f: Frame, last: seq<Frame>, decode: Frame -> Option<E>)
    requires SelfDelimiting(f, decode)
    requires last == [] || (|last| == 1 && last[0] == Frame(f.event, f.id, last[0].data) && last[0].data <= f.data)
    ensures Decoded(last, decode) <= Decoded([f], decode)
  {
    if last != [] {
      DecodedOne(last[0], decode);
      DecodedOne(f, decode);
      assert last == [last[0]];
      if last[0].data != f.data {
        assert last[0].data < f.data;
        assert decode(Frame(f.event, f.id, last[0].data)).None?;
      }
    }
  }

  lemma DecodedOne<E>(f: Frame, decode: Frame -> Option<E>)
    ensures Decoded([f], decode) == if decode(f).None? then [] else [decode(f).value]
  {
    assert [f][..0] == [];
  }

  lemma FlushedCut(whole: seq<Frame>, f: Frame, k: nat) returns (last: seq<Frame>)
    requires AllPrintable(whole) && Printable(f) && k <= |PrintFrame(f)|
    ensures Flushed(Print(whole) + PrintFrame(f)[..k]) == whole + last
    ensures last == [] || (|last| == 1 && last[0] == Frame(f.event, f.id, last[0].data) && last[0].data <= f.data)
  {
    var text := Print(whole) + PrintFrame(f)[..k];
    ReadPrinted(whole);
    LinesOfConcat(Print(whole), PrintFrame(f)[..k]);
    ReadConcat(Lines(Print(whole)), Lines(PrintFrame(f)[..k]));
    CutFrame(f, whole, k);
    ReadBody(text);
    var r := Read(Lines(text));
    last := if r == Idle(whole + [f]) then [f] else if r.hasData then [Frame(r.event, r.id, r.data)] else [];
  }

  /** Without the flush, a cut body gives whole frames only. */
  lemma DispatchedCut(whole: seq<Frame>, f: Frame, k: nat) returns (last: seq<Frame>)
    requires AllPrintable(whole) && Printable(f) && k <= |PrintFrame(f)|
    ensures Dispatched(Print(whole) + PrintFrame(f)[..k]) == whole + last && (last == [] || last == [f])
  {
    var text := Print(whole) + PrintFrame(f)[..k];
    ReadPrinted(whole);
    LinesOfConcat(Print(whole), PrintFrame(f)[..k]);
    ReadConcat(Lines(Print(whole)), Lines(PrintFrame(f)[..k]));
    CutFrame(f, whole, k);
    ReadBody(text);
    last := if Read(Lines(text)) == Idle(whole + [f]) then [f] else [];
    assert whole + [] == whole;
  }

  /** What is read of a frame that is cut: nothing, the frame, or, after the flush, the frame with a cut body. */
  ghost predicate Leftover(last: seq<Frame>, f: Frame, ending: Ending) {
    || last == []
    || last == [f]
    || (ending.Eof? && |last| == 1 && last[0].data < f.data && last[0] == Frame(f.event, f.id, last[0].data))
  }

  lemma CutInto(whole: seq<Frame>, f: Frame, k: nat, ending: Ending) returns (last: seq<Frame>)
    requires AllPrintable(whole) && Printable(f) && k <= |PrintFrame(f)|
    ensures Parsed(Print(whole) + PrintFrame(f)[..k], ending) == whole + last && Leftover(last, f, ending)
  {
    if ending.Eof? {
      last := FlushedCut(whole, f, k);
      if last != [] && last[0].data == f.data {
        assert last == [f];
      }
    } else {
      last := DispatchedCut(whole, f, k);
    }
  }

  /** What a cut at any byte leaves, however reading then ends: n whole frames, and a leftover of the next. */
  lemma CutFrames(frames: seq<Frame>, at: nat, ending: Ending) returns (n: nat, last: seq<Frame>)
    requires AllPrintable(frames) && at <= |Print(frames)|
    ensures n <= |frames| && Parsed(Print(frames)[..at], ending) == frames[..n] + last
    ensures if n == |frames| then last == [] else Leftover(last, frames[n], ending)
  {
    var k;
    n, k := CutPrint(frames, at);
    if n == |frames| {
      assert frames[..n] == frames && frames + [] == frames;
      assert Print(frames) + "" == Print(frames);
      RoundTrip(frames);
      last := [];
    } else {
      last := CutInto(frames[..n], frames[n], k, ending);
    }
  }

  /** A read error leaves a prefix of the frames, none of them cut. */
  lemma BrokenIsPrefix(frames: seq<Frame>, at: nat, ending: Ending)
    requires AllPrintable(frames) && at <= |Print(frames)| && !ending.Eof?
    ensures Parsed(Print(frames)[..at], ending) <= frames
  {
    var n, last := CutFrames(frames, at, ending);
    if n < |frames| {
      assert frames[..n] + [frames[n]] == frames[..n + 1];
    }
  }

  // ---- Prefixes, without the flush ----

  /** Where the unfinished last line starts. */
  function TailStart(s: string): (t: nat)
    ensures t <= |s|
  {
    if s == "" || s[|s| - 1] == '\n' then |s| else TailStart(s[..|s| - 1])
  }

  function Head(s: string): string {
    s[..TailStart(s)]
  }

  function Tail(s: string): string {
    s[TailStart(s)..]
  }

  lemma {:induction false} NoLfFrom(s: string, i: nat)
    requires TailStart(s) <= i < |s|
    ensures s[i] != '\n'
  {
    if i < |s| - 1 {
      assert s[i] == s[..|s| - 1][i];
      NoLfFrom(s[..|s| - 1], i);
    }
  }

  lemma {:induction false} TailStartsLine(s: string)
    ensures TailStart(s) == 0 || s[TailStart(s) - 1] == '\n'
  {
    if s != "" && s[|s| - 1] != '\n' {
      TailStartsLine(s[..|s| - 1]);
    }
  }

  lemma TailIsUnfinished(s: string)
    ensures s == Head(s) + Tail(s) && '\n' !in Tail(s) && EndsLine(Head(s))
  {
    TailStartsLine(s);
    forall k | 0 <= k < |Tail(s)| ensures Tail(s)[k] != '\n' {
      NoLfFrom(s, TailStart(s) + k);
    }
  }

  /**
   * The body stops inside a line of which only CRs have arrived, with data pending: the reader
   * takes the CRs for a blank line and sends the pending frame.
   */
  predicate SendsEarly(s: string) {
    Tail(s) != "" && TrimRight(Tail(s), '\r') == "" && Values(Open(Lines(Head(s))), DataField) != []
  }

  lemma LinesWithTail(part: string, rest: string)
    ensures Lines(part + rest) == Lines(Head(part)) + Lines(Tail(part) + rest)
  {
    TailIsUnfinished(part);
    assert part + rest == Head(part) + (Tail(part) + rest);
    LinesOfConcat(Head(part), Tail(part) + rest);
  }

  lemma LinesOfPart(part: string)
    ensures Lines(part)
            == if Tail(part) == "" then Lines(Head(part)) else Lines(Head(part)) + [TrimRight(Tail(part), '\r')]
  {
    LinesWithTail(part, "");
    assert part + "" == part && Tail(part) + "" == Tail(part);
    TailIsUnfinished(part);
    if Tail(part) != "" {
      UnfinishedLine(Tail(part));
    }
  }

  lemma PrefixHolds(part: string, rest: string)
    requires !SendsEarly(part)
    ensures Dispatched(part) <= Dispatched(part + rest)
  {
    LinesOfPart(part);
    LinesWithTail(part, rest);
    var done := Lines(Head(part));
    ClosedGrows(done, Lines(Tail(part) + rest));
    if Tail(part) != "" {
      ReadStep(done, TrimRight(Tail(part), '\r'));
    }
    ReadBody(part);
    ReadIsBlocks(done);
  }

  const LATE_DATA := "x" + "\n" + LATE_REST
  const LATE_REST := "data:" + "\n" + "\n"

  lemma LateRestLines()
    ensures Lines(LATE_REST) == ["data:"] + [""]
  {
    LinesOfConcat("data:" + "\n", "\n");
    OneLine("data:");
    OneLine("");
    assert "\n" == "" + "\n";
  }

  lemma LateDataLines(tail: string)
    requires TrimRight(tail, '\r') == "" && tail != ""
    ensures Lines(tail + LATE_DATA) == [tail + "x"] + (["data:"] + [""])
  {
    TrimRightIsLongest(tail, '\r');
    var first := (tail + "x") + "\n";
    assert tail + LATE_DATA == first + LATE_REST;
    LinesOfConcat(first, LATE_REST);
    OneLine(tail + "x");
    LateRestLines();
  }

  lemma EarlySend(part: string)
    requires SendsEarly(part)
    ensures !(Dispatched(part) <= Dispatched(part + LATE_DATA))
  {
    var done, tail := Lines(Head(part)), Tail(part);
    var r := Read(done);
    assert r.hasData by { ReadIsBlocks(done); }
    assert Dispatched(part) == r.sent + [Frame(r.event, r.id, r.data)] by {
      LinesOfPart(part);
      ReadBody(part);
      ReadStep(done, TrimRight(tail, '\r'));
    }
    assert Dispatched(part + LATE_DATA) == r.sent + [Frame(r.event, r.id, r.data + "\n")] by {
      LinesWithTail(part, LATE_DATA);
      ReadBody(part + LATE_DATA);
      LateRead(done, tail);
    }
    NotPrefix(r.sent, Frame(r.event, r.id, r.data), Frame(r.event, r.id, r.data + "\n"));
  }

  lemma NotPrefix(s: seq<Frame>, a: Frame, b: Frame)
    requires |a.data| != |b.data|
    ensures !(s + [a] <= s + [b])
  {
    assert (s + [a])[|s|] != (s + [b])[|s|];
  }

  lemma LateRead(done: seq<string>, tail: string)
    requires TrimRight(tail, '\r') == "" && tail != "" && Read(done).hasData
    ensures var r := Read(done);
            Read(done + Lines(tail + LATE_DATA)).sent == r.sent + [Frame(r.event, r.id, r.data + "\n")]
  {
    LateDataLines(tail);
    assert done + Lines(tail + LATE_DATA) == ((done + [tail + "x"]) + ["data:"]) + [""];
    ReadStep(done, tail + "x");
    ReadStep(done + [tail + "x"], "data:");
    ReadStep((done + [tail + "x"]) + ["data:"], "");
    OddLine(tail, Read(done));
  }

  lemma OddLine(tail: string, r: Reader)
    requires TrimRight(tail, '\r') == "" && tail != "" && r.hasData
    ensures r.After(tail + "x") == r
    ensures r.After("data:") == r.(data := r.data + "\n")
  {
    TrimRightIsLongest(tail, '\r');
    assert (tail + "x")[0] == '\r' && ':' !in tail + "x";
    assert "event"[0] == 'e' && "id"[0] == 'i' && "data"[0] == 'd';
    assert |"event"| == 5 && |"id"| == 2 && |"data"| == 4;
    assert "data:"[..4] == "data" && ':' !in "data" && "data:"[4] == ':';
    FirstIsIndexOf("data:", ':', 4);
    assert "data:"[5..] == "";
  }

  /**
   * When a read fails after part of a body, the frames sent are the first frames of the whole body,
   * whatever was still to come, exactly when the part does not send early.
   */
  lemma PrefixSafe(part: string)
    ensures !SendsEarly(part) <==> forall rest: string :: Dispatched(part) <= Dispatched(part + rest)
  {
    TailIsUnfinished(part);
    if SendsEarly(part) {
      EarlySend(part);
    } else {
      forall rest: string ensures Dispatched(part) <= Dispatched(part + rest) {
        PrefixHolds(part, rest);
      }
    }
  }

  const EARLY_PART := "data:1\n\r"

  lemma OneDataLine()
    ensures Values(Open(Lines("data:1" + "\n")), DataField) == ["1"]
  {
    var line := "data:1";
    OneLine(line);
    ContentLine([], line);
    assert [] + [line] == [line];
    ValuesGrow([], line, DataField);
    FirstIsIndexOf(line, ':', 4);
    assert line[..4] == "data" && line[5..] == "1";
  }

  lemma EarlyTail()
    ensures Head(EARLY_PART) == "data:1" + "\n" && Tail(EARLY_PART) == "\r" && TrimRight("\r", '\r') == ""
  {
    assert EARLY_PART == "data:1" + "\n" + "\r";
    assert EARLY_PART[..7] == "data:1" + "\n";
    assert TailStart(EARLY_PART[..7]) == 7;
    assert "\r"[..0] == "";
  }

  /** The smallest case: with a lone CR after a data line, the pending frame goes out too soon. */
  lemma EarlyPart()
    ensures SendsEarly(EARLY_PART)
    ensures !(Dispatched(EARLY_PART) <= Dispatched(EARLY_PART + LATE_DATA))
  {
    OneDataLine();
    EarlyTail();
    EarlySend(EARLY_PART);
  }
}
