/** Writing QA Feedback: what `render_qa` keeps, and what it writes. */
module Qa {
  import opened Wrappers
  import opened Text
  import opened Handoff
  import opened Acceptance

  function Concat(chunks: seq<string>): string {
    if chunks == [] then "" else chunks[0] + Concat(chunks[1..])
  }

  /** `line.rstrip("\r\n")` */
  function TrimEnding(chunk: string): string {
    if chunk != "" && (chunk[|chunk| - 1] == '\r' || chunk[|chunk| - 1] == '\n') then TrimEnding(chunk[..|chunk| - 1])
    else chunk
  }

  function TrimAll(chunks: seq<string>): (r: seq<string>)
    ensures |r| == |chunks| && forall i | 0 <= i < |chunks| :: r[i] == TrimEnding(chunks[i])
  {
    seq(|chunks|, i requires 0 <= i < |chunks| => TrimEnding(chunks[i]))
  }

  function EndsWith(s: string, suffix: string): bool { |suffix| <= |s| && s[|s| - |suffix|..] == suffix }

  /** `_line_ending` */
  function LineEnding(line: string): string {
    if EndsWith(line, CRLF) then CRLF else if EndsWith(line, CR) then CR else LF
  }

  /** `text.replace("\n", ending)` */
  function SubstituteLF(text: string, ending: string): string {
    if text == "" then "" else (if text[0] == '\n' then ending else [text[0]]) + SubstituteLF(text[1..], ending)
  }

  /** The text with `\n` endings, the last line ended. */
  function Normalized(body: string): string {
    var text := ReadText(body);
    if text != "" && text[|text| - 1] != '\n' then text + LF else text
  }

  /** `_apply_ending` */
  function ApplyEnding(body: string, ending: string): string { SubstituteLF(Normalized(body), ending) }

  /** What goes between an old QA body and an appended payload. */
  function Separator(body: string, ending: string): string {
    if body == "" then ending
    else if EndsWith(body, "\n\n") || EndsWith(body, "\r\n\r\n") || EndsWith(body, "\r\r") then ""
    else if EndsWith(body, LF) || EndsWith(body, CR) then ending
    else ending + ending
  }

  /** The text up to and with the QA heading line, and the rest; the heading must be unique. */
  datatype Parts = Parts(head: string, heading: string, body: string)

  function QaParts(text: string): Option<Parts> { PartsOfChunks(SplitKeepEnds(text), QA) }

  function PartsOfChunks(chunks: seq<string>, heading: string): Option<Parts> {
    var at := Positions(TrimAll(chunks), heading);
    if |at| != 1 then None else Some(PartsAt(chunks, at[0]))
  }

  /** The parts around physical line `i`. */
  function PartsAt(chunks: seq<string>, i: nat): Parts
    requires i < |chunks|
  {
    Parts(Concat(chunks[..i + 1]), chunks[i], Concat(chunks[i + 1..]))
  }

  function NewBody(parts: Parts, payload: string, append: bool): string {
    if append then parts.body + Separator(parts.body, LineEnding(parts.heading)) + payload else payload
  }

  /** `render_qa` */
  function RenderQa(text: string, qaBody: string, status: Option<string>, append: bool): Result<string, seq<Problem>> {
    match QaParts(text)
    case None => Err(if Structure(text) != [] then Structure(text) else [Missing(QA)])
    case Some(parts) =>
      var updated := parts.head + NewBody(parts, ApplyEnding(qaBody, LineEnding(parts.heading)), append);
      Ok(if status.Some? then ReplaceStatus(updated, status.value) else updated)
  }

  // ---- physical lines ----------------------------------------------------------

  lemma {:induction false} ConcatAppend(a: seq<string>, b: seq<string>)
    ensures Concat(a + b) == Concat(a) + Concat(b)
    decreases |a|
  {
    if a == [] {
      assert a + b == b;
    } else {
      assert (a + b)[1..] == a[1..] + b;
      ConcatAppend(a[1..], b);
    }
  }

  lemma {:induction false} ConcatOfSplit(t: string)
    ensures Concat(SplitKeepEnds(t)) == t
    decreases |t|
  {
    if t != "" {
      var n := LineLength(t);
      ConcatOfSplit(t[n..]);
      assert SplitKeepEnds(t)[1..] == SplitKeepEnds(t[n..]);
      assert t == t[..n] + t[n..];
    }
  }

  /** `a` ends a line, and `b` does not begin with the second half of its ending. */
  predicate Breaks(a: string, b: string) {
    a == "" || (IsBreak(a[|a| - 1]) && !(a[|a| - 1] == '\r' && b != "" && b[0] == '\n'))
  }

  lemma FirstLineOfBoth(a: string, b: string)
    requires a != "" && Breaks(a, b)
    ensures BreakAt(a + b) == BreakAt(a) < |a| && LineLength(a + b) == LineLength(a)
    ensures (a + b)[..LineLength(a)] == a[..LineLength(a)] && (a + b)[..BreakAt(a)] == a[..BreakAt(a)]
    ensures (a + b)[LineLength(a)..] == a[LineLength(a)..] + b
    ensures Breaks(a[LineLength(a)..], b)
  {
    var t, k := a + b, BreakAt(a);
    assert IsBreak(a[|a| - 1]);
    assert forall i | 0 <= i < k :: t[i] == a[i];
    BreakAtIs(t, k);
    var n := LineLength(a);
    assert k + 1 < |a| ==> t[k + 1] == a[k + 1];
    assert k + 1 == |a| && b != "" ==> t[k + 1] == b[0];
    if a[n..] != "" {
      assert a[n..][|a[n..]| - 1] == a[|a| - 1];
    }
  }

  lemma {:induction false} KeepEndsAppend(a: string, b: string)
    requires Breaks(a, b)
    ensures SplitKeepEnds(a + b) == SplitKeepEnds(a) + SplitKeepEnds(b)
    decreases |a|
  {
    if a == "" {
      assert a + b == b;
    } else {
      FirstLineOfBoth(a, b);
      KeepEndsAppend(a[LineLength(a)..], b);
    }
  }

  lemma {:induction false} LinesAppend(a: string, b: string)
    requires Breaks(a, b)
    ensures SplitLines(a + b) == SplitLines(a) + SplitLines(b)
    decreases |a|
  {
    if a == "" {
      assert a + b == b;
    } else {
      FirstLineOfBoth(a, b);
      LinesAppend(a[LineLength(a)..], b);
    }
  }

  // ---- new text uses only the heading's ending -----------------------------------

  /** Every line break of `text` that is a `\r` or `\n` is `ending`. */
  predicate UsesOnly(text: string, ending: string) {
    if ending == LF then '\r' !in text
    else if ending == CR then '\n' !in text
    else
      && (forall i | 0 <= i < |text| && text[i] == '\n' :: i > 0 && text[i - 1] == '\r')
      && (forall i | 0 <= i < |text| && text[i] == '\r' :: i + 1 < |text| && text[i + 1] == '\n')
  }

  lemma {:induction false} SubstituteUsesOnly(text: string, ending: string)
    requires '\r' !in text && ending in [LF, CR, CRLF]
    ensures UsesOnly(SubstituteLF(text, ending), ending)
    decreases |text|
  {
    if text != "" {
      var rest := SubstituteLF(text[1..], ending);
      SubstituteUsesOnly(text[1..], ending);
      var first := if text[0] == '\n' then ending else [text[0]];
      assert text[0] in text;
    }
  }

  lemma PayloadUsesOnly(body: string, ending: string)
    requires ending in [LF, CR, CRLF]
    ensures UsesOnly(ApplyEnding(body, ending), ending)
  {
    assert '\r' !in Normalized(body);
    SubstituteUsesOnly(Normalized(body), ending);
  }

  // ---- the parts of a document ------------------------------------------------------

  /** A line with whichever ending it has. */
  predicate IsLineOf(chunk: string, x: string) { chunk == x || chunk == x + LF || chunk == x + CR || chunk == x + CRLF }

  ghost predicate NoBreaks(x: string) { forall i | 0 <= i < |x| :: !IsBreak(x[i]) }

  lemma TrimOne(x: string, c: char)
    requires NoBreaks(x) && (c == '\r' || c == '\n')
    ensures TrimEnding(x + [c]) == x
  {
    assert (x + [c])[..|x|] == x;
  }

  lemma TrimTwo(x: string)
    requires NoBreaks(x)
    ensures TrimEnding(x + CRLF) == x
  {
    TrimOne(x, '\r');
    assert (x + CRLF)[..|x| + 1] == x + CR;
  }

  /** What is left after trimming, for a line with this ending. */
  lemma TrimCases(line: string, ending: string, x: string)
    requires NoBreaks(line) && NoBreaks(x) && TrimEnding(line + ending) == x
    requires ending == "" || ending == CRLF || (|ending| == 1 && IsBreak(ending[0]))
    ensures line == x && IsLineOf(line + ending, x) && (line + ending == x ==> ending == "")
  {
    var chunk := line + ending;
    if ending == "" {
      assert chunk == line;
    } else if ending == CRLF {
      TrimTwo(line);
    } else {
      var c := ending[0];
      assert chunk == line + [c];
      if c == '\r' || c == '\n' {
        TrimOne(line, c);
      }
    }
  }

  lemma FirstEnding(t: string)
    requires t != ""
    ensures var ending := t[BreakAt(t)..LineLength(t)];
            && t[..LineLength(t)] == t[..BreakAt(t)] + ending && NoBreaks(t[..BreakAt(t)])
            && (ending == "" || ending == CRLF || (|ending| == 1 && IsBreak(ending[0])))
            && (ending == "" ==> LineLength(t) == |t|)
  {
  }

  lemma FirstChunkLine(t: string, x: string)
    requires t != "" && NoBreaks(x) && TrimEnding(t[..LineLength(t)]) == x
    ensures t[..BreakAt(t)] == x && IsLineOf(t[..LineLength(t)], x)
    ensures t[..LineLength(t)] == x ==> LineLength(t) == |t|
  {
    FirstEnding(t);
    TrimCases(t[..BreakAt(t)], t[BreakAt(t)..LineLength(t)], x);
  }

  lemma ConsAt<T>(x: T, xs: seq<T>, i: nat)
    requires 0 < i <= |xs|
    ensures ([x] + xs)[i] == xs[i - 1]
  {
  }

  lemma {:induction false} ChunkLine(t: string, i: nat, x: string)
    requires i < |SplitKeepEnds(t)| && NoBreaks(x) && TrimEnding(SplitKeepEnds(t)[i]) == x
    ensures i < |SplitLines(t)| && SplitLines(t)[i] == x
    ensures IsLineOf(SplitKeepEnds(t)[i], x)
    ensures SplitKeepEnds(t)[i] == x ==> i == |SplitKeepEnds(t)| - 1
    decreases |t|
  {
    var rest := t[LineLength(t)..];
    SameCount(t);
    if i == 0 {
      FirstChunkLine(t, x);
      assert rest == "" ==> SplitKeepEnds(rest) == [];
    } else {
      ConsAt(t[..LineLength(t)], SplitKeepEnds(rest), i);
      ConsAt(t[..BreakAt(t)], SplitLines(rest), i);
      ChunkLine(rest, i - 1, x);
    }
  }

  /** The first physical line ends before anything that starts like the rest. */
  lemma FirstChunkBreaks(t: string, b: string)
    requires t != "" && t[LineLength(t)..] != "" && b != "" && b[0] == t[LineLength(t)]
    ensures Breaks(t[..LineLength(t)], b)
  {
  }

  lemma FirstChunkAlone(t: string)
    requires t != ""
    ensures var n := LineLength(t);
            SplitKeepEnds(t[..n]) == [t[..n]] && SplitLines(t[..n]) == [t[..BreakAt(t)]]
  {
    var n, k := LineLength(t), BreakAt(t);
    var first := t[..n];
    if k < |t| {
      BreakAtIs(first, k);
    } else {
      assert first == t;
    }
    assert LineLength(first) == n && first[..n] == first && first[n..] == "";
    assert first[..k] == t[..k];
    assert SplitKeepEnds("") == [] && SplitLines("") == [];
  }

  /** The first `i` physical lines are a text of their own. */
  ghost predicate HeadOk(t: string, i: nat)
    requires 0 < i <= |SplitKeepEnds(t)|
  {
    var chunks := SplitKeepEnds(t);
    var head := Concat(chunks[..i]);
    && head <= t && head != ""
    && SplitKeepEnds(head) == chunks[..i]
    && i <= |SplitLines(t)| && SplitLines(head) == SplitLines(t)[..i]
    && (i < |chunks| ==> Breaks(head, t[|head|..]))
  }

  lemma HeadOne(t: string)
    requires t != ""
    ensures HeadOk(t, 1)
  {
    var chunks, n := SplitKeepEnds(t), LineLength(t);
    FirstChunkAlone(t);
    assert chunks[..1] == [t[..n]] && [t[..n]][1..] == [] && t[..n] + "" == t[..n];
    assert SplitLines(t)[..1] == [t[..BreakAt(t)]];
    if t[n..] != "" {
      FirstChunkBreaks(t, t[n..]);
    } else {
      assert SplitKeepEnds(t[n..]) == [];
    }
  }

  lemma ConsTake<T>(x: T, xs: seq<T>, i: nat)
    requires 0 < i <= |xs| + 1
    ensures ([x] + xs)[..i] == [x] + xs[..i - 1]
  {
  }

  lemma HeadMore(t: string, i: nat)
    requires t != "" && 1 < i <= |SplitKeepEnds(t)| && HeadOk(t[LineLength(t)..], i - 1)
    ensures HeadOk(t, i)
  {
    var n := LineLength(t);
    var first, rest := t[..n], t[n..];
    var head := Concat(SplitKeepEnds(rest)[..i - 1]);
    ConsTake(first, SplitKeepEnds(rest), i);
    ConsTake(t[..BreakAt(t)], SplitLines(rest), i);
    FirstChunkAlone(t);
    FirstChunkBreaks(t, head);
    KeepEndsAppend(first, head);
    LinesAppend(first, head);
    PrefixGlue(t, n, head);
  }

  lemma PrefixGlue(t: string, n: nat, head: string)
    requires n <= |t| && head <= t[n..] && head != ""
    ensures t[..n] + head <= t && t[|t[..n] + head|..] == t[n..][|head|..]
    ensures forall b: string | Breaks(head, b) :: Breaks(t[..n] + head, b)
  {
    assert (t[..n] + head)[|t[..n] + head| - 1] == head[|head| - 1];
  }

  lemma {:induction false} HeadChunks(t: string, i: nat)
    requires 0 < i <= |SplitKeepEnds(t)|
    ensures HeadOk(t, i)
    decreases |t|
  {
    if i == 1 {
      HeadOne(t);
    } else {
      HeadChunks(t[LineLength(t)..], i - 1);
      HeadMore(t, i);
    }
  }

  lemma {:induction false} SameCount(t: string)
    ensures |SplitKeepEnds(t)| == |SplitLines(t)|
    decreases |t|
  {
    if t != "" {
      SameCount(t[LineLength(t)..]);
    }
  }

  /** What `QaParts` found: the head ends with the only QA heading line. */
  ghost predicate PartsOk(text: string, parts: Parts) { PartsFor(text, parts, QA) }

  ghost predicate PartsFor(text: string, parts: Parts, x: string) {
    var chunks, lines := SplitKeepEnds(parts.head), SplitLines(parts.head);
    && text == parts.head + parts.body && IsLineOf(parts.heading, x)
    && (parts.heading == x ==> parts.body == "") && (parts.body != "" ==> Breaks(parts.head, parts.body))
    && chunks != [] && chunks[|chunks| - 1] == parts.heading
    && OnlyAt(TrimAll(chunks), x, |chunks| - 1)
    && |lines| == |chunks| && lines[|lines| - 1] == x
  }

  lemma HeadParts(text: string, i: nat)
    requires i < |SplitKeepEnds(text)|
    ensures var chunks, parts := SplitKeepEnds(text), PartsAt(SplitKeepEnds(text), i);
            && text == parts.head + parts.body && SplitKeepEnds(parts.head) == chunks[..i + 1]
            && i < |SplitLines(text)| && SplitLines(parts.head) == SplitLines(text)[..i + 1]
            && (i == |chunks| - 1 ==> parts.body == "")
            && (parts.body != "" ==> Breaks(parts.head, parts.body))
  {
    HeadChunks(text, i + 1);
    CutConcat(text, i + 1);
  }

  lemma Assembled(text: string, chunks: seq<string>, lines: seq<string>, parts: Parts, x: string)
    requires text == parts.head + parts.body && IsLineOf(parts.heading, x)
    requires parts.heading == x ==> parts.body == ""
    requires parts.body != "" ==> Breaks(parts.head, parts.body)
    requires SplitKeepEnds(parts.head) == chunks && SplitLines(parts.head) == lines
    requires chunks != [] && chunks[|chunks| - 1] == parts.heading && OnlyAt(TrimAll(chunks), x, |chunks| - 1)
    requires |lines| == |chunks| && lines[|lines| - 1] == x
    ensures PartsFor(text, parts, x)
  {
  }

  lemma OnlyInFirst(xs: seq<string>, ys: seq<string>, x: string, i: nat)
    requires OnlyAt(xs, x, i) && |ys| == i + 1 && forall j | 0 <= j <= i :: ys[j] == xs[j]
    ensures OnlyAt(ys, x, i)
  {
  }

  lemma PartsAtSpec(text: string, i: nat, x: string)
    requires i < |SplitKeepEnds(text)| && OnlyAt(TrimAll(SplitKeepEnds(text)), x, i) && NoBreaks(x)
    ensures PartsFor(text, PartsAt(SplitKeepEnds(text), i), x)
  {
    var chunks := SplitKeepEnds(text);
    ChunkLine(text, i, x);
    HeadParts(text, i);
    OnlyInFirst(TrimAll(chunks), TrimAll(chunks[..i + 1]), x, i);
    Assembled(text, chunks[..i + 1], SplitLines(text)[..i + 1], PartsAt(chunks, i), x);
  }

  lemma CutConcat(t: string, i: nat)
    requires i <= |SplitKeepEnds(t)|
    ensures var chunks := SplitKeepEnds(t);
            t == Concat(chunks[..i]) + Concat(chunks[i..]) && t[|Concat(chunks[..i])|..] == Concat(chunks[i..])
    ensures i == |SplitKeepEnds(t)| ==> Concat(SplitKeepEnds(t)[i..]) == ""
  {
    var chunks := SplitKeepEnds(t);
    assert chunks == chunks[..i] + chunks[i..];
    ConcatAppend(chunks[..i], chunks[i..]);
    ConcatOfSplit(t);
  }

  lemma PartsSpec(text: string)
    requires QaParts(text).Some?
    ensures PartsOk(text, QaParts(text).value)
  {
    var trimmed := TrimAll(SplitKeepEnds(text));
    SinglePosition(trimmed, QA);
    PartsAtSpec(text, Positions(trimmed, QA)[0], QA);
  }

  // ---- replace and append -------------------------------------------------------------

  /** The QA heading line has an ending. */
  predicate Terminated(parts: Parts) { parts.heading != QA }

  /** No physical line of the text is the QA heading. */
  ghost predicate NoQaLine(text: string) { QA !in SplitLines(text) }

  lemma NoQaChunk(text: string)
    requires NoQaLine(text)
    ensures QA !in TrimAll(SplitKeepEnds(text))
  {
    var chunks := SplitKeepEnds(text);
    forall i | 0 <= i < |chunks| ensures TrimEnding(chunks[i]) != QA {
      if TrimEnding(chunks[i]) == QA {
        ChunkLine(text, i, QA);
      }
    }
  }

  lemma HeadingEnding(parts: Parts)
    requires IsLineOf(parts.heading, QA)
    ensures LineEnding(parts.heading) in [LF, CR, CRLF]
    ensures LineEnding(parts.heading) == CR <==> parts.heading == QA + CR
    ensures LineEnding(parts.heading) == CRLF <==> parts.heading == QA + CRLF
    ensures LineEnding(parts.heading) == LF <==> parts.heading == QA + LF || parts.heading == QA
  {
    assert QA[|QA| - 1] == 'k' && |QA| > 2;
    assert (QA + CRLF)[|QA|..] == CRLF && (QA + CR)[|QA|..] == CR && (QA + LF)[|QA|..] == LF;
  }

  lemma LastIsTail(front: string, last: string)
    requires last != ""
    ensures (front + last)[|front + last| - 1] == last[|last| - 1]
  {
  }

  lemma LastChunk(chunks: seq<string>)
    requires chunks != []
    ensures Concat(chunks[|chunks| - 1..]) == chunks[|chunks| - 1]
  {
    var n := |chunks| - 1;
    assert chunks[n..] == [chunks[n]] && [chunks[n]][1..] == [];
    assert chunks[n] + "" == chunks[n];
  }

  lemma HeadAndLast(head: string)
    requires SplitKeepEnds(head) != []
    ensures var chunks := SplitKeepEnds(head);
            head == Concat(chunks[..|chunks| - 1]) + chunks[|chunks| - 1]
  {
    var chunks := SplitKeepEnds(head);
    CutConcat(head, |chunks| - 1);
    LastChunk(chunks);
  }

  lemma LastOfHead(head: string)
    requires SplitKeepEnds(head) != [] && SplitKeepEnds(head)[|SplitKeepEnds(head)| - 1] != ""
    ensures var last := SplitKeepEnds(head)[|SplitKeepEnds(head)| - 1];
            head != "" && head[|head| - 1] == last[|last| - 1]
  {
    var chunks := SplitKeepEnds(head);
    HeadAndLast(head);
    LastIsTail(Concat(chunks[..|chunks| - 1]), chunks[|chunks| - 1]);
  }

  /** New text in the heading's ending never runs into the heading line. */
  lemma HeadBreaks(text: string, parts: Parts, more: string)
    requires PartsOk(text, parts) && Terminated(parts) && UsesOnly(more, LineEnding(parts.heading))
    ensures Breaks(parts.head, more)
  {
    HeadingEnding(parts);
    LastOfHead(parts.head);
    assert IsBreak('\r') && IsBreak('\n');
    if parts.heading == QA + CR && more != "" {
      assert more[0] in more;
    }
  }

  lemma PositionsOnly(xs: seq<string>, x: string, p: nat)
    requires OnlyAt(xs, x, p)
    ensures Positions(xs, x) == [p]
  {
    SinglePosition(xs, x);
  }

  lemma PartsFrom(chunks: seq<string>, more: seq<string>, x: string)
    requires chunks != [] && x !in TrimAll(more) && OnlyAt(TrimAll(chunks), x, |chunks| - 1)
    ensures PartsOfChunks(chunks + more, x) == Some(Parts(Concat(chunks), chunks[|chunks| - 1], Concat(more)))
  {
    PositionsOnly(TrimAll(chunks + more), x, |chunks| - 1);
  }

  function Payload(parts: Parts, qaBody: string): string { ApplyEnding(qaBody, LineEnding(parts.heading)) }

  lemma Regrouped(head: string, body: string, sep: string, payload: string)
    ensures head + (body + sep + payload) == (head + body) + (sep + payload)
  {
  }

  /** Every byte before the QA body is kept; append keeps the old body too, so that
    * the whole old text is a prefix; and new text uses the heading's ending. */
  lemma RenderKeepsBytes(text: string, qaBody: string, append: bool)
    requires QaParts(text).Some?
    ensures var parts := QaParts(text).value;
            var ending := LineEnding(parts.heading);
            && text == parts.head + parts.body && IsLineOf(parts.heading, QA)
            && RenderQa(text, qaBody, None, append)
               == Ok(if append then text + (Separator(parts.body, ending) + ApplyEnding(qaBody, ending))
                     else parts.head + ApplyEnding(qaBody, ending))
            && UsesOnly(ApplyEnding(qaBody, ending), ending)
  {
    var parts := QaParts(text).value;
    PartsSpec(text);
    HeadingEnding(parts);
    PayloadUsesOnly(qaBody, LineEnding(parts.heading));
    Regrouped(parts.head, parts.body, Separator(parts.body, LineEnding(parts.heading)), Payload(parts, qaBody));
  }

  // ---- the lines of a payload -----------------------------------------------------------

  /** A line, its ending, and what follows. */
  predicate Follows(ending: string, rest: string) {
    || (ending == "" && rest == "")
    || ending == CRLF
    || (|ending| == 1 && IsBreak(ending[0]) && !(ending[0] == '\r' && rest != "" && rest[0] == '\n'))
  }

  lemma LineThen(l: string, ending: string, rest: string)
    requires NoBreaks(l) && Follows(ending, rest) && l + ending != ""
    ensures SplitLines(l + ending + rest) == [l] + SplitLines(rest)
  {
    var t := l + ending + rest;
    assert forall i | 0 <= i < |l| :: t[i] == l[i];
    if ending == "" {
      assert t == l;
      SplitLinesEnd(l);
      assert SplitLines("") == [];
    } else {
      assert t[|l|] == ending[0] && IsBreak(ending[0]);
      BreakAtIs(t, |l|);
      assert |l| + 1 < |t| ==> t[|l| + 1] == if |ending| > 1 then ending[1] else rest[0];
      assert LineLength(t) == |l + ending|;
      assert t[..|l|] == l && t[|l + ending|..] == rest;
    }
  }

  /** The first line, its ending, and the rest. */
  lemma FirstLineCut(t: string) returns (l: string, ending: string, rest: string)
    requires t != ""
    ensures t == l + ending + rest && t == l + (ending + rest) && |rest| < |t|
    ensures NoBreaks(l) && Follows(ending, rest) && l + ending != ""
    ensures SplitLines(t) == [l] + SplitLines(rest)
    ensures '\r' !in t ==> |ending| <= 1 && '\r' !in ending && '\r' !in rest
    ensures l == "" <==> IsBreak(t[0])
  {
    var k, n := BreakAt(t), LineLength(t);
    l, ending, rest := t[..k], t[k..n], t[n..];
  }

  lemma {:induction false} ReadPlain(l: string, more: string)
    requires NoBreaks(l)
    ensures ReadText(l + more) == l + ReadText(more)
    decreases |l|
  {
    if l == "" {
      assert l + more == more;
    } else {
      assert IsBreak('\r');
      assert (l + more)[0] == l[0] && (l + more)[1..] == l[1..] + more;
      ReadPlain(l[1..], more);
    }
  }

  /** How text-mode reading treats one ending. */
  function ReadEnding(ending: string): string { if ending == CRLF || ending == CR then LF else ending }

  lemma ReadBreak(ending: string, rest: string)
    requires Follows(ending, rest)
    ensures ReadText(ending + rest) == ReadEnding(ending) + ReadText(rest)
  {
    var t := ending + rest;
    if ending == CRLF {
      assert t[0] == '\r' && t[1] == '\n' && t[2..] == rest;
    } else if ending != "" {
      assert t[0] == ending[0] && t[1..] == rest;
      assert rest != "" ==> t[1] == rest[0];
    }
  }

  lemma Regroup3(a: string, b: string, c: string)
    ensures a + (b + c) == a + b + c
  {
  }

  /** Reading as text changes endings, never lines. */
  lemma {:induction false} LinesOfRead(t: string)
    ensures SplitLines(ReadText(t)) == SplitLines(t)
    decreases |t|
  {
    if t != "" {
      var l, ending, rest := FirstLineCut(t);
      ReadPlain(l, ending + rest);
      ReadBreak(ending, rest);
      LinesOfRead(rest);
      Regroup3(l, ReadEnding(ending), ReadText(rest));
      LineThen(l, ReadEnding(ending), ReadText(rest));
    }
  }

  lemma {:induction false} SubstitutePlain(l: string, more: string, e: string)
    requires NoBreaks(l)
    ensures SubstituteLF(l + more, e) == l + SubstituteLF(more, e)
    decreases |l|
  {
    if l == "" {
      assert l + more == more;
    } else {
      assert IsBreak('\n');
      assert (l + more)[0] == l[0] && (l + more)[1..] == l[1..] + more;
      SubstitutePlain(l[1..], more, e);
    }
  }

  lemma SubstituteBreak(ending: string, rest: string, e: string)
    requires |ending| <= 1
    ensures SubstituteLF(ending + rest, e) == (if ending == LF then e else ending) + SubstituteLF(rest, e)
  {
    if ending != "" {
      assert (ending + rest)[0] == ending[0] && (ending + rest)[1..] == rest;
    } else {
      assert ending + rest == rest;
    }
  }

  lemma {:induction false} LinesOfSubstitute(t: string, e: string)
    requires '\r' !in t && e in [LF, CR, CRLF]
    ensures SplitLines(SubstituteLF(t, e)) == SplitLines(t)
    decreases |t|
  {
    if t != "" {
      var l, ending, rest := FirstLineCut(t);
      SubstitutePlain(l, ending + rest, e);
      SubstituteBreak(ending, rest, e);
      LinesOfSubstitute(rest, e);
      SubstituteUsesOnly(rest, e);
      var ending' := if ending == LF then e else ending;
      Regroup3(l, ending', SubstituteLF(rest, e));
      LineThen(l, ending', SubstituteLF(rest, e));
    }
  }

  /** The lines of `a`, or an empty one. */
  ghost predicate NoNewLines(after: seq<string>, before: seq<string>) { forall x | x in after :: x in before || x == "" }

  lemma LastLinePlus(l: string, ending: string, brk: string)
    requires NoBreaks(l) && Follows(ending, "") && brk in [LF, CR, CRLF] && l + ending != ""
    ensures NoNewLines(SplitLines(l + ending + brk), [l])
  {
    assert SplitLines("") == [];
    assert IsBreak('\r') && IsBreak('\n');
    LineThen("", brk, "");
    assert "" + brk + "" == brk;
    if ending == "" {
      LineThen(l, brk, "");
      assert l + ending + brk == l + brk + "";
    } else if ending == CR && brk == LF {
      LineThen(l, CRLF, "");
      assert l + ending + brk == l + CRLF + "";
    } else {
      LineThen(l, ending, brk);
    }
  }

  /** A line break added at the end makes at most one more line, an empty one. */
  lemma {:induction false} BreakAdded(a: string, brk: string)
    requires brk in [LF, CR, CRLF]
    ensures NoNewLines(SplitLines(a + brk), SplitLines(a))
    decreases |a|
  {
    assert SplitLines("") == [];
    if a == "" {
      LineThen("", brk, "");
      assert "" + brk + "" == brk == a + brk;
    } else {
      var l, ending, rest := FirstLineCut(a);
      if rest == "" {
        assert l + ending + rest == l + ending;
        LastLinePlus(l, ending, brk);
      } else {
        Regroup3(l + ending, rest, brk);
        assert (rest + brk)[0] == rest[0];
        LineThen(l, ending, rest + brk);
        BreakAdded(rest, brk);
      }
    }
  }

  lemma {:induction false} LineEnded(a: string)
    requires a != "" && !IsBreak(a[|a| - 1])
    ensures SplitLines(a + LF) == SplitLines(a)
    decreases |a|
  {
    var l, ending, rest := FirstLineCut(a);
    assert SplitLines("") == [];
    assert IsBreak('\r') && IsBreak('\n');
    if rest == "" {
      assert a == l + ending;
      LineThen(l, LF, "");
      assert a + LF == l + LF + "";
    } else {
      assert a[|a| - 1] == rest[|rest| - 1];
      Regroup3(l + ending, rest, LF);
      assert (rest + LF)[0] == rest[0];
      LineThen(l, ending, rest + LF);
      LineEnded(rest);
    }
  }

  /** A text that ends its last line, but not with `\r` or `\n`. */
  predicate EndsOddly(t: string) {
    t != "" && IsBreak(t[|t| - 1]) && t[|t| - 1] != '\r' && t[|t| - 1] != '\n'
  }

  lemma {:induction false} ReadLast(t: string)
    requires t != ""
    ensures ReadText(t) != "" && ReadText(t)[|ReadText(t)| - 1] == if t[|t| - 1] == '\r' then '\n' else t[|t| - 1]
    decreases |t|
  {
    var rest := t[if t[0] == '\r' && |t| > 1 && t[1] == '\n' then 2 else 1..];
    if rest != "" {
      assert rest[|rest| - 1] == t[|t| - 1];
      ReadLast(rest);
    } else {
      assert ReadText(rest) == "";
    }
  }

  lemma EmptyLine()
    ensures SplitLines(LF) == [""]
  {
    assert SplitLines("") == [];
    assert IsBreak('\n');
    LineThen("", LF, "");
    assert "" + LF + "" == LF;
  }

  lemma NormalizedLines(text: string)
    requires text != "" && '\r' !in text && text[|text| - 1] != '\n'
    ensures SplitLines(text + LF) == SplitLines(text) + (if EndsOddly(text) then [""] else [])
  {
    assert text[|text| - 1] in text;
    if EndsOddly(text) {
      EmptyLine();
      LinesAppend(text, LF);
    } else {
      LineEnded(text);
      assert SplitLines(text) + [] == SplitLines(text);
    }
  }

  lemma LinesOfNormalized(qaBody: string)
    ensures SplitLines(Normalized(qaBody)) == SplitLines(ReadText(qaBody)) + (if EndsOddly(qaBody) then [""] else [])
  {
    var text := ReadText(qaBody);
    if qaBody != "" {
      ReadLast(qaBody);
      if text[|text| - 1] != '\n' {
        NormalizedLines(text);
        return;
      }
    }
    assert SplitLines(text) + [] == SplitLines(text);
  }

  /** A payload has exactly the lines of what was given, in order; if that ended with
    * an unusual line break, an empty line follows. */
  lemma PayloadLines(qaBody: string, ending: string)
    requires ending in [LF, CR, CRLF]
    ensures SplitLines(ApplyEnding(qaBody, ending)) == SplitLines(qaBody) + (if EndsOddly(qaBody) then [""] else [])
  {
    assert '\r' !in Normalized(qaBody);
    LinesOfSubstitute(Normalized(qaBody), ending);
    LinesOfRead(qaBody);
    LinesOfNormalized(qaBody);
  }

  lemma PayloadAddsNothing(qaBody: string, ending: string)
    requires ending in [LF, CR, CRLF]
    ensures NoNewLines(SplitLines(ApplyEnding(qaBody, ending)), SplitLines(qaBody))
  {
    PayloadLines(qaBody, ending);
  }

  // ---- a well-formed document stays well formed ---------------------------------------------

  /** Lines of a text whose first part ends a line, even where `\r` meets `\n`. */
  lemma Joined(a: string, b: string)
    requires a == "" || IsBreak(a[|a| - 1])
    ensures NoNewLines(SplitLines(a + b), SplitLines(a) + SplitLines(b))
  {
    if Breaks(a, b) {
      LinesAppend(a, b);
    } else {
      var rest := b[1..];
      assert a + b == a + LF + rest && b == "" + LF + rest;
      assert IsBreak('\n');
      LinesAppend(a + LF, rest);
      BreakAdded(a, LF);
      LineThen("", LF, rest);
    }
  }

  lemma SeparatorLines(body: string, ending: string, sep: string)
    requires ending in [LF, CR, CRLF] && (sep == "" || sep == ending || sep == ending + ending)
    ensures NoNewLines(SplitLines(body + sep), SplitLines(body))
  {
    BreakAdded(body, ending);
    BreakAdded(body + ending, ending);
    Regroup3(body, ending, ending);
    assert body + "" == body;
  }

  /** The lines of an appended body come from the old one and the payload. */
  lemma AppendedLines(body: string, payload: string, ending: string)
    requires ending in [LF, CR, CRLF]
    ensures NoNewLines(SplitLines(body + Separator(body, ending) + payload), SplitLines(body) + SplitLines(payload))
  {
    var sep := Separator(body, ending);
    SeparatorLines(body, ending, sep);
    Joined(body + sep, payload);
  }

  ghost predicate NoHeadings(lines: seq<string>) { TASK !in lines && NOTES !in lines && QA !in lines }

  lemma NewTail(xs: seq<string>, old': seq<string>, tail: seq<string>, x: string, p: nat)
    requires OnlyAt(xs + old', x, p) && p < |xs| && x !in tail
    ensures OnlyAt(xs + tail, x, p) && x !in old'
  {
    var ys := xs + tail;
    assert forall i | 0 <= i < |xs| :: (xs + old')[i] == xs[i];
    assert forall i | 0 <= i < |old'| :: (xs + old')[|xs| + i] == old'[i];
    forall i | 0 <= i < |ys| && i != p ensures ys[i] != x {
      if i < |xs| {
        assert ys[i] == (xs + old')[i];
      } else {
        assert ys[i] in tail;
      }
    }
  }

  /** The text up to and with the QA heading settles the shape. */
  lemma ShapeWithNewTail(head: seq<string>, old': seq<string>, tail: seq<string>, task: nat, notes: nat, qa: nat)
    requires head != [] && head[|head| - 1] == QA && Shape(head + old', task, notes, qa) && NoHeadings(tail)
    ensures Shape(head + tail, task, notes, qa) && NoHeadings(old')
  {
    assert (head + old')[|head| - 1] == QA;
    NewTail(head, old', tail, TASK, task);
    NewTail(head, old', tail, NOTES, notes);
    NewTail(head, old', tail, QA, qa);
    forall i | task < i < notes ensures !StartsWith((head + tail)[i], "## ") {
      assert (head + tail)[i] == (head + old')[i];
    }
  }

  lemma TextLines(text: string, parts: Parts)
    requires PartsOk(text, parts)
    ensures SplitLines(text) == SplitLines(parts.head) + SplitLines(parts.body)
  {
    if parts.body != "" {
      LinesAppend(parts.head, parts.body);
    } else {
      assert SplitLines("") == [] && text == parts.head;
      assert SplitLines(parts.head) + [] == SplitLines(parts.head);
    }
  }

  /** A well-formed text, its lines split at the QA heading. */
  lemma HeadShape(text: string, parts: Parts) returns (task: nat, notes: nat, qa: nat)
    requires PartsOk(text, parts) && WellFormed(text)
    ensures Shape(SplitLines(parts.head) + SplitLines(parts.body), task, notes, qa)
  {
    TextLines(text, parts);
    StructureMeansShape(SplitLines(text));
    task, notes, qa :| Shape(SplitLines(text), task, notes, qa);
  }

  lemma ShapeIsWellFormed(text: string, task: nat, notes: nat, qa: nat)
    requires Shape(SplitLines(text), task, notes, qa)
    ensures WellFormed(text)
  {
    StructureMeansShape(SplitLines(text));
  }

  /** The text with another tail, when the head's lines stay as they are. */
  lemma NewTailKeepsStructure(text: string, parts: Parts, tail: seq<string>, updated: string)
    requires PartsOk(text, parts) && WellFormed(text) && NoHeadings(tail)
    requires SplitLines(updated) == SplitLines(parts.head) + tail
    ensures WellFormed(updated)
  {
    var task, notes, qa := HeadShape(text, parts);
    ShapeWithNewTail(SplitLines(parts.head), SplitLines(parts.body), tail, task, notes, qa);
    ShapeIsWellFormed(updated, task, notes, qa);
  }

  lemma BodyHasNoHeadings(text: string, parts: Parts)
    requires PartsOk(text, parts) && WellFormed(text)
    ensures NoHeadings(SplitLines(parts.body))
  {
    var task, notes, qa := HeadShape(text, parts);
    ShapeWithNewTail(SplitLines(parts.head), SplitLines(parts.body), [], task, notes, qa);
  }

  lemma NewBodyHasNoHeadings(text: string, parts: Parts, qaBody: string, append: bool)
    requires PartsOk(text, parts) && WellFormed(text) && NoHeadings(SplitLines(qaBody))
    ensures NoHeadings(SplitLines(Payload(parts, qaBody)))
    ensures NoHeadings(SplitLines(NewBody(parts, Payload(parts, qaBody), append)))
  {
    var ending := LineEnding(parts.heading);
    HeadingEnding(parts);
    PayloadAddsNothing(qaBody, ending);
    if append {
      BodyHasNoHeadings(text, parts);
      AppendedLines(parts.body, Payload(parts, qaBody), ending);
    }
  }

  /** A new body never runs into the heading line. */
  lemma NewBodyBreaks(text: string, parts: Parts, qaBody: string, append: bool)
    requires PartsOk(text, parts) && Terminated(parts)
    ensures Breaks(parts.head, NewBody(parts, Payload(parts, qaBody), append))
  {
    var ending, payload := LineEnding(parts.heading), Payload(parts, qaBody);
    HeadingEnding(parts);
    PayloadUsesOnly(qaBody, ending);
    if append {
      if parts.body == "" {
        HeadBreaks(text, parts, ending + payload);
      }
    } else {
      HeadBreaks(text, parts, payload);
    }
  }

  /** A well-formed document stays well formed for any QA text without a required
    * heading line -- in replace mode, if the QA heading line is terminated. */
  lemma RenderKeepsStructure(text: string, qaBody: string, append: bool)
    requires WellFormed(text) && QaParts(text).Some? && NoHeadings(SplitLines(qaBody))
    requires append || Terminated(QaParts(text).value)
    ensures RenderQa(text, qaBody, None, append).Ok? && WellFormed(RenderQa(text, qaBody, None, append).value)
  {
    var parts := QaParts(text).value;
    var body := NewBody(parts, Payload(parts, qaBody), append);
    PartsSpec(text);
    NewBodyHasNoHeadings(text, parts, qaBody, append);
    if Terminated(parts) {
      NewBodyBreaks(text, parts, qaBody, append);
      LinesAppend(parts.head, body);
      NewTailKeepsStructure(text, parts, SplitLines(body), parts.head + body);
    } else {
      UnterminatedAppend(text, parts, Payload(parts, qaBody));
      NewTailKeepsStructure(text, parts, SplitLines(Payload(parts, qaBody)), parts.head + body);
    }
  }

  lemma UnterminatedAppend(text: string, parts: Parts, payload: string)
    requires PartsOk(text, parts) && !Terminated(parts)
    ensures SplitLines(parts.head + NewBody(parts, payload, true)) == SplitLines(parts.head) + SplitLines(payload)
  {
    HeadingEnding(parts);
    LastOfHead(parts.head);
    assert QA[|QA| - 1] == 'k';
    assert parts.body + LF + payload == LF + payload;
    Regroup3(parts.head, LF, payload);
    LineEnded(parts.head);
    assert IsBreak('\n');
    LinesAppend(parts.head + LF, payload);
  }

  // ---- an unterminated heading ---------------------------------------------------------------

  /** The head before its last line. */
  lemma BeforeLast(head: string) returns (before: string, last: string)
    requires SplitKeepEnds(head) != [] && SplitKeepEnds(head)[|SplitKeepEnds(head)| - 1] != ""
    ensures last == SplitKeepEnds(head)[|SplitKeepEnds(head)| - 1] && head == before + last
    ensures SplitLines(head) != [] && SplitLines(before) == SplitLines(head)[..|SplitLines(head)| - 1]
    ensures forall b: string | b != "" && b[0] == last[0] :: Breaks(before, b)
  {
    var n := |SplitKeepEnds(head)| - 1;
    last := SplitKeepEnds(head)[n];
    before := Concat(SplitKeepEnds(head)[..n]);
    SameCount(head);
    CutConcat(head, n);
    assert SplitKeepEnds(head)[n..] == [last] && [last][1..] == [] && last + "" == last;
    if n > 0 {
      HeadChunks(head, n);
    } else {
      assert SplitLines("") == [];
    }
  }

  lemma LastLineIsLost(lines: seq<string>, x: string, glued: string, rest: seq<string>, p: nat)
    requires lines != [] && lines[|lines| - 1] == x && OnlyAt(lines, x, p)
    requires glued != x && x !in rest
    ensures x !in lines[..|lines| - 1] + ([glued] + rest)
  {
    var before := lines[..|lines| - 1];
    forall i | 0 <= i < |before| ensures before[i] != x {
      assert before[i] == lines[i];
    }
  }

  lemma GluedLine(before: string, x: string, payload: string, l: string, ending: string, rest: string)
    requires payload == l + ending + rest && NoBreaks(l) && NoBreaks(x) && Follows(ending, rest) && l != ""
    requires Breaks(before, x + payload)
    ensures SplitLines(before + (x + payload)) == SplitLines(before) + ([x + l] + SplitLines(rest)) && x + l != x
  {
    assert x + payload == (x + l) + ending + rest;
    assert |x + l| > |x|;
    LineThen(x + l, ending, rest);
    LinesAppend(before, x + payload);
  }

  /** A payload after an unterminated last line `x` leaves no line `x`. */
  lemma GluedHead(head: string, x: string, payload: string, p: nat)
    requires SplitKeepEnds(head) != [] && SplitKeepEnds(head)[|SplitKeepEnds(head)| - 1] == x && x != "" && NoBreaks(x)
    requires SplitLines(head) != [] && SplitLines(head)[|SplitLines(head)| - 1] == x && OnlyAt(SplitLines(head), x, p)
    requires payload != "" && !IsBreak(payload[0]) && x !in SplitLines(payload)
    ensures x !in SplitLines(head + payload)
  {
    var before, last := BeforeLast(head);
    var l, ending, rest := FirstLineCut(payload);
    GluedLine(before, x, payload, l, ending, rest);
    LastLineIsLost(SplitLines(head), x, x + l, SplitLines(rest), p);
    Regroup3(before, x, payload);
  }

  /** In replace mode a heading at the very end of the file runs into the payload's
    * first line and is lost; the guard of `handoff qa` refuses such a result. */
  lemma UnterminatedHeadingIsLost(text: string, qaBody: string)
    requires WellFormed(text) && QaParts(text).Some? && !Terminated(QaParts(text).value)
    requires NoHeadings(SplitLines(qaBody))
    requires var payload := Payload(QaParts(text).value, qaBody); payload != "" && !IsBreak(payload[0])
    ensures RenderQa(text, qaBody, None, false).Ok? && !WellFormed(RenderQa(text, qaBody, None, false).value)
  {
    var parts := QaParts(text).value;
    PartsSpec(text);
    NewBodyHasNoHeadings(text, parts, qaBody, false);
    var qa := QaOnlyInHead(text, parts);
    GluedDocument(text, parts, Payload(parts, qaBody), qa);
    NoQaNoStructure(parts.head + Payload(parts, qaBody));
  }

  lemma QaOnlyInHead(text: string, parts: Parts) returns (qa: nat)
    requires PartsOk(text, parts) && WellFormed(text) && parts.body == ""
    ensures OnlyAt(SplitLines(parts.head), QA, qa)
  {
    var task, notes, at := HeadShape(text, parts);
    assert SplitLines("") == [];
    assert SplitLines(parts.head) + [] == SplitLines(parts.head);
    qa := at;
  }

  lemma GluedDocument(text: string, parts: Parts, payload: string, qa: nat)
    requires PartsOk(text, parts) && !Terminated(parts) && OnlyAt(SplitLines(parts.head), QA, qa)
    requires payload != "" && !IsBreak(payload[0]) && NoQaLine(payload)
    ensures NoQaLine(parts.head + payload)
  {
    GluedHead(parts.head, QA, payload, qa);
  }

  lemma NoQaNoStructure(text: string)
    requires NoQaLine(text)
    ensures !WellFormed(text)
  {
    var lines := SplitLines(text);
    assert Positions(lines, QA) == [];
    assert CountProblem(lines, QA) == [Missing(QA)];
    assert StructureOf(lines) != [];
  }

  // ---- the Status value ------------------------------------------------------------------------

  lemma {:induction false} SplitAppend(a: string, b: string)
    ensures var lines := Split(a);
            Split(a + b) == lines[..|lines| - 1] + Split(lines[|lines| - 1] + b)
    decreases |a|
  {
    var l, rest := SplitCases(a);
    if '\n' in a {
      Regroup3(l + LF, rest, b);
      Regroup3(l, LF, rest + b);
      SplitFirst(l, rest + b);
      SplitAppend(rest, b);
    }
  }

  /** The first Status line is a whole line of the head. */
  predicate StatusAbove(head: string) { FindStatus(Split(head)) < |Split(head)| - 1 }

  lemma {:induction false} FindStatusInPrefix(a: seq<string>, b: seq<string>)
    requires FindStatus(a) < |a|
    ensures FindStatus(a + b) == FindStatus(a)
    decreases |a|
  {
    assert (a + b)[0] == a[0];
    if !StatusLine(a[0]) {
      assert (a + b)[1..] == a[1..] + b;
      FindStatusInPrefix(a[1..], b);
    }
  }

  lemma UpdatePrefix<T>(a: seq<T>, b: seq<T>, i: nat, x: T)
    requires i < |a|
    ensures (a + b)[i := x] == a[i := x] + b
  {
  }

  /** Setting Status changes its first value and nothing else: the new QA body, and
    * everything else below the Status line, is as it was. */
  lemma StatusSetInHead(head: string, body: string, s: string)
    requires StatusAbove(head)
    ensures ReplaceStatus(head + body, s) == ReplaceStatus(head, s) + body
  {
    var lines := Split(head);
    var n := |lines| - 1;
    var above, more := lines[..n], Split(lines[n] + body);
    var i := FindStatus(lines);
    SplitAppend(head, body);
    assert lines == above + [lines[n]];
    assert FindStatus(above) == i by {
      var k := FindStatus(above);
      assert above[i] == lines[i];
    }
    FindStatusInPrefix(above, more);
    FindStatusInPrefix(above, [lines[n]]);
    var changed := above[i := StatusWith(s, lines[i])];
    UpdatePrefix(above, more, i, StatusWith(s, lines[i]));
    UpdatePrefix(above, [lines[n]], i, StatusWith(s, lines[i]));
    JoinAppend(changed, more);
    JoinAppend(changed, [lines[n]]);
    JoinOfSplit(lines[n] + body);
    Regroup3(Join(changed) + LF, lines[n], body);
  }
}
