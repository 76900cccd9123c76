/** HANDOFF.md: headings, the Status field, and the status-insensitive plan.
  *
  * Section functions work on the `\n`-separated lines of a text, because the
  * regular expressions of the original do; `Structure` works on `splitlines`.
  * A hash is modelled by the text it hashes.
  */
module Handoff {
  import opened Wrappers
  import opened Text

  const TASK := "## Current Task"
  const NOTES := "## Execution Notes"
  const QA := "## QA Feedback"
  const RULE := "---"
  const STATUS_MARK := "**Status:**"
  const READY_FOR_QA := "READY FOR QA"
  const APPROVED := "APPROVED"

  // ---- the three required headings ---------------------------------------

  datatype Problem =
    | Missing(heading: string)
    | Repeated(heading: string, count: nat)
    | OutOfOrder(later: string, earlier: string)
    | InsideTask(line: string)

  /** Indices at which `x` occurs, in ascending order. */
  function Positions(xs: seq<string>, x: string): (ps: seq<nat>)
    ensures forall p | p in ps :: p < |xs| && xs[p] == x
    ensures forall i | 0 <= i < |xs| && xs[i] == x :: i in ps
    ensures ps == [] <==> x !in xs
  {
    if xs == [] then []
    else
      var n := |xs| - 1;
      Positions(xs[..n], x) + (if xs[n] == x then [n] else [])
  }

  function CountProblem(lines: seq<string>, heading: string): seq<Problem> {
    var count := |Positions(lines, heading)|;
    if count == 0 then [Missing(heading)]
    else if count != 1 then [Repeated(heading, count)]
    else []
  }

  function OrderProblem(later: string, l: nat, earlier: string, e: nat): seq<Problem> {
    if l < e then [OutOfOrder(later, earlier)] else []
  }

  function InsideProblems(lines: seq<string>): seq<Problem> {
    if lines == [] then []
    else
      (if StartsWith(lines[0], "## ") && !StartsWith(lines[0], "###") then [InsideTask(lines[0])] else [])
      + InsideProblems(lines[1..])
  }

  /** The elements strictly between two indices. */
  function Between(xs: seq<string>, a: nat, b: nat): seq<string> {
    if a < b <= |xs| then xs[a + 1..b] else []
  }

  function OrderOf(lines: seq<string>, task: nat, notes: nat, qa: nat): seq<Problem> {
    if !(task <= notes <= qa) then
      OrderProblem(NOTES, notes, TASK, task)
      + OrderProblem(QA, qa, TASK, task)
      + OrderProblem(QA, qa, NOTES, notes)
    else InsideProblems(Between(lines, task, notes))
  }

  /** `handoff_structure`, on the physical lines of a text. */
  function StructureOf(lines: seq<string>): seq<Problem> {
    var problems := CountProblem(lines, TASK) + CountProblem(lines, NOTES) + CountProblem(lines, QA);
    if problems != [] then problems
    else OrderOf(lines, Positions(lines, TASK)[0], Positions(lines, NOTES)[0], Positions(lines, QA)[0])
  }

  function Structure(text: string): seq<Problem> { StructureOf(SplitLines(text)) }

  predicate WellFormed(text: string) { Structure(text) == [] }

  /** `_require_unambiguous`: a section hash never has to choose between headings. */
  predicate Unambiguous(text: string) {
    |Positions(SplitLines(text), TASK)| <= 1 && |Positions(SplitLines(text), QA)| <= 1
  }

  /** `x` stands at `p` and nowhere else. */
  ghost predicate OnlyAt(xs: seq<string>, x: string, p: nat) {
    p < |xs| && xs[p] == x && forall i | 0 <= i < |xs| && i != p :: xs[i] != x
  }

  lemma {:induction false} SinglePosition(xs: seq<string>, x: string)
    ensures |Positions(xs, x)| == 1 ==> OnlyAt(xs, x, Positions(xs, x)[0])
    ensures forall p: nat | OnlyAt(xs, x, p) :: Positions(xs, x) == [p]
  {
    if xs != [] {
      var n := |xs| - 1;
      SinglePosition(xs[..n], x);
      if |Positions(xs, x)| == 1 {
        var p := Positions(xs, x)[0];
        forall i | 0 <= i < |xs| && i != p ensures xs[i] != x {
          assert xs[i] == x ==> i in Positions(xs, x);
        }
      }
      forall p: nat | OnlyAt(xs, x, p) ensures Positions(xs, x) == [p] {
        if p < n {
          assert OnlyAt(xs[..n], x, p);
        } else {
          assert forall i | 0 <= i < n :: xs[..n][i] != x;
        }
      }
    }
  }

  /** The three headings stand exactly once, in order, with no `## ` line between the first two. */
  ghost predicate Shape(lines: seq<string>, task: nat, notes: nat, qa: nat) {
    && OnlyAt(lines, TASK, task) && OnlyAt(lines, NOTES, notes) && OnlyAt(lines, QA, qa)
    && task < notes < qa
    && forall i | task < i < notes :: !StartsWith(lines[i], "## ")
  }

  lemma {:induction false} NoInsideProblems(lines: seq<string>)
    ensures InsideProblems(lines) == [] <==> forall i | 0 <= i < |lines| :: !StartsWith(lines[i], "## ")
  {
    if lines != [] {
      NoInsideProblems(lines[1..]);
      assert forall i | 0 < i < |lines| :: lines[i] == lines[1..][i - 1];
      assert StartsWith(lines[0], "## ") ==> !StartsWith(lines[0], "###") by {
        if StartsWith(lines[0], "## ") { assert lines[0][2] == ' '; }
      }
    }
  }

  lemma HeadingsDiffer()
    ensures TASK != NOTES && NOTES != QA && TASK != QA
  {
    assert TASK[3] == 'C' && NOTES[3] == 'E' && QA[3] == 'Q';
  }

  lemma OrderMeansShape(lines: seq<string>, task: nat, notes: nat, qa: nat)
    requires task < |lines| && notes < |lines| && qa < |lines|
    requires task != notes && notes != qa
    ensures OrderOf(lines, task, notes, qa) == []
            <==> task < notes < qa && forall i | task < i < notes :: !StartsWith(lines[i], "## ")
  {
    if task < notes < qa {
      var between := Between(lines, task, notes);
      NoInsideProblems(between);
      assert forall i | task < i < notes :: lines[i] == between[i - task - 1];
      assert forall i | 0 <= i < |between| :: between[i] == lines[task + 1 + i];
    }
  }

  lemma ShapeOfStructure(lines: seq<string>, task: nat, notes: nat, qa: nat)
    requires OnlyAt(lines, TASK, task) && OnlyAt(lines, NOTES, notes) && OnlyAt(lines, QA, qa)
    ensures StructureOf(lines) == [] <==> Shape(lines, task, notes, qa)
  {
    SinglePosition(lines, TASK);
    SinglePosition(lines, NOTES);
    SinglePosition(lines, QA);
    HeadingsDiffer();
    assert StructureOf(lines) == OrderOf(lines, task, notes, qa);
    OrderMeansShape(lines, task, notes, qa);
  }

  /** An empty problem list means exactly this shape. */
  lemma StructureMeansShape(lines: seq<string>)
    ensures StructureOf(lines) == [] <==> exists task: nat, notes: nat, qa: nat :: Shape(lines, task, notes, qa)
  {
    if StructureOf(lines) == [] {
      SinglePosition(lines, TASK);
      SinglePosition(lines, NOTES);
      SinglePosition(lines, QA);
      var task, notes, qa := Positions(lines, TASK)[0], Positions(lines, NOTES)[0], Positions(lines, QA)[0];
      ShapeOfStructure(lines, task, notes, qa);
    }
    forall task: nat, notes: nat, qa: nat | Shape(lines, task, notes, qa) ensures StructureOf(lines) == [] {
      ShapeOfStructure(lines, task, notes, qa);
    }
  }

  // ---- sections -----------------------------------------------------------

  /** `^## .+$` */
  predicate IsHeading(line: string) { StartsWith(line, "## ") && |line| > 3 }

  predicate Named(line: string, heading: string) { IsHeading(line) && Strip(line) == heading }

  function First(xs: seq<string>, p: string -> bool): (i: nat)
    ensures i <= |xs|
    ensures i < |xs| ==> p(xs[i])
    ensures forall k | 0 <= k < i :: !p(xs[k])
  {
    if xs == [] || p(xs[0]) then 0 else 1 + First(xs[1..], p)
  }

  /** Index of the last element satisfying `p`, or the length when there is none. */
  function Last(xs: seq<string>, p: string -> bool): (i: nat)
    ensures i <= |xs|
    ensures i < |xs| ==> p(xs[i]) && forall k | i < k < |xs| :: !p(xs[k])
    ensures i == |xs| ==> forall k | 0 <= k < |xs| :: !p(xs[k])
  {
    if xs == [] then 0
    else
      var n := |xs| - 1;
      if p(xs[n]) then n
      else
        var i := Last(xs[..n], p);
        if i == n then n + 1 else i
  }

  function FirstNamed(lines: seq<string>, heading: string): (i: nat)
    ensures i <= |lines|
    ensures i < |lines| ==> Named(lines[i], heading)
    ensures forall k | 0 <= k < i :: !Named(lines[k], heading)
  {
    First(lines, line => Named(line, heading))
  }

  function LastNamed(lines: seq<string>, heading: string): (i: nat)
    ensures i <= |lines|
    ensures i < |lines| ==> Named(lines[i], heading) && forall k | i < k < |lines| :: !Named(lines[k], heading)
    ensures i == |lines| ==> forall k | 0 <= k < |lines| :: !Named(lines[k], heading)
  {
    Last(lines, line => Named(line, heading))
  }

  lemma SameNamed(a: seq<string>, b: seq<string>, heading: string)
    requires |a| == |b| && forall k | 0 <= k < |a| :: Named(a[k], heading) == Named(b[k], heading)
    ensures FirstNamed(a, heading) == FirstNamed(b, heading)
    ensures LastNamed(a, heading) == LastNamed(b, heading)
  {
    var i, j := FirstNamed(a, heading), FirstNamed(b, heading);
    assert i < |a| ==> Named(b[i], heading);
    assert j < |a| ==> Named(a[j], heading);
    var m, n := LastNamed(a, heading), LastNamed(b, heading);
    assert m < |a| ==> Named(b[m], heading);
    assert n < |a| ==> Named(a[n], heading);
  }

  /** The first heading after line `i`, or the end. */
  function NextHeading(lines: seq<string>, i: nat): (j: nat)
    requires i < |lines|
    ensures i < j <= |lines|
    ensures j < |lines| ==> IsHeading(lines[j])
    ensures forall k | i < k < j :: !IsHeading(lines[k])
    decreases |lines| - i
  {
    if i + 1 == |lines| || IsHeading(lines[i + 1]) then i + 1 else NextHeading(lines, i + 1)
  }

  /** `text[match.start():end]`: from heading `i` up to the next one.
    * The `\n` before the next heading belongs to the section, hence the empty last line. */
  function SectionLines(lines: seq<string>, i: nat): (s: seq<string>)
    requires i < |lines|
    ensures |s| > 0
  {
    var j := NextHeading(lines, i);
    lines[i..j] + (if j < |lines| then [""] else [])
  }

  // ---- Status -------------------------------------------------------------

  predicate StatusLine(line: string) { StartsWith(line, STATUS_MARK) }

  function StatusRest(line: string): string
    requires StatusLine(line)
  {
    line[|STATUS_MARK|..]
  }

  predicate Valued(line: string)
    requires StatusLine(line)
  {
    !Blank(StatusRest(line))
  }

  function FindStatus(lines: seq<string>): (i: nat)
    ensures i <= |lines|
    ensures i < |lines| ==> StatusLine(lines[i])
    ensures forall k | 0 <= k < i :: !StatusLine(lines[k])
  {
    if lines == [] || StatusLine(lines[0]) then 0 else 1 + FindStatus(lines[1..])
  }

  function DropBlank(lines: seq<string>): (r: seq<string>)
    ensures |r| <= |lines| && r == lines[|lines| - |r|..]
    ensures r != [] ==> !Blank(r[0])
    ensures forall i | 0 <= i < |lines| - |r| :: Blank(lines[i])
  {
    if lines != [] && Blank(lines[0]) then DropBlank(lines[1..]) else lines
  }

  /** What `\s*(.*?)\s*$` leaves after a Status mark at the head of `lines`:
    * `\s` crosses line ends, so a blank value takes the next non-blank line,
    * and blank lines after the value go with it. */
  function AfterStatus(lines: seq<string>): (r: seq<string>)
    requires lines != [] && StatusLine(lines[0])
    ensures |r| < |lines|
  {
    if Valued(lines[0]) then DropBlank(lines[1..])
    else
      var value := DropBlank(lines[1..]);
      if value == [] then [] else DropBlank(value[1..])
  }

  /** `_STATUS_RE.sub("**Status:**", section)` */
  function SubStatus(lines: seq<string>): (r: seq<string>)
    ensures lines != [] ==> r != []
    decreases |lines|
  {
    if lines == [] then []
    else if StatusLine(lines[0]) then [STATUS_MARK] + SubStatus(AfterStatus(lines))
    else [lines[0]] + SubStatus(lines[1..])
  }

  function ReadStatusLines(lines: seq<string>): string {
    var i := FindStatus(lines);
    if i == |lines| then ""
    else if Valued(lines[i]) then Strip(StatusRest(lines[i]))
    else
      var value := DropBlank(lines[i + 1..]);
      if value == [] then "" else Strip(value[0])
  }

  /** `read_status` */
  function ReadStatus(text: string): string { ReadStatusLines(Split(text)) }

  /** The part of a Status line that `replace_status` keeps: from its first `\r` on. */
  function KeptTail(line: string): string
    requires StatusLine(line)
  {
    StatusRest(line)[IndexOf(StatusRest(line), '\r')..]
  }

  function StatusWith(status: string, line: string): string
    requires StatusLine(line)
  {
    STATUS_MARK + " " + status + KeptTail(line)
  }

  function ReplaceStatusLines(lines: seq<string>, status: string): (r: seq<string>)
    ensures |r| == |lines|
  {
    var i := FindStatus(lines);
    if i == |lines| then lines else lines[i := StatusWith(status, lines[i])]
  }

  /** `replace_status` */
  function ReplaceStatus(text: string, status: string): string {
    Join(ReplaceStatusLines(Split(text), status))
  }

  // ---- plan text and planner fingerprint ----------------------------------

  function PlanLines(lines: seq<string>): (r: seq<string>)
    ensures |r| > 0
  {
    var i := FirstNamed(lines, TASK);
    if i == |lines| then [""] else SubStatus(SectionLines(lines, i))
  }

  function QaLines(lines: seq<string>): (r: seq<string>)
    ensures |r| > 0
  {
    var i := LastNamed(lines, QA);
    if i == |lines| then [""] else SectionLines(lines, i)
  }

  /** `_current_task_without_status`; the original raises on an ambiguous text. */
  function CurrentTask(text: string): Result<string, string> {
    if Unambiguous(text) then Ok(Join(PlanLines(Split(text)))) else Err("ambiguous headings")
  }

  function FingerprintLines(lines: seq<string>): (r: seq<string>)
    ensures |r| > 0
  {
    PlanLines(lines) + [RULE] + QaLines(lines)
  }

  /** `planner_fingerprint`, with `parse_handoff`'s empty string for an ambiguous text. */
  function Fingerprint(text: string): string {
    if Unambiguous(text) then Join(FingerprintLines(Split(text))) else ""
  }

  // ---- what is read ----------------------------------------------------------

  /** The Status that is read: none without a Status line; the trimmed value behind the
    * first mark; and with nothing behind it, the next line that is not blank. */
  lemma StatusReadExactly(lines: seq<string>, i: nat, j: nat)
    requires i <= j <= |lines| && (forall k | 0 <= k < i :: !StatusLine(lines[k])) && (i < |lines| ==> StatusLine(lines[i]))
    requires forall k | i < k < j :: Blank(lines[k])
    requires i < j < |lines| ==> !Blank(lines[j])
    ensures i == |lines| ==> ReadStatusLines(lines) == ""
    ensures i < |lines| && !Blank(lines[i][|STATUS_MARK|..]) ==> ReadStatusLines(lines) == Strip(lines[i][|STATUS_MARK|..])
    ensures i < j && Blank(lines[i][|STATUS_MARK|..]) ==> ReadStatusLines(lines) == if j == |lines| then "" else Strip(lines[j])
  {
    assert FindStatus(lines) == i;
    if i < j {
      DropBlankTo(lines[i + 1..], j - i - 1);
    }
  }

  lemma {:induction false} DropBlankTo(lines: seq<string>, n: nat)
    requires n <= |lines| && (forall k | 0 <= k < n :: Blank(lines[k])) && (n < |lines| ==> !Blank(lines[n]))
    ensures DropBlank(lines) == lines[n..]
    decreases n
  {
    if n > 0 {
      DropBlankTo(lines[1..], n - 1);
    }
  }

  /** A text is ambiguous exactly if the Current Task or the QA Feedback heading stands in
    * two of its lines. */
  lemma AmbiguousExactly(text: string)
    ensures var lines := SplitLines(text);
            Unambiguous(text)
            <==> AtMostOnce(lines, TASK) && AtMostOnce(lines, QA)
  {
    TwiceExactly(SplitLines(text), TASK);
    TwiceExactly(SplitLines(text), QA);
  }

  /** `x` stands in at most one place. */
  predicate AtMostOnce(xs: seq<string>, x: string) {
    forall i, j | 0 <= i < j < |xs| && xs[i] == x :: xs[j] != x
  }

  lemma OnceMore(xs: seq<string>, last: string, x: string)
    ensures AtMostOnce(xs + [last], x) <==> AtMostOnce(xs, x) && (last == x ==> x !in xs)
  {
    var all := xs + [last];
    if AtMostOnce(all, x) {
      forall i, j | 0 <= i < j < |xs| && xs[i] == x ensures xs[j] != x {
        assert all[i] == xs[i] && all[j] == xs[j];
      }
      forall i | 0 <= i < |xs| && last == x ensures xs[i] != x {
        assert all[i] == xs[i] && all[|xs|] == last;
      }
    }
  }

  lemma {:induction false} TwiceExactly(xs: seq<string>, x: string)
    ensures |Positions(xs, x)| <= 1 <==> AtMostOnce(xs, x)
    decreases |xs|
  {
    if xs != [] {
      var n := |xs| - 1;
      TwiceExactly(xs[..n], x);
      assert xs == xs[..n] + [xs[n]];
      OnceMore(xs[..n], xs[n], x);
      assert |Positions(xs, x)| == |Positions(xs[..n], x)| + if xs[n] == x then 1 else 0;
    }
  }

  // ---- line bookkeeping ----------------------------------------------------

  lemma AfterStatusComesFrom(lines: seq<string>)
    requires lines != [] && StatusLine(lines[0])
    ensures forall x | x in AfterStatus(lines) :: x in lines
  {
    var rest := AfterStatus(lines);
    assert rest == lines[|lines| - |rest|..];
  }

  lemma {:induction false} SubStatusComesFrom(lines: seq<string>)
    ensures forall x | x in SubStatus(lines) :: x == STATUS_MARK || x in lines
    decreases |lines|
  {
    if lines != [] {
      if StatusLine(lines[0]) {
        AfterStatusComesFrom(lines);
        SubStatusComesFrom(AfterStatus(lines));
      } else {
        SubStatusComesFrom(lines[1..]);
      }
    }
  }

  lemma SectionComesFrom(lines: seq<string>, i: nat)
    requires i < |lines|
    ensures forall x | x in SectionLines(lines, i) :: x == "" || x in lines
  {
  }

  lemma PlanComesFrom(lines: seq<string>)
    ensures forall x | x in PlanLines(lines) :: x == "" || x == STATUS_MARK || x in lines
  {
    var i := FirstNamed(lines, TASK);
    if i < |lines| {
      SubStatusComesFrom(SectionLines(lines, i));
      SectionComesFrom(lines, i);
    }
  }

  lemma QaComesFrom(lines: seq<string>)
    ensures forall x | x in QaLines(lines) :: x == "" || x in lines
  {
    var i := LastNamed(lines, QA);
    if i < |lines| {
      SectionComesFrom(lines, i);
    }
  }

  lemma FingerprintLinesAreLines(lines: seq<string>)
    requires IsLines(lines)
    ensures IsLines(PlanLines(lines)) && IsLines(QaLines(lines)) && IsLines(FingerprintLines(lines))
  {
    PlanComesFrom(lines);
    QaComesFrom(lines);
    assert '\n' !in STATUS_MARK && '\n' !in RULE;
  }

  lemma ReplaceStatusLinesAreLines(lines: seq<string>, status: string)
    requires IsLines(lines) && '\n' !in status
    ensures IsLines(ReplaceStatusLines(lines, status))
  {
    var i := FindStatus(lines);
    if i < |lines| {
      assert lines[i] in lines;
      assert '\n' !in KeptTail(lines[i]);
      var r := ReplaceStatusLines(lines, status);
      forall l | l in r ensures '\n' !in l {
        var k :| 0 <= k < |r| && r[k] == l;
        if k != i { assert lines[k] in lines; }
      }
    }
  }
}
