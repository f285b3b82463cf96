/**
 * The textual plan of a compiled runtime program: one heading line per block,
 * one entry per instruction, indented by "--" per nesting level, under a
 * header that reports the program's CP and MR instruction counts.
 *
 * The text is specified through an outline, the sequence of lines the
 * explainer emits in order, each with its nesting depth; `Render` turns an
 * outline into the text. The explaining methods build the text step by step,
 * as the explainer's string builders do, and are proved to produce
 * `Render` of the outline.
 */
module PlanExplain {
  import opened ProgramTree
  import opened InstructionCount

  // ---------------------------------------------------------------------
  // Line texts
  // ---------------------------------------------------------------------

  /** The indentation of a nesting level: "--" once per level, nothing for a level <= 0. */
  function Offset(level: int): string
    decreases level
  {
    if level <= 0 then "" else Offset(level - 1) + "--"
  }

  /** The offset of a level is 2 * level dashes, and empty for a level <= 0. */
  lemma {:induction false} OffsetShape(level: int)
    ensures |Offset(level)| == if level > 0 then 2 * level else 0
    ensures forall k :: 0 <= k < |Offset(level)| ==> Offset(level)[k] == '-'
    decreases level
  {
    if level > 0 {
      OffsetShape(level - 1);
    }
  }

  function BoolText(b: bool): string
  {
    if b then "true" else "false"
  }

  function DigitChar(d: nat): char
    requires d < 10
  {
    "0123456789"[d]
  }

  /** The decimal text of a count, as appending an int to a string builder gives it. */
  function NatText(n: nat): (s: string)
    ensures |s| > 0
    ensures forall k :: 0 <= k < |s| ==> '0' <= s[k] <= '9'
    ensures n > 0 ==> s[0] != '0'
    ensures |s| == 1 || s[0] != '0'
  {
    if n < 10 then [DigitChar(n)] else NatText(n / 10) + [DigitChar(n % 10)]
  }

  /** The number a string of decimal digits denotes. */
  function DecimalValue(s: string): nat
    requires forall k :: 0 <= k < |s| ==> '0' <= s[k] <= '9'
  {
    if s == [] then 0 else 10 * DecimalValue(s[..|s| - 1]) + (s[|s| - 1] - '0') as nat
  }

  /** The header numbers can be read back: the decimal text of n denotes n. */
  lemma {:induction false} NatTextRoundTrip(n: nat)
    ensures DecimalValue(NatText(n)) == n
  {
    if n >= 10 {
      NatTextRoundTrip(n / 10);
      var s := NatText(n);
      assert s[..|s| - 1] == NatText(n / 10);
    }
  }

  /** The opening line of an MR-job instruction's text, and the label of each field. */
  const MR_JOB_OPENING: string := "MR-Job[\n"
  const JOB_TYPE: string := "  jobtype        = "
  const INPUT_LABELS: string := "  input labels   = "
  const REC_READER_INST: string := "  recReader inst = "
  const RAND_INST: string := "  rand inst      = "
  const MAPPER_INST: string := "  mapper inst    = "
  const SHUFFLE_INST: string := "  shuffle inst   = "
  const AGG_INST: string := "  agg inst       = "
  const OTHER_INST: string := "  other inst     = "
  const OUTPUT_LABELS: string := "  output labels  = "
  const RESULT_INDICES: string := "  result indices = "
  const NUM_REDUCERS: string := "  num reducers   = "
  const REPLICATION: string := "  replication    = "

  /** One field line of an MR-job instruction: the offset, the label, the value, then " \n". */
  function FieldLine(offset: string, title: string, value: string): string
  {
    offset + title + value + " \n"
  }

  /**
   * The multi-line text of an MR-job instruction: an opening line, one line per
   * field indented by the offset of level + 1, and the replication field closing
   * with " ]".
   */
  function MRJobText(job: MRJobInfo, level: int): (r: string)
    ensures |r| >= 10 && r[..8] == "MR-Job[\n" && r[|r| - 2..] == " ]"
  {
    var o := Offset(level + 1);
    var fields := ""
      + FieldLine(o, JOB_TYPE, job.jobType)
      + FieldLine(o, INPUT_LABELS, job.inputVars)
      + FieldLine(o, REC_READER_INST, job.recordReaderInsts)
      + FieldLine(o, RAND_INST, job.randInsts)
      + FieldLine(o, MAPPER_INST, job.mapperInsts)
      + FieldLine(o, SHUFFLE_INST, job.shuffleInsts)
      + FieldLine(o, AGG_INST, job.aggInsts)
      + FieldLine(o, OTHER_INST, job.otherInsts)
      + FieldLine(o, OUTPUT_LABELS, job.outputVars)
      + FieldLine(o, RESULT_INDICES, job.resultIndices)
      + FieldLine(o, NUM_REDUCERS, job.numReducers);
    var closing := o + REPLICATION + job.replication + " ]";
    Framed(MR_JOB_OPENING, fields, closing);
    EndsWith(o + REPLICATION + job.replication, " ]");
    MR_JOB_OPENING + fields + closing
  }

  /** A text between an opening and a closing starts with the opening and ends as the closing does. */
  lemma Framed(a: string, m: string, z: string)
    requires |z| >= 2
    ensures (a + m + z)[..|a|] == a
    ensures (a + m + z)[|a + m + z| - 2..] == z[|z| - 2..]
  {
  }

  lemma EndsWith(a: string, z: string)
    requires |z| == 2
    ensures (a + z)[|a + z| - 2..] == z
  {
  }

  /** The number of line breaks in a text. */
  function Newlines(s: string): nat
  {
    if s == [] then 0 else Newlines(s[..|s| - 1]) + (if s[|s| - 1] == '\n' then 1 else 0)
  }

  lemma {:induction false} NewlinesAppend(a: string, b: string)
    ensures Newlines(a + b) == Newlines(a) + Newlines(b)
  {
    if b != [] {
      NewlinesAppend(a, b[..|b| - 1]);
      assert (a + b)[..|a + b| - 1] == a + b[..|b| - 1];
    } else {
      assert a + b == a;
    }
  }

  lemma {:induction false} NoNewlines(s: string)
    requires '\n' !in s
    ensures Newlines(s) == 0
  {
    if s != [] {
      assert s[|s| - 1] in s;
      assert forall c | c in s[..|s| - 1] :: c in s;
      NoNewlines(s[..|s| - 1]);
    }
  }

  /** No field of an MR job spans more than one line. */
  ghost predicate SingleLineFields(job: MRJobInfo)
  {
    '\n' !in job.jobType && '\n' !in job.inputVars && '\n' !in job.recordReaderInsts
    && '\n' !in job.randInsts && '\n' !in job.mapperInsts && '\n' !in job.shuffleInsts
    && '\n' !in job.aggInsts && '\n' !in job.otherInsts && '\n' !in job.outputVars
    && '\n' !in job.resultIndices && '\n' !in job.numReducers && '\n' !in job.replication
  }

  /**
   * An MR job with single-line fields spans twelve line breaks: the opening line
   * and one line per field but the last, which closes with " ]" instead.
   */
  lemma MRJobLines(job: MRJobInfo, level: int)
    requires SingleLineFields(job)
    ensures Newlines(MRJobText(job, level)) == 12
  {
    var o := Offset(level + 1);
    OffsetShape(level + 1);
    assert '\n' !in o;
    LabelsSingleLine();
    var p0 := "";
    var p1 := p0 + FieldLine(o, JOB_TYPE, job.jobType);
    FieldLineNewline(o, JOB_TYPE, job.jobType);
    NewlinesAppend(p0, FieldLine(o, JOB_TYPE, job.jobType));
    var p2 := p1 + FieldLine(o, INPUT_LABELS, job.inputVars);
    FieldLineNewline(o, INPUT_LABELS, job.inputVars);
    NewlinesAppend(p1, FieldLine(o, INPUT_LABELS, job.inputVars));
    var p3 := p2 + FieldLine(o, REC_READER_INST, job.recordReaderInsts);
    FieldLineNewline(o, REC_READER_INST, job.recordReaderInsts);
    NewlinesAppend(p2, FieldLine(o, REC_READER_INST, job.recordReaderInsts));
    var p4 := p3 + FieldLine(o, RAND_INST, job.randInsts);
    FieldLineNewline(o, RAND_INST, job.randInsts);
    NewlinesAppend(p3, FieldLine(o, RAND_INST, job.randInsts));
    var p5 := p4 + FieldLine(o, MAPPER_INST, job.mapperInsts);
    FieldLineNewline(o, MAPPER_INST, job.mapperInsts);
    NewlinesAppend(p4, FieldLine(o, MAPPER_INST, job.mapperInsts));
    var p6 := p5 + FieldLine(o, SHUFFLE_INST, job.shuffleInsts);
    FieldLineNewline(o, SHUFFLE_INST, job.shuffleInsts);
    NewlinesAppend(p5, FieldLine(o, SHUFFLE_INST, job.shuffleInsts));
    var p7 := p6 + FieldLine(o, AGG_INST, job.aggInsts);
    FieldLineNewline(o, AGG_INST, job.aggInsts);
    NewlinesAppend(p6, FieldLine(o, AGG_INST, job.aggInsts));
    var p8 := p7 + FieldLine(o, OTHER_INST, job.otherInsts);
    FieldLineNewline(o, OTHER_INST, job.otherInsts);
    NewlinesAppend(p7, FieldLine(o, OTHER_INST, job.otherInsts));
    var p9 := p8 + FieldLine(o, OUTPUT_LABELS, job.outputVars);
    FieldLineNewline(o, OUTPUT_LABELS, job.outputVars);
    NewlinesAppend(p8, FieldLine(o, OUTPUT_LABELS, job.outputVars));
    var p10 := p9 + FieldLine(o, RESULT_INDICES, job.resultIndices);
    FieldLineNewline(o, RESULT_INDICES, job.resultIndices);
    NewlinesAppend(p9, FieldLine(o, RESULT_INDICES, job.resultIndices));
    var p11 := p10 + FieldLine(o, NUM_REDUCERS, job.numReducers);
    FieldLineNewline(o, NUM_REDUCERS, job.numReducers);
    NewlinesAppend(p10, FieldLine(o, NUM_REDUCERS, job.numReducers));
    var last := o + REPLICATION + job.replication + " ]";
    ClosingLineSingle(o, job.replication);
    OpeningNewline();
    NewlinesAppend(MR_JOB_OPENING, p11);
    NewlinesAppend(MR_JOB_OPENING + p11, last);
  }

  /** A field line of single-line parts holds exactly its closing line break. */
  lemma FieldLineNewline(offset: string, title: string, value: string)
    requires '\n' !in offset && '\n' !in title && '\n' !in value
    ensures Newlines(FieldLine(offset, title, value)) == 1
  {
    var x := offset + title + value + " ";
    NoNewlines(x);
    assert FieldLine(offset, title, value) == x + "\n";
    assert (x + "\n")[..|x|] == x;
  }

  /** The opening line of an MR job's text holds its one line break. */
  lemma OpeningNewline()
    ensures Newlines(MR_JOB_OPENING) == 1
  {
    var x := "MR-Job[";
    NoNewlines(x);
    assert MR_JOB_OPENING == x + "\n";
    assert (x + "\n")[..|x|] == x;
  }

  /** The closing field line of single-line parts holds no line break. */
  lemma ClosingLineSingle(offset: string, value: string)
    requires '\n' !in offset && '\n' !in value
    ensures Newlines(offset + REPLICATION + value + " ]") == 0
  {
    LabelsSingleLine();
    assert '\n' !in " ]";
    NoNewlines(offset + REPLICATION + value + " ]");
  }

  /** The field labels are single-line texts. */
  lemma LabelsSingleLine()
    ensures '\n' !in JOB_TYPE && '\n' !in INPUT_LABELS && '\n' !in REC_READER_INST && '\n' !in RAND_INST
    ensures '\n' !in MAPPER_INST && '\n' !in SHUFFLE_INST && '\n' !in AGG_INST && '\n' !in OTHER_INST
    ensures '\n' !in OUTPUT_LABELS && '\n' !in RESULT_INDICES && '\n' !in NUM_REDUCERS && '\n' !in REPLICATION
  {
    LabelsSingleLine1();
    LabelsSingleLine2();
    LabelsSingleLine3();
  }

  lemma LabelsSingleLine1()
    ensures '\n' !in JOB_TYPE && '\n' !in INPUT_LABELS && '\n' !in REC_READER_INST && '\n' !in RAND_INST
  {
  }

  lemma LabelsSingleLine2()
    ensures '\n' !in MAPPER_INST && '\n' !in SHUFFLE_INST && '\n' !in AGG_INST && '\n' !in OTHER_INST
  {
  }

  lemma LabelsSingleLine3()
    ensures '\n' !in OUTPUT_LABELS && '\n' !in RESULT_INDICES && '\n' !in NUM_REDUCERS && '\n' !in REPLICATION
  {
  }

  /** The text of an instruction listed at `level`: MR jobs are spelled out, other instructions print as themselves. */
  function InstText(inst: Instruction, level: int): (r: string)
    ensures inst.MRJob? ==> |r| >= 10 && r[..8] == "MR-Job[\n" && r[|r| - 2..] == " ]"
    ensures !inst.MRJob? ==> r == inst.text
  {
    match inst
    case MRJob(job) => MRJobText(job, level + 1)
    case CP(text) => text
    case Other(text) => text
  }

  /** The heading of a block that has one. */
  function Label(b: Block): string
  {
    match b
    case While(_, _) => "WHILE"
    case If(_, _, _) => "IF"
    case For(isParfor, _, _, _, _) => if isParfor then "PARFOR" else "FOR"
    case Function(_, _) => ""
    case CV(_) => ""
    case Generic(_, recompile) =>
      match recompile
      case None => "GENERIC"
      case Some(r) => "GENERIC [recompile=" + BoolText(r) + "]"
  }

  /** Function and CV blocks print no heading of their own, only their children. */
  predicate HasHeading(b: Block)
  {
    !b.Function? && !b.CV?
  }

  // ---------------------------------------------------------------------
  // Outlines and their rendering
  // ---------------------------------------------------------------------

  /** One emitted entry: a heading line, or one instruction. */
  datatype Line = Heading(depth: int, title: string) | InstLine(depth: int, inst: Instruction)

  /** What follows the offset on an entry's line: the heading, or the instruction's text at that depth. */
  function LineBody(line: Line): string
  {
    match line
    case Heading(_, title) => title
    case InstLine(d, inst) => InstText(inst, d)
  }

  /** An entry's text: the offset of its depth, its body, a newline. */
  function LineText(line: Line): string
  {
    Offset(line.depth) + LineBody(line) + "\n"
  }

  /** The text of an outline: every entry's text, in order. */
  function Render(lines: seq<Line>): string
  {
    if lines == [] then "" else Render(lines[..|lines| - 1]) + LineText(lines[|lines| - 1])
  }

  function InstOutline(insts: seq<Instruction>, level: int): seq<Line>
  {
    if insts == [] then [] else InstOutline(insts[..|insts| - 1], level) + [InstLine(level, insts[|insts| - 1])]
  }

  function BlockOutline(b: Block, level: int): seq<Line>
    decreases b
  {
    match b
    case Function(_, kids) => BlocksOutline(kids, level + 1)
    case CV(kids) => BlocksOutline(kids, level + 1)
    case While(pred, kids) =>
      [Heading(level, Label(b))] + InstOutline(pred, level + 1) + BlocksOutline(kids, level + 1)
    case If(pred, thenKids, elseKids) =>
      [Heading(level, Label(b))] + InstOutline(pred, level + 1) + BlocksOutline(thenKids, level + 1)
        + (if |elseKids| > 0 then [Heading(level, "ELSE")] + BlocksOutline(elseKids, level + 1) else [])
    case For(_, fromInsts, toInsts, incrInsts, kids) =>
      [Heading(level, Label(b))] + InstOutline(fromInsts, level + 1) + InstOutline(toInsts, level + 1)
        + InstOutline(incrInsts, level + 1) + BlocksOutline(kids, level + 1)
    case Generic(insts, _) =>
      [Heading(level, Label(b))] + InstOutline(insts, level + 1)
  }

  function BlocksOutline(bs: seq<Block>, level: int): seq<Line>
    decreases bs
  {
    if bs == [] then [] else BlocksOutline(bs[..|bs| - 1], level) + BlockOutline(bs[|bs| - 1], level)
  }

  /** A function-map entry: external functions get a heading only; others a heading and their body at level 3. */
  function FunctionOutline(e: FunctionEntry): seq<Line>
  {
    if e.external then [Heading(2, "EXTERNAL FUNCTION " + e.key)]
    else [Heading(2, "FUNCTION " + e.key)] + BlocksOutline(e.body, 3)
  }

  function FunctionsOutline(fs: seq<FunctionEntry>): seq<Line>
  {
    if fs == [] then [] else FunctionsOutline(fs[..|fs| - 1]) + FunctionOutline(fs[|fs| - 1])
  }

  /** The FUNCTIONS section: its heading and every entry's section, or nothing for an empty function map. */
  function FunctionsSection(fs: seq<FunctionEntry>): seq<Line>
  {
    if |fs| > 0 then [Heading(1, "FUNCTIONS")] + FunctionsOutline(fs) else []
  }

  /** The body of a program's plan: the FUNCTIONS section, then MAIN PROGRAM and the main blocks at level 2. */
  function ProgramOutline(p: Program): seq<Line>
  {
    FunctionsSection(p.functions) + [Heading(1, "MAIN PROGRAM")] + BlocksOutline(p.main, 2)
  }

  /** The fixed text around the two counts of the header line. */
  const HEADER_OPENING: string := "\nPROGRAM ( size CP/MR = "
  const HEADER_CLOSING: string := " )\n"

  /** The header line: the CP count, then the MR count. */
  function Header(cpCount: nat, mrCount: nat): string
  {
    HEADER_OPENING + NatText(cpCount) + "/" + NatText(mrCount) + HEADER_CLOSING
  }

  /** The pieces of `pre + x + "/" + y + post` sit at the offsets their lengths give. */
  lemma SlashSplit(pre: string, x: string, y: string, post: string)
    ensures var h, a := pre + x + "/" + y + post, |pre|;
      var b := a + |x|;
      var c := b + 1 + |y|;
      |h| == c + |post| && h[..a] == pre && h[a..b] == x && h[b] == '/' &&
      h[b + 1..c] == y && h[c..] == post
  {
    var h := pre + x + "/" + y + post;
    var b := |pre| + |x|;
    assert h == (pre + x) + ("/" + y + post);
    assert h[b..] == "/" + y + post;
  }

  /**
   * The header can be read back: after its fixed opening, the digits up to the
   * '/' denote the CP count and the digits after it, up to " )", the MR count.
   */
  lemma HeaderReadsBack(cpCount: nat, mrCount: nat)
    ensures var h, a := Header(cpCount, mrCount), |HEADER_OPENING|;
      var b := a + |NatText(cpCount)|;
      var c := b + 1 + |NatText(mrCount)|;
      |h| == c + 3 && h[..a] == HEADER_OPENING && h[b] == '/' && h[c..] == HEADER_CLOSING &&
      (forall k :: a <= k < b || b < k < c ==> '0' <= h[k] <= '9') &&
      DecimalValue(h[a..b]) == cpCount && DecimalValue(h[b + 1..c]) == mrCount
  {
    var x, y := NatText(cpCount), NatText(mrCount);
    SlashSplit(HEADER_OPENING, x, y, HEADER_CLOSING);
    var h := Header(cpCount, mrCount);
    var a, b := |HEADER_OPENING|, |HEADER_OPENING| + |x|;
    var c := b + 1 + |y|;
    assert forall k :: a <= k < b ==> h[k] == h[a..b][k - a];
    assert forall k :: b < k < c ==> h[k] == h[b + 1..c][k - b - 1];
    NatTextRoundTrip(cpCount);
    NatTextRoundTrip(mrCount);
  }

  /** The whole plan of a program. */
  function ProgramText(p: Program): string
  {
    Header(ProgramCount(p, false, true), ProgramCount(p, true, false)) + Render(ProgramOutline(p))
  }

  /** The instructions an outline lists, in order. */
  function Listed(lines: seq<Line>): seq<Instruction>
  {
    if lines == [] then []
    else
      var last := lines[|lines| - 1];
      Listed(lines[..|lines| - 1]) + (if last.InstLine? then [last.inst] else [])
  }

  /** Every entry of an outline is nested at least `d` deep. */
  ghost predicate AtLeast(lines: seq<Line>, d: int)
  {
    forall k :: 0 <= k < |lines| ==> lines[k].depth >= d
  }

  // ---------------------------------------------------------------------
  // Lemmas about outlines
  // ---------------------------------------------------------------------

  lemma {:induction false} RenderAppend(a: seq<Line>, b: seq<Line>)
    ensures Render(a + b) == Render(a) + Render(b)
  {
    if b == [] {
      assert a + b == a;
    } else {
      var n := |b| - 1;
      RenderAppend(a, b[..n]);
      assert (a + b)[..|a + b| - 1] == a + b[..n];
      assert (a + b)[|a + b| - 1] == b[n];
      Assoc(Render(a), Render(b[..n]), LineText(b[n]));
    }
  }

  lemma {:induction false} ListedAppend(a: seq<Line>, b: seq<Line>)
    ensures Listed(a + b) == Listed(a) + Listed(b)
  {
    if b == [] {
      assert a + b == a;
    } else {
      ListedAppend(a, b[..|b| - 1]);
      assert (a + b)[..|a + b| - 1] == a + b[..|b| - 1];
    }
  }

  /** An instruction list is emitted as one entry per instruction, in list order, all at the given level. */
  lemma {:induction false} InstOutlineEntries(insts: seq<Instruction>, level: int)
    ensures |InstOutline(insts, level)| == |insts|
    ensures forall k :: 0 <= k < |insts| ==> InstOutline(insts, level)[k] == InstLine(level, insts[k])
    ensures Listed(InstOutline(insts, level)) == insts
  {
    if insts != [] {
      var n := |insts| - 1;
      InstOutlineEntries(insts[..n], level);
      ListedAppend(InstOutline(insts[..n], level), [InstLine(level, insts[n])]);
      assert [InstLine(level, insts[n])][..0] == [];
      assert insts[..n] + [insts[n]] == insts;
    }
  }

  /** Rendering one more entry appends that entry's line. */
  lemma RenderSnoc(lines: seq<Line>, line: Line)
    ensures Render(lines + [line]) == Render(lines) + LineText(line)
  {
    assert (lines + [line])[..|lines|] == lines;
  }

  lemma AtLeastAppend(a: seq<Line>, b: seq<Line>, d: int)
    requires AtLeast(a, d) && AtLeast(b, d)
    ensures AtLeast(a + b, d)
  {
    forall k | 0 <= k < |a + b| ensures (a + b)[k].depth >= d {
      if k >= |a| {
        assert (a + b)[k] == b[k - |a|];
      }
    }
  }

  lemma {:induction false} InstOutlineDepth(insts: seq<Instruction>, level: int)
    ensures AtLeast(InstOutline(insts, level), level)
  {
    if insts != [] {
      InstOutlineDepth(insts[..|insts| - 1], level);
      AtLeastAppend(InstOutline(insts[..|insts| - 1], level), [InstLine(level, insts[|insts| - 1])], level);
    }
  }

  /** Blocks are emitted at their level or deeper; a Function or CV block only deeper. */
  lemma {:induction false} BlockOutlineDepth(b: Block, level: int)
    ensures AtLeast(BlockOutline(b, level), level)
    ensures !HasHeading(b) ==> AtLeast(BlockOutline(b, level), level + 1)
    decreases b, 1
  {
    if HasHeading(b) {
      var n := Nested(b, level);
      NestedSplit(b, level);
      NestedDepth(b, level);
      assert AtLeast(n, level);
      AtLeastAppend([Heading(level, Label(b))], n, level);
    } else {
      BlocksOutlineDepth(b.kids, level + 1);
    }
  }

  lemma {:induction false} BlocksOutlineDepth(bs: seq<Block>, level: int)
    ensures AtLeast(BlocksOutline(bs, level), level)
    decreases bs, 2
  {
    if bs != [] {
      BlocksOutlineDepth(bs[..|bs| - 1], level);
      BlockOutlineDepth(bs[|bs| - 1], level);
      AtLeastAppend(BlocksOutline(bs[..|bs| - 1], level), BlockOutline(bs[|bs| - 1], level), level);
    }
  }

  /** A heading lists no instruction. */
  lemma ListedHeading(line: Line)
    requires line.Heading?
    ensures Listed([line]) == []
  {
    assert [line][..0] == [];
  }

  /** Every entry is deeper than `level`, except ELSE headings at `level`. */
  ghost predicate OnlyElseAt(lines: seq<Line>, level: int)
  {
    forall k :: 0 <= k < |lines| ==> lines[k].depth > level || lines[k] == Heading(level, "ELSE")
  }

  lemma OnlyElseAtAppend(a: seq<Line>, b: seq<Line>, level: int)
    requires OnlyElseAt(a, level) && OnlyElseAt(b, level)
    ensures OnlyElseAt(a + b, level)
  {
    forall k | 0 <= k < |a + b|
      ensures (a + b)[k].depth > level || (a + b)[k] == Heading(level, "ELSE")
    {
      if k >= |a| {
        assert (a + b)[k] == b[k - |a|];
      }
    }
  }

  /** The outline of a block with a heading, split into the heading and the entries nested under it. */
  function Nested(b: Block, level: int): seq<Line>
    requires HasHeading(b)
  {
    match b
    case While(pred, kids) => InstOutline(pred, level + 1) + BlocksOutline(kids, level + 1)
    case If(pred, thenKids, elseKids) =>
      InstOutline(pred, level + 1) + BlocksOutline(thenKids, level + 1)
        + (if |elseKids| > 0 then [Heading(level, "ELSE")] + BlocksOutline(elseKids, level + 1) else [])
    case For(_, fromInsts, toInsts, incrInsts, kids) =>
      InstOutline(fromInsts, level + 1) + InstOutline(toInsts, level + 1)
        + InstOutline(incrInsts, level + 1) + BlocksOutline(kids, level + 1)
    case Generic(insts, _) => InstOutline(insts, level + 1)
  }

  lemma NestedSplit(b: Block, level: int)
    requires HasHeading(b)
    ensures BlockOutline(b, level) == [Heading(level, Label(b))] + Nested(b, level)
  {
    var h := [Heading(level, Label(b))];
    match b
    case While(pred, kids) =>
      assert h + InstOutline(pred, level + 1) + BlocksOutline(kids, level + 1) == h + Nested(b, level);
    case If(pred, thenKids, elseKids) =>
      var p, t := InstOutline(pred, level + 1), BlocksOutline(thenKids, level + 1);
      var e := if |elseKids| > 0 then [Heading(level, "ELSE")] + BlocksOutline(elseKids, level + 1) else [];
      assert h + p + t + e == h + (p + t + e);
    case For(_, fromInsts, toInsts, incrInsts, kids) =>
      var f, t, i := InstOutline(fromInsts, level + 1), InstOutline(toInsts, level + 1), InstOutline(incrInsts, level + 1);
      var k := BlocksOutline(kids, level + 1);
      assert h + f + t + i + k == h + (f + t + i + k);
    case Generic(insts, _) =>
  }

  /** The entries under a heading are deeper than it, except the ELSE line of an IF block. */
  lemma {:induction false} NestedDepth(b: Block, level: int)
    requires HasHeading(b)
    ensures !b.If? ==> AtLeast(Nested(b, level), level + 1)
    ensures OnlyElseAt(Nested(b, level), level)
    decreases b, 0
  {
    match b
    case While(pred, kids) =>
      InstOutlineDepth(pred, level + 1);
      BlocksOutlineDepth(kids, level + 1);
      AtLeastAppend(InstOutline(pred, level + 1), BlocksOutline(kids, level + 1), level + 1);
    case If(pred, thenKids, elseKids) =>
      var p, t := InstOutline(pred, level + 1), BlocksOutline(thenKids, level + 1);
      InstOutlineDepth(pred, level + 1);
      BlocksOutlineDepth(thenKids, level + 1);
      AtLeastAppend(p, t, level + 1);
      if |elseKids| > 0 {
        var el, e := [Heading(level, "ELSE")], BlocksOutline(elseKids, level + 1);
        BlocksOutlineDepth(elseKids, level + 1);
        OnlyElseAtAppend(el, e, level);
        OnlyElseAtAppend(p + t, el + e, level);
      } else {
        assert p + t + [] == p + t;
      }
    case For(_, fromInsts, toInsts, incrInsts, kids) =>
      var f, t, i := InstOutline(fromInsts, level + 1), InstOutline(toInsts, level + 1), InstOutline(incrInsts, level + 1);
      InstOutlineDepth(fromInsts, level + 1);
      InstOutlineDepth(toInsts, level + 1);
      InstOutlineDepth(incrInsts, level + 1);
      BlocksOutlineDepth(kids, level + 1);
      AtLeastAppend(f, t, level + 1);
      AtLeastAppend(f + t, i, level + 1);
      AtLeastAppend(f + t + i, BlocksOutline(kids, level + 1), level + 1);
    case Generic(insts, _) =>
      InstOutlineDepth(insts, level + 1);
  }

  /**
   * Every block with a heading emits it first, at its own level; every later
   * entry is nested deeper, except, in an IF block, the ELSE line at the
   * block's own level. The heading is the block's Label, which for a FOR
   * block reads PARFOR exactly when it is a parallel loop.
   */
  lemma BlockHeading(b: Block, level: int)
    requires HasHeading(b)
    ensures var o := BlockOutline(b, level);
      |o| > 0 && o[0] == Heading(level, Label(b)) &&
      (forall k :: 1 <= k < |o| ==> o[k].depth > level || (b.If? && o[k] == Heading(level, "ELSE")))
  {
    NestedSplit(b, level);
    NestedDepth(b, level);
    var o, n := BlockOutline(b, level), Nested(b, level);
    forall k | 1 <= k < |o| ensures o[k].depth > level || (b.If? && o[k] == Heading(level, "ELSE")) {
      assert o[k] == n[k - 1];
    }
  }

  /** An IF block emits an ELSE line exactly when its else body is non-empty. */
  lemma ElseLine(pred: seq<Instruction>, thenKids: seq<Block>, elseKids: seq<Block>, level: int)
    ensures Heading(level, "ELSE") in BlockOutline(If(pred, thenKids, elseKids), level) <==> |elseKids| > 0
  {
    var o := BlockOutline(If(pred, thenKids, elseKids), level);
    var p, t := InstOutline(pred, level + 1), BlocksOutline(thenKids, level + 1);
    if |elseKids| > 0 {
      var e := BlocksOutline(elseKids, level + 1);
      var x := [Heading(level, "IF")] + p + t;
      assert o == x + ([Heading(level, "ELSE")] + e);
      assert 0 <= |x| < |o| && o[|x|] == Heading(level, "ELSE");
    } else {
      InstOutlineDepth(pred, level + 1);
      BlocksOutlineDepth(thenKids, level + 1);
      AtLeastAppend(p, t, level + 1);
      assert o == [Heading(level, "IF")] + (p + t);
      forall k | 0 <= k < |o| ensures o[k] != Heading(level, "ELSE") {
        if k > 0 {
          assert o[k] == (p + t)[k - 1];
        } else {
          assert o[k] == Heading(level, "IF");
        }
      }
    }
  }

  /** The plan of a block lists exactly the instructions the count walks over, in the same order. */
  lemma {:induction false} BlockOutlineListsInstructions(b: Block, level: int)
    ensures Listed(BlockOutline(b, level)) == BlockInstructions(b)
    decreases b
  {
    match b
    case Function(_, kids) =>
      BlocksOutlineListsInstructions(kids, level + 1);
    case CV(kids) =>
      BlocksOutlineListsInstructions(kids, level + 1);
    case While(pred, kids) =>
      BlocksOutlineListsInstructions(kids, level + 1);
      WhileListed(pred, kids, level);
    case If(pred, thenKids, elseKids) =>
      BlocksOutlineListsInstructions(thenKids, level + 1);
      BlocksOutlineListsInstructions(elseKids, level + 1);
      IfListed(pred, thenKids, elseKids, level);
    case For(isParfor, fromInsts, toInsts, incrInsts, kids) =>
      BlocksOutlineListsInstructions(kids, level + 1);
      ForListed(isParfor, fromInsts, toInsts, incrInsts, kids, level);
    case Generic(insts, recompile) =>
      ListedHeading(Heading(level, Label(b)));
      InstOutlineEntries(insts, level + 1);
      ListedAppend([Heading(level, Label(b))], InstOutline(insts, level + 1));
  }

  lemma WhileListed(pred: seq<Instruction>, kids: seq<Block>, level: int)
    requires Listed(BlocksOutline(kids, level + 1)) == BlocksInstructions(kids)
    ensures Listed(BlockOutline(While(pred, kids), level)) == pred + BlocksInstructions(kids)
  {
    var h, p, k := [Heading(level, "WHILE")], InstOutline(pred, level + 1), BlocksOutline(kids, level + 1);
    ListedHeading(Heading(level, "WHILE"));
    InstOutlineEntries(pred, level + 1);
    ListedAppend(h, p);
    assert Listed(h + p) == pred;
    ListedAppend(h + p, k);
    assert BlockOutline(While(pred, kids), level) == h + p + k;
  }

  lemma IfListed(pred: seq<Instruction>, thenKids: seq<Block>, elseKids: seq<Block>, level: int)
    requires Listed(BlocksOutline(thenKids, level + 1)) == BlocksInstructions(thenKids)
    requires Listed(BlocksOutline(elseKids, level + 1)) == BlocksInstructions(elseKids)
    ensures Listed(BlockOutline(If(pred, thenKids, elseKids), level))
      == pred + BlocksInstructions(thenKids) + BlocksInstructions(elseKids)
  {
    var h, p, t := [Heading(level, "IF")], InstOutline(pred, level + 1), BlocksOutline(thenKids, level + 1);
    var e := if |elseKids| > 0 then [Heading(level, "ELSE")] + BlocksOutline(elseKids, level + 1) else [];
    ListedHeading(Heading(level, "IF"));
    InstOutlineEntries(pred, level + 1);
    ListedAppend(h, p);
    assert Listed(h + p) == pred;
    ListedAppend(h + p, t);
    assert Listed(h + p + t) == pred + BlocksInstructions(thenKids);
    if |elseKids| > 0 {
      ListedHeading(Heading(level, "ELSE"));
      ListedAppend([Heading(level, "ELSE")], BlocksOutline(elseKids, level + 1));
    } else {
      assert BlocksInstructions(elseKids) == [];
      assert e == [];
    }
    assert Listed(e) == BlocksInstructions(elseKids);
    ListedAppend(h + p + t, e);
  }

  lemma ForListed(isParfor: bool, fromInsts: seq<Instruction>, toInsts: seq<Instruction>,
                  incrInsts: seq<Instruction>, kids: seq<Block>, level: int)
    requires Listed(BlocksOutline(kids, level + 1)) == BlocksInstructions(kids)
    ensures Listed(BlockOutline(For(isParfor, fromInsts, toInsts, incrInsts, kids), level))
      == fromInsts + toInsts + incrInsts + BlocksInstructions(kids)
  {
    var h := [Heading(level, if isParfor then "PARFOR" else "FOR")];
    var f, t, i := InstOutline(fromInsts, level + 1), InstOutline(toInsts, level + 1), InstOutline(incrInsts, level + 1);
    ListedHeading(h[0]);
    InstOutlineEntries(fromInsts, level + 1);
    InstOutlineEntries(toInsts, level + 1);
    InstOutlineEntries(incrInsts, level + 1);
    ListedAppend(h, f);
    assert Listed(h + f) == fromInsts;
    ListedAppend(h + f, t);
    assert Listed(h + f + t) == fromInsts + toInsts;
    ListedAppend(h + f + t, i);
    assert Listed(h + f + t + i) == fromInsts + toInsts + incrInsts;
    ListedAppend(h + f + t + i, BlocksOutline(kids, level + 1));
  }

  lemma {:induction false} BlocksOutlineListsInstructions(bs: seq<Block>, level: int)
    ensures Listed(BlocksOutline(bs, level)) == BlocksInstructions(bs)
    decreases bs
  {
    if bs != [] {
      var n := |bs| - 1;
      BlocksOutlineListsInstructions(bs[..n], level);
      BlockOutlineListsInstructions(bs[n], level);
      ListedAppend(BlocksOutline(bs[..n], level), BlockOutline(bs[n], level));
    }
  }

  /** Hence the count of a block is the count over the instructions its plan lists. */
  lemma PlanListsCountedInstructions(b: Block, level: int, mr: bool, cp: bool)
    ensures BlockCount(b, mr, cp) == InstCount(Listed(BlockOutline(b, level)), mr, cp)
  {
    BlockOutlineListsInstructions(b, level);
    BlockCountIsFlatCount(b, mr, cp);
  }

  /** A DML-bodied function's section is its heading followed by the plan of its function block at level 2. */
  lemma FunctionSectionIsBlockPlan(e: FunctionEntry)
    requires !e.external
    ensures FunctionOutline(e) == [Heading(2, "FUNCTION " + e.key)] + BlockOutline(e.AsBlock(), 2)
  {
  }

  /** An external function's section is its heading alone: none of its instructions is listed. */
  lemma ExternalFunctionSection(e: FunctionEntry)
    requires e.external
    ensures |FunctionOutline(e)| == 1 && Listed(FunctionOutline(e)) == []
  {
    ListedHeading(FunctionOutline(e)[0]);
  }

  lemma {:induction false} FunctionsOutlineDepth(fs: seq<FunctionEntry>)
    ensures AtLeast(FunctionsOutline(fs), 2)
  {
    if fs != [] {
      var e := fs[|fs| - 1];
      FunctionsOutlineDepth(fs[..|fs| - 1]);
      if !e.external {
        BlocksOutlineDepth(e.body, 3);
        AtLeastAppend([Heading(2, "FUNCTION " + e.key)], BlocksOutline(e.body, 3), 2);
      }
      AtLeastAppend(FunctionsOutline(fs[..|fs| - 1]), FunctionOutline(e), 2);
    }
  }

  /** The FUNCTIONS section, present exactly when the function map is non-empty, opens with its heading and nests everything else deeper. */
  lemma FunctionsSectionShape(fs: seq<FunctionEntry>)
    ensures |FunctionsSection(fs)| > 0 <==> |fs| > 0
    ensures |fs| > 0 ==> FunctionsSection(fs)[0] == Heading(1, "FUNCTIONS")
    ensures |fs| > 0 ==> AtLeast(FunctionsSection(fs)[1..], 2)
  {
    if |fs| > 0 {
      FunctionsOutlineDepth(fs);
      assert FunctionsSection(fs)[1..] == FunctionsOutline(fs);
    }
  }

  /**
   * The plan of a program has the FUNCTIONS heading exactly when the function
   * map is non-empty, and then as its first entry.
   */
  lemma ProgramFunctionsSection(p: Program)
    ensures Heading(1, "FUNCTIONS") in ProgramOutline(p) <==> |p.functions| > 0
    ensures |p.functions| > 0 ==> ProgramOutline(p)[0] == Heading(1, "FUNCTIONS")
  {
    var o, f := ProgramOutline(p), FunctionsSection(p.functions);
    var m := BlocksOutline(p.main, 2);
    FunctionsSectionShape(p.functions);
    if |p.functions| > 0 {
      assert o[0] == f[0];
    } else {
      BlocksOutlineDepth(p.main, 2);
      assert o == [Heading(1, "MAIN PROGRAM")] + m;
      forall k | 0 <= k < |o| ensures o[k] != Heading(1, "FUNCTIONS") {
        if k > 0 {
          assert o[k] == m[k - 1];
        }
      }
    }
  }

  /** The plan of a program ends with the MAIN PROGRAM heading followed by the main blocks at level 2. */
  lemma ProgramMainSection(p: Program)
    ensures var o, m := ProgramOutline(p), BlocksOutline(p.main, 2);
      |o| > |m| && o[|o| - |m| - 1] == Heading(1, "MAIN PROGRAM") && o[|o| - |m|..] == m
  {
    var o, m := ProgramOutline(p), BlocksOutline(p.main, 2);
    var x := FunctionsSection(p.functions) + [Heading(1, "MAIN PROGRAM")];
    assert o == x + m;
    assert o[|x| - 1] == Heading(1, "MAIN PROGRAM");
    assert o[|x|..] == m;
  }

  /** The only entries of a program's plan above level 2 are its two section headings. */
  lemma ProgramTopLevel(p: Program)
    ensures var o := ProgramOutline(p);
      forall k :: 0 <= k < |o| && o[k].depth < 2 ==>
        o[k] == Heading(1, "FUNCTIONS") || o[k] == Heading(1, "MAIN PROGRAM")
  {
    var o, f := ProgramOutline(p), FunctionsSection(p.functions);
    var m := BlocksOutline(p.main, 2);
    FunctionsSectionShape(p.functions);
    BlocksOutlineDepth(p.main, 2);
    assert o == f + ([Heading(1, "MAIN PROGRAM")] + m);
    forall k | 0 <= k < |o|
      ensures o[k].depth >= 2 || o[k] == Heading(1, "FUNCTIONS") || o[k] == Heading(1, "MAIN PROGRAM")
    {
      if k < |f| {
        assert o[k] == f[k];
        if k > 0 {
          assert f[k] == f[1..][k - 1];
        }
      } else if k > |f| {
        assert o[k] == m[k - |f| - 1];
      }
    }
  }

  lemma {:induction false} FunctionsOutlineListsInstructions(fs: seq<FunctionEntry>)
    requires forall k :: 0 <= k < |fs| ==> !fs[k].external
    ensures Listed(FunctionsOutline(fs)) == FunctionsInstructions(fs)
  {
    if fs != [] {
      var n := |fs| - 1;
      var e := fs[n];
      var h := [Heading(2, "FUNCTION " + e.key)];
      FunctionsOutlineListsInstructions(fs[..n]);
      BlocksOutlineListsInstructions(e.body, 3);
      ListedHeading(h[0]);
      ListedAppend(h, BlocksOutline(e.body, 3));
      assert Listed(FunctionOutline(e)) == BlockInstructions(e.AsBlock());
      ListedAppend(FunctionsOutline(fs[..n]), FunctionOutline(e));
    }
  }

  /**
   * Without external functions, the plan of a program lists exactly the
   * instructions its header counts, so the header's numbers are the counts of
   * the listed MR-job and CP instructions.
   */
  lemma ProgramPlanListsCountedInstructions(p: Program, mr: bool, cp: bool)
    requires forall k :: 0 <= k < |p.functions| ==> !p.functions[k].external
    ensures Listed(ProgramOutline(p)) == ProgramInstructions(p)
    ensures ProgramCount(p, mr, cp) == InstCount(Listed(ProgramOutline(p)), mr, cp)
  {
    var f := FunctionsSection(p.functions);
    var mh := [Heading(1, "MAIN PROGRAM")];
    FunctionsOutlineListsInstructions(p.functions);
    BlocksOutlineListsInstructions(p.main, 2);
    ListedHeading(mh[0]);
    if |p.functions| > 0 {
      ListedHeading(Heading(1, "FUNCTIONS"));
      ListedAppend([Heading(1, "FUNCTIONS")], FunctionsOutline(p.functions));
    } else {
      assert FunctionsInstructions(p.functions) == [];
    }
    assert Listed(f) == FunctionsInstructions(p.functions);
    ListedAppend(f, mh);
    assert Listed(f + mh) == FunctionsInstructions(p.functions);
    ListedAppend(f + mh, BlocksOutline(p.main, 2));
    assert f + mh + BlocksOutline(p.main, 2) == ProgramOutline(p);
    ProgramCountIsFlatCount(p, mr, cp);
  }

  // ---------------------------------------------------------------------
  // The explaining methods
  // ---------------------------------------------------------------------

  /** Builds the indentation for a nesting level. */
  method CreateOffset(level: int) returns (s: string)
    ensures s == Offset(level)
  {
    s := "";
    var i := 0;
    while i < level
      invariant 0 <= i <= if level > 0 then level else 0
      invariant s == Offset(i)
    {
      s := s + "--";
      i := i + 1;
    }
  }

  /** The text of an MR-job instruction listed at `level`, built one field line at a time. */
  method ExplainMRJobInstruction(job: MRJobInfo, level: int) returns (s: string)
    ensures s == MRJobText(job, level)
  {
    ghost var fields := "";
    s := "MR-Job[\n";
    var offset := CreateOffset(level + 1);
    assert s == MR_JOB_OPENING + fields;
    Assoc(MR_JOB_OPENING, fields, FieldLine(offset, JOB_TYPE, job.jobType));
    s := s + (offset + "  jobtype        = " + job.jobType + " \n");
    fields := fields + FieldLine(offset, JOB_TYPE, job.jobType);
    assert s == MR_JOB_OPENING + fields;
    Assoc(MR_JOB_OPENING, fields, FieldLine(offset, INPUT_LABELS, job.inputVars));
    s := s + (offset + "  input labels   = " + job.inputVars + " \n");
    fields := fields + FieldLine(offset, INPUT_LABELS, job.inputVars);
    assert s == MR_JOB_OPENING + fields;
    Assoc(MR_JOB_OPENING, fields, FieldLine(offset, REC_READER_INST, job.recordReaderInsts));
    s := s + (offset + "  recReader inst = " + job.recordReaderInsts + " \n");
    fields := fields + FieldLine(offset, REC_READER_INST, job.recordReaderInsts);
    assert s == MR_JOB_OPENING + fields;
    Assoc(MR_JOB_OPENING, fields, FieldLine(offset, RAND_INST, job.randInsts));
    s := s + (offset + "  rand inst      = " + job.randInsts + " \n");
    fields := fields + FieldLine(offset, RAND_INST, job.randInsts);
    assert s == MR_JOB_OPENING + fields;
    Assoc(MR_JOB_OPENING, fields, FieldLine(offset, MAPPER_INST, job.mapperInsts));
    s := s + (offset + "  mapper inst    = " + job.mapperInsts + " \n");
    fields := fields + FieldLine(offset, MAPPER_INST, job.mapperInsts);
    assert s == MR_JOB_OPENING + fields;
    Assoc(MR_JOB_OPENING, fields, FieldLine(offset, SHUFFLE_INST, job.shuffleInsts));
    s := s + (offset + "  shuffle inst   = " + job.shuffleInsts + " \n");
    fields := fields + FieldLine(offset, SHUFFLE_INST, job.shuffleInsts);
    assert s == MR_JOB_OPENING + fields;
    Assoc(MR_JOB_OPENING, fields, FieldLine(offset, AGG_INST, job.aggInsts));
    s := s + (offset + "  agg inst       = " + job.aggInsts + " \n");
    fields := fields + FieldLine(offset, AGG_INST, job.aggInsts);
    assert s == MR_JOB_OPENING + fields;
    Assoc(MR_JOB_OPENING, fields, FieldLine(offset, OTHER_INST, job.otherInsts));
    s := s + (offset + "  other inst     = " + job.otherInsts + " \n");
    fields := fields + FieldLine(offset, OTHER_INST, job.otherInsts);
    assert s == MR_JOB_OPENING + fields;
    Assoc(MR_JOB_OPENING, fields, FieldLine(offset, OUTPUT_LABELS, job.outputVars));
    s := s + (offset + "  output labels  = " + job.outputVars + " \n");
    fields := fields + FieldLine(offset, OUTPUT_LABELS, job.outputVars);
    assert s == MR_JOB_OPENING + fields;
    Assoc(MR_JOB_OPENING, fields, FieldLine(offset, RESULT_INDICES, job.resultIndices));
    s := s + (offset + "  result indices = " + job.resultIndices + " \n");
    fields := fields + FieldLine(offset, RESULT_INDICES, job.resultIndices);
    assert s == MR_JOB_OPENING + fields;
    Assoc(MR_JOB_OPENING, fields, FieldLine(offset, NUM_REDUCERS, job.numReducers));
    s := s + (offset + "  num reducers   = " + job.numReducers + " \n");
    fields := fields + FieldLine(offset, NUM_REDUCERS, job.numReducers);
    assert s == MR_JOB_OPENING + fields;
    s := s + (offset + "  replication    = " + job.replication + " ]");
  }

  /** Lists an instruction list at a level: one entry per instruction, in order. */
  method ExplainInstructions(insts: seq<Instruction>, level: int) returns (s: string)
    ensures s == Render(InstOutline(insts, level))
  {
    var offsetInst := CreateOffset(level);
    s := "";
    for i := 0 to |insts|
      invariant s == Render(InstOutline(insts[..i], level))
    {
      var tmp: string;
      match insts[i] {
        case MRJob(job) => tmp := ExplainMRJobInstruction(job, level + 1);
        case CP(text) => tmp := text;
        case Other(text) => tmp := text;
      }
      assert insts[..i + 1][..i] == insts[..i];
      RenderSnoc(InstOutline(insts[..i], level), InstLine(level, insts[i]));
      s := s + (offsetInst + tmp + "\n");
    }
    assert insts[..|insts|] == insts;
  }

  /** Appends the plans of a list of blocks, each at `level`, to `sb`. */
  method AppendBlocks(sb: string, bs: seq<Block>, level: int) returns (s: string)
    ensures s == sb + Render(BlocksOutline(bs, level))
    decreases bs, 0
  {
    s := sb;
    for i := 0 to |bs|
      invariant s == sb + Render(BlocksOutline(bs[..i], level))
    {
      assert bs[..i + 1][..i] == bs[..i];
      RenderAppend(BlocksOutline(bs[..i], level), BlockOutline(bs[i], level));
      var t := ExplainProgramBlock(bs[i], level);
      Assoc(sb, Render(BlocksOutline(bs[..i], level)), t);
      s := s + t;
    }
    assert bs[..|bs|] == bs;
  }

  lemma Assoc(x: string, y: string, z: string)
    ensures x + y + z == x + (y + z)
  {
  }

  /** A heading line as the explainer writes it: the offset, then the heading text with its newline. */
  lemma HeadingRender(offset: string, level: int, title: string, tail: string)
    requires offset == Offset(level) && tail == title + "\n"
    ensures Render([Heading(level, title)]) == offset + tail
  {
    RenderSnoc([], Heading(level, title));
    assert [] + [Heading(level, title)] == [Heading(level, title)];
    Assoc(offset, title, "\n");
  }

  /** The two section headings of a program's plan, as the explainer writes them. */
  lemma FunctionsHeading()
    ensures Render([Heading(1, "FUNCTIONS")]) == "--FUNCTIONS\n"
  {
    assert Offset(1) == "--";
    HeadingRender("--", 1, "FUNCTIONS", "FUNCTIONS\n");
  }

  lemma MainHeading()
    ensures Render([Heading(1, "MAIN PROGRAM")]) == "--MAIN PROGRAM\n"
  {
    assert Offset(1) == "--";
    HeadingRender("--", 1, "MAIN PROGRAM", "MAIN PROGRAM\n");
  }

  /** The heading of a function-map entry: the key after a fixed prefix, at level 2. */
  lemma FunctionHeading(key: string)
    ensures Render([Heading(2, "FUNCTION " + key)]) == "----FUNCTION " + key + "\n"
  {
    assert "----FUNCTION " == "----" + "FUNCTION ";
    LevelTwoHeading("FUNCTION ", key, "----FUNCTION ");
  }

  lemma ExternalFunctionHeading(key: string)
    ensures Render([Heading(2, "EXTERNAL FUNCTION " + key)]) == "----EXTERNAL FUNCTION " + key + "\n"
  {
    assert "----EXTERNAL FUNCTION " == "----" + "EXTERNAL FUNCTION ";
    LevelTwoHeading("EXTERNAL FUNCTION ", key, "----EXTERNAL FUNCTION ");
  }

  lemma LevelTwoHeading(prefix: string, key: string, text: string)
    requires text == "----" + prefix
    ensures Render([Heading(2, prefix + key)]) == text + key + "\n"
  {
    assert Offset(2) == "----";
    HeadingRender("----", 2, prefix + key, prefix + key + "\n");
    calc {
      "----" + (prefix + key + "\n");
      { Assoc("----", prefix + key, "\n"); }
      "----" + (prefix + key) + "\n";
      { Assoc("----", prefix, key); }
      text + key + "\n";
    }
  }

  // Each block kind's text, in the order the explainer appends its pieces.

  lemma WhileText(pred: seq<Instruction>, kids: seq<Block>, level: int)
    ensures Render(BlockOutline(While(pred, kids), level))
      == Offset(level) + "WHILE\n" + Render(InstOutline(pred, level + 1)) + Render(BlocksOutline(kids, level + 1))
  {
    var h, p := [Heading(level, "WHILE")], InstOutline(pred, level + 1);
    HeadingRender(Offset(level), level, "WHILE", "WHILE\n");
    RenderAppend(h, p);
    RenderAppend(h + p, BlocksOutline(kids, level + 1));
  }

  lemma IfText(pred: seq<Instruction>, thenKids: seq<Block>, elseKids: seq<Block>, level: int)
    ensures var t := Offset(level) + "IF\n" + Render(InstOutline(pred, level + 1)) + Render(BlocksOutline(thenKids, level + 1));
      Render(BlockOutline(If(pred, thenKids, elseKids), level))
        == if |elseKids| > 0 then t + Offset(level) + "ELSE\n" + Render(BlocksOutline(elseKids, level + 1)) else t
  {
    var h, p, th := [Heading(level, "IF")], InstOutline(pred, level + 1), BlocksOutline(thenKids, level + 1);
    HeadingRender(Offset(level), level, "IF", "IF\n");
    RenderAppend(h, p);
    RenderAppend(h + p, th);
    var t := Render(h + p + th);
    if |elseKids| > 0 {
      var el, e := [Heading(level, "ELSE")], BlocksOutline(elseKids, level + 1);
      HeadingRender(Offset(level), level, "ELSE", "ELSE\n");
      RenderAppend(el, e);
      RenderAppend(h + p + th, el + e);
      calc {
        t + Render(el + e);
        t + (Render(el) + Render(e));
        { Assoc(t, Render(el), Render(e)); }
        t + Render(el) + Render(e);
        { Assoc(t, Offset(level), "ELSE\n"); }
        t + Offset(level) + "ELSE\n" + Render(e);
      }
    } else {
      assert h + p + th + [] == h + p + th;
    }
  }

  lemma ForText(isParfor: bool, fromInsts: seq<Instruction>, toInsts: seq<Instruction>,
                incrInsts: seq<Instruction>, kids: seq<Block>, level: int)
    ensures Render(BlockOutline(For(isParfor, fromInsts, toInsts, incrInsts, kids), level))
      == Offset(level) + (if isParfor then "PARFOR\n" else "FOR\n")
        + Render(InstOutline(fromInsts, level + 1)) + Render(InstOutline(toInsts, level + 1))
        + Render(InstOutline(incrInsts, level + 1)) + Render(BlocksOutline(kids, level + 1))
  {
    var title := if isParfor then "PARFOR" else "FOR";
    var h := [Heading(level, title)];
    var f, t, i := InstOutline(fromInsts, level + 1), InstOutline(toInsts, level + 1), InstOutline(incrInsts, level + 1);
    HeadingRender(Offset(level), level, title, if isParfor then "PARFOR\n" else "FOR\n");
    RenderAppend(h, f);
    RenderAppend(h + f, t);
    RenderAppend(h + f + t, i);
    RenderAppend(h + f + t + i, BlocksOutline(kids, level + 1));
  }

  lemma GenericText(insts: seq<Instruction>, recompile: Option<bool>, level: int)
    ensures Render(BlockOutline(Generic(insts, recompile), level))
      == Offset(level)
        + (if recompile.Some? then "GENERIC [recompile=" + BoolText(recompile.value) + "]\n" else "GENERIC\n")
        + Render(InstOutline(insts, level + 1))
  {
    var b := Generic(insts, recompile);
    var h := [Heading(level, Label(b))];
    if recompile.Some? {
      Assoc("GENERIC [recompile=" + BoolText(recompile.value), "]", "\n");
      assert "]" + "\n" == "]\n";
    }
    HeadingRender(Offset(level), level, Label(b), if recompile.Some? then "GENERIC [recompile=" + BoolText(recompile.value) + "]\n" else "GENERIC\n");
    RenderAppend(h, InstOutline(insts, level + 1));
  }

  /** The plan of one block at a nesting level: its heading, then what it nests, one level deeper. */
  method ExplainProgramBlock(b: Block, level: int) returns (s: string)
    ensures s == Render(BlockOutline(b, level))
    decreases b, 2
  {
    var offset := CreateOffset(level);
    match b
    case Function(_, kids) =>
      s := AppendBlocks("", kids, level + 1);
      assert "" + Render(BlockOutline(b, level)) == Render(BlockOutline(b, level));
    case CV(kids) =>
      s := AppendBlocks("", kids, level + 1);
      assert "" + Render(BlockOutline(b, level)) == Render(BlockOutline(b, level));
    case While(_, _) =>
      s := ExplainWhile(b, level, offset);
    case If(_, _, _) =>
      s := ExplainIf(b, level, offset);
    case For(_, _, _, _, _) =>
      s := ExplainFor(b, level, offset);
    case Generic(_, _) =>
      s := ExplainGeneric(b, level, offset);
  }

  /** The WHILE branch: heading, predicate instructions, body blocks. */
  method ExplainWhile(b: Block, level: int, offset: string) returns (s: string)
    requires b.While? && offset == Offset(level)
    ensures s == Render(BlockOutline(b, level))
    decreases b, 1
  {
    s := offset;
    s := s + "WHILE\n";
    var t := ExplainInstructions(b.pred, level + 1);
    s := s + t;
    s := AppendBlocks(s, b.kids, level + 1);
    WhileText(b.pred, b.kids, level);
  }

  /** The IF branch: heading, predicate instructions, if-body blocks, and, when the else body is non-empty, ELSE and its blocks. */
  method ExplainIf(b: Block, level: int, offset: string) returns (s: string)
    requires b.If? && offset == Offset(level)
    ensures s == Render(BlockOutline(b, level))
    decreases b, 1
  {
    s := offset;
    s := s + "IF\n";
    var t := ExplainInstructions(b.pred, level + 1);
    s := s + t;
    s := AppendBlocks(s, b.thenKids, level + 1);
    if |b.elseKids| > 0 {
      s := s + offset;
      s := s + "ELSE\n";
      s := AppendBlocks(s, b.elseKids, level + 1);
    }
    IfText(b.pred, b.thenKids, b.elseKids, level);
  }

  /** The FOR/PARFOR branch: heading, the from, to and increment instructions, body blocks. */
  method ExplainFor(b: Block, level: int, offset: string) returns (s: string)
    requires b.For? && offset == Offset(level)
    ensures s == Render(BlockOutline(b, level))
    decreases b, 1
  {
    s := offset;
    if b.isParfor {
      s := s + "PARFOR\n";
    } else {
      s := s + "FOR\n";
    }
    var t := ExplainInstructions(b.fromInsts, level + 1);
    s := s + t;
    t := ExplainInstructions(b.toInsts, level + 1);
    s := s + t;
    t := ExplainInstructions(b.incrInsts, level + 1);
    s := s + t;
    s := AppendBlocks(s, b.kids, level + 1);
    ForText(b.isParfor, b.fromInsts, b.toInsts, b.incrInsts, b.kids, level);
  }

  /** Any other block: the GENERIC heading, with the recompilation flag when there is a statement block, then its instructions. */
  method ExplainGeneric(b: Block, level: int, offset: string) returns (s: string)
    requires b.Generic? && offset == Offset(level)
    ensures s == Render(BlockOutline(b, level))
    decreases b, 1
  {
    s := offset;
    match b.recompile {
      case Some(r) => s := s + ("GENERIC [recompile=" + BoolText(r) + "]\n");
      case None => s := s + "GENERIC\n";
    }
    var t := ExplainInstructions(b.insts, level + 1);
    s := s + t;
    GenericText(b.insts, b.recompile, level);
  }

  /** The plan of a single block, at level 0. */
  method ExplainBlock(b: Block) returns (s: string)
    ensures s == Render(BlockOutline(b, 0))
  {
    s := ExplainProgramBlock(b, 0);
  }

  /** A function-map entry's section text, in the order the explainer appends its pieces. */
  lemma FunctionText(e: FunctionEntry)
    ensures Render(FunctionOutline(e)) == if e.external then "----EXTERNAL FUNCTION " + e.key + "\n"
      else "----FUNCTION " + e.key + "\n" + Render(BlocksOutline(e.body, 3))
  {
    if e.external {
      ExternalFunctionHeading(e.key);
    } else {
      FunctionHeading(e.key);
      RenderAppend([Heading(2, "FUNCTION " + e.key)], BlocksOutline(e.body, 3));
    }
  }

  /** The whole plan's text, in the order the explainer appends its pieces. */
  lemma ProgramTextPieces(p: Program)
    ensures ProgramText(p) == Header(ProgramCount(p, false, true), ProgramCount(p, true, false))
      + Render(FunctionsSection(p.functions)) + "--MAIN PROGRAM\n" + Render(BlocksOutline(p.main, 2))
  {
    var f, mh, m := FunctionsSection(p.functions), [Heading(1, "MAIN PROGRAM")], BlocksOutline(p.main, 2);
    var header := Header(ProgramCount(p, false, true), ProgramCount(p, true, false));
    MainHeading();
    RenderAppend(f, mh);
    RenderAppend(f + mh, m);
    Assoc(header, Render(f) + Render(mh), Render(m));
    Assoc(header, Render(f), Render(mh));
  }

  /** Appending an entry's section text extends the FUNCTIONS section by that entry. */
  lemma SectionStep(header: string, fs: seq<FunctionEntry>, i: int)
    requires 0 <= i < |fs|
    ensures header + Render([Heading(1, "FUNCTIONS")] + FunctionsOutline(fs[..i])) + Render(FunctionOutline(fs[i]))
      == header + Render([Heading(1, "FUNCTIONS")] + FunctionsOutline(fs[..i + 1]))
  {
    SectionRenderStep(fs, i);
    Assoc(header, Render([Heading(1, "FUNCTIONS")] + FunctionsOutline(fs[..i])), Render(FunctionOutline(fs[i])));
  }

  lemma SectionRenderStep(fs: seq<FunctionEntry>, i: int)
    requires 0 <= i < |fs|
    ensures Render([Heading(1, "FUNCTIONS")] + FunctionsOutline(fs[..i + 1]))
      == Render([Heading(1, "FUNCTIONS")] + FunctionsOutline(fs[..i])) + Render(FunctionOutline(fs[i]))
  {
    assert fs[..i + 1][..i] == fs[..i];
    var h := [Heading(1, "FUNCTIONS")];
    assert h + FunctionsOutline(fs[..i + 1]) == (h + FunctionsOutline(fs[..i])) + FunctionOutline(fs[i]);
    RenderAppend(h + FunctionsOutline(fs[..i]), FunctionOutline(fs[i]));
  }

  /**
   * Appends the FUNCTIONS section to `sb`, when the function map is non-empty:
   * its heading, then per entry the entry's heading and, for a DML-bodied
   * function, the plans of its child blocks at level 3.
   */
  method AppendFunctions(sb: string, fs: seq<FunctionEntry>) returns (s: string)
    ensures s == sb + Render(FunctionsSection(fs))
  {
    s := sb;
    if |fs| > 0 {
      s := s + "--FUNCTIONS\n";
      FunctionsHeading();
      assert [Heading(1, "FUNCTIONS")] + FunctionsOutline(fs[..0]) == [Heading(1, "FUNCTIONS")];
      for i := 0 to |fs|
        invariant s == sb + Render([Heading(1, "FUNCTIONS")] + FunctionsOutline(fs[..i]))
      {
        var e := fs[i];
        ghost var before := s;
        FunctionText(e);
        if e.external {
          s := s + ("----EXTERNAL FUNCTION " + e.key + "\n");
        } else {
          s := s + ("----FUNCTION " + e.key + "\n");
          s := AppendBlocks(s, e.body, 3);
          Assoc(before, "----FUNCTION " + e.key + "\n", Render(BlocksOutline(e.body, 3)));
        }
        SectionStep(sb, fs, i);
      }
      assert fs[..|fs|] == fs;
    } else {
      assert sb + Render(FunctionsSection(fs)) == sb;
    }
  }

  /** The plan of a whole program: the header with the CP and MR counts, the function sections, the main program. */
  method Explain(p: Program) returns (s: string)
    ensures s == ProgramText(p)
  {
    var cpCount := CountCompiledInstructions(p, false, true);
    var mrCount := CountCompiledInstructions(p, true, false);
    s := "\nPROGRAM ( size CP/MR = " + NatText(cpCount) + "/" + NatText(mrCount) + " )\n";
    s := AppendFunctions(s, p.functions);
    s := s + "--MAIN PROGRAM\n";
    s := AppendBlocks(s, p.main, 2);
    ProgramTextPieces(p);
  }
}
