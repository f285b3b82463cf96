# SystemML parfor loop specification and runtime-plan explainer, in Dafny

This project models two pieces of SystemML's runtime:

- **The parfor task partitioner base class** (`TaskPartitioner`). It stores a
  parallel loop's specification: task size, index-variable name, and the FROM,
  TO and INCR bounds. From the bounds it derives the number of iterations,
  `(int) Math.ceil((double)(to - from + 1) / incr)`. The model writes out every
  step of that Java expression on 32-bit ints: the wrap-around of `to - from + 1`,
  the floating-point division, including its three IEEE outcomes when `incr`
  is 0, and the saturating `(int)` cast. It then proves what the count means.
  When the width is an int, INCR is non-zero and the pair is not
  `Integer.MIN_VALUE / -1`, the count is the exact ceiling of width / INCR. A
  zero INCR gives `Integer.MAX_VALUE`, `Integer.MIN_VALUE` or 0, by the sign of
  `to - from + 1` as Java's int arithmetic computes it (after wrap-around).
- **The runtime-plan explainer** (`Explain`). It counts the compiled MR-job and
  CP instructions of a runtime program and renders the program as indented text.
  Each program block gets a heading and each instruction one entry, indented by
  `"--"` per nesting level, under a header with the CP and MR counts. The counts
  are specified by recursive functions. The text is specified through an
  *outline*: the sequence of entries the explainer emits, each with its depth,
  plus a `Render` function from outlines to text. The explaining methods build
  the text step by step, as the Java string builders do, and are proved to
  return `Render` of the outline. Lemmas about the outline then give the
  structure of the text: where headings appear, at which depths, where ELSE
  appears, and which instructions are listed. They also tie the listed
  instructions to the header's counts.

Files:

- `TaskPartitioner.dfy`, module `TaskPartitioning`: Java int arithmetic, the
  iteration-count formula and its lemmas, and the `TaskPartitioner` class.
- `ProgramTree.dfy`, module `ProgramTree`: the runtime program as datatypes.
  It has six block kinds: WHILE, IF, FOR/PARFOR, function, CV and generic.
  Instructions are MR jobs, CP instructions or other instructions.
- `InstructionCount.dfy`, module `InstructionCount`: the three
  `countCompiledInstructions` overloads and `countCompiledMRJobs`. Each count
  is a specification function. The three overloads are loop methods proved
  equal to it. `countCompiledMRJobs` has no loop; it is a method calling the
  program overload.
- `PlanExplain.dfy`, module `PlanExplain`: `createOffset`, `explainInstructions`,
  `explainMRJobInstruction`, `explainProgramBlock`, both `explain` entry points,
  and the outline lemmas.

Two behaviours of the iteration count differ from what a loop from FROM to
TO by INCR might be expected to do. The model keeps the code's behaviour:

- A negative INCR is not a downward count. A downward count from 10 to 1 by -1
  would be 10; the code computes ceil(-8 / -1) = 8 (`NumIterationsExamples`).
- An INCR of 0 raises no error. The double division gives ±Infinity or NaN,
  and the cast turns these into `Integer.MAX_VALUE`, `Integer.MIN_VALUE` or 0
  (`ZeroStepIterations`).

## Model

| member | source | states |
|---|---|---|
| TaskPartitioning.Wrap32 | SystemML/SystemML/DML/src/main/java/com/ibm/bi/dml/runtime/controlprogram/parfor/TaskPartitioner.java:48 | Java int arithmetic wraps: the result is the one int congruent to the exact value modulo 2^32, and the exact value itself when that is an int |
| TaskPartitioning.CeilDiv | SystemML/SystemML/DML/src/main/java/com/ibm/bi/dml/runtime/controlprogram/parfor/TaskPartitioner.java:48 | `Math.ceil` of an exact quotient: the integer r with (r-1)·b < a ≤ r·b for b > 0, and r·b ≤ a < (r-1)·b for b < 0 |
| TaskPartitioning.CeilQuotient | SystemML/SystemML/DML/src/main/java/com/ibm/bi/dml/runtime/controlprogram/parfor/TaskPartitioner.java:48 | the double quotient is finite exactly when the divisor is non-zero, and is then the exact ceiling; a zero divisor gives +Infinity for a positive dividend, -Infinity for a negative one and NaN for 0 / 0 |
| TaskPartitioning.ToInt | SystemML/SystemML/DML/src/main/java/com/ibm/bi/dml/runtime/controlprogram/parfor/TaskPartitioner.java:48 | the `(int)` cast keeps in-range values, saturates larger ones and +Infinity to `Integer.MAX_VALUE`, smaller ones and -Infinity to `Integer.MIN_VALUE`, and maps NaN to 0 |
| TaskPartitioning.SpanIsWrappedWidth | SystemML/SystemML/DML/src/main/java/com/ibm/bi/dml/runtime/controlprogram/parfor/TaskPartitioner.java:48 | the two wrapping int operations of `to - from + 1` equal one wrap of the exact width |
| TaskPartitioning.CeilDivInRange | SystemML/SystemML/DML/src/main/java/com/ibm/bi/dml/runtime/controlprogram/parfor/TaskPartitioner.java:48 | the ceiling of an int divided by a non-zero int is an int, except for `Integer.MIN_VALUE / -1` |
| TaskPartitioning.NumIterationsIsCeiling | SystemML/SystemML/DML/src/main/java/com/ibm/bi/dml/runtime/controlprogram/parfor/TaskPartitioner.java:48 | when the width is an int and INCR is non-zero (and not the one saturating quotient), `_numIter` is the exact ceiling of width / INCR, for either sign of INCR |
| TaskPartitioning.PositiveRangeBounds | SystemML/SystemML/DML/src/main/java/com/ibm/bi/dml/runtime/controlprogram/parfor/TaskPartitioner.java:48 | for INCR > 0, TO ≥ FROM and a width TO - FROM + 1 that fits in an int: 1 ≤ `_numIter` ≤ width, (`_numIter` - 1)·INCR < width ≤ `_numIter`·INCR |
| TaskPartitioning.EmptyRangeHasNoIterations | SystemML/SystemML/DML/src/main/java/com/ibm/bi/dml/runtime/controlprogram/parfor/TaskPartitioner.java:48 | TO = FROM - 1 gives 0 iterations for every INCR, including 0 (NaN cast to 0) |
| TaskPartitioning.ZeroStepIterations | SystemML/SystemML/DML/src/main/java/com/ibm/bi/dml/runtime/controlprogram/parfor/TaskPartitioner.java:48 | an INCR of 0 gives `Integer.MAX_VALUE`, `Integer.MIN_VALUE` or 0 when `to - from + 1`, as Java's int arithmetic computes it (after wrap-around), is positive, negative or 0; no error is raised |
| TaskPartitioning.NumIterationsExamples | SystemML/SystemML/DML/src/main/java/com/ibm/bi/dml/runtime/controlprogram/parfor/TaskPartitioner.java:48 | concrete counts: 1..10 by 1 is 10, by 3 is 4; 10..1 by -1 is 8; INCR 0 gives MAX_VALUE or MIN_VALUE; the full int range wraps to width 0; MIN_VALUE / -1 saturates |
| TaskPartitioning.TaskPartitioner.constructor | SystemML/SystemML/DML/src/main/java/com/ibm/bi/dml/runtime/controlprogram/parfor/TaskPartitioner.java:39-49 | stores task size, index variable and the three bounds unchanged, and sets the count to the formula of the stored bounds |
| TaskPartitioning.TaskPartitioner.GetNumIterations | SystemML/SystemML/DML/src/main/java/com/ibm/bi/dml/runtime/controlprogram/parfor/TaskPartitioner.java:73-76 | returns the count fixed at construction, which is the formula of the stored bounds; the fields are constants, so nothing changes it later |
| InstructionCount.InstCount | SystemML/SystemML/DML/src/main/java/com/ibm/bi/dml/utils/Explain.java:335-348 | a list's count is at most its length, and 0 when neither kind is selected |
| InstructionCount.InstCountIsSelected | SystemML/SystemML/DML/src/main/java/com/ibm/bi/dml/utils/Explain.java:341-344 | a list's count is the number of positions that hold a selected kind of instruction |
| InstructionCount.InstCountByKind | SystemML/SystemML/DML/src/main/java/com/ibm/bi/dml/utils/Explain.java:335-348 | with MR only, the count is the number of MR-job instructions; with CP only, the number of CP instructions |
| InstructionCount.InstCountAppend | SystemML/SystemML/DML/src/main/java/com/ibm/bi/dml/utils/Explain.java:335-348 | the count of two lists one after the other is the sum of their counts |
| InstructionCount.InstCountSplit | SystemML/SystemML/DML/src/main/java/com/ibm/bi/dml/utils/Explain.java:341-344 | on a list, count(MR, CP) = count(MR only) + count(CP only) |
| InstructionCount.BlockCountIsFlatCount | SystemML/SystemML/DML/src/main/java/com/ibm/bi/dml/utils/Explain.java:280-326 | a block's recursive count equals the list count over every instruction the block holds at any depth: predicates, FOR bounds, both IF bodies, child blocks |
| InstructionCount.BlocksCountIsFlatCount | SystemML/SystemML/DML/src/main/java/com/ibm/bi/dml/utils/Explain.java:288-289 | the count over a list of blocks equals the list count over all their instructions |
| InstructionCount.FunctionsCountIsFlatCount | SystemML/SystemML/DML/src/main/java/com/ibm/bi/dml/utils/Explain.java:263-264 | the count over the function map equals the list count over all instructions of all function blocks, external ones included |
| InstructionCount.ProgramCountIsFlatCount | SystemML/SystemML/DML/src/main/java/com/ibm/bi/dml/utils/Explain.java:258-271 | a program's count equals the list count over every instruction of every function block and main block |
| InstructionCount.BlockCountSplit | SystemML/SystemML/DML/src/main/java/com/ibm/bi/dml/utils/Explain.java:280-326 | for every block, count(MR, CP) = count(MR only) + count(CP only) |
| InstructionCount.ProgramCountSplit | SystemML/SystemML/DML/src/main/java/com/ibm/bi/dml/utils/Explain.java:258-271 | for every program, count(MR, CP) = count(MR only) + count(CP only) |
| InstructionCount.BlockCountBounds | SystemML/SystemML/DML/src/main/java/com/ibm/bi/dml/utils/Explain.java:280-326 | a block's count is at most the number of instructions it holds, and 0 when neither kind is selected |
| InstructionCount.FunctionsCountAppend | SystemML/SystemML/DML/src/main/java/com/ibm/bi/dml/utils/Explain.java:263-264 | the count over two parts of a function map is the sum of their counts |
| InstructionCount.FunctionsCountPermutation | SystemML/SystemML/DML/src/main/java/com/ibm/bi/dml/utils/Explain.java:263-264 | the count over the function map is the same for every iteration order of the same entries |
| InstructionCount.FunctionsCountRemove | SystemML/SystemML/DML/src/main/java/com/ibm/bi/dml/utils/Explain.java:263-264 | taking one entry out of the function map removes exactly its block's count |
| InstructionCount.ProgramCountOrderIndependent | SystemML/SystemML/DML/src/main/java/com/ibm/bi/dml/utils/Explain.java:258-271 | programs whose function maps hold the same entries in any order have the same counts |
| InstructionCount.CountCompiledInstructionsInList | SystemML/SystemML/DML/src/main/java/com/ibm/bi/dml/utils/Explain.java:335-348 | the loop's count is the list count of the instruction list |
| InstructionCount.CountCompiledInstructionsInBlocks | SystemML/SystemML/DML/src/main/java/com/ibm/bi/dml/utils/Explain.java:288-289 | the loop over child blocks adds the count of every child to the running total |
| InstructionCount.CountCompiledInstructionsInBlock | SystemML/SystemML/DML/src/main/java/com/ibm/bi/dml/utils/Explain.java:280-326 | the per-kind recursive count equals the block count: predicates, FOR bounds, then-body and else-body, children of function and CV blocks, a generic block's own list |
| InstructionCount.CountCompiledInstructions | SystemML/SystemML/DML/src/main/java/com/ibm/bi/dml/utils/Explain.java:258-271 | the program count is the count over all function blocks plus the count over all main blocks |
| InstructionCount.CountCompiledMRJobs | SystemML/SystemML/DML/src/main/java/com/ibm/bi/dml/utils/Explain.java:100-103 | the MR-job count is the program count with MR only, which is the number of MR-job instructions anywhere in the program |
| PlanExplain.OffsetShape | SystemML/SystemML/DML/src/main/java/com/ibm/bi/dml/utils/Explain.java:243-249 | the offset of a level is 2·level dashes, and empty for a level ≤ 0 |
| PlanExplain.CreateOffset | SystemML/SystemML/DML/src/main/java/com/ibm/bi/dml/utils/Explain.java:243-249 | the loop appends `"--"` once per level and returns the offset of the level |
| PlanExplain.NatText | SystemML/SystemML/DML/src/main/java/com/ibm/bi/dml/utils/Explain.java:49-51 | the decimal text of a count is non-empty, made of digits only, and has no leading zero: it starts with `0` only when it is the single digit for 0 |
| PlanExplain.NatTextRoundTrip | SystemML/SystemML/DML/src/main/java/com/ibm/bi/dml/utils/Explain.java:49-51 | the decimal text of a count denotes that count |
| PlanExplain.HeaderReadsBack | SystemML/SystemML/DML/src/main/java/com/ibm/bi/dml/utils/Explain.java:48-52 | the header is its fixed opening, the CP count's digits, '/', the MR count's digits, `" )\n"`; both numbers can be read back from it, CP first |
| PlanExplain.InstOutlineEntries | SystemML/SystemML/DML/src/main/java/com/ibm/bi/dml/utils/Explain.java:182-208 | an instruction list is emitted as one entry per instruction, in list order, all at the list's level, so its entries list exactly that list |
| PlanExplain.MRJobText | SystemML/SystemML/DML/src/main/java/com/ibm/bi/dml/utils/Explain.java:216-236 | an MR job's text opens with `MR-Job[` and a newline, and closes with `" ]"` |
| PlanExplain.MRJobLines | SystemML/SystemML/DML/src/main/java/com/ibm/bi/dml/utils/Explain.java:218-232 | when no field value contains a newline, an MR job's text holds exactly twelve newlines: the opening line plus one per field line except the last |
| PlanExplain.ExplainMRJobInstruction | SystemML/SystemML/DML/src/main/java/com/ibm/bi/dml/utils/Explain.java:216-236 | the twelve `+=` steps build the MR-job text: the opening line, then each field's line at the offset of level + 1, with the replication line closing it |
| PlanExplain.InstText | SystemML/SystemML/DML/src/main/java/com/ibm/bi/dml/utils/Explain.java:189-193 | an MR job's entry is its multi-line text, which opens with `MR-Job[` and closes with `" ]"`; any other instruction's entry is its own text |
| PlanExplain.ExplainInstructions | SystemML/SystemML/DML/src/main/java/com/ibm/bi/dml/utils/Explain.java:182-208 | the loop's text is the rendering of the list's entries: per instruction, the offset, the instruction's text (an MR job spelled out field by field), a newline |
| PlanExplain.RenderAppend | SystemML/SystemML/DML/src/main/java/com/ibm/bi/dml/utils/Explain.java:111-173 | the text of two outlines one after the other is the concatenation of their texts, as appending to a string builder is |
| PlanExplain.BlockOutlineDepth | SystemML/SystemML/DML/src/main/java/com/ibm/bi/dml/utils/Explain.java:111-174 | a block's entries are at its level or deeper; a function or CV block emits nothing at its own level |
| PlanExplain.NestedDepth | SystemML/SystemML/DML/src/main/java/com/ibm/bi/dml/utils/Explain.java:123-171 | what a block nests under its heading (instruction lists and child blocks) is one level deeper or more, except an IF's ELSE line |
| PlanExplain.BlockHeading | SystemML/SystemML/DML/src/main/java/com/ibm/bi/dml/utils/Explain.java:123-171 | every non-function, non-CV block emits one heading first at its own level; every later entry is deeper, except an IF block's ELSE line; that heading is the block's label, which for a FOR block is PARFOR exactly when it is a parallel loop |
| PlanExplain.ElseLine | SystemML/SystemML/DML/src/main/java/com/ibm/bi/dml/utils/Explain.java:140-146 | an IF block emits an ELSE line if and only if its else body is non-empty |
| PlanExplain.BlockOutlineListsInstructions | SystemML/SystemML/DML/src/main/java/com/ibm/bi/dml/utils/Explain.java:111-174 | the instructions a block's plan lists are exactly those the count walks over, in the same order |
| PlanExplain.BlocksOutlineListsInstructions | SystemML/SystemML/DML/src/main/java/com/ibm/bi/dml/utils/Explain.java:120-121 | the same for a list of child blocks |
| PlanExplain.PlanListsCountedInstructions | SystemML/SystemML/DML/src/main/java/com/ibm/bi/dml/utils/Explain.java:280-326 | a block's count is the count over the instructions its plan lists |
| PlanExplain.AppendBlocks | SystemML/SystemML/DML/src/main/java/com/ibm/bi/dml/utils/Explain.java:120-121 | the loop over child blocks appends each child's plan, at the given level, in order |
| PlanExplain.ExplainProgramBlock | SystemML/SystemML/DML/src/main/java/com/ibm/bi/dml/utils/Explain.java:111-174 | a block's text is the rendering of its outline: function and CV blocks render their children one level deeper with no heading, the other kinds go to their branch |
| PlanExplain.ExplainWhile | SystemML/SystemML/DML/src/main/java/com/ibm/bi/dml/utils/Explain.java:123-131 | WHILE branch: offset and `WHILE`, the predicate instructions and the body blocks one level deeper |
| PlanExplain.ExplainIf | SystemML/SystemML/DML/src/main/java/com/ibm/bi/dml/utils/Explain.java:132-147 | IF branch: offset and `IF`, predicate, if-body, and offset and `ELSE` plus else-body only when the else body is non-empty |
| PlanExplain.ExplainFor | SystemML/SystemML/DML/src/main/java/com/ibm/bi/dml/utils/Explain.java:148-162 | FOR branch: offset and `PARFOR` or `FOR`, the from, to and increment instructions, then the body blocks |
| PlanExplain.ExplainGeneric | SystemML/SystemML/DML/src/main/java/com/ibm/bi/dml/utils/Explain.java:163-171 | any other block: offset and `GENERIC`, with the recompilation flag when there is a statement block, then its instructions |
| PlanExplain.ExplainBlock | SystemML/SystemML/DML/src/main/java/com/ibm/bi/dml/utils/Explain.java:88-91 | explaining a single block is its plan at level 0 |
| PlanExplain.FunctionSectionIsBlockPlan | SystemML/SystemML/DML/src/main/java/com/ibm/bi/dml/utils/Explain.java:66-70 | a DML-bodied function's section is its heading followed by the plan of its function block at level 2, that is its children at level 3 |
| PlanExplain.ExternalFunctionSection | SystemML/SystemML/DML/src/main/java/com/ibm/bi/dml/utils/Explain.java:63-64 | an external function's section is its heading alone and lists no instruction |
| PlanExplain.FunctionsSectionShape | SystemML/SystemML/DML/src/main/java/com/ibm/bi/dml/utils/Explain.java:56-72 | the FUNCTIONS section is present exactly when the function map is non-empty, opens with its heading and nests everything else at level 2 or deeper |
| PlanExplain.ProgramFunctionsSection | SystemML/SystemML/DML/src/main/java/com/ibm/bi/dml/utils/Explain.java:54-72 | a program's plan has the FUNCTIONS heading if and only if the function map is non-empty, and then as its first entry |
| PlanExplain.ProgramMainSection | SystemML/SystemML/DML/src/main/java/com/ibm/bi/dml/utils/Explain.java:75-78 | a program's plan ends with the MAIN PROGRAM heading followed by exactly the main blocks' plans at level 2 |
| PlanExplain.ProgramTopLevel | SystemML/SystemML/DML/src/main/java/com/ibm/bi/dml/utils/Explain.java:54-78 | the only entries of a program's plan above level 2 are the two section headings |
| PlanExplain.FunctionsOutlineListsInstructions | SystemML/SystemML/DML/src/main/java/com/ibm/bi/dml/utils/Explain.java:59-72 | without external functions, the FUNCTIONS section lists exactly the instructions of all function blocks |
| PlanExplain.ProgramPlanListsCountedInstructions | SystemML/SystemML/DML/src/main/java/com/ibm/bi/dml/utils/Explain.java:43-81 | without external functions, a program's plan lists exactly the instructions its header counts, so both header numbers are counts over the listed instructions |
| PlanExplain.AppendFunctions | SystemML/SystemML/DML/src/main/java/com/ibm/bi/dml/utils/Explain.java:54-72 | the FUNCTIONS block of `explain` appends the rendering of the FUNCTIONS section: nothing for an empty map, else the heading and one section per entry |
| PlanExplain.Explain | SystemML/SystemML/DML/src/main/java/com/ibm/bi/dml/utils/Explain.java:43-81 | the program's text is the header with the CP count then the MR count, the FUNCTIONS section, and MAIN PROGRAM with the main blocks at level 2 |

## Left out

- The two abstract `createTasks` overloads (`TaskPartitioner.java:51-66`) have
  no body here. The concrete partitioners and the `Task` and `LocalTaskQueue`
  classes are not part of this model. The source gives both overloads no body,
  and the `Task` and `LocalTaskQueue` types they return or fill are not shown,
  so any body written for them would invent behaviour.
- TaskPartitioning.CeilQuotient: the double division is modelled as exact,
  which does not change the result of `Math.ceil`. Take int operands a and
  b != 0. If a / b is an integer, it has magnitude at most 2^31, so a double
  represents it exactly. Otherwise a / b is at least 1/|b| away from the
  nearest integer. The rounding error of the double quotient is at most
  |a|/|b| · 2^-53 ≤ 2^31 · 2^-53 / |b| = 2^-22/|b|. That is less than 1/|b|,
  so rounding never crosses an integer.
- `IntObject` is not part of this model. The bounds are taken to be the Java
  `int` values that `getIntValue()` returns (`TaskPartitioner.java:48`).
- TaskPartitioning.TaskPartitioner.GetNumIterations: the fields are
  `protected` in Java. Writes by subclasses are not modelled; the class shown
  writes them only in its constructor.
- The regex `replaceAll` of `Lop` delimiters (`Explain.java:196-200`) is left
  out. It is a call into the regex library on constants defined outside this
  file. Instruction text is carried as an opaque string.
- `Instruction.toString()`, `requiresRecompilation()` and the MR-job getters
  (`Explain.java:167, 193, 220-232`) are calls into classes not shown. Their
  results are values carried in the datatypes; MR-job fields are carried as
  already rendered strings. The discarded `inst.toString()` call at line 195
  has no visible effect and is omitted.
- Function-map iteration order (`Explain.java:59, 263`) is unspecified in Java.
  The map is a sequence in some order. The counts are proved order-independent
  (`FunctionsCountPermutation`). The text depends on the order, as in Java.
- A `null` function map (`Explain.java:56`) is not modelled. The count at line
  263 would dereference it anyway.
- CV blocks: the class hierarchy is not shown. The cast at line 316 succeeds
  only if `CVProgramBlock` is a `FunctionProgramBlock`, so a CV block is
  explained like a function block at line 116 (children only, no heading).
- InstructionCount.InstCount: counts are unbounded `nat`s. The 32-bit overflow
  of the Java `int` accumulators is not modelled; it would need at least 2^31
  instructions.
