/**
 * The compiled runtime program as the plan explainer sees it: a tree of
 * program blocks whose leaves are lists of runtime instructions.
 */
module ProgramTree {

  datatype Option<T> = None | Some(value: T)

  /**
   * The parts of an MR-job instruction that the explainer prints, each as the
   * text its getter renders to (arrays already rendered as `[a, b]`).
   */
  datatype MRJobInfo = MRJobInfo(
    jobType: string,
    inputVars: string,
    recordReaderInsts: string,
    randInsts: string,
    mapperInsts: string,
    shuffleInsts: string,
    aggInsts: string,
    otherInsts: string,
    outputVars: string,
    resultIndices: string,
    numReducers: string,
    replication: string)

  /** A runtime instruction: an MR job, a control-program (CP) instruction, or any other kind. */
  datatype Instruction =
    | MRJob(job: MRJobInfo)
    | CP(text: string)
    | Other(text: string)

  /**
   * A runtime program block. `For` covers both FOR and PARFOR loops; `Function`
   * covers DML-bodied and external functions; `Generic` is a plain block with its
   * own instruction list and, when it has a statement block, that block's
   * recompilation flag.
   */
  datatype Block =
    | While(pred: seq<Instruction>, kids: seq<Block>)
    | If(pred: seq<Instruction>, thenKids: seq<Block>, elseKids: seq<Block>)
    | For(isParfor: bool, fromInsts: seq<Instruction>, toInsts: seq<Instruction>,
          incrInsts: seq<Instruction>, kids: seq<Block>)
    | Function(external: bool, kids: seq<Block>)
    | CV(kids: seq<Block>)
    | Generic(insts: seq<Instruction>, recompile: Option<bool>)

  /** One entry of the program's function map: its key and its function block. */
  datatype FunctionEntry = FunctionEntry(key: string, external: bool, body: seq<Block>)
  {
    function AsBlock(): Block {
      Function(external, body)
    }
  }

  /** A runtime program: its function map (in some iteration order) and its main blocks. */
  datatype Program = Program(functions: seq<FunctionEntry>, main: seq<Block>)
}
