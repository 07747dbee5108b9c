/**
 * The code generator of compiler.go: one walk over the syntax tree that appends
 * assembly lines to a buffer, gives each assigned name a slot and numbers the
 * labels it needs.
 *
 * The walk is specified by functions of a CState, the three fields of the
 * source's Compiler that the walk changes: CompileExpr, CompileStmt,
 * CompileList and CompileProgram. The class Compiler below holds the same
 * fields; each of its methods is one function of the source, proved against
 * those functions. The source's panics become the error of a Result.
 */
module CodeGen {
  import opened Wrappers
  import opened Lexing
  import opened Ast
  import Decimal

  /**
   * The panic of compileExpression's operator switch: a binary expression whose
   * operator tag has no code. (Its other panic, on an unknown expression type,
   * cannot happen: Expression is a closed family here.)
   */
  datatype CompileError = UnknownOperator(op: TokenKind)

  /** The fields the walk changes: name to slot, the lines so far, the labels taken. */
  datatype CState = CState(variables: map<string, nat>, code: seq<string>, labelCount: nat)

  /** What compileExpression returns (the operand text) and the state after it. */
  datatype Compiled = Compiled(operand: string, after: CState)

  /** A compiler as NewCompiler makes it: no slots, no lines, no labels. */
  const Initial := CState(map[], [], 0)

  /** The n-th label; nextLabel hands out label_1, label_2, ... */
  function Label(n: nat): string {
    "label_" + Decimal.Text(n)
  }

  /** The line that places label n. */
  function LabelLine(n: nat): string {
    Label(n) + ":"
  }

  function Append(st: CState, lines: seq<string>): CState {
    st.(code := st.code + lines)
  }

  /** Later stays the walk's continuation of earlier: lines only appended, slots kept, labels only taken. */
  ghost predicate Extends(earlier: CState, later: CState) {
    && earlier.code <= later.code
    && earlier.variables.Keys <= later.variables.Keys
    && (forall x :: x in earlier.variables ==> later.variables[x] == earlier.variables[x])
    && earlier.labelCount <= later.labelCount
  }

  // ---------------------------------------------------------------------------
  // Prologue and epilogue
  // ---------------------------------------------------------------------------

  /** The lines before the program's code; an operating system other than the three gets none. */
  function Prologue(os: string): seq<string> {
    if os == "linux" then ["global _start", "section .text", "_start:"]
    else if os == "darwin" then ["global start", "section .text", "start:"]
    else if os == "windows" then ["global main", "extern ExitProcess", "section .text", "main:"]
    else []
  }

  /** The exit sequence after the program's code; again none for any other system. */
  function Epilogue(os: string): seq<string> {
    if os == "linux" then ["    mov eax, 60", "    xor edi, edi", "    syscall"]
    else if os == "darwin" then ["    mov rax, 0x2000001", "    xor rdi, rdi", "    syscall"]
    else if os == "windows" then ["    push 0", "    call ExitProcess"]
    else []
  }

  // ---------------------------------------------------------------------------
  // Expressions
  // ---------------------------------------------------------------------------

  /** How many labels the code of operator op takes: one for '&&', two for '||'. */
  function OperatorLabels(op: TokenKind): nat {
    if op == And then 1 else if op == Or then 2 else 0
  }

  /**
   * The lines that follow `mov eax, <left>` for operator op with right operand
   * text right, where n labels were taken before; an operator tag with no code
   * is the error.
   */
  function OperatorLines(op: TokenKind, right: string, n: nat): Result<seq<string>, CompileError> {
    match op
    case Plus => Ok(["    add eax, " + right])
    case Minus => Ok(["    sub eax, " + right])
    case Multiply => Ok(["    imul eax, " + right])
    case Divide => Ok(["    xor edx, edx", "    div " + right])
    case Eq => Ok(["    cmp eax, " + right, "    sete al", "    movzx eax, al"])
    case Neq => Ok(["    cmp eax, " + right, "    setne al", "    movzx eax, al"])
    case Lt => Ok(["    cmp eax, " + right, "    setl al", "    movzx eax, al"])
    case Gt => Ok(["    cmp eax, " + right, "    setg al", "    movzx eax, al"])
    case And =>
      var endLabel := Label(n + 1);
      Ok(["    cmp eax, 0", "    je " + endLabel, "    cmp " + right + ", 0",
          "    setne al", "    movzx eax, al", endLabel + ":"])
    case Or =>
      var trueLabel, endLabel := Label(n + 1), Label(n + 2);
      Ok(["    cmp eax, 0", "    jne " + trueLabel, "    cmp " + right + ", 0",
          "    setne al", "    movzx eax, al", "    jmp " + endLabel,
          trueLabel + ":", "    mov eax, 1", endLabel + ":"])
    case _ => Err(UnknownOperator(op))
  }

  /**
   * compileExpression from state st. An atom emits nothing and leaves the state
   * as it was; a binary expression compiles left then right, moves the left
   * operand into eax, emits the operator's lines and yields "eax". No slot is
   * ever created: reading a name does not give it one.
   */
  function CompileExpr(st: CState, e: Expression): (r: Result<Compiled, CompileError>)
    ensures r.Ok? ==> Extends(st, r.value.after) && r.value.after.variables == st.variables
    ensures r.Ok? && !e.BinaryExpression? ==> r.value.after == st
    ensures r.Ok? && e.BinaryExpression? ==> r.value.operand == "eax"
    decreases e
  {
    match e
    case NumberLiteral(v) => Ok(Compiled(Decimal.IntText(v), st))
    case StringLiteral(_) => Ok(Compiled("str_" + Decimal.Text(|st.variables|), st))
    case BooleanLiteral(b) => Ok(Compiled(if b then "1" else "0", st))
    case Identifier(x) => Ok(Compiled("[var_" + x + "]", st))
    case BinaryExpression(a, op, b) =>
      var left :- CompileExpr(st, a);
      var right :- CompileExpr(left.after, b);
      var n := right.after.labelCount;
      var lines :- OperatorLines(op, right.operand, n);
      var moved := Append(right.after, ["    mov eax, " + left.operand]);
      Ok(Compiled("eax", Append(moved.(labelCount := n + OperatorLabels(op)), lines)))
  }

  // ---------------------------------------------------------------------------
  // Statements
  // ---------------------------------------------------------------------------

  /** The slots after an assignment to x: a new name gets the next free slot, a known one keeps its own. */
  function WithSlot(vars: map<string, nat>, x: string): map<string, nat> {
    if x in vars then vars else vars[x := |vars|]
  }

  /** compileStatement from state st. */
  function CompileStmt(st: CState, s: Statement): (r: Result<CState, CompileError>)
    ensures r.Ok? ==> Extends(st, r.value)
    decreases s, 1
  {
    match s
    case Assignment(x, e) =>
      var value :- CompileExpr(st, e);
      var slotted := value.after.(variables := WithSlot(value.after.variables, x));
      Ok(Append(slotted, ["    mov [var_" + x + "], " + value.operand]))
    case PrintStatement(e) =>
      var value :- CompileExpr(st, e);
      Ok(Append(value.after, ["    push " + value.operand, "    call print_int", "    add esp, 4"]))
    case IfStatement(c, t, el) =>
      var cond :- CompileExpr(st, c);
      var n := cond.after.labelCount;
      var elseLabel, endLabel := Label(n + 1), Label(n + 2);
      var head := Append(cond.after.(labelCount := n + 2), ["    cmp " + cond.operand + ", 0", "    je " + elseLabel]);
      var thenDone :- CompileList(head, t.statements);
      var elseDone :- CompileElse(Append(thenDone, ["    jmp " + endLabel, elseLabel + ":"]), el);
      Ok(Append(elseDone, [endLabel + ":"]))
    case WhileStatement(c, b) =>
      var n := st.labelCount;
      var startLabel, endLabel := Label(n + 1), Label(n + 2);
      var top := Append(st.(labelCount := n + 2), [startLabel + ":"]);
      var cond :- CompileExpr(top, c);
      var head := Append(cond.after, ["    cmp " + cond.operand + ", 0", "    je " + endLabel]);
      var bodyDone :- CompileList(head, b.statements);
      Ok(Append(bodyDone, ["    jmp " + startLabel, endLabel + ":"]))
    case BlockStatement(b) => CompileList(st, b.statements)
  }

  /** The else-branch of an if: its statements when present, nothing otherwise. */
  function CompileElse(st: CState, el: Option<Block>): (r: Result<CState, CompileError>)
    ensures r.Ok? ==> Extends(st, r.value)
    decreases el, 1
  {
    match el
    case None => Ok(st)
    case Some(b) => CompileList(st, b.statements)
  }

  /** A statement sequence compiled in order, stopping at the first error. */
  function CompileList(st: CState, ss: seq<Statement>): (r: Result<CState, CompileError>)
    ensures r.Ok? ==> Extends(st, r.value)
    decreases ss
  {
    if ss == [] then Ok(st)
    else
      var next :- CompileStmt(st, ss[0]);
      CompileList(next, ss[1..])
  }

  // ---------------------------------------------------------------------------
  // Whole programs
  // ---------------------------------------------------------------------------

  /** Compile's lines: the prologue, each top-level statement in order, the epilogue. */
  function CompileProgram(st: CState, os: string, p: Program): (r: Result<CState, CompileError>)
    ensures r.Ok? ==> Extends(st, r.value)
  {
    var body :- CompileList(Append(st, Prologue(os)), p.statements);
    Ok(Append(body, Epilogue(os)))
  }

  /** strings.Join(lines, "\n"). */
  function Join(lines: seq<string>): string {
    if lines == [] then ""
    else if |lines| == 1 then lines[0]
    else lines[0] + "\n" + Join(lines[1..])
  }

  /** What Compile returns on a compiler fresh from NewCompiler; the architecture plays no part. */
  function CompileOutput(os: string, p: Program): Result<string, CompileError> {
    var done :- CompileProgram(Initial, os, p);
    Ok(Join(done.code))
  }

  /** A method's result and the compiler's new state are those the specifying function gives. */
  predicate Agrees<T>(spec: Result<CState, CompileError>, r: Result<T, CompileError>, now: CState) {
    match spec
    case Ok(st) => r.Ok? && now == st
    case Err(e) => r == Err(e)
  }

  // ---------------------------------------------------------------------------
  // The Compiler object: three fields updated in place during one walk
  // ---------------------------------------------------------------------------

  class Compiler {
    var variables: map<string, nat>
    var code: seq<string>
    var labelCount: nat
    const os: string
    const arch: string

    function State(): CState
      reads this
    {
      CState(variables, code, labelCount)
    }

    constructor (os: string, arch: string)
      ensures State() == Initial && this.os == os && this.arch == arch
    {
      variables := map[];
      code := [];
      labelCount := 0;
      this.os := os;
      this.arch := arch;
    }

    method Compile(program: Program) returns (r: Result<string, CompileError>)
      modifies this
      ensures match CompileProgram(old(State()), os, program)
              case Ok(st) => r == Ok(Join(st.code)) && State() == st
              case Err(e) => r == Err(e)
    {
      GeneratePrologue();
      ghost var start := State();
      var ss := program.statements;
      for i := 0 to |ss|
        invariant CompileList(State(), ss[i..]) == CompileList(start, ss)
      {
        assert ss[i..][1..] == ss[i + 1..];
        var done :- CompileStatement(ss[i]);
      }
      GenerateEpilogue();
      return Ok(Join(code));
    }

    method GeneratePrologue()
      modifies this
      ensures State() == Append(old(State()), Prologue(os))
    {
      if os == "linux" {
        code := code + ["global _start"];
        code := code + ["section .text"];
        code := code + ["_start:"];
      } else if os == "darwin" {
        code := code + ["global start"];
        code := code + ["section .text"];
        code := code + ["start:"];
      } else if os == "windows" {
        code := code + ["global main"];
        code := code + ["extern ExitProcess"];
        code := code + ["section .text"];
        code := code + ["main:"];
      }
    }

    method GenerateEpilogue()
      modifies this
      ensures State() == Append(old(State()), Epilogue(os))
    {
      if os == "linux" {
        code := code + ["    mov eax, 60"];
        code := code + ["    xor edi, edi"];
        code := code + ["    syscall"];
      } else if os == "darwin" {
        code := code + ["    mov rax, 0x2000001"];
        code := code + ["    xor rdi, rdi"];
        code := code + ["    syscall"];
      } else if os == "windows" {
        code := code + ["    push 0"];
        code := code + ["    call ExitProcess"];
      }
    }

    method CompileStatement(s: Statement) returns (r: Result<(), CompileError>)
      modifies this
      ensures Agrees(CompileStmt(old(State()), s), r, State())
      decreases s, 2
    {
      match s
      case Assignment(_, _) =>
        r := CompileAssignment(s);
      case PrintStatement(_) =>
        r := CompilePrint(s);
      case IfStatement(_, _, _) =>
        r := CompileIf(s);
      case WhileStatement(_, _) =>
        r := CompileWhile(s);
      case BlockStatement(b) =>
        r := CompileStatements(b.statements);
    }

    /** The loop the source writes out for a block and for each branch and body. */
    method CompileStatements(ss: seq<Statement>) returns (r: Result<(), CompileError>)
      modifies this
      ensures Agrees(CompileList(old(State()), ss), r, State())
      decreases ss
    {
      for i := 0 to |ss|
        invariant CompileList(State(), ss[i..]) == CompileList(old(State()), ss)
      {
        assert ss[i..][1..] == ss[i + 1..];
        var done :- CompileStatement(ss[i]);
      }
      return Ok(());
    }

    method CompileAssignment(s: Statement) returns (r: Result<(), CompileError>)
      requires s.Assignment?
      modifies this
      ensures Agrees(CompileStmt(old(State()), s), r, State())
      decreases s, 1
    {
      var value :- CompileExpression(s.value);
      if s.target !in variables {
        variables := variables[s.target := |variables|];
      }
      code := code + ["    mov [var_" + s.target + "], " + value];
      return Ok(());
    }

    method CompilePrint(s: Statement) returns (r: Result<(), CompileError>)
      requires s.PrintStatement?
      modifies this
      ensures Agrees(CompileStmt(old(State()), s), r, State())
      decreases s, 1
    {
      var value :- CompileExpression(s.expr);
      code := code + ["    push " + value, "    call print_int", "    add esp, 4"];
      return Ok(());
    }

    method CompileIf(s: Statement) returns (r: Result<(), CompileError>)
      requires s.IfStatement?
      modifies this
      ensures Agrees(CompileStmt(old(State()), s), r, State())
      decreases s, 1
    {
      var condition :- CompileExpression(s.cond);
      var elseLabel := NextLabel();
      var endLabel := NextLabel();
      code := code + ["    cmp " + condition + ", 0", "    je " + elseLabel];
      var thenDone :- CompileStatements(s.thenBranch.statements);
      code := code + ["    jmp " + endLabel, elseLabel + ":"];
      assert CompileElse(State(), s.elseBranch)
          == if s.elseBranch.Some? then CompileList(State(), s.elseBranch.value.statements) else Ok(State());
      if s.elseBranch.Some? {
        var elseDone :- CompileStatements(s.elseBranch.value.statements);
      }
      code := code + [endLabel + ":"];
      return Ok(());
    }

    method CompileWhile(s: Statement) returns (r: Result<(), CompileError>)
      requires s.WhileStatement?
      modifies this
      ensures Agrees(CompileStmt(old(State()), s), r, State())
      decreases s, 1
    {
      var startLabel := NextLabel();
      var endLabel := NextLabel();
      code := code + [startLabel + ":"];
      var condition :- CompileExpression(s.cond);
      code := code + ["    cmp " + condition + ", 0", "    je " + endLabel];
      var bodyDone :- CompileStatements(s.body.statements);
      code := code + ["    jmp " + startLabel, endLabel + ":"];
      return Ok(());
    }

    method CompileExpression(e: Expression) returns (r: Result<string, CompileError>)
      modifies this
      ensures match CompileExpr(old(State()), e)
              case Ok(c) => r == Ok(c.operand) && State() == c.after
              case Err(err) => r == Err(err)
      decreases e
    {
      match e
      case NumberLiteral(v) =>
        return Ok(Decimal.IntText(v));
      case StringLiteral(_) =>
        return Ok("str_" + Decimal.Text(|variables|));
      case BooleanLiteral(b) =>
        if b {
          return Ok("1");
        }
        return Ok("0");
      case Identifier(x) =>
        return Ok("[var_" + x + "]");
      case BinaryExpression(a, op, b) =>
        var left :- CompileExpression(a);
        var right :- CompileExpression(b);
        code := code + ["    mov eax, " + left];
        var done :- CompileOperator(op, right);
        return Ok("eax");
    }

    /** The operator switch of compileExpression, once `mov eax, <left>` is out. */
    method CompileOperator(op: TokenKind, right: string) returns (r: Result<(), CompileError>)
      modifies this
      ensures match OperatorLines(op, right, old(labelCount))
              case Ok(lines) =>
                r.Ok? && State() == Append(old(State()).(labelCount := old(labelCount) + OperatorLabels(op)), lines)
              case Err(err) => r == Err(err)
    {
      match op {
      case Plus =>
        code := code + ["    add eax, " + right];
      case Minus =>
        code := code + ["    sub eax, " + right];
      case Multiply =>
        code := code + ["    imul eax, " + right];
      case Divide =>
        code := code + ["    xor edx, edx", "    div " + right];
      case Eq =>
        code := code + ["    cmp eax, " + right, "    sete al", "    movzx eax, al"];
      case Neq =>
        code := code + ["    cmp eax, " + right, "    setne al", "    movzx eax, al"];
      case Lt =>
        code := code + ["    cmp eax, " + right, "    setl al", "    movzx eax, al"];
      case Gt =>
        code := code + ["    cmp eax, " + right, "    setg al", "    movzx eax, al"];
      case And =>
        var endLabel := NextLabel();
        code := code + ["    cmp eax, 0", "    je " + endLabel, "    cmp " + right + ", 0",
                        "    setne al", "    movzx eax, al", endLabel + ":"];
      case Or =>
        var trueLabel := NextLabel();
        var endLabel := NextLabel();
        code := code + ["    cmp eax, 0", "    jne " + trueLabel, "    cmp " + right + ", 0",
                        "    setne al", "    movzx eax, al", "    jmp " + endLabel,
                        trueLabel + ":", "    mov eax, 1", endLabel + ":"];
      case _ =>
        return Err(UnknownOperator(op));
      }
      return Ok(());
    }

    method NextLabel() returns (l: string)
      modifies this
      ensures labelCount == old(labelCount) + 1 && l == Label(labelCount)
      ensures variables == old(variables) && code == old(code)
    {
      labelCount := labelCount + 1;
      l := Label(labelCount);
    }
  }
}
