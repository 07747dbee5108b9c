/**
 * What the walk of compiler.go promises about every tree: which trees it
 * compiles without its panic, how many labels it takes, that statement
 * sequences compile piece by piece, and which slot each name gets.
 */
module CodeGenProofs {
  import opened Wrappers
  import opened Lexing
  import opened Ast
  import opened CodeGen

  // ---------------------------------------------------------------------------
  // The operator panic happens exactly on trees with a tag that is no operator
  // ---------------------------------------------------------------------------

  lemma OperatorKnown(op: TokenKind, right: string, n: nat)
    ensures OperatorLines(op, right, n).Ok? <==> IsOperator(op)
    ensures OperatorLines(op, right, n).Err? ==> OperatorLines(op, right, n).error == UnknownOperator(op)
  {
  }

  /**
   * An expression compiles exactly when it is well formed; otherwise the error
   * names an operator tag of the tree that is not one of the ten.
   */
  lemma {:induction false} ExprCompiles(st: CState, e: Expression)
    ensures CompileExpr(st, e).Ok? <==> WellFormedExpr(e)
    ensures CompileExpr(st, e).Err? ==> !IsOperator(CompileExpr(st, e).error.op)
    decreases e
  {
    match e
    case BinaryExpression(a, op, b) =>
      ExprCompiles(st, a);
      if CompileExpr(st, a).Ok? {
        var left := CompileExpr(st, a).value;
        ExprCompiles(left.after, b);
        if CompileExpr(left.after, b).Ok? {
          var right := CompileExpr(left.after, b).value;
          OperatorKnown(op, right.operand, right.after.labelCount);
        }
      }
    case _ =>
  }

  /** A statement compiles exactly when it is well formed; the error again names a stray tag. */
  lemma {:induction false} StmtCompiles(st: CState, s: Statement)
    ensures CompileStmt(st, s).Ok? <==> WellFormedStmt(s)
    ensures CompileStmt(st, s).Err? ==> !IsOperator(CompileStmt(st, s).error.op)
    decreases s, 1
  {
    match s
    case Assignment(_, e) =>
      ExprCompiles(st, e);
    case PrintStatement(e) =>
      ExprCompiles(st, e);
    case IfStatement(c, t, el) =>
      IfCompiles(st, c, t, el);
    case WhileStatement(c, b) =>
      WhileCompiles(st, c, b);
    case BlockStatement(b) =>
      ListCompiles(st, b.statements);
  }

  lemma {:induction false} IfCompiles(st: CState, c: Expression, t: Block, el: Option<Block>)
    ensures CompileStmt(st, IfStatement(c, t, el)).Ok? <==> WellFormedStmt(IfStatement(c, t, el))
    ensures CompileStmt(st, IfStatement(c, t, el)).Err? ==> !IsOperator(CompileStmt(st, IfStatement(c, t, el)).error.op)
    decreases IfStatement(c, t, el), 0
  {
    ExprCompiles(st, c);
    if CompileExpr(st, c).Ok? {
      var cond := CompileExpr(st, c).value;
      var n := cond.after.labelCount;
      var head := Append(cond.after.(labelCount := n + 2), ["    cmp " + cond.operand + ", 0", "    je " + Label(n + 1)]);
      ListCompiles(head, t.statements);
      if CompileList(head, t.statements).Ok? {
        var mid := Append(CompileList(head, t.statements).value, ["    jmp " + Label(n + 2), Label(n + 1) + ":"]);
        ElseCompiles(mid, el);
        if CompileElse(mid, el).Ok? {
          assert CompileStmt(st, IfStatement(c, t, el)) == Ok(Append(CompileElse(mid, el).value, [Label(n + 2) + ":"]));
        } else {
          assert CompileStmt(st, IfStatement(c, t, el)) == Err(CompileElse(mid, el).error);
        }
      } else {
        assert CompileStmt(st, IfStatement(c, t, el)) == Err(CompileList(head, t.statements).error);
      }
    }
  }

  lemma {:induction false} WhileCompiles(st: CState, c: Expression, b: Block)
    ensures CompileStmt(st, WhileStatement(c, b)).Ok? <==> WellFormedStmt(WhileStatement(c, b))
    ensures CompileStmt(st, WhileStatement(c, b)).Err? ==> !IsOperator(CompileStmt(st, WhileStatement(c, b)).error.op)
    decreases WhileStatement(c, b), 0
  {
    var n := st.labelCount;
    var top := Append(st.(labelCount := n + 2), [Label(n + 1) + ":"]);
    ExprCompiles(top, c);
    if CompileExpr(top, c).Ok? {
      var cond := CompileExpr(top, c).value;
      var head := Append(cond.after, ["    cmp " + cond.operand + ", 0", "    je " + Label(n + 2)]);
      ListCompiles(head, b.statements);
      if CompileList(head, b.statements).Ok? {
        assert CompileStmt(st, WhileStatement(c, b)) == Ok(Append(CompileList(head, b.statements).value, ["    jmp " + Label(n + 1), Label(n + 2) + ":"]));
      } else {
        assert CompileStmt(st, WhileStatement(c, b)) == Err(CompileList(head, b.statements).error);
      }
    }
  }

  lemma {:induction false} ElseCompiles(st: CState, el: Option<Block>)
    ensures CompileElse(st, el).Ok? <==> (el.Some? ==> WellFormedBlock(el.value))
    ensures CompileElse(st, el).Err? ==> !IsOperator(CompileElse(st, el).error.op)
    decreases el, 1
  {
    if el.Some? {
      ListCompiles(st, el.value.statements);
    }
  }

  lemma {:induction false} ListCompiles(st: CState, ss: seq<Statement>)
    ensures CompileList(st, ss).Ok? <==> AllWellFormed(ss)
    ensures CompileList(st, ss).Err? ==> !IsOperator(CompileList(st, ss).error.op)
    decreases ss
  {
    if ss != [] {
      StmtCompiles(st, ss[0]);
      assert AllWellFormed(ss) <==> WellFormedStmt(ss[0]) && AllWellFormed(ss[1..]) by {
        if WellFormedStmt(ss[0]) && AllWellFormed(ss[1..]) {
          forall i | 0 <= i < |ss| ensures WellFormedStmt(ss[i]) {
            if i > 0 {
              assert ss[i] == ss[1..][i - 1];
            }
          }
        }
      }
      if CompileStmt(st, ss[0]).Ok? {
        ListCompiles(CompileStmt(st, ss[0]).value, ss[1..]);
      }
    }
  }

  /** Compile never reaches its operator panic on a well-formed program, whatever the system. */
  lemma ProgramCompiles(st: CState, os: string, p: Program)
    ensures CompileProgram(st, os, p).Ok? <==> AllWellFormed(p.statements)
  {
    ListCompiles(Append(st, Prologue(os)), p.statements);
  }

  // ---------------------------------------------------------------------------
  // Statement sequences compile piece by piece
  // ---------------------------------------------------------------------------

  /**
   * Compiling ss + ts is compiling ss and then ts from where ss left off: the
   * lines of each statement follow those of the statements before it, in order.
   */
  lemma {:induction false} ListConcat(st: CState, ss: seq<Statement>, ts: seq<Statement>)
    ensures CompileList(st, ss + ts)
         == match CompileList(st, ss)
            case Ok(mid) => CompileList(mid, ts)
            case Err(e) => Err(e)
    decreases ss
  {
    if ss != [] {
      assert (ss + ts)[0] == ss[0];
      assert (ss + ts)[1..] == ss[1..] + ts;
      if CompileStmt(st, ss[0]).Ok? {
        ListConcat(CompileStmt(st, ss[0]).value, ss[1..], ts);
      }
    } else {
      assert ss + ts == ts;
    }
  }

  // ---------------------------------------------------------------------------
  // Label counts
  // ---------------------------------------------------------------------------

  /** The binary nodes of e whose operator is k. */
  function OpCount(e: Expression, k: TokenKind): nat {
    match e
    case BinaryExpression(a, op, b) => OpCount(a, k) + OpCount(b, k) + (if op == k then 1 else 0)
    case _ => 0
  }

  /** The binary nodes with operator k in the expressions of s. */
  function StmtOpCount(s: Statement, k: TokenKind): nat
    decreases s, 1
  {
    match s
    case Assignment(_, e) => OpCount(e, k)
    case PrintStatement(e) => OpCount(e, k)
    case IfStatement(c, t, el) => OpCount(c, k) + ListOpCount(t.statements, k) + ElseOpCount(el, k)
    case WhileStatement(c, b) => OpCount(c, k) + ListOpCount(b.statements, k)
    case BlockStatement(b) => ListOpCount(b.statements, k)
  }

  function ElseOpCount(el: Option<Block>, k: TokenKind): nat
    decreases el, 1
  {
    match el
    case None => 0
    case Some(b) => ListOpCount(b.statements, k)
  }

  function ListOpCount(ss: seq<Statement>, k: TokenKind): nat
    decreases ss
  {
    if ss == [] then 0 else StmtOpCount(ss[0], k) + ListOpCount(ss[1..], k)
  }

  /** The if and while statements in s, s itself included. */
  function Conditionals(s: Statement): nat
    decreases s, 1
  {
    match s
    case IfStatement(_, t, el) => 1 + ListConditionals(t.statements) + ElseConditionals(el)
    case WhileStatement(_, b) => 1 + ListConditionals(b.statements)
    case BlockStatement(b) => ListConditionals(b.statements)
    case _ => 0
  }

  function ElseConditionals(el: Option<Block>): nat
    decreases el, 1
  {
    match el
    case None => 0
    case Some(b) => ListConditionals(b.statements)
  }

  function ListConditionals(ss: seq<Statement>): nat
    decreases ss
  {
    if ss == [] then 0 else Conditionals(ss[0]) + ListConditionals(ss[1..])
  }

  /** An expression takes one label per '&&' and two per '||'. */
  lemma {:induction false} ExprLabelCount(st: CState, e: Expression)
    requires CompileExpr(st, e).Ok?
    ensures CompileExpr(st, e).value.after.labelCount == st.labelCount + OpCount(e, And) + 2 * OpCount(e, Or)
    decreases e
  {
    match e
    case BinaryExpression(a, op, b) =>
      ExprLabelCount(st, a);
      ExprLabelCount(CompileExpr(st, a).value.after, b);
    case _ =>
  }

  /** A statement takes two labels per if and while, one per '&&' and two per '||'. */
  lemma {:induction false} StmtLabelCount(st: CState, s: Statement)
    requires CompileStmt(st, s).Ok?
    ensures CompileStmt(st, s).value.labelCount
         == st.labelCount + 2 * Conditionals(s) + StmtOpCount(s, And) + 2 * StmtOpCount(s, Or)
    decreases s, 1
  {
    match s
    case Assignment(_, e) =>
      ExprLabelCount(st, e);
    case PrintStatement(e) =>
      ExprLabelCount(st, e);
    case IfStatement(c, t, el) =>
      IfLabelCount(st, c, t, el);
    case WhileStatement(c, b) =>
      WhileLabelCount(st, c, b);
    case BlockStatement(b) =>
      ListLabelCount(st, b.statements);
  }

  lemma {:induction false} IfLabelCount(st: CState, c: Expression, t: Block, el: Option<Block>)
    requires CompileStmt(st, IfStatement(c, t, el)).Ok?
    ensures var s := IfStatement(c, t, el);
      CompileStmt(st, s).value.labelCount
      == st.labelCount + 2 * Conditionals(s) + StmtOpCount(s, And) + 2 * StmtOpCount(s, Or)
    decreases IfStatement(c, t, el), 0
  {
    var cond := CompileExpr(st, c).value;
    var n := cond.after.labelCount;
    var head := Append(cond.after.(labelCount := n + 2), ["    cmp " + cond.operand + ", 0", "    je " + Label(n + 1)]);
    var thenDone := CompileList(head, t.statements).value;
    var mid := Append(thenDone, ["    jmp " + Label(n + 2), Label(n + 1) + ":"]);
    var elseDone := CompileElse(mid, el).value;
    assert CompileStmt(st, IfStatement(c, t, el)) == Ok(Append(elseDone, [Label(n + 2) + ":"]));
    ExprLabelCount(st, c);
    ListLabelCount(head, t.statements);
    ElseLabelCount(mid, el);
  }

  lemma {:induction false} WhileLabelCount(st: CState, c: Expression, b: Block)
    requires CompileStmt(st, WhileStatement(c, b)).Ok?
    ensures var s := WhileStatement(c, b);
      CompileStmt(st, s).value.labelCount
      == st.labelCount + 2 * Conditionals(s) + StmtOpCount(s, And) + 2 * StmtOpCount(s, Or)
    decreases WhileStatement(c, b), 0
  {
    var n := st.labelCount;
    var top := Append(st.(labelCount := n + 2), [Label(n + 1) + ":"]);
    var cond := CompileExpr(top, c).value;
    var head := Append(cond.after, ["    cmp " + cond.operand + ", 0", "    je " + Label(n + 2)]);
    var bodyDone := CompileList(head, b.statements).value;
    assert CompileStmt(st, WhileStatement(c, b)) == Ok(Append(bodyDone, ["    jmp " + Label(n + 1), Label(n + 2) + ":"]));
    ExprLabelCount(top, c);
    ListLabelCount(head, b.statements);
  }

  lemma {:induction false} ElseLabelCount(st: CState, el: Option<Block>)
    requires CompileElse(st, el).Ok?
    ensures CompileElse(st, el).value.labelCount
         == st.labelCount + 2 * ElseConditionals(el) + ElseOpCount(el, And) + 2 * ElseOpCount(el, Or)
    decreases el, 1
  {
    if el.Some? {
      ListLabelCount(st, el.value.statements);
    }
  }

  lemma {:induction false} ListLabelCount(st: CState, ss: seq<Statement>)
    requires CompileList(st, ss).Ok?
    ensures CompileList(st, ss).value.labelCount
         == st.labelCount + 2 * ListConditionals(ss) + ListOpCount(ss, And) + 2 * ListOpCount(ss, Or)
    decreases ss
  {
    if ss != [] {
      StmtLabelCount(st, ss[0]);
      ListLabelCount(CompileStmt(st, ss[0]).value, ss[1..]);
    }
  }

  /**
   * On a fresh compiler the final label counter is 2 * (ifs + whiles) + ands +
   * 2 * ors of the whole program.
   */
  lemma ProgramLabelCount(os: string, p: Program)
    requires CompileProgram(Initial, os, p).Ok?
    ensures CompileProgram(Initial, os, p).value.labelCount
         == 2 * ListConditionals(p.statements) + ListOpCount(p.statements, And) + 2 * ListOpCount(p.statements, Or)
  {
    ListLabelCount(Append(Initial, Prologue(os)), p.statements);
  }

  // ---------------------------------------------------------------------------
  // Slots: dense, in the order names are first assigned
  // ---------------------------------------------------------------------------

  predicate Distinct(names: seq<string>) {
    forall i, j :: 0 <= i < j < |names| ==> names[i] != names[j]
  }

  /** The slot map that gives the i-th name slot i. */
  function SlotsOf(names: seq<string>): map<string, nat>
    decreases |names|
  {
    if names == [] then map[]
    else SlotsOf(names[..|names| - 1])[names[|names| - 1] := |names| - 1]
  }

  /** For distinct names, SlotsOf holds exactly those names, the i-th at slot i. */
  lemma {:induction false} SlotsShape(names: seq<string>)
    requires Distinct(names)
    ensures forall x :: x in SlotsOf(names) <==> x in names
    ensures forall i :: 0 <= i < |names| ==> SlotsOf(names)[names[i]] == i
    ensures |SlotsOf(names)| == |names|
    decreases |names|
  {
    if names != [] {
      var init := names[..|names| - 1];
      SlotsShape(init);
      assert forall x :: x in names <==> x in init || x == names[|names| - 1];
      assert names[|names| - 1] !in init;
    }
  }

  /** The names s assigns, in the order the walk first meets them, after those in seen. */
  function StmtNames(seen: seq<string>, s: Statement): seq<string>
    decreases s, 1
  {
    match s
    case Assignment(x, _) => if x in seen then seen else seen + [x]
    case PrintStatement(_) => seen
    case IfStatement(_, t, el) => ElseNames(ListNames(seen, t.statements), el)
    case WhileStatement(_, b) => ListNames(seen, b.statements)
    case BlockStatement(b) => ListNames(seen, b.statements)
  }

  function ElseNames(seen: seq<string>, el: Option<Block>): seq<string>
    decreases el, 1
  {
    match el
    case None => seen
    case Some(b) => ListNames(seen, b.statements)
  }

  function ListNames(seen: seq<string>, ss: seq<Statement>): seq<string>
    decreases ss
  {
    if ss == [] then seen else ListNames(StmtNames(seen, ss[0]), ss[1..])
  }

  /** The slots of a state are those of a list of distinct names. */
  ghost predicate SlotsFollow(st: CState, names: seq<string>) {
    Distinct(names) && st.variables == SlotsOf(names)
  }

  /** An assignment gives a name met for the first time the next slot and leaves a known one alone. */
  lemma AssignSlot(names: seq<string>, x: string)
    requires Distinct(names)
    ensures var next := if x in names then names else names + [x];
      Distinct(next) && WithSlot(SlotsOf(names), x) == SlotsOf(next)
  {
    SlotsShape(names);
    if x !in names {
      assert (names + [x])[..|names|] == names;
    }
  }

  lemma {:induction false} StmtSlots(st: CState, s: Statement, names: seq<string>)
    requires SlotsFollow(st, names) && CompileStmt(st, s).Ok?
    ensures SlotsFollow(CompileStmt(st, s).value, StmtNames(names, s))
    decreases s, 1
  {
    match s
    case Assignment(x, e) =>
      var value := CompileExpr(st, e).value;
      assert CompileStmt(st, s).value.variables == WithSlot(value.after.variables, x);
      AssignSlot(names, x);
    case PrintStatement(e) =>
    case IfStatement(c, t, el) =>
      IfSlots(st, c, t, el, names);
    case WhileStatement(c, b) =>
      WhileSlots(st, c, b, names);
    case BlockStatement(b) =>
      ListSlots(st, b.statements, names);
  }

  lemma {:induction false} IfSlots(st: CState, c: Expression, t: Block, el: Option<Block>, names: seq<string>)
    requires SlotsFollow(st, names) && CompileStmt(st, IfStatement(c, t, el)).Ok?
    ensures SlotsFollow(CompileStmt(st, IfStatement(c, t, el)).value, StmtNames(names, IfStatement(c, t, el)))
    decreases IfStatement(c, t, el), 0
  {
    var cond := CompileExpr(st, c).value;
    var n := cond.after.labelCount;
    var head := Append(cond.after.(labelCount := n + 2), ["    cmp " + cond.operand + ", 0", "    je " + Label(n + 1)]);
    var thenDone := CompileList(head, t.statements).value;
    var mid := Append(thenDone, ["    jmp " + Label(n + 2), Label(n + 1) + ":"]);
    var elseDone := CompileElse(mid, el).value;
    assert CompileStmt(st, IfStatement(c, t, el)) == Ok(Append(elseDone, [Label(n + 2) + ":"]));
    ListSlots(head, t.statements, names);
    ElseSlots(mid, el, ListNames(names, t.statements));
  }

  lemma {:induction false} WhileSlots(st: CState, c: Expression, b: Block, names: seq<string>)
    requires SlotsFollow(st, names) && CompileStmt(st, WhileStatement(c, b)).Ok?
    ensures SlotsFollow(CompileStmt(st, WhileStatement(c, b)).value, StmtNames(names, WhileStatement(c, b)))
    decreases WhileStatement(c, b), 0
  {
    var n := st.labelCount;
    var top := Append(st.(labelCount := n + 2), [Label(n + 1) + ":"]);
    var cond := CompileExpr(top, c).value;
    var head := Append(cond.after, ["    cmp " + cond.operand + ", 0", "    je " + Label(n + 2)]);
    var bodyDone := CompileList(head, b.statements).value;
    assert CompileStmt(st, WhileStatement(c, b)) == Ok(Append(bodyDone, ["    jmp " + Label(n + 1), Label(n + 2) + ":"]));
    ListSlots(head, b.statements, names);
  }

  lemma {:induction false} ElseSlots(st: CState, el: Option<Block>, names: seq<string>)
    requires SlotsFollow(st, names) && CompileElse(st, el).Ok?
    ensures SlotsFollow(CompileElse(st, el).value, ElseNames(names, el))
    decreases el, 1
  {
    if el.Some? {
      ListSlots(st, el.value.statements, names);
    }
  }

  lemma {:induction false} ListSlots(st: CState, ss: seq<Statement>, names: seq<string>)
    requires SlotsFollow(st, names) && CompileList(st, ss).Ok?
    ensures SlotsFollow(CompileList(st, ss).value, ListNames(names, ss))
    decreases ss
  {
    if ss != [] {
      StmtSlots(st, ss[0], names);
      ListSlots(CompileStmt(st, ss[0]).value, ss[1..], StmtNames(names, ss[0]));
    }
  }

  /**
   * After compiling a program on a fresh compiler, the slots are dense and in
   * first-assignment order: the i-th distinct name the walk assigns has slot i,
   * and no other name has one.
   */
  lemma ProgramSlots(os: string, p: Program)
    requires CompileProgram(Initial, os, p).Ok?
    ensures var names := ListNames([], p.statements);
      var vars := CompileProgram(Initial, os, p).value.variables;
      && Distinct(names)
      && (forall x :: x in vars <==> x in names)
      && (forall i :: 0 <= i < |names| ==> vars[names[i]] == i)
  {
    ListSlots(Append(Initial, Prologue(os)), p.statements, []);
    SlotsShape(ListNames([], p.statements));
  }
}
