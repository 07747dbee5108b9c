/**
 * What the parser of parser.go promises, stated for every token sequence:
 * it inverts a printer that writes a syntax tree back as tokens with the
 * fewest parentheses the precedence chain needs. From that one theorem follow
 * the precedence of the six operator levels, left associativity within a
 * level, parentheses that make no node, the else branch attaching to its
 * if, nested blocks, and statements kept in order.
 *
 * The proofs go in two halves. Printed, PrintedStmt, PrintedBlock and
 * PrintedList say, token by token, that a sequence holds the printing of a
 * tree at a position; the parser is proved to read back any tree so laid
 * out. The printer is then shown to lay its trees out that way.
 */
module ParsingProofs {
  import opened Wrappers
  import opened Lexing
  import opened Ast
  import opened Parsing
  import Decimal

  /** The token of a keyword or operator kind, carrying its fixed spelling. */
  function Punct(k: TokenKind): Token {
    Token(k, Spelling(k))
  }

  // ---------------------------------------------------------------------------
  // The printer
  // ---------------------------------------------------------------------------

  /** The trees the parser can build: binary expressions carry known operators. */
  predicate Printable(e: Expression) {
    match e
    case BinaryExpression(l, op, r) => IsBinaryOperator(op) && Printable(l) && Printable(r)
    case _ => true
  }

  /** The level of the precedence chain that builds e. */
  function Level(e: Expression): nat {
    if e.BinaryExpression? then Precedence(e.op) else PrimaryLevel
  }

  /** How many tokens ExprTokens(e, level) has. */
  function Width(e: Expression, level: nat): (w: nat)
    ensures w >= 1
    decreases e, if Level(e) < level then 1 else 0
  {
    if Level(e) < level then Width(e, 0) + 2
    else
      match e
      case BinaryExpression(l, _, r) => Width(l, Level(e)) + 1 + Width(r, Level(e) + 1)
      case _ => 1
  }

  /**
   * The tokens of e as an operand at the given level: parenthesised when e binds
   * more loosely than the level, with the left operand of an operator printed at
   * the operator's own level and the right one a level tighter.
   */
  function ExprTokens(e: Expression, level: nat): (ts: seq<Token>)
    ensures |ts| == Width(e, level)
    decreases e, if Level(e) < level then 1 else 0
  {
    if Level(e) < level then [Punct(LParen)] + ExprTokens(e, 0) + [Punct(RParen)]
    else
      match e
      case NumberLiteral(n) => [Token(Number, Decimal.IntText(n))]
      case StringLiteral(s) => [Token(Str, s)]
      case BooleanLiteral(b) => [Punct(if b then KwTrue else KwFalse)]
      case Identifier(x) => [Token(Ident, x)]
      case BinaryExpression(l, op, r) =>
        ExprTokens(l, Level(e)) + [Punct(op)] + ExprTokens(r, Level(e) + 1)
  }

  /** The statements the parser can build: a bare block is never one of them. */
  predicate PrintableStmt(s: Statement)
    decreases s, 1
  {
    match s
    case Assignment(_, e) => Printable(e)
    case PrintStatement(e) => Printable(e)
    case IfStatement(c, t, el) => Printable(c) && PrintableBlock(t) && (el.Some? ==> PrintableBlock(el.value))
    case WhileStatement(c, b) => Printable(c) && PrintableBlock(b)
    case BlockStatement(_) => false
  }

  predicate PrintableBlock(b: Block)
    decreases b, 0
  {
    PrintableList(b.statements)
  }

  predicate PrintableList(ss: seq<Statement>)
    decreases ss
  {
    forall i :: 0 <= i < |ss| ==> PrintableStmt(ss[i])
  }

  function StmtWidth(s: Statement): (w: nat)
    ensures w >= 1
    decreases s, 1
  {
    match s
    case Assignment(_, e) => 3 + Width(e, 0)
    case PrintStatement(e) => 2 + Width(e, 0)
    case IfStatement(c, t, el) =>
      3 + Width(c, 0) + BlockWidth(t) + ElseWidth(el)
    case WhileStatement(c, b) => 3 + Width(c, 0) + BlockWidth(b)
    case BlockStatement(b) => BlockWidth(b)
  }

  /** The width of an if's else part: 'else' and its block, or nothing. */
  function ElseWidth(el: Option<Block>): nat
    decreases el, 1
  {
    if el.Some? then 1 + BlockWidth(el.value) else 0
  }

  function BlockWidth(b: Block): nat
    decreases b, 0
  {
    ListWidth(b.statements) + 2
  }

  function ListWidth(ss: seq<Statement>): nat
    decreases ss
  {
    if ss == [] then 0 else StmtWidth(ss[0]) + ListWidth(ss[1..])
  }

  function StmtTokens(s: Statement): (ts: seq<Token>)
    ensures |ts| == StmtWidth(s)
    decreases s, 1
  {
    match s
    case Assignment(x, e) =>
      [Token(Ident, x), Punct(Assign)] + ExprTokens(e, 0) + [Punct(Semicolon)]
    case PrintStatement(e) =>
      [Punct(KwPrint)] + ExprTokens(e, 0) + [Punct(Semicolon)]
    case IfStatement(c, t, el) =>
      [Punct(KwIf), Punct(LParen)] + ExprTokens(c, 0) + [Punct(RParen)] + BlockTokens(t) + ElseTokens(el)
    case WhileStatement(c, b) =>
      [Punct(KwWhile), Punct(LParen)] + ExprTokens(c, 0) + [Punct(RParen)] + BlockTokens(b)
    case BlockStatement(b) => BlockTokens(b)
  }

  /** The tokens after an if's then-block: 'else' and the else block exactly when there is one. */
  function ElseTokens(el: Option<Block>): (ts: seq<Token>)
    ensures |ts| == ElseWidth(el)
    decreases el, 0
  {
    if el.Some? then [Punct(KwElse)] + BlockTokens(el.value) else []
  }

  function BlockTokens(b: Block): (ts: seq<Token>)
    ensures |ts| == BlockWidth(b)
    decreases b, 0
  {
    [Punct(LBrace)] + StmtsTokens(b.statements) + [Punct(RBrace)]
  }

  function StmtsTokens(ss: seq<Statement>): (ts: seq<Token>)
    ensures |ts| == ListWidth(ss)
    decreases ss
  {
    if ss == [] then [] else StmtTokens(ss[0]) + StmtsTokens(ss[1..])
  }

  /** The source text of a program as tokens, ending in the end-of-input token. */
  function ProgramTokens(p: Program): (ts: seq<Token>)
    ensures Terminated(ts)
  {
    StmtsTokens(p.statements) + [Token(Eof, "")]
  }

  // ---------------------------------------------------------------------------
  // Layouts: a tree printed into a token sequence at a position
  // ---------------------------------------------------------------------------

  /** toks holds ExprTokens(e, level) starting at pos, told token by token. */
  predicate Printed(toks: seq<Token>, e: Expression, level: nat, pos: nat)
    decreases e, if Level(e) < level then 1 else 0
  {
    && pos + Width(e, level) <= |toks|
    && if Level(e) < level then
         && toks[pos].kind == LParen
         && Printed(toks, e, 0, pos + 1)
         && toks[pos + 1 + Width(e, 0)].kind == RParen
       else
         match e
         case NumberLiteral(n) => toks[pos] == Token(Number, Decimal.IntText(n))
         case StringLiteral(s) => toks[pos] == Token(Str, s)
         case BooleanLiteral(b) => toks[pos].kind == (if b then KwTrue else KwFalse)
         case Identifier(x) => toks[pos] == Token(Ident, x)
         case BinaryExpression(l, op, r) =>
           && IsBinaryOperator(op)
           && Printed(toks, l, Level(e), pos)
           && toks[pos + Width(l, Level(e))].kind == op
           && Printed(toks, r, Level(e) + 1, pos + Width(l, Level(e)) + 1)
  }

  predicate PrintedStmt(toks: seq<Token>, s: Statement, pos: nat)
    decreases s, 1
  {
    && pos + StmtWidth(s) <= |toks|
    && match s
       case Assignment(x, e) =>
         && toks[pos] == Token(Ident, x) && toks[pos + 1].kind == Assign
         && Printed(toks, e, 0, pos + 2) && toks[pos + 2 + Width(e, 0)].kind == Semicolon
       case PrintStatement(e) =>
         && toks[pos].kind == KwPrint
         && Printed(toks, e, 0, pos + 1) && toks[pos + 1 + Width(e, 0)].kind == Semicolon
       case IfStatement(c, t, el) =>
         && toks[pos].kind == KwIf && toks[pos + 1].kind == LParen
         && Printed(toks, c, 0, pos + 2) && toks[pos + 2 + Width(c, 0)].kind == RParen
         && PrintedBlock(toks, t, pos + 3 + Width(c, 0))
         && PrintedElse(toks, el, pos + 3 + Width(c, 0) + BlockWidth(t))
       case WhileStatement(c, b) =>
         && toks[pos].kind == KwWhile && toks[pos + 1].kind == LParen
         && Printed(toks, c, 0, pos + 2) && toks[pos + 2 + Width(c, 0)].kind == RParen
         && PrintedBlock(toks, b, pos + 3 + Width(c, 0))
       case BlockStatement(_) => false
  }

  predicate PrintedElse(toks: seq<Token>, el: Option<Block>, pos: nat)
    decreases el, 0
  {
    el.Some? ==> pos < |toks| && toks[pos].kind == KwElse && PrintedBlock(toks, el.value, pos + 1)
  }

  predicate PrintedBlock(toks: seq<Token>, b: Block, pos: nat)
    decreases b, 0
  {
    && pos + BlockWidth(b) <= |toks|
    && toks[pos].kind == LBrace
    && PrintedList(toks, b.statements, pos + 1)
    && toks[pos + 1 + ListWidth(b.statements)].kind == RBrace
  }

  predicate PrintedList(toks: seq<Token>, ss: seq<Statement>, pos: nat)
    decreases ss
  {
    && pos + ListWidth(ss) <= |toks|
    && (ss != [] ==> PrintedStmt(toks, ss[0], pos) && PrintedList(toks, ss[1..], pos + StmtWidth(ss[0])))
  }

  // ---------------------------------------------------------------------------
  // The parser reads back what is laid out
  // ---------------------------------------------------------------------------

  /** The token after an operand printed at level does not extend it: no operator of a tighter level. */
  predicate Closes(toks: seq<Token>, pos: nat, level: nat)
    requires pos < |toks|
  {
    Precedence(toks[pos].kind) <= level || Precedence(toks[pos].kind) == PrimaryLevel
  }

  /** What ExprAt gives once the operand e has been read up to end. */
  function Finish(toks: seq<Token>, level: nat, e: Expression, end: nat): Parsed<Expression>
    requires Terminated(toks) && end < |toks| && level <= PrimaryLevel
  {
    if level == PrimaryLevel then Parsed(e, end) else FoldLevel(toks, level, e, end)
  }

  /** A primary followed by no tighter operator passes up the chain unchanged. */
  lemma {:induction false} Ascend(toks: seq<Token>, level: nat, pos: nat, e: Expression, end: nat)
    requires Terminated(toks) && pos < |toks| && end < |toks| && level <= PrimaryLevel
    requires PrimaryAt(toks, pos) == Parsed(e, end) && Closes(toks, end, level)
    ensures ExprAt(toks, level, pos) == Finish(toks, level, e, end)
    decreases PrimaryLevel - level
  {
    if level < PrimaryLevel {
      Ascend(toks, level + 1, pos, e, end);
    }
  }

  /** A literal or identifier token is read by the primary level as itself. */
  lemma AtomStep(toks: seq<Token>, level: nat, pos: nat, e: Expression)
    requires Terminated(toks) && !e.BinaryExpression? && level <= PrimaryLevel
    requires Printed(toks, e, level, pos)
    ensures pos < |toks| && PrimaryAt(toks, pos) == Parsed(e, pos + 1)
  {
    if e.NumberLiteral? {
      Decimal.AtoiIntText(e.value);
    }
  }

  /** A parenthesised operand is read by the primary level, which makes no node for the parentheses. */
  lemma ParenStep(toks: seq<Token>, pos: nat, e: Expression, close: nat)
    requires Terminated(toks) && pos < close < |toks|
    requires toks[pos].kind == LParen && toks[close].kind == RParen
    requires ExprAt(toks, 0, pos + 1) == FoldLevel(toks, 0, e, close)
    ensures PrimaryAt(toks, pos) == Parsed(e, close + 1)
  {
    assert FoldLevel(toks, 0, e, close) == Parsed(e, close);
  }

  /** An operand already complete at a tighter level is complete at this one. */
  lemma RaiseStep(toks: seq<Token>, level: nat, pos: nat, e: Expression, end: nat)
    requires Terminated(toks) && pos < |toks| && end < |toks| && level + 1 < PrimaryLevel
    requires ExprAt(toks, level + 1, pos) == FoldLevel(toks, level + 1, e, end)
    requires Closes(toks, end, level)
    ensures ExprAt(toks, level, pos) == FoldLevel(toks, level, e, end)
  {
    assert FoldLevel(toks, level + 1, e, end) == Parsed(e, end);
  }

  /**
   * One turn of a level's loop: a left operand read up to the operator at mid
   * and a right operand read at the next level join into e.
   */
  lemma FoldStep(toks: seq<Token>, level: nat, tighter: nat, pos: nat, mid: nat, start: nat, e: Expression, end: nat)
    requires Terminated(toks) && pos <= mid && start == mid + 1 && start <= end < |toks|
    requires level < PrimaryLevel && tighter == level + 1
    requires e.BinaryExpression? && toks[mid].kind == e.op && Precedence(e.op) == level
    requires ExprAt(toks, level, pos) == Finish(toks, level, e.left, mid)
    requires ExprAt(toks, tighter, start) == Finish(toks, tighter, e.right, end)
    requires Closes(toks, end, level)
    ensures ExprAt(toks, level, pos) == Finish(toks, level, e, end)
  {
    if tighter < PrimaryLevel {
      assert FoldLevel(toks, tighter, e.right, end) == Parsed(e.right, end);
    }
    assert FoldLevel(toks, level, e.left, mid) == FoldLevel(toks, level, e, end);
  }

  /** What ExprRoundTrip assumes of the tokens at pos. */
  predicate ReadyAt(toks: seq<Token>, e: Expression, level: nat, pos: nat) {
    && Terminated(toks) && level <= PrimaryLevel
    && Printed(toks, e, level, pos) && pos + Width(e, level) < |toks|
    && Closes(toks, pos + Width(e, level), level)
  }

  /** The parser reads a printed expression back as itself, at every level of the chain. */
  lemma {:induction false} ExprRoundTrip(toks: seq<Token>, e: Expression, level: nat, pos: nat)
    requires ReadyAt(toks, e, level, pos)
    ensures ExprAt(toks, level, pos) == Finish(toks, level, e, pos + Width(e, level))
    decreases e, if Level(e) < level then 1 else 0, PrimaryLevel - level, 1
  {
    if Level(e) < level {
      ParenRoundTrip(toks, e, level, pos);
    } else if !e.BinaryExpression? {
      AtomRoundTrip(toks, e, level, pos);
    } else if Level(e) > level {
      RaiseRoundTrip(toks, e, level, pos);
    } else {
      JoinRoundTrip(toks, e, level, pos);
    }
  }

  lemma {:induction false} AtomRoundTrip(toks: seq<Token>, e: Expression, level: nat, pos: nat)
    requires ReadyAt(toks, e, level, pos) && !e.BinaryExpression?
    ensures ExprAt(toks, level, pos) == Finish(toks, level, e, pos + Width(e, level))
  {
    assert Width(e, level) == 1;
    AtomStep(toks, level, pos, e);
    Ascend(toks, level, pos, e, pos + 1);
  }

  lemma {:induction false} ParenRoundTrip(toks: seq<Token>, e: Expression, level: nat, pos: nat)
    requires ReadyAt(toks, e, level, pos) && Level(e) < level
    ensures ExprAt(toks, level, pos) == Finish(toks, level, e, pos + Width(e, level))
    decreases e, 1, PrimaryLevel - level, 0
  {
    var start := pos + 1;
    var close := start + Width(e, 0);
    var end := close + 1;
    assert ReadyAt(toks, e, 0, start);
    ExprRoundTrip(toks, e, 0, start);
    ParenStep(toks, pos, e, close);
    Ascend(toks, level, pos, e, end);
  }

  lemma {:induction false} RaiseRoundTrip(toks: seq<Token>, e: Expression, level: nat, pos: nat)
    requires ReadyAt(toks, e, level, pos) && e.BinaryExpression? && Level(e) > level
    ensures ExprAt(toks, level, pos) == Finish(toks, level, e, pos + Width(e, level))
    decreases e, 0, PrimaryLevel - level, 0
  {
    var tighter := level + 1;
    var end := pos + Width(e, level);
    assert Width(e, tighter) == Width(e, level);
    assert ReadyAt(toks, e, tighter, pos);
    ExprRoundTrip(toks, e, tighter, pos);
    assert Finish(toks, tighter, e, end) == FoldLevel(toks, tighter, e, end);
    RaiseStep(toks, level, pos, e, end);
    assert Finish(toks, level, e, end) == FoldLevel(toks, level, e, end);
  }

  lemma {:induction false} JoinRoundTrip(toks: seq<Token>, e: Expression, level: nat, pos: nat)
    requires ReadyAt(toks, e, level, pos) && e.BinaryExpression? && Level(e) == level
    ensures ExprAt(toks, level, pos) == Finish(toks, level, e, pos + Width(e, level))
    decreases e, 0, PrimaryLevel - level, 0
  {
    var mid := pos + Width(e.left, level);
    var tighter, start := level + 1, mid + 1;
    var end := pos + Width(e, level);
    JoinLayout(toks, e, level, pos, mid, end);
    ExprRoundTrip(toks, e.left, level, pos);
    ExprRoundTrip(toks, e.right, tighter, start);
    FoldStep(toks, level, tighter, pos, mid, start, e, end);
  }

  /** The two operands of a laid-out binary expression, each ready at its own level. */
  lemma JoinLayout(toks: seq<Token>, e: Expression, level: nat, pos: nat, mid: nat, end: nat)
    requires ReadyAt(toks, e, level, pos) && e.BinaryExpression? && Level(e) == level
    requires mid == pos + Width(e.left, level) && end == pos + Width(e, level)
    ensures level < PrimaryLevel && Precedence(e.op) == level
    ensures pos <= mid && mid + 1 <= end < |toks| && toks[mid].kind == e.op
    ensures ReadyAt(toks, e.left, level, pos) && ReadyAt(toks, e.right, level + 1, mid + 1)
    ensures end == mid + 1 + Width(e.right, level + 1) && Closes(toks, end, level)
  {
  }

  /** e is laid out from start and closed at close by a token that is no operator. */
  predicate ExprLaidOut(toks: seq<Token>, e: Expression, start: nat, close: nat) {
    && Terminated(toks) && Printed(toks, e, 0, start)
    && close == start + Width(e, 0) && close < |toks|
    && Precedence(toks[close].kind) == PrimaryLevel
  }

  /** The precedence chain reads e from start, stopping at close. */
  predicate ExprReadAs(toks: seq<Token>, start: nat, e: Expression, close: nat) {
    Terminated(toks) && start < |toks| && ExprAt(toks, 0, start) == Parsed(e, close)
  }

  /** An expression laid out at the loosest level and closed by a token that is no operator is read whole. */
  lemma ExprComplete(toks: seq<Token>, e: Expression, start: nat, close: nat)
    requires ExprLaidOut(toks, e, start, close)
    ensures start < |toks|
    ensures ExprAt(toks, 0, start) == Parsed(e, close)
  {
    ExprRoundTrip(toks, e, 0, start);
    FinishLoosest(toks, e, close);
  }

  /** At the loosest level, a token that is no operator ends the expression. */
  lemma FinishLoosest(toks: seq<Token>, e: Expression, close: nat)
    requires Terminated(toks) && close < |toks| && Precedence(toks[close].kind) == PrimaryLevel
    ensures Finish(toks, 0, e, close) == Parsed(e, close)
  {
  }

  /** The kinds a statement can start with. */
  predicate StartsStatement(k: TokenKind) {
    k == Ident || k == KwPrint || k == KwIf || k == KwWhile
  }

  lemma StmtStart(toks: seq<Token>, s: Statement, pos: nat)
    requires PrintedStmt(toks, s, pos)
    ensures pos < |toks| && StartsStatement(toks[pos].kind)
  {
  }

  /** A laid-out statement, not followed by 'else'. */
  predicate StmtReadyAt(toks: seq<Token>, s: Statement, pos: nat) {
    && Terminated(toks) && PrintedStmt(toks, s, pos)
    && pos + StmtWidth(s) < |toks| && toks[pos + StmtWidth(s)].kind != KwElse
  }

  /** StatementAt reads s from pos, stopping at end. */
  predicate StmtReadAs(toks: seq<Token>, pos: nat, s: Statement, end: nat) {
    Terminated(toks) && pos < |toks| && StatementAt(toks, pos) == Parsed(Some(s), end)
  }

  /** A laid-out statement followed by anything but 'else' is parsed back as itself. */
  lemma {:induction false} StmtRoundTrip(toks: seq<Token>, s: Statement, pos: nat)
    requires StmtReadyAt(toks, s, pos)
    ensures StmtReadAs(toks, pos, s, pos + StmtWidth(s))
    decreases s, 2
  {
    match s
    case Assignment(_, _) => AssignmentRoundTrip(toks, s, pos);
    case PrintStatement(_) => PrintRoundTrip(toks, s, pos);
    case IfStatement(_, _, el) =>
      if el.None? {
        IfThenRoundTrip(toks, s, pos);
      } else {
        IfElseRoundTrip(toks, s, pos);
      }
    case WhileStatement(_, _) => WhileRoundTrip(toks, s, pos);
  }

  /** The parts of a laid-out assignment. */
  lemma AssignmentLayout(toks: seq<Token>, s: Statement, pos: nat, semi: nat)
    requires StmtReadyAt(toks, s, pos) && s.Assignment? && semi == pos + 2 + Width(s.value, 0)
    ensures toks[pos] == Token(Ident, s.target) && toks[pos + 1].kind == Assign
    ensures ExprLaidOut(toks, s.value, pos + 2, semi) && toks[semi].kind == Semicolon
    ensures semi + 1 == pos + StmtWidth(s)
  {
  }

  /** AssignmentAt on the result of its expression. */
  lemma AssignmentStep(toks: seq<Token>, pos: nat, s: Statement, semi: nat)
    requires s.Assignment? && semi + 1 < |toks| && ExprReadAs(toks, pos + 2, s.value, semi)
    requires toks[pos] == Token(Ident, s.target) && toks[pos + 1].kind == Assign && toks[semi].kind == Semicolon
    ensures StmtReadAs(toks, pos, s, semi + 1)
  {
    assert AssignmentAt(toks, pos) == Parsed(s, semi + 1);
  }

  lemma AssignmentRoundTrip(toks: seq<Token>, s: Statement, pos: nat)
    requires StmtReadyAt(toks, s, pos) && s.Assignment?
    ensures StmtReadAs(toks, pos, s, pos + StmtWidth(s))
  {
    var start := pos + 2;
    var semi := start + Width(s.value, 0);
    AssignmentLayout(toks, s, pos, semi);
    ExprComplete(toks, s.value, start, semi);
    AssignmentStep(toks, pos, s, semi);
  }

  /** The parts of a laid-out print statement. */
  lemma PrintLayout(toks: seq<Token>, s: Statement, pos: nat, semi: nat)
    requires StmtReadyAt(toks, s, pos) && s.PrintStatement? && semi == pos + 1 + Width(s.expr, 0)
    ensures toks[pos].kind == KwPrint
    ensures ExprLaidOut(toks, s.expr, pos + 1, semi) && toks[semi].kind == Semicolon
    ensures semi + 1 == pos + StmtWidth(s)
  {
  }

  /** PrintAt on the result of its expression. */
  lemma PrintStep(toks: seq<Token>, pos: nat, s: Statement, semi: nat)
    requires s.PrintStatement? && semi + 1 < |toks| && ExprReadAs(toks, pos + 1, s.expr, semi)
    requires toks[pos].kind == KwPrint && toks[semi].kind == Semicolon
    ensures StmtReadAs(toks, pos, s, semi + 1)
  {
    assert PrintAt(toks, pos) == Parsed(s, semi + 1);
  }

  lemma PrintRoundTrip(toks: seq<Token>, s: Statement, pos: nat)
    requires StmtReadyAt(toks, s, pos) && s.PrintStatement?
    ensures StmtReadAs(toks, pos, s, pos + StmtWidth(s))
  {
    var start := pos + 1;
    var semi := start + Width(s.expr, 0);
    PrintLayout(toks, s, pos, semi);
    ExprComplete(toks, s.expr, start, semi);
    PrintStep(toks, pos, s, semi);
  }

  /** The parts of a laid-out if statement without else. */
  lemma IfThenLayout(toks: seq<Token>, s: Statement, pos: nat, close: nat, end: nat)
    requires StmtReadyAt(toks, s, pos) && s.IfStatement? && s.elseBranch.None?
    requires close == pos + 2 + Width(s.cond, 0) && end == pos + StmtWidth(s)
    ensures toks[pos].kind == KwIf && toks[pos + 1].kind == LParen
    ensures ExprLaidOut(toks, s.cond, pos + 2, close) && toks[close].kind == RParen
    ensures BlockLaidOut(toks, s.thenBranch, close + 1, end) && toks[end].kind != KwElse
  {
    assert end == close + 1 + BlockWidth(s.thenBranch);
  }

  /** IfAt on the results of its parts, for an if without else. */
  lemma IfThenStep(toks: seq<Token>, pos: nat, s: Statement, close: nat, end: nat)
    requires s.IfStatement? && s.elseBranch.None? && ExprReadAs(toks, pos + 2, s.cond, close)
    requires toks[pos].kind == KwIf && toks[pos + 1].kind == LParen && toks[close].kind == RParen
    requires BlockReadAs(toks, close + 1, s.thenBranch, end) && toks[end].kind != KwElse
    ensures StmtReadAs(toks, pos, s, end)
  {
    assert IfAt(toks, pos) == Parsed(s, end);
  }

  lemma {:induction false} IfThenRoundTrip(toks: seq<Token>, s: Statement, pos: nat)
    requires StmtReadyAt(toks, s, pos) && s.IfStatement? && s.elseBranch.None?
    ensures StmtReadAs(toks, pos, s, pos + StmtWidth(s))
    decreases s, 1
  {
    var close := pos + 2 + Width(s.cond, 0);
    var end := pos + StmtWidth(s);
    IfThenLayout(toks, s, pos, close, end);
    ExprComplete(toks, s.cond, pos + 2, close);
    BlockRoundTrip(toks, s.thenBranch, close + 1, end);
    IfThenStep(toks, pos, s, close, end);
  }

  /** The parts of a laid-out if statement with an else block. */
  lemma IfElseLayout(toks: seq<Token>, s: Statement, pos: nat, close: nat, afterThen: nat, end: nat)
    requires StmtReadyAt(toks, s, pos) && s.IfStatement? && s.elseBranch.Some?
    requires close == pos + 2 + Width(s.cond, 0) && afterThen == close + 1 + BlockWidth(s.thenBranch)
    requires end == pos + StmtWidth(s)
    ensures toks[pos].kind == KwIf && toks[pos + 1].kind == LParen
    ensures ExprLaidOut(toks, s.cond, pos + 2, close) && toks[close].kind == RParen
    ensures BlockLaidOut(toks, s.thenBranch, close + 1, afterThen) && toks[afterThen].kind == KwElse
    ensures BlockLaidOut(toks, s.elseBranch.value, afterThen + 1, end)
  {
    assert PrintedElse(toks, s.elseBranch, afterThen);
  }

  /** IfAt on the results of its parts, for an if with an else block. */
  lemma IfElseStep(toks: seq<Token>, pos: nat, s: Statement, close: nat, afterThen: nat, end: nat)
    requires s.IfStatement? && s.elseBranch.Some? && ExprReadAs(toks, pos + 2, s.cond, close)
    requires toks[pos].kind == KwIf && toks[pos + 1].kind == LParen && toks[close].kind == RParen
    requires BlockReadAs(toks, close + 1, s.thenBranch, afterThen) && toks[afterThen].kind == KwElse
    requires BlockReadAs(toks, afterThen + 1, s.elseBranch.value, end)
    ensures StmtReadAs(toks, pos, s, end)
  {
    assert IfAt(toks, pos) == Parsed(s, end);
  }

  lemma {:induction false} IfElseRoundTrip(toks: seq<Token>, s: Statement, pos: nat)
    requires StmtReadyAt(toks, s, pos) && s.IfStatement? && s.elseBranch.Some?
    ensures StmtReadAs(toks, pos, s, pos + StmtWidth(s))
    decreases s, 1
  {
    var close := pos + 2 + Width(s.cond, 0);
    var afterThen := close + 1 + BlockWidth(s.thenBranch);
    var end := pos + StmtWidth(s);
    IfElseLayout(toks, s, pos, close, afterThen, end);
    ExprComplete(toks, s.cond, pos + 2, close);
    BlockRoundTrip(toks, s.thenBranch, close + 1, afterThen);
    BlockRoundTrip(toks, s.elseBranch.value, afterThen + 1, end);
    IfElseStep(toks, pos, s, close, afterThen, end);
  }

  /** The parts of a laid-out while statement. */
  lemma WhileLayout(toks: seq<Token>, s: Statement, pos: nat, close: nat, end: nat)
    requires StmtReadyAt(toks, s, pos) && s.WhileStatement?
    requires close == pos + 2 + Width(s.cond, 0) && end == pos + StmtWidth(s)
    ensures toks[pos].kind == KwWhile && toks[pos + 1].kind == LParen
    ensures ExprLaidOut(toks, s.cond, pos + 2, close) && toks[close].kind == RParen
    ensures BlockLaidOut(toks, s.body, close + 1, end)
  {
    assert end == close + 1 + BlockWidth(s.body);
  }

  /** WhileAt on the results of its parts. */
  lemma WhileStep(toks: seq<Token>, pos: nat, s: Statement, close: nat, end: nat)
    requires s.WhileStatement? && ExprReadAs(toks, pos + 2, s.cond, close)
    requires toks[pos].kind == KwWhile && toks[pos + 1].kind == LParen && toks[close].kind == RParen
    requires BlockReadAs(toks, close + 1, s.body, end)
    ensures StmtReadAs(toks, pos, s, end)
  {
    assert ExprAt(toks, 0, pos + 2) == Parsed(s.cond, close);
    assert BlockAt(toks, close + 1) == Parsed(s.body, end);
    assert WhileAt(toks, pos) == Parsed(WhileStatement(s.cond, s.body), end);
  }

  lemma {:induction false} WhileRoundTrip(toks: seq<Token>, s: Statement, pos: nat)
    requires StmtReadyAt(toks, s, pos) && s.WhileStatement?
    ensures StmtReadAs(toks, pos, s, pos + StmtWidth(s))
    decreases s, 1
  {
    var close := pos + 2 + Width(s.cond, 0);
    var end := pos + StmtWidth(s);
    WhileLayout(toks, s, pos, close, end);
    ExprComplete(toks, s.cond, pos + 2, close);
    BlockRoundTrip(toks, s.body, close + 1, end);
    WhileStep(toks, pos, s, close, end);
  }

  /** b is laid out from pos up to end, which is not the end of input. */
  predicate BlockLaidOut(toks: seq<Token>, b: Block, pos: nat, end: nat) {
    Terminated(toks) && PrintedBlock(toks, b, pos) && end == pos + BlockWidth(b) && end < |toks|
  }

  /** BlockAt reads b from pos, stopping at end. */
  predicate BlockReadAs(toks: seq<Token>, pos: nat, b: Block, end: nat) {
    Terminated(toks) && pos < |toks| && BlockAt(toks, pos) == Parsed(b, end)
  }

  /** A laid-out block is parsed back as itself. */
  lemma {:induction false} BlockRoundTrip(toks: seq<Token>, b: Block, pos: nat, end: nat)
    requires BlockLaidOut(toks, b, pos, end)
    ensures BlockReadAs(toks, pos, b, end)
    decreases b, 0
  {
    var close := pos + 1 + ListWidth(b.statements);
    BlockLayout(toks, b, pos, close, end);
    BodyRoundTrip(toks, b.statements, pos + 1, close, []);
    BlockStep(toks, pos, b, end);
  }

  /** The statements of a laid-out block, up to its closing brace at close. */
  lemma BlockLayout(toks: seq<Token>, b: Block, pos: nat, close: nat, end: nat)
    requires BlockLaidOut(toks, b, pos, end) && close == pos + 1 + ListWidth(b.statements)
    ensures toks[pos].kind == LBrace && ListLaidOut(toks, b.statements, pos + 1, close, RBrace)
    ensures end == close + 1
  {
  }

  /** BlockAt on the result of its body. */
  lemma BlockStep(toks: seq<Token>, pos: nat, b: Block, end: nat)
    requires Terminated(toks) && pos < |toks| && toks[pos].kind == LBrace
    requires BodyReadAs(toks, pos + 1, [], Block([] + b.statements), end)
    ensures BlockReadAs(toks, pos, b, end)
  {
    assert [] + b.statements == b.statements;
  }

  /** ss is laid out from pos up to end, where closer follows; closer is not 'else'. */
  predicate ListLaidOut(toks: seq<Token>, ss: seq<Statement>, pos: nat, end: nat, closer: TokenKind) {
    && Terminated(toks) && PrintedList(toks, ss, pos) && end == pos + ListWidth(ss)
    && end < |toks| && toks[end].kind == closer && closer != KwElse
  }

  /** The first statement of a laid-out list, and the rest after it. */
  lemma ListLayout(toks: seq<Token>, ss: seq<Statement>, pos: nat, next: nat, end: nat, closer: TokenKind)
    requires ListLaidOut(toks, ss, pos, end, closer) && ss != [] && next == pos + StmtWidth(ss[0])
    ensures StartsStatement(toks[pos].kind) && pos < next
    ensures StmtReadyAt(toks, ss[0], pos)
    ensures ListLaidOut(toks, ss[1..], next, end, closer)
  {
    ListSplit(toks, ss, pos, next);
    StmtStart(toks, ss[0], pos);
    ListFollower(toks, ss[1..], next, end, closer);
    ListHead(toks, ss[0], pos, next);
  }

  /** A laid-out statement followed by anything but 'else' is ready to be read. */
  lemma ListHead(toks: seq<Token>, s: Statement, pos: nat, next: nat)
    requires Terminated(toks) && PrintedStmt(toks, s, pos) && next == pos + StmtWidth(s)
    requires next < |toks| && toks[next].kind != KwElse
    ensures StmtReadyAt(toks, s, pos)
  {
  }

  /** A laid-out list is its first statement and the rest after it. */
  lemma ListSplit(toks: seq<Token>, ss: seq<Statement>, pos: nat, next: nat)
    requires PrintedList(toks, ss, pos) && ss != [] && next == pos + StmtWidth(ss[0])
    ensures PrintedStmt(toks, ss[0], pos) && PrintedList(toks, ss[1..], next)
    ensures next + ListWidth(ss[1..]) == pos + ListWidth(ss)
  {
  }

  /** What follows a laid-out list closed by anything but 'else' is not 'else'. */
  lemma ListFollower(toks: seq<Token>, ss: seq<Statement>, pos: nat, end: nat, closer: TokenKind)
    requires PrintedList(toks, ss, pos) && end == pos + ListWidth(ss) && end < |toks|
    requires toks[end].kind == closer && closer != KwElse
    ensures pos < |toks| && toks[pos].kind != KwElse
  {
    if ss != [] {
      StmtStart(toks, ss[0], pos);
    }
  }

  /** Taking the first statement over to what is done leaves the same whole. */
  lemma Shift(done: seq<Statement>, ss: seq<Statement>)
    requires ss != []
    ensures done + [ss[0]] + ss[1..] == done + ss
  {
  }

  /** The loop of parseBlock, from pos with the statements done so far, reads b and stops at end. */
  predicate BodyReadAs(toks: seq<Token>, pos: nat, done: seq<Statement>, b: Block, end: nat) {
    Terminated(toks) && pos < |toks| && BlockBody(toks, pos, done) == Parsed(b, end)
  }

  /** One turn of parseBlock's loop on a statement that parses. */
  lemma BodyStep(toks: seq<Token>, pos: nat, done: seq<Statement>, s: Statement, next: nat, b: Block, end: nat)
    requires StmtReadAs(toks, pos, s, next) && toks[pos].kind != RBrace
    requires BodyReadAs(toks, next, done + [s], b, end)
    ensures BodyReadAs(toks, pos, done, b, end)
  {
  }

  /** The statements of a laid-out block body, up to its closing brace, are parsed back in order. */
  lemma {:induction false} BodyRoundTrip(toks: seq<Token>, ss: seq<Statement>, pos: nat, end: nat, done: seq<Statement>)
    requires ListLaidOut(toks, ss, pos, end, RBrace)
    ensures BodyReadAs(toks, pos, done, Block(done + ss), end + 1)
    decreases ss
  {
    if ss == [] {
      assert done + ss == done;
    } else {
      var next := pos + StmtWidth(ss[0]);
      ListLayout(toks, ss, pos, next, end, RBrace);
      StmtRoundTrip(toks, ss[0], pos);
      BodyRoundTrip(toks, ss[1..], next, end, done + [ss[0]]);
      Shift(done, ss);
      BodyStep(toks, pos, done, ss[0], next, Block(done + ss), end + 1);
    }
  }

  /** The loop of Parse, from pos with the statements done so far, gives r. */
  predicate ProgramReadAs(toks: seq<Token>, pos: nat, done: seq<Statement>, r: Result<Program, ParseError>) {
    Terminated(toks) && pos < |toks| && ProgramFrom(toks, pos, done) == r
  }

  /** One turn of Parse's loop on a statement that parses. */
  lemma TopLevelStep(toks: seq<Token>, pos: nat, done: seq<Statement>, s: Statement, next: nat, r: Result<Program, ParseError>)
    requires StmtReadAs(toks, pos, s, next) && toks[pos].kind != Eof
    requires ProgramReadAs(toks, next, done + [s], r)
    ensures ProgramReadAs(toks, pos, done, r)
  {
  }

  /** The top-level statements of a laid-out program, up to end of input, are parsed back in order. */
  lemma {:induction false} TopLevelRoundTrip(toks: seq<Token>, ss: seq<Statement>, pos: nat, end: nat, done: seq<Statement>)
    requires ListLaidOut(toks, ss, pos, end, Eof)
    ensures ProgramReadAs(toks, pos, done, Ok(Program(done + ss)))
    decreases ss
  {
    if ss == [] {
      assert done + ss == done;
    } else {
      var next := pos + StmtWidth(ss[0]);
      ListLayout(toks, ss, pos, next, end, Eof);
      StmtRoundTrip(toks, ss[0], pos);
      TopLevelRoundTrip(toks, ss[1..], next, end, done + [ss[0]]);
      Shift(done, ss);
      TopLevelStep(toks, pos, done, ss[0], next, Ok(Program(done + ss)));
    }
  }

  // ---------------------------------------------------------------------------
  // The printer lays its trees out
  // ---------------------------------------------------------------------------

  /** toks holds xs starting at pos. */
  predicate Holds(toks: seq<Token>, pos: nat, xs: seq<Token>) {
    pos + |xs| <= |toks| && forall i {:trigger xs[i]} :: 0 <= i < |xs| ==> toks[pos + i] == xs[i]
  }

  lemma HoldsSplit(toks: seq<Token>, pos: nat, a: seq<Token>, b: seq<Token>, mid: nat)
    requires Holds(toks, pos, a + b) == true && mid == pos + |a|
    ensures Holds(toks, pos, a) == true && Holds(toks, mid, b) == true
  {
    forall i | 0 <= i < |a|
      ensures toks[pos + i] == a[i]
    {
      assert (a + b)[i] == a[i];
    }
    forall i | 0 <= i < |b|
      ensures toks[mid + i] == b[i]
    {
      assert (a + b)[|a| + i] == b[i];
    }
  }

  lemma HoldsOne(toks: seq<Token>, pos: nat, t: Token)
    requires Holds(toks, pos, [t]) == true
    ensures pos < |toks| && toks[pos] == t
  {
    assert toks[pos + 0] == [t][0];
  }

  /** A sequence ending in t: what comes before it, and t itself at position at. */
  lemma HoldsSnoc(toks: seq<Token>, pos: nat, a: seq<Token>, t: Token, at: nat)
    requires Holds(toks, pos, a + [t]) == true && at == pos + |a|
    ensures Holds(toks, pos, a) == true && at < |toks| && toks[at] == t
  {
    HoldsSplit(toks, pos, a, [t], at);
    HoldsOne(toks, at, t);
  }

  /** A sequence between an opening token x and a closing token z. */
  lemma HoldsWrapped(toks: seq<Token>, pos: nat, x: Token, m: seq<Token>, z: Token, inner: nat, close: nat)
    requires Holds(toks, pos, [x] + m + [z]) == true && inner == pos + 1 && close == inner + |m|
    ensures pos < |toks| && toks[pos] == x && Holds(toks, inner, m) == true && close < |toks| && toks[close] == z
  {
    HoldsSnoc(toks, pos, [x] + m, z, close);
    HoldsSplit(toks, pos, [x], m, inner);
    HoldsOne(toks, pos, x);
  }

  /** A sequence after two leading tokens x and y and before a closing token z. */
  lemma HoldsHead(toks: seq<Token>, pos: nat, x: Token, y: Token, m: seq<Token>, z: Token, inner: nat, close: nat)
    requires Holds(toks, pos, [x, y] + m + [z]) == true && inner == pos + 2 && close == inner + |m|
    ensures pos + 1 < |toks| && toks[pos] == x && toks[pos + 1] == y
    ensures Holds(toks, inner, m) == true && close < |toks| && toks[close] == z
  {
    HoldsSnoc(toks, pos, [x, y] + m, z, close);
    HoldsSplit(toks, pos, [x, y], m, inner);
    assert toks[pos + 0] == [x, y][0] && toks[pos + 1] == [x, y][1];
  }

  /** Tokens holding the printer's tokens of e are laid out as e. */
  lemma {:induction false} ExprHolds(toks: seq<Token>, e: Expression, level: nat, pos: nat)
    requires Printable(e) == true && Holds(toks, pos, ExprTokens(e, level)) == true
    ensures Printed(toks, e, level, pos) == true
    decreases e, if Level(e) < level then 1 else 0, 1
  {
    if Level(e) < level {
      ParenHolds(toks, e, level, pos);
    } else if e.BinaryExpression? {
      BinaryHolds(toks, e, level, pos);
    } else {
      HoldsOne(toks, pos, ExprTokens(e, level)[0]);
    }
  }

  lemma {:induction false} ParenHolds(toks: seq<Token>, e: Expression, level: nat, pos: nat)
    requires Printable(e) == true && Holds(toks, pos, ExprTokens(e, level)) == true && Level(e) < level
    ensures Printed(toks, e, level, pos) == true
    decreases e, 1, 0
  {
    var inner := pos + 1;
    var close := inner + Width(e, 0);
    HoldsWrapped(toks, pos, Punct(LParen), ExprTokens(e, 0), Punct(RParen), inner, close);
    ExprHolds(toks, e, 0, inner);
    ParenPrinted(toks, e, level, pos, close);
  }

  /** A parenthesised operand is laid out once what is inside is. */
  lemma ParenPrinted(toks: seq<Token>, e: Expression, level: nat, pos: nat, close: nat)
    requires Level(e) < level && close == pos + 1 + Width(e, 0) && close < |toks|
    requires toks[pos].kind == LParen && Printed(toks, e, 0, pos + 1) == true && toks[close].kind == RParen
    ensures Printed(toks, e, level, pos) == true
  {
  }

  lemma {:induction false} BinaryHolds(toks: seq<Token>, e: Expression, level: nat, pos: nat)
    requires Printable(e) == true && Holds(toks, pos, ExprTokens(e, level)) == true
    requires e.BinaryExpression? && Level(e) >= level
    ensures Printed(toks, e, level, pos) == true
    decreases e, 0, 0
  {
    var mid := pos + Width(e.left, Level(e));
    var start := mid + 1;
    HoldsSplit(toks, pos, ExprTokens(e.left, Level(e)) + [Punct(e.op)], ExprTokens(e.right, Level(e) + 1), start);
    HoldsSnoc(toks, pos, ExprTokens(e.left, Level(e)), Punct(e.op), mid);
    ExprHolds(toks, e.left, Level(e), pos);
    ExprHolds(toks, e.right, Level(e) + 1, start);
    BinaryPrinted(toks, e, level, pos, mid);
  }

  /** A binary expression is laid out once its operands and its operator are. */
  lemma BinaryPrinted(toks: seq<Token>, e: Expression, level: nat, pos: nat, mid: nat)
    requires e.BinaryExpression? && Level(e) >= level && IsBinaryOperator(e.op)
    requires mid == pos + Width(e.left, Level(e)) && pos + Width(e, level) <= |toks|
    requires Printed(toks, e.left, Level(e), pos) == true && toks[mid].kind == e.op
    requires Printed(toks, e.right, Level(e) + 1, mid + 1) == true
    ensures Printed(toks, e, level, pos) == true
  {
  }

  lemma {:induction false} StmtHolds(toks: seq<Token>, s: Statement, pos: nat)
    requires PrintableStmt(s) == true && Holds(toks, pos, StmtTokens(s)) == true
    ensures PrintedStmt(toks, s, pos) == true
    decreases s, 2
  {
    match s
    case Assignment(_, _) => AssignmentHolds(toks, s, pos);
    case PrintStatement(e) => PrintHolds(toks, e, pos);
    case IfStatement(_, _, _) => IfHolds(toks, s, pos);
    case WhileStatement(_, _) => WhileHolds(toks, s, pos);
    case BlockStatement(_) => assert false;
  }

  lemma {:induction false} AssignmentHolds(toks: seq<Token>, s: Statement, pos: nat)
    requires s.Assignment? && PrintableStmt(s) == true && Holds(toks, pos, StmtTokens(s)) == true
    ensures PrintedStmt(toks, s, pos) == true
    decreases s, 1
  {
    var inner := pos + 2;
    var semi := inner + Width(s.value, 0);
    HoldsHead(toks, pos, Token(Ident, s.target), Punct(Assign), ExprTokens(s.value, 0), Punct(Semicolon), inner, semi);
    ExprHolds(toks, s.value, 0, inner);
  }

  lemma {:induction false} PrintHolds(toks: seq<Token>, e: Expression, pos: nat)
    requires Printable(e) == true && Holds(toks, pos, StmtTokens(PrintStatement(e))) == true
    ensures PrintedStmt(toks, PrintStatement(e), pos) == true
    decreases PrintStatement(e), 1
  {
    var inner := pos + 1;
    var semi := inner + Width(e, 0);
    HoldsWrapped(toks, pos, Punct(KwPrint), ExprTokens(e, 0), Punct(Semicolon), inner, semi);
    ExprHolds(toks, e, 0, inner);
  }

  /** The tokens of an if statement, taken apart at the positions of its parts. */
  lemma IfTokensHeld(toks: seq<Token>, s: Statement, pos: nat, inner: nat, close: nat, elseAt: nat)
    requires s.IfStatement? && Holds(toks, pos, StmtTokens(s)) == true
    requires inner == pos + 2 && close == inner + Width(s.cond, 0) && elseAt == close + 1 + BlockWidth(s.thenBranch)
    ensures pos + StmtWidth(s) <= |toks| && toks[pos].kind == KwIf && toks[pos + 1].kind == LParen
    ensures Holds(toks, inner, ExprTokens(s.cond, 0)) == true && toks[close].kind == RParen
    ensures Holds(toks, close + 1, BlockTokens(s.thenBranch)) == true
    ensures Holds(toks, elseAt, ElseTokens(s.elseBranch)) == true
  {
    var ct := ExprTokens(s.cond, 0);
    var head := [Punct(KwIf), Punct(LParen)] + ct + [Punct(RParen)];
    var bt := BlockTokens(s.thenBranch);
    HoldsSplit(toks, pos, head + bt, ElseTokens(s.elseBranch), elseAt);
    HoldsSplit(toks, pos, head, bt, close + 1);
    HoldsHead(toks, pos, Punct(KwIf), Punct(LParen), ct, Punct(RParen), inner, close);
  }

  /** An if statement is laid out once its parts are, each at its own position. */
  lemma IfPrinted(toks: seq<Token>, s: Statement, pos: nat, close: nat, elseAt: nat)
    requires s.IfStatement? && close == pos + 2 + Width(s.cond, 0) && elseAt == close + 1 + BlockWidth(s.thenBranch)
    requires pos + StmtWidth(s) <= |toks| && toks[pos].kind == KwIf && toks[pos + 1].kind == LParen
    requires Printed(toks, s.cond, 0, pos + 2) == true && toks[close].kind == RParen
    requires PrintedBlock(toks, s.thenBranch, close + 1) == true
    requires PrintedElse(toks, s.elseBranch, elseAt) == true
    ensures PrintedStmt(toks, s, pos) == true
  {
  }

  lemma {:induction false} IfHolds(toks: seq<Token>, s: Statement, pos: nat)
    requires s.IfStatement? && PrintableStmt(s) == true && Holds(toks, pos, StmtTokens(s)) == true
    ensures PrintedStmt(toks, s, pos) == true
    decreases s, 1
  {
    var inner := pos + 2;
    var close := inner + Width(s.cond, 0);
    var elseAt := close + 1 + BlockWidth(s.thenBranch);
    IfTokensHeld(toks, s, pos, inner, close, elseAt);
    IfPrintableParts(s);
    IfPartsHold(toks, s.cond, s.thenBranch, s.elseBranch, pos, close, elseAt);
    IfPrinted(toks, s, pos, close, elseAt);
  }

  /** The condition, the then-block and the else part of an if statement, each laid out at its own position. */
  lemma {:induction false} IfPartsHold(toks: seq<Token>, c: Expression, t: Block, el: Option<Block>,
                                       pos: nat, close: nat, elseAt: nat)
    requires Printable(c) == true && PrintableBlock(t) == true
    requires el.Some? ==> PrintableBlock(el.value) == true
    requires Holds(toks, pos + 2, ExprTokens(c, 0)) == true
    requires Holds(toks, close + 1, BlockTokens(t)) == true
    requires Holds(toks, elseAt, ElseTokens(el)) == true
    ensures Printed(toks, c, 0, pos + 2) == true
    ensures PrintedBlock(toks, t, close + 1) == true
    ensures PrintedElse(toks, el, elseAt) == true
    decreases IfStatement(c, t, el), 0
  {
    ExprHolds(toks, c, 0, pos + 2);
    BlockHolds(toks, t, close + 1);
    ElseHolds(toks, el, elseAt);
  }

  /** The parts of a printable if statement are printable. */
  lemma IfPrintableParts(s: Statement)
    requires s.IfStatement? && PrintableStmt(s) == true
    ensures Printable(s.cond) == true && PrintableBlock(s.thenBranch) == true
    ensures s.elseBranch.Some? ==> PrintableBlock(s.elseBranch.value) == true
  {
  }

  lemma {:induction false} ElseHolds(toks: seq<Token>, el: Option<Block>, pos: nat)
    requires (el.Some? ==> PrintableBlock(el.value) == true) && Holds(toks, pos, ElseTokens(el)) == true
    ensures PrintedElse(toks, el, pos) == true
    decreases el, 1
  {
    if el.Some? {
      HoldsSplit(toks, pos, [Punct(KwElse)], BlockTokens(el.value), pos + 1);
      HoldsOne(toks, pos, Punct(KwElse));
      BlockHolds(toks, el.value, pos + 1);
    }
  }

  lemma {:induction false} WhileHolds(toks: seq<Token>, s: Statement, pos: nat)
    requires s.WhileStatement? && PrintableStmt(s) == true && Holds(toks, pos, StmtTokens(s)) == true
    ensures PrintedStmt(toks, s, pos) == true
    decreases s, 1
  {
    var ct := ExprTokens(s.cond, 0);
    var head := [Punct(KwWhile), Punct(LParen)] + ct + [Punct(RParen)];
    var inner := pos + 2;
    var bodyStart := pos + 3 + Width(s.cond, 0);
    HoldsSplit(toks, pos, head, BlockTokens(s.body), bodyStart);
    HoldsHead(toks, pos, Punct(KwWhile), Punct(LParen), ct, Punct(RParen), inner, inner + Width(s.cond, 0));
    ExprHolds(toks, s.cond, 0, inner);
    BlockHolds(toks, s.body, bodyStart);
  }

  lemma {:induction false} BlockHolds(toks: seq<Token>, b: Block, pos: nat)
    requires PrintableBlock(b) == true && Holds(toks, pos, BlockTokens(b)) == true
    ensures PrintedBlock(toks, b, pos) == true
    decreases b, 0
  {
    var inner := pos + 1;
    var close := inner + ListWidth(b.statements);
    HoldsWrapped(toks, pos, Punct(LBrace), StmtsTokens(b.statements), Punct(RBrace), inner, close);
    ListHolds(toks, b.statements, inner);
    BlockPrinted(toks, b, pos, close);
  }

  /** A block is laid out once its statements are, between its braces. */
  lemma BlockPrinted(toks: seq<Token>, b: Block, pos: nat, close: nat)
    requires close == pos + 1 + ListWidth(b.statements) && close < |toks|
    requires toks[pos].kind == LBrace && PrintedList(toks, b.statements, pos + 1) == true && toks[close].kind == RBrace
    ensures PrintedBlock(toks, b, pos) == true
  {
  }

  lemma {:induction false} ListHolds(toks: seq<Token>, ss: seq<Statement>, pos: nat)
    requires PrintableList(ss) == true && Holds(toks, pos, StmtsTokens(ss)) == true
    ensures PrintedList(toks, ss, pos) == true
    decreases ss
  {
    if ss != [] {
      var next := pos + StmtWidth(ss[0]);
      ListTokensHeld(toks, ss, pos, next);
      StmtHolds(toks, ss[0], pos);
      ListHolds(toks, ss[1..], next);
      ListPrinted(toks, ss, pos, next);
    }
  }

  /** The tokens of a statement list, taken apart after its first statement. */
  lemma ListTokensHeld(toks: seq<Token>, ss: seq<Statement>, pos: nat, next: nat)
    requires ss != [] && PrintableList(ss) == true && Holds(toks, pos, StmtsTokens(ss)) == true
    requires next == pos + StmtWidth(ss[0])
    ensures pos + ListWidth(ss) <= |toks|
    ensures PrintableStmt(ss[0]) == true && Holds(toks, pos, StmtTokens(ss[0])) == true
    ensures PrintableList(ss[1..]) == true && Holds(toks, next, StmtsTokens(ss[1..])) == true
  {
    HoldsSplit(toks, pos, StmtTokens(ss[0]), StmtsTokens(ss[1..]), next);
    assert PrintableStmt(ss[0]);
  }

  /** A statement list is laid out once its first statement and the rest after it are. */
  lemma ListPrinted(toks: seq<Token>, ss: seq<Statement>, pos: nat, next: nat)
    requires ss != [] && next == pos + StmtWidth(ss[0]) && pos + ListWidth(ss) <= |toks|
    requires PrintedStmt(toks, ss[0], pos) == true && PrintedList(toks, ss[1..], next) == true
    ensures PrintedList(toks, ss, pos) == true
  {
  }

  /** A sequence holds its own prefix. */
  lemma HoldsPrefix(a: seq<Token>, b: seq<Token>)
    ensures Holds(a + b, 0, a) == true
  {
    forall i | 0 <= i < |a|
      ensures (a + b)[0 + i] == a[i]
    {
    }
  }

  // ---------------------------------------------------------------------------
  // Round trips
  // ---------------------------------------------------------------------------

  /** The tokens of a printable expression, held from the start and closed by no operator, read back as it. */
  lemma ExprReadBack(toks: seq<Token>, e: Expression, n: nat)
    requires Printable(e) && Terminated(toks) && Holds(toks, 0, ExprTokens(e, 0))
    requires n == Width(e, 0) && n < |toks| && !IsBinaryOperator(toks[n].kind)
    ensures ExprAt(toks, 0, 0) == Parsed(e, n)
  {
    ExprHolds(toks, e, 0, 0);
    ExprComplete(toks, e, 0, n);
  }

  /**
   * An expression printed with the fewest parentheses, followed by anything but
   * a binary operator, is parsed back as itself.
   */
  lemma ParseExpressionRoundTrip(e: Expression, rest: seq<Token>)
    requires Printable(e) && Terminated(rest) && !IsBinaryOperator(rest[0].kind)
    ensures ExprAt(ExprTokens(e, 0) + rest, 0, 0) == Parsed(e, |ExprTokens(e, 0)|)
  {
    var ts := ExprTokens(e, 0);
    var toks := ts + rest;
    HoldsPrefix(ts, rest);
    assert toks[|ts|] == rest[0];
    ExprReadBack(toks, e, |ts|);
  }

  /** The tokens of a printable statement list, held from the start and followed by end of input. */
  lemma ProgramLaidOut(toks: seq<Token>, ss: seq<Statement>)
    requires PrintableList(ss) && Terminated(toks) && Holds(toks, 0, StmtsTokens(ss))
    requires ListWidth(ss) < |toks| && toks[ListWidth(ss)].kind == Eof
    ensures ListLaidOut(toks, ss, 0, ListWidth(ss), Eof)
  {
    ListHolds(toks, ss, 0);
  }

  /** Parsing the printed tokens of any program the parser can build gives that program back. */
  lemma ParseRoundTrip(p: Program)
    requires PrintableList(p.statements)
    ensures ParseTokens(ProgramTokens(p)) == Ok(p)
  {
    var ts := StmtsTokens(p.statements);
    var toks := ProgramTokens(p);
    HoldsPrefix(ts, [Token(Eof, "")]);
    assert toks[|ts|] == Token(Eof, "");
    ProgramLaidOut(toks, p.statements);
    TopLevelRoundTrip(toks, p.statements, 0, |ts|, []);
    assert [] + p.statements == p.statements;
  }

  /** Two operators of one level group to the left: a op b op' c reads as (a op b) op' c. */
  lemma SameLevelGroupsLeft(toks: seq<Token>, pos: nat, a: string, op: TokenKind, b: string, op': TokenKind, c: string)
    requires Terminated(toks) && pos + 5 < |toks|
    requires toks[pos] == Token(Ident, a) && toks[pos + 1].kind == op && toks[pos + 2] == Token(Ident, b)
    requires toks[pos + 3].kind == op' && toks[pos + 4] == Token(Ident, c)
    requires IsBinaryOperator(op) && Precedence(op') == Precedence(op)
    requires !IsBinaryOperator(toks[pos + 5].kind)
    ensures ExprAt(toks, 0, pos)
      == Parsed(BinaryExpression(BinaryExpression(Identifier(a), op, Identifier(b)), op', Identifier(c)), pos + 5)
  {
    var left := BinaryExpression(Identifier(a), op, Identifier(b));
    var e := BinaryExpression(left, op', Identifier(c));
    assert Printed(toks, Identifier(a), Level(left), pos);
    assert Printed(toks, Identifier(b), Level(left) + 1, pos + 2);
    assert Printed(toks, left, Level(e), pos);
    assert Printed(toks, Identifier(c), Level(e) + 1, pos + 4);
    assert Width(left, Level(e)) == 3 && Width(Identifier(c), Level(e) + 1) == 1;
    assert Printed(toks, e, 0, pos);
    ExprComplete(toks, e, pos, pos + 5);
  }

  /** A tighter operator after a looser one groups to the right: a op b op' c reads as a op (b op' c). */
  lemma TighterGroupsRight(toks: seq<Token>, pos: nat, a: string, op: TokenKind, b: string, op': TokenKind, c: string)
    requires Terminated(toks) && pos + 5 < |toks|
    requires toks[pos] == Token(Ident, a) && toks[pos + 1].kind == op && toks[pos + 2] == Token(Ident, b)
    requires toks[pos + 3].kind == op' && toks[pos + 4] == Token(Ident, c)
    requires Precedence(op) < Precedence(op') < PrimaryLevel
    requires !IsBinaryOperator(toks[pos + 5].kind)
    ensures ExprAt(toks, 0, pos)
      == Parsed(BinaryExpression(Identifier(a), op, BinaryExpression(Identifier(b), op', Identifier(c))), pos + 5)
  {
    var right := BinaryExpression(Identifier(b), op', Identifier(c));
    var e := BinaryExpression(Identifier(a), op, right);
    assert Printed(toks, Identifier(b), Level(right), pos + 2);
    assert Printed(toks, Identifier(c), Level(right) + 1, pos + 4);
    assert Printed(toks, right, Level(e) + 1, pos + 2);
    assert Width(Identifier(a), Level(e)) == 1 && Width(right, Level(e) + 1) == 3;
    assert Printed(toks, e, 0, pos);
    ExprComplete(toks, e, pos, pos + 5);
  }

  // ---------------------------------------------------------------------------
  // Errors
  // ---------------------------------------------------------------------------

  /** An assignment without its ';' is rejected: x = 5 at end of input. */
  lemma MissingSemicolonRejected()
    ensures ParseTokens([Token(Ident, "x"), Punct(Assign), Token(Number, "5"), Token(Eof, "")])
      == Err(ExpectedAssignmentEnd)
  {
    var toks := [Token(Ident, "x"), Punct(Assign), Token(Number, "5"), Token(Eof, "")];
    Ascend(toks, 0, 2, NumberLiteral(Decimal.Atoi("5")), 3);
  }

  /** A token that starts no statement stops the parse where it stands. */
  lemma StrayTokenStops(toks: seq<Token>)
    requires Terminated(toks) && !StartsStatement(toks[0].kind) && toks[0].kind != Eof
    ensures ParseTokens(toks) == Err(NoProgress(0))
  {
  }
}
