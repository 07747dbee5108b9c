/**
 * The recursive-descent parser of parser.go. It walks a token sequence that
 * ends in the end-of-input token with one mutable cursor.
 *
 * Each parse function of the source is a method of the class Parser below,
 * proved against a function of the token sequence and the cursor: ExprAt for
 * the precedence chain (one level per source function), PrimaryAt,
 * StatementAt, AssignmentAt, PrintAt, IfAt, WhileAt, BlockAt and ProgramFrom.
 * Every such function that succeeds leaves the cursor on a token, so the
 * cursor never runs past the end-of-input token.
 */
module Parsing {
  import opened Wrappers
  import opened Lexing
  import opened Ast
  import Decimal

  /** The source's panics of parser.go, and the one case where it never returns. */
  datatype ParseError =
    | ExpectedAssign                   // no '=' after the identifier of an assignment
    | ExpectedAssignmentEnd            // no ';' at the end of an assignment
    | ExpectedPrintEnd                 // no ';' at the end of a print statement
    | ExpectedIfOpen                   // no '(' after 'if'
    | ExpectedIfClose                  // no ')' after the if condition
    | ExpectedWhileOpen                // no '(' after 'while'
    | ExpectedWhileClose               // no ')' after the while condition
    | ExpectedBlockOpen                // no '{' at the start of a block
    | ExpectedClosingParen             // no ')' after a parenthesised expression
    | UnexpectedTokenInExpression      // a token that cannot start a primary
      // A statement position holds a token that starts no statement: the source's
      // parseStatement returns nil without moving, and Parse or parseBlock loop
      // forever on it. The model stops there instead.
    | NoProgress(at: nat)

  /** A parse that succeeded with a value and the cursor after it, or failed. */
  datatype Parsed<+T> = Parsed(value: T, next: nat) | Failed(error: ParseError)

  /** The parser's input: what Tokenize returns, ending in the end-of-input token. */
  predicate Terminated(toks: seq<Token>) {
    |toks| > 0 && toks[|toks| - 1].kind == Eof
  }

  /**
   * The level of a binary operator, loosest first: '||' 0, '&&' 1, '==' '!=' 2,
   * '<' '>' 3, '+' '-' 4, '*' '/' 5. Every other tag is at PrimaryLevel.
   */
  function Precedence(k: TokenKind): nat {
    match k
    case Or => 0
    case And => 1
    case Eq => 2
    case Neq => 2
    case Lt => 3
    case Gt => 3
    case Plus => 4
    case Minus => 4
    case Multiply => 5
    case Divide => 5
    case _ => PrimaryLevel
  }

  const PrimaryLevel: nat := 6

  predicate IsBinaryOperator(k: TokenKind) {
    Precedence(k) < PrimaryLevel
  }

  /** The tags with a binary precedence are the ten operators a binary expression may carry. */
  lemma BinaryOperatorKnown(k: TokenKind)
    ensures IsBinaryOperator(k) <==> IsOperator(k)
  {
  }

  // ---------------------------------------------------------------------------
  // Expressions
  // ---------------------------------------------------------------------------

  /**
   * The expression at pos parsed at a level of the precedence chain: level 0 is
   * parseLogicalOr, 5 is parseMultiplicative, PrimaryLevel is parsePrimary.
   */
  function ExprAt(toks: seq<Token>, level: nat, pos: nat): (r: Parsed<Expression>)
    requires Terminated(toks) && pos < |toks| && level <= PrimaryLevel
    ensures r.Parsed? ==> pos < r.next < |toks|
    decreases |toks| - pos, PrimaryLevel + 1 - level, 1
  {
    if level == PrimaryLevel then PrimaryAt(toks, pos)
    else
      match ExprAt(toks, level + 1, pos)
      case Failed(e) => Failed(e)
      case Parsed(lhs, next) => FoldLevel(toks, level, lhs, next)
  }

  /**
   * The loop of one level: while the current token is an operator of this level,
   * parse the next tighter level and fold it into the left operand.
   */
  function FoldLevel(toks: seq<Token>, level: nat, lhs: Expression, pos: nat): (r: Parsed<Expression>)
    requires Terminated(toks) && pos < |toks| && level < PrimaryLevel
    ensures r.Parsed? ==> pos <= r.next < |toks|
    ensures r.Parsed? ==> Precedence(toks[r.next].kind) != level
    decreases |toks| - pos, 0, 0
  {
    if Precedence(toks[pos].kind) == level then
      match ExprAt(toks, level + 1, pos + 1)
      case Failed(e) => Failed(e)
      case Parsed(rhs, next) => FoldLevel(toks, level, BinaryExpression(lhs, toks[pos].kind, rhs), next)
    else Parsed(lhs, pos)
  }

  /** A literal, an identifier, or a parenthesised expression, which makes no node of its own. */
  function PrimaryAt(toks: seq<Token>, pos: nat): (r: Parsed<Expression>)
    requires Terminated(toks) && pos < |toks|
    ensures r.Parsed? ==> pos < r.next < |toks|
    decreases |toks| - pos, 0, 0
  {
    var t := toks[pos];
    match t.kind
    case Number => Parsed(NumberLiteral(Decimal.Atoi(t.value)), pos + 1)
    case Str => Parsed(StringLiteral(t.value), pos + 1)
    case KwTrue => Parsed(BooleanLiteral(true), pos + 1)
    case KwFalse => Parsed(BooleanLiteral(false), pos + 1)
    case Ident => Parsed(Identifier(t.value), pos + 1)
    case LParen =>
      (match ExprAt(toks, 0, pos + 1)
       case Failed(e) => Failed(e)
       case Parsed(e, next) =>
         if toks[next].kind != RParen then Failed(ExpectedClosingParen) else Parsed(e, next + 1))
    case _ => Failed(UnexpectedTokenInExpression)
  }

  // ---------------------------------------------------------------------------
  // Statements
  // ---------------------------------------------------------------------------

  function AsSome(r: Parsed<Statement>): Parsed<Option<Statement>> {
    match r
    case Parsed(s, next) => Parsed(Some(s), next)
    case Failed(e) => Failed(e)
  }

  /**
   * The statement at pos, chosen by its first token. Any other first token gives
   * no statement and leaves the cursor where it is.
   */
  function StatementAt(toks: seq<Token>, pos: nat): (r: Parsed<Option<Statement>>)
    requires Terminated(toks) && pos < |toks|
    ensures r.Parsed? && r.value.Some? ==> pos < r.next < |toks|
    ensures r.Parsed? && r.value.None? ==> r.next == pos
    decreases |toks| - pos, 2
  {
    match toks[pos].kind
    case Ident => AsSome(AssignmentAt(toks, pos))
    case KwPrint => AsSome(PrintAt(toks, pos))
    case KwIf => AsSome(IfAt(toks, pos))
    case KwWhile => AsSome(WhileAt(toks, pos))
    case _ => Parsed(None, pos)
  }

  function AssignmentAt(toks: seq<Token>, pos: nat): (r: Parsed<Statement>)
    requires Terminated(toks) && pos < |toks| && toks[pos].kind == Ident
    ensures r.Parsed? ==> pos < r.next < |toks|
    decreases |toks| - pos, 1
  {
    if toks[pos + 1].kind != Assign then Failed(ExpectedAssign)
    else
      match ExprAt(toks, 0, pos + 2)
      case Failed(e) => Failed(e)
      case Parsed(value, next) =>
        if toks[next].kind != Semicolon then Failed(ExpectedAssignmentEnd)
        else Parsed(Assignment(toks[pos].value, value), next + 1)
  }

  function PrintAt(toks: seq<Token>, pos: nat): (r: Parsed<Statement>)
    requires Terminated(toks) && pos < |toks| && toks[pos].kind == KwPrint
    ensures r.Parsed? ==> pos < r.next < |toks|
    decreases |toks| - pos, 1
  {
    match ExprAt(toks, 0, pos + 1)
    case Failed(e) => Failed(e)
    case Parsed(e, next) =>
      if toks[next].kind != Semicolon then Failed(ExpectedPrintEnd)
      else Parsed(PrintStatement(e), next + 1)
  }

  /** An if statement; the else branch is present exactly when 'else' follows the then-block. */
  function IfAt(toks: seq<Token>, pos: nat): (r: Parsed<Statement>)
    requires Terminated(toks) && pos < |toks| && toks[pos].kind == KwIf
    ensures r.Parsed? ==> pos < r.next < |toks|
    decreases |toks| - pos, 1
  {
    if toks[pos + 1].kind != LParen then Failed(ExpectedIfOpen)
    else
      match ExprAt(toks, 0, pos + 2)
      case Failed(e) => Failed(e)
      case Parsed(cond, next) =>
        if toks[next].kind != RParen then Failed(ExpectedIfClose)
        else
          IfBranches(toks, cond, next + 1)
  }

  /** The rest of an if statement once its condition and ')' are read: the then-block and an optional else-block. */
  function IfBranches(toks: seq<Token>, cond: Expression, pos: nat): (r: Parsed<Statement>)
    requires Terminated(toks) && pos < |toks|
    ensures r.Parsed? ==> pos < r.next < |toks|
    decreases |toks| - pos, 1
  {
    match BlockAt(toks, pos)
    case Failed(e) => Failed(e)
    case Parsed(thenBranch, afterThen) =>
      if toks[afterThen].kind == KwElse then
        match BlockAt(toks, afterThen + 1)
        case Failed(e) => Failed(e)
        case Parsed(elseBranch, afterElse) =>
          Parsed(IfStatement(cond, thenBranch, Some(elseBranch)), afterElse)
      else Parsed(IfStatement(cond, thenBranch, None), afterThen)
  }

  function WhileAt(toks: seq<Token>, pos: nat): (r: Parsed<Statement>)
    requires Terminated(toks) && pos < |toks| && toks[pos].kind == KwWhile
    ensures r.Parsed? ==> pos < r.next < |toks|
    decreases |toks| - pos, 1
  {
    if toks[pos + 1].kind != LParen then Failed(ExpectedWhileOpen)
    else
      match ExprAt(toks, 0, pos + 2)
      case Failed(e) => Failed(e)
      case Parsed(cond, next) =>
        if toks[next].kind != RParen then Failed(ExpectedWhileClose)
        else
          match BlockAt(toks, next + 1)
          case Failed(e) => Failed(e)
          case Parsed(body, after) => Parsed(WhileStatement(cond, body), after)
  }

  function BlockAt(toks: seq<Token>, pos: nat): (r: Parsed<Block>)
    requires Terminated(toks) && pos < |toks|
    ensures r.Parsed? ==> pos < r.next < |toks|
    decreases |toks| - pos, 0
  {
    if toks[pos].kind != LBrace then Failed(ExpectedBlockOpen)
    else BlockBody(toks, pos + 1, [])
  }

  /** The loop of parseBlock: statements after those in done, up to the closing brace. */
  function BlockBody(toks: seq<Token>, pos: nat, done: seq<Statement>): (r: Parsed<Block>)
    requires Terminated(toks) && pos < |toks|
    ensures r.Parsed? ==> pos < r.next < |toks|
    decreases |toks| - pos, 3
  {
    if toks[pos].kind == RBrace then Parsed(Block(done), pos + 1)
    else
      match StatementAt(toks, pos)
      case Failed(e) => Failed(e)
      case Parsed(None, _) => Failed(NoProgress(pos))
      case Parsed(Some(s), next) => BlockBody(toks, next, done + [s])
  }

  /** The loop of Parse: top-level statements after those in done, up to the end of input. */
  function ProgramFrom(toks: seq<Token>, pos: nat, done: seq<Statement>): (r: Result<Program, ParseError>)
    requires Terminated(toks) && pos < |toks|
    decreases |toks| - pos
  {
    if toks[pos].kind == Eof then Ok(Program(done))
    else
      match StatementAt(toks, pos)
      case Failed(e) => Err(e)
      case Parsed(None, _) => Err(NoProgress(pos))
      case Parsed(Some(s), next) => ProgramFrom(toks, next, done + [s])
  }

  /** The whole of Parse on a fresh parser. */
  function ParseTokens(toks: seq<Token>): (r: Result<Program, ParseError>)
    requires Terminated(toks)
    ensures r.Ok? ==> AllWellFormed(r.value.statements)
  {
    ProgramWellFormed(toks, 0, []);
    ProgramFrom(toks, 0, [])
  }

  // ---------------------------------------------------------------------------
  // Every tree the parser builds carries only the ten binary operators
  // ---------------------------------------------------------------------------

  lemma {:induction false} ExprWellFormed(toks: seq<Token>, level: nat, pos: nat)
    requires Terminated(toks) && pos < |toks| && level <= PrimaryLevel
    ensures ExprAt(toks, level, pos).Parsed? ==> WellFormedExpr(ExprAt(toks, level, pos).value)
    decreases |toks| - pos, PrimaryLevel + 1 - level, 1
  {
    if level == PrimaryLevel {
      PrimaryWellFormed(toks, pos);
    } else {
      ExprWellFormed(toks, level + 1, pos);
      match ExprAt(toks, level + 1, pos)
      case Parsed(lhs, next) => FoldWellFormed(toks, level, lhs, next);
      case Failed(_) =>
    }
  }

  lemma {:induction false} FoldWellFormed(toks: seq<Token>, level: nat, lhs: Expression, pos: nat)
    requires Terminated(toks) && pos < |toks| && level < PrimaryLevel
    ensures FoldLevel(toks, level, lhs, pos).Parsed? && WellFormedExpr(lhs)
        ==> WellFormedExpr(FoldLevel(toks, level, lhs, pos).value)
    decreases |toks| - pos, 0, 0
  {
    if Precedence(toks[pos].kind) == level {
      BinaryOperatorKnown(toks[pos].kind);
      ExprWellFormed(toks, level + 1, pos + 1);
      match ExprAt(toks, level + 1, pos + 1)
      case Parsed(rhs, next) => FoldWellFormed(toks, level, BinaryExpression(lhs, toks[pos].kind, rhs), next);
      case Failed(_) =>
    }
  }

  lemma {:induction false} PrimaryWellFormed(toks: seq<Token>, pos: nat)
    requires Terminated(toks) && pos < |toks|
    ensures PrimaryAt(toks, pos).Parsed? ==> WellFormedExpr(PrimaryAt(toks, pos).value)
    decreases |toks| - pos, 0, 0
  {
    match toks[pos].kind
    case LParen => ExprWellFormed(toks, 0, pos + 1);
    case _ =>
  }

  lemma {:induction false} StatementWellFormed(toks: seq<Token>, pos: nat)
    requires Terminated(toks) && pos < |toks|
    ensures var r := StatementAt(toks, pos); r.Parsed? && r.value.Some? ==> WellFormedStmt(r.value.value)
    decreases |toks| - pos, 2
  {
    match toks[pos].kind
    case Ident => AssignmentWellFormed(toks, pos);
    case KwPrint => PrintWellFormed(toks, pos);
    case KwIf => IfWellFormed(toks, pos);
    case KwWhile => WhileWellFormed(toks, pos);
    case _ =>
  }

  lemma {:induction false} AssignmentWellFormed(toks: seq<Token>, pos: nat)
    requires Terminated(toks) && pos < |toks| && toks[pos].kind == Ident
    ensures AssignmentAt(toks, pos).Parsed? ==> WellFormedStmt(AssignmentAt(toks, pos).value)
    decreases |toks| - pos, 1
  {
    if toks[pos + 1].kind == Assign {
      ExprWellFormed(toks, 0, pos + 2);
    }
  }

  lemma {:induction false} PrintWellFormed(toks: seq<Token>, pos: nat)
    requires Terminated(toks) && pos < |toks| && toks[pos].kind == KwPrint
    ensures PrintAt(toks, pos).Parsed? ==> WellFormedStmt(PrintAt(toks, pos).value)
    decreases |toks| - pos, 1
  {
    ExprWellFormed(toks, 0, pos + 1);
  }

  lemma {:induction false} IfWellFormed(toks: seq<Token>, pos: nat)
    requires Terminated(toks) && pos < |toks| && toks[pos].kind == KwIf
    ensures IfAt(toks, pos).Parsed? ==> WellFormedStmt(IfAt(toks, pos).value)
    decreases |toks| - pos, 1
  {
    if toks[pos + 1].kind == LParen {
      ExprWellFormed(toks, 0, pos + 2);
      match ExprAt(toks, 0, pos + 2)
      case Parsed(cond, next) =>
        if toks[next].kind == RParen {
          BranchesWellFormed(toks, cond, next + 1);
        }
      case Failed(_) =>
    }
  }

  lemma {:induction false} BranchesWellFormed(toks: seq<Token>, cond: Expression, pos: nat)
    requires Terminated(toks) && pos < |toks|
    ensures IfBranches(toks, cond, pos).Parsed? && WellFormedExpr(cond)
        ==> WellFormedStmt(IfBranches(toks, cond, pos).value)
    decreases |toks| - pos, 1
  {
    BlockWellFormed(toks, pos);
    match BlockAt(toks, pos)
    case Parsed(_, afterThen) =>
      if toks[afterThen].kind == KwElse {
        BlockWellFormed(toks, afterThen + 1);
      }
    case Failed(_) =>
  }

  lemma {:induction false} WhileWellFormed(toks: seq<Token>, pos: nat)
    requires Terminated(toks) && pos < |toks| && toks[pos].kind == KwWhile
    ensures WhileAt(toks, pos).Parsed? ==> WellFormedStmt(WhileAt(toks, pos).value)
    decreases |toks| - pos, 1
  {
    if toks[pos + 1].kind == LParen {
      ExprWellFormed(toks, 0, pos + 2);
      match ExprAt(toks, 0, pos + 2)
      case Parsed(_, next) =>
        if toks[next].kind == RParen {
          BlockWellFormed(toks, next + 1);
        }
      case Failed(_) =>
    }
  }

  lemma {:induction false} BlockWellFormed(toks: seq<Token>, pos: nat)
    requires Terminated(toks) && pos < |toks|
    ensures BlockAt(toks, pos).Parsed? ==> WellFormedBlock(BlockAt(toks, pos).value)
    decreases |toks| - pos, 0
  {
    if toks[pos].kind == LBrace {
      BodyWellFormed(toks, pos + 1, []);
    }
  }

  lemma {:induction false} BodyWellFormed(toks: seq<Token>, pos: nat, done: seq<Statement>)
    requires Terminated(toks) && pos < |toks|
    ensures BlockBody(toks, pos, done).Parsed? && AllWellFormed(done)
        ==> WellFormedBlock(BlockBody(toks, pos, done).value)
    decreases |toks| - pos, 3
  {
    if toks[pos].kind != RBrace {
      StatementWellFormed(toks, pos);
      match StatementAt(toks, pos)
      case Parsed(Some(s), next) =>
        BodyWellFormed(toks, next, done + [s]);
        AppendWellFormed(done, s);
      case _ =>
    }
  }

  lemma AppendWellFormed(done: seq<Statement>, s: Statement)
    ensures AllWellFormed(done + [s]) <==> AllWellFormed(done) && WellFormedStmt(s)
  {
    if AllWellFormed(done + [s]) {
      assert (done + [s])[|done|] == s;
      forall i | 0 <= i < |done| ensures WellFormedStmt(done[i]) {
        assert (done + [s])[i] == done[i];
      }
    }
  }

  lemma {:induction false} ProgramWellFormed(toks: seq<Token>, pos: nat, done: seq<Statement>)
    requires Terminated(toks) && pos < |toks|
    ensures ProgramFrom(toks, pos, done).Ok? && AllWellFormed(done)
        ==> AllWellFormed(ProgramFrom(toks, pos, done).value.statements)
    decreases |toks| - pos
  {
    if toks[pos].kind != Eof {
      StatementWellFormed(toks, pos);
      match StatementAt(toks, pos)
      case Parsed(Some(s), next) =>
        ProgramWellFormed(toks, next, done + [s]);
        AppendWellFormed(done, s);
      case _ =>
    }
  }

  /** A method's result and final cursor are those the specifying function gives. */
  predicate Agrees<T(==)>(spec: Parsed<T>, r: Result<T, ParseError>, pos: nat) {
    match spec
    case Parsed(v, next) => r == Ok(v) && pos == next
    case Failed(e) => r == Err(e)
  }

  // ---------------------------------------------------------------------------
  // The Parser object: the tokens and a cursor advanced in place
  // ---------------------------------------------------------------------------

  class Parser {
    const tokens: seq<Token>
    var pos: nat

    /** The cursor always indexes a token of a sequence ending in end-of-input. */
    ghost predicate Valid()
      reads this
    {
      Terminated(tokens) && pos < |tokens|
    }

    constructor (tokens: seq<Token>)
      requires Terminated(tokens)
      ensures Valid() && this.tokens == tokens && pos == 0
    {
      this.tokens := tokens;
      pos := 0;
    }

    method Parse() returns (r: Result<Program, ParseError>)
      requires Valid()
      modifies this
      ensures Valid()
      ensures r == ProgramFrom(tokens, old(pos), [])
    {
      var statements: seq<Statement> := [];
      while pos < |tokens| && tokens[pos].kind != Eof
        invariant Valid()
        invariant ProgramFrom(tokens, pos, statements) == ProgramFrom(tokens, old(pos), [])
        decreases |tokens| - pos
      {
        var stmt :- ParseStatement();
        if stmt.None? {
          return Err(NoProgress(pos));
        }
        statements := statements + [stmt.value];
      }
      return Ok(Program(statements));
    }

    method ParseStatement() returns (r: Result<Option<Statement>, ParseError>)
      requires Valid()
      modifies this
      ensures Valid() && Agrees(StatementAt(tokens, old(pos)), r, pos)
      decreases |tokens| - pos, 2
    {
      match tokens[pos].kind
      case Ident =>
        var s :- ParseAssignment();
        return Ok(Some(s));
      case KwPrint =>
        var s :- ParsePrintStatement();
        return Ok(Some(s));
      case KwIf =>
        var s :- ParseIfStatement();
        return Ok(Some(s));
      case KwWhile =>
        var s :- ParseWhileStatement();
        return Ok(Some(s));
      case _ =>
        return Ok(None);
    }

    method ParseAssignment() returns (r: Result<Statement, ParseError>)
      requires Valid() && tokens[pos].kind == Ident
      modifies this
      ensures Valid() && Agrees(AssignmentAt(tokens, old(pos)), r, pos)
      decreases |tokens| - pos, 1
    {
      var ident := tokens[pos].value;
      pos := pos + 1;
      if tokens[pos].kind != Assign {
        return Err(ExpectedAssign);
      }
      pos := pos + 1;
      var expr :- ParseExpression();
      if tokens[pos].kind != Semicolon {
        return Err(ExpectedAssignmentEnd);
      }
      pos := pos + 1;
      return Ok(Assignment(ident, expr));
    }

    method ParsePrintStatement() returns (r: Result<Statement, ParseError>)
      requires Valid() && tokens[pos].kind == KwPrint
      modifies this
      ensures Valid() && Agrees(PrintAt(tokens, old(pos)), r, pos)
      decreases |tokens| - pos, 1
    {
      pos := pos + 1;
      var expr :- ParseExpression();
      if tokens[pos].kind != Semicolon {
        return Err(ExpectedPrintEnd);
      }
      pos := pos + 1;
      return Ok(PrintStatement(expr));
    }

    method ParseIfStatement() returns (r: Result<Statement, ParseError>)
      requires Valid() && tokens[pos].kind == KwIf
      modifies this
      ensures Valid() && Agrees(IfAt(tokens, old(pos)), r, pos)
      decreases |tokens| - pos, 1
    {
      ghost var start := pos;
      pos := pos + 1;
      if tokens[pos].kind != LParen {
        return Err(ExpectedIfOpen);
      }
      pos := pos + 1;
      var condition :- ParseExpression();
      if tokens[pos].kind != RParen {
        return Err(ExpectedIfClose);
      }
      pos := pos + 1;
      ghost var next := pos;
      assert IfAt(tokens, start) == IfBranches(tokens, condition, next);
      var thenBranch :- ParseBlock();
      var elseBranch: Option<Block> := None;
      if pos < |tokens| && tokens[pos].kind == KwElse {
        pos := pos + 1;
        var b :- ParseBlock();
        elseBranch := Some(b);
      }
      return Ok(IfStatement(condition, thenBranch, elseBranch));
    }

    method ParseWhileStatement() returns (r: Result<Statement, ParseError>)
      requires Valid() && tokens[pos].kind == KwWhile
      modifies this
      ensures Valid() && Agrees(WhileAt(tokens, old(pos)), r, pos)
      decreases |tokens| - pos, 1
    {
      pos := pos + 1;
      if tokens[pos].kind != LParen {
        return Err(ExpectedWhileOpen);
      }
      pos := pos + 1;
      var condition :- ParseExpression();
      if tokens[pos].kind != RParen {
        return Err(ExpectedWhileClose);
      }
      pos := pos + 1;
      var body :- ParseBlock();
      return Ok(WhileStatement(condition, body));
    }

    method ParseBlock() returns (r: Result<Block, ParseError>)
      requires Valid()
      modifies this
      ensures Valid() && Agrees(BlockAt(tokens, old(pos)), r, pos)
      decreases |tokens| - pos, 0
    {
      if tokens[pos].kind != LBrace {
        return Err(ExpectedBlockOpen);
      }
      pos := pos + 1;
      var statements: seq<Statement> := [];
      while tokens[pos].kind != RBrace
        invariant Valid() && old(pos) < pos
        invariant BlockBody(tokens, pos, statements) == BlockBody(tokens, old(pos) + 1, [])
        decreases |tokens| - pos
      {
        var stmt :- ParseStatement();
        if stmt.None? {
          return Err(NoProgress(pos));
        }
        statements := statements + [stmt.value];
      }
      pos := pos + 1;
      return Ok(Block(statements));
    }

    method ParseExpression() returns (r: Result<Expression, ParseError>)
      requires Valid()
      modifies this
      ensures Valid() && Agrees(ExprAt(tokens, 0, old(pos)), r, pos)
      decreases |tokens| - pos, 7
    {
      r := ParseLogicalOr();
    }

    method ParseLogicalOr() returns (r: Result<Expression, ParseError>)
      requires Valid()
      modifies this
      ensures Valid() && Agrees(ExprAt(tokens, 0, old(pos)), r, pos)
      decreases |tokens| - pos, 6
    {
      var expr :- ParseLogicalAnd();
      while pos < |tokens| && tokens[pos].kind == Or
        invariant Valid() && old(pos) < pos
        invariant FoldLevel(tokens, 0, expr, pos) == ExprAt(tokens, 0, old(pos))
        decreases |tokens| - pos
      {
        var op := tokens[pos].kind;
        pos := pos + 1;
        var right :- ParseLogicalAnd();
        expr := BinaryExpression(expr, op, right);
      }
      return Ok(expr);
    }

    method ParseLogicalAnd() returns (r: Result<Expression, ParseError>)
      requires Valid()
      modifies this
      ensures Valid() && Agrees(ExprAt(tokens, 1, old(pos)), r, pos)
      decreases |tokens| - pos, 5
    {
      var expr :- ParseEquality();
      while pos < |tokens| && tokens[pos].kind == And
        invariant Valid() && old(pos) < pos
        invariant FoldLevel(tokens, 1, expr, pos) == ExprAt(tokens, 1, old(pos))
        decreases |tokens| - pos
      {
        var op := tokens[pos].kind;
        pos := pos + 1;
        var right :- ParseEquality();
        expr := BinaryExpression(expr, op, right);
      }
      return Ok(expr);
    }

    method ParseEquality() returns (r: Result<Expression, ParseError>)
      requires Valid()
      modifies this
      ensures Valid() && Agrees(ExprAt(tokens, 2, old(pos)), r, pos)
      decreases |tokens| - pos, 4
    {
      var expr :- ParseComparison();
      while pos < |tokens| && (tokens[pos].kind == Eq || tokens[pos].kind == Neq)
        invariant Valid() && old(pos) < pos
        invariant FoldLevel(tokens, 2, expr, pos) == ExprAt(tokens, 2, old(pos))
        decreases |tokens| - pos
      {
        var op := tokens[pos].kind;
        pos := pos + 1;
        var right :- ParseComparison();
        expr := BinaryExpression(expr, op, right);
      }
      return Ok(expr);
    }

    method ParseComparison() returns (r: Result<Expression, ParseError>)
      requires Valid()
      modifies this
      ensures Valid() && Agrees(ExprAt(tokens, 3, old(pos)), r, pos)
      decreases |tokens| - pos, 3
    {
      var expr :- ParseAdditive();
      while pos < |tokens| && (tokens[pos].kind == Lt || tokens[pos].kind == Gt)
        invariant Valid() && old(pos) < pos
        invariant FoldLevel(tokens, 3, expr, pos) == ExprAt(tokens, 3, old(pos))
        decreases |tokens| - pos
      {
        var op := tokens[pos].kind;
        pos := pos + 1;
        var right :- ParseAdditive();
        expr := BinaryExpression(expr, op, right);
      }
      return Ok(expr);
    }

    method ParseAdditive() returns (r: Result<Expression, ParseError>)
      requires Valid()
      modifies this
      ensures Valid() && Agrees(ExprAt(tokens, 4, old(pos)), r, pos)
      decreases |tokens| - pos, 2
    {
      var expr :- ParseMultiplicative();
      while pos < |tokens| && (tokens[pos].kind == Plus || tokens[pos].kind == Minus)
        invariant Valid() && old(pos) < pos
        invariant FoldLevel(tokens, 4, expr, pos) == ExprAt(tokens, 4, old(pos))
        decreases |tokens| - pos
      {
        var op := tokens[pos].kind;
        pos := pos + 1;
        var right :- ParseMultiplicative();
        expr := BinaryExpression(expr, op, right);
      }
      return Ok(expr);
    }

    method ParseMultiplicative() returns (r: Result<Expression, ParseError>)
      requires Valid()
      modifies this
      ensures Valid() && Agrees(ExprAt(tokens, 5, old(pos)), r, pos)
      decreases |tokens| - pos, 1
    {
      var expr :- ParsePrimary();
      while pos < |tokens| && (tokens[pos].kind == Multiply || tokens[pos].kind == Divide)
        invariant Valid() && old(pos) < pos
        invariant FoldLevel(tokens, 5, expr, pos) == ExprAt(tokens, 5, old(pos))
        decreases |tokens| - pos
      {
        var op := tokens[pos].kind;
        pos := pos + 1;
        var right :- ParsePrimary();
        expr := BinaryExpression(expr, op, right);
      }
      return Ok(expr);
    }

    method ParsePrimary() returns (r: Result<Expression, ParseError>)
      requires Valid()
      modifies this
      ensures Valid() && Agrees(PrimaryAt(tokens, old(pos)), r, pos)
      decreases |tokens| - pos, 0
    {
      var t := tokens[pos];
      match t.kind
      case Number =>
        pos := pos + 1;
        return Ok(NumberLiteral(Decimal.Atoi(t.value)));
      case Str =>
        pos := pos + 1;
        return Ok(StringLiteral(t.value));
      case KwTrue =>
        pos := pos + 1;
        return Ok(BooleanLiteral(true));
      case KwFalse =>
        pos := pos + 1;
        return Ok(BooleanLiteral(false));
      case Ident =>
        pos := pos + 1;
        return Ok(Identifier(t.value));
      case LParen =>
        pos := pos + 1;
        var expr :- ParseExpression();
        if tokens[pos].kind != RParen {
          return Err(ExpectedClosingParen);
        }
        pos := pos + 1;
        return Ok(expr);
      case _ =>
        return Err(UnexpectedTokenInExpression);
    }
  }
}
