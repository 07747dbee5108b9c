/**
 * The three stages chained as main.go chains them: tokenize the source text,
 * parse the tokens, compile the tree for one operating system. Each stage's
 * panic becomes one variant of the pipeline's error.
 */
module Pipeline {
  import opened Wrappers
  import opened Lexing
  import opened Ast
  import opened Parsing
  import opened CodeGen
  import CodeGenProofs

  datatype PipelineError =
    | LexFailure(lex: LexError)
    | ParseFailure(parse: ParseError)
    | Internal(compile: CompileError)

  /** The assembly text for input on system os, or the first stage's error. */
  function CompileSource(input: string, os: string): Result<string, PipelineError> {
    match Tokens(input)
    case Err(e) => Err(LexFailure(e))
    case Ok(toks) =>
      match ParseTokens(toks)
      case Err(e) => Err(ParseFailure(e))
      case Ok(p) =>
        match CompileOutput(os, p)
        case Err(e) => Err(Internal(e))
        case Ok(asm) => Ok(asm)
  }

  /**
   * Whatever the input and the system, the code generator never panics on what
   * the parser hands it: the pipeline fails only where the lexer or the parser
   * fails, and succeeds whenever both do.
   */
  lemma NeverInternal(input: string, os: string)
    ensures CompileSource(input, os).Ok?
        <==> Tokens(input).Ok? && ParseTokens(Tokens(input).value).Ok?
    ensures CompileSource(input, os).Err? ==> !CompileSource(input, os).error.Internal?
  {
    if Tokens(input).Ok? {
      var toks := Tokens(input).value;
      if ParseTokens(toks).Ok? {
        var p := ParseTokens(toks).value;
        CodeGenProofs.ProgramCompiles(Initial, os, p);
      }
    }
  }
}
