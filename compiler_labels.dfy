/**
 * The labels of compiler.go's output are consistent: each label the counter
 * hands out is placed by exactly one line `label_<n>:`, no other label is
 * placed, and every jump of a statement or expression names a label that the
 * same statement or expression took.
 */
module CodeGenLabels {
  import opened Wrappers
  import opened Lexing
  import opened Ast
  import opened CodeGen
  import Decimal

  // ---------------------------------------------------------------------------
  // Label names and the lines that mention them
  // ---------------------------------------------------------------------------

  /** Distinct counter values give distinct labels. */
  lemma LabelInjective(a: nat, b: nat)
    requires Label(a) == Label(b)
    ensures a == b
  {
    assert Decimal.Text(a) == Label(a)[6..];
    Decimal.TextInjective(a, b);
  }

  lemma LabelLineInjective(a: nat, b: nat)
    requires LabelLine(a) == LabelLine(b)
    ensures a == b
  {
    assert Label(a) == LabelLine(a)[..|LabelLine(a)| - 1];
    LabelInjective(a, b);
  }

  /** A line that places no label: its first character is not the 'l' of "label_". */
  predicate Unmarked(line: string) {
    |line| > 0 && line[0] != 'l'
  }

  /** The lines of code that place label k. */
  function Placements(code: seq<string>, k: nat): nat {
    multiset(code)[LabelLine(k)]
  }

  /** In lines, the labels lo+1 .. hi are placed once each and no other label is placed. */
  ghost predicate Places(lines: seq<string>, lo: nat, hi: nat) {
    forall k: nat :: Placements(lines, k) == if lo < k <= hi then 1 else 0
  }

  /** From code a to code b, labels lo+1 .. hi gained one placement each and no other label gained one. */
  ghost predicate Adds(a: seq<string>, b: seq<string>, lo: nat, hi: nat) {
    forall k: nat :: Placements(b, k) == Placements(a, k) + (if lo < k <= hi then 1 else 0)
  }

  /** From code a to code b, no label gained a placement. */
  ghost predicate Same(a: seq<string>, b: seq<string>) {
    forall k: nat :: Placements(b, k) == Placements(a, k)
  }

  /** From code a to code b, label n gained one placement and no other label gained one. */
  ghost predicate AddsOne(a: seq<string>, b: seq<string>, n: nat) {
    forall k: nat :: Placements(b, k) == Placements(a, k) + (if k == n then 1 else 0)
  }

  lemma AppendUnmarked(a: seq<string>, lines: seq<string>)
    requires forall i :: 0 <= i < |lines| ==> Unmarked(lines[i])
    ensures Same(a, a + lines)
  {
    assert multiset(a + lines) == multiset(a) + multiset(lines);
    forall k: nat ensures Placements(a + lines, k) == Placements(a, k) {
      assert LabelLine(k)[0] == 'l';
      forall i | 0 <= i < |lines| ensures lines[i] != LabelLine(k) {
        assert lines[i][0] != 'l';
      }
    }
  }

  /** The jump instructions of the output: je, jne and jmp to label k. */
  predicate JumpsTo(line: string, k: nat) {
    || line == "    je " + Label(k)
    || line == "    jne " + Label(k)
    || line == "    jmp " + Label(k)
  }

  /** A line that is no jump: it is not indented four spaces with a 'j' after them. */
  predicate Quiet(line: string) {
    |line| < 5 || line[0] != ' ' || line[4] != 'j'
  }

  /** Every jump line is four spaces and a 'j'. */
  lemma JumpShape(line: string, k: nat)
    ensures JumpsTo(line, k) ==> !Quiet(line)
  {
  }

  /** The strings before a label in the three jump instructions. */
  predicate JumpPrefix(p: string) {
    p == "    je " || p == "    jne " || p == "    jmp "
  }

  /** A jump line names one label only. */
  lemma JumpTarget(p: string, n: nat, k: nat)
    requires JumpPrefix(p) && JumpsTo(p + Label(n), k)
    ensures k == n
  {
    var line := p + Label(n);
    var q := if line == "    je " + Label(k) then "    je "
             else if line == "    jne " + Label(k) then "    jne " else "    jmp ";
    assert line == q + Label(k);
    assert line[5] == p[5] == q[5];
    assert p == q;
    assert Label(n) == line[|p|..] == Label(k);
    LabelInjective(n, k);
  }

  /** Every jump among the lines of b from index |a| on names one of the labels lo+1 .. hi. */
  ghost predicate JumpsWithin(a: seq<string>, b: seq<string>, lo: nat, hi: nat) {
    forall i, k: nat :: |a| <= i < |b| && JumpsTo(b[i], k) ==> lo < k <= hi
  }

  lemma JumpsTrans(a: seq<string>, b: seq<string>, c: seq<string>, lo: nat, lo1: nat, hi1: nat, lo2: nat, hi2: nat, hi: nat)
    requires b <= c && lo <= lo1 && lo <= lo2 && hi1 <= hi && hi2 <= hi
    requires JumpsWithin(a, b, lo1, hi1) && JumpsWithin(b, c, lo2, hi2)
    ensures JumpsWithin(a, c, lo, hi)
  {
    forall i, k: nat | |a| <= i < |c| && JumpsTo(c[i], k) ensures lo < k <= hi {
      if i < |b| {
        assert c[i] == b[i];
      }
    }
  }

  lemma AppendQuiet(a: seq<string>, lines: seq<string>, lo: nat, hi: nat)
    requires forall i :: 0 <= i < |lines| ==> Quiet(lines[i])
    ensures JumpsWithin(a, a + lines, lo, hi)
  {
    forall i, k: nat | |a| <= i < |a + lines| ensures !JumpsTo((a + lines)[i], k) {
      assert (a + lines)[i] == lines[i - |a|];
      JumpShape(lines[i - |a|], k);
    }
  }

  /** Lines that neither place a label nor jump. */
  lemma AppendPlain(a: seq<string>, lines: seq<string>, lo: nat, hi: nat)
    requires forall i :: 0 <= i < |lines| ==> Unmarked(lines[i]) && Quiet(lines[i])
    ensures Same(a, a + lines) && JumpsWithin(a, a + lines, lo, hi)
  {
    AppendUnmarked(a, lines);
    AppendQuiet(a, lines, lo, hi);
  }

  /** One jump to label m. */
  lemma AppendJump(a: seq<string>, p: string, m: nat, lo: nat, hi: nat)
    requires JumpPrefix(p) && lo < m <= hi
    ensures Same(a, a + [p + Label(m)]) && JumpsWithin(a, a + [p + Label(m)], lo, hi)
  {
    var line := p + Label(m);
    assert line[0] == ' ';
    AppendUnmarked(a, [line]);
    forall i, k: nat | |a| <= i < |a + [line]| && JumpsTo((a + [line])[i], k) ensures lo < k <= hi {
      JumpTarget(p, m, k);
    }
  }

  /** One placement of label n. */
  lemma AppendPlace(a: seq<string>, n: nat, lo: nat, hi: nat)
    ensures AddsOne(a, a + [LabelLine(n)], n) && JumpsWithin(a, a + [LabelLine(n)], lo, hi)
  {
    assert LabelLine(n)[0] == 'l';
    AppendQuiet(a, [LabelLine(n)], lo, hi);
    assert multiset(a + [LabelLine(n)]) == multiset(a) + multiset{LabelLine(n)};
    forall k: nat ensures Placements(a + [LabelLine(n)], k) == Placements(a, k) + (if k == n then 1 else 0) {
      if LabelLine(k) == LabelLine(n) {
        LabelLineInjective(k, n);
      }
    }
  }

  // ---------------------------------------------------------------------------
  // Operators
  // ---------------------------------------------------------------------------

  /** The placements of '&&' and '||': their labels in counter order, after lines that place none. */
  lemma OperatorAdds(c0: seq<string>, c1: seq<string>, c2: seq<string>, c3: seq<string>, n: nat, two: bool)
    requires Same(c0, c1) && AddsOne(c1, c2, n + 1)
    requires if two then AddsOne(c2, c3, n + 2) else Same(c2, c3)
    ensures Adds(c0, c3, n, n + if two then 2 else 1)
  {
  }

  /** Lines that place label n+1 after lines that place none. */
  lemma OnePlace(a: seq<string>, pre: seq<string>, n: nat)
    requires forall i :: 0 <= i < |pre| ==> Unmarked(pre[i])
    ensures Adds(a, a + pre + [LabelLine(n + 1)], n, n + 1)
  {
    AppendUnmarked(a, pre);
    AppendPlace(a + pre, n + 1, n, n);
    OperatorAdds(a, a + pre, a + pre + [LabelLine(n + 1)], a + pre + [LabelLine(n + 1)], n, false);
  }

  /** The placement of '&&': its one label. */
  lemma AndAdds(a: seq<string>, right: string, n: nat)
    ensures Adds(a, a + OperatorLines(And, right, n).value, n, n + 1)
  {
    var lines := OperatorLines(And, right, n).value;
    var pre := ["    cmp eax, 0", "    je " + Label(n + 1), "    cmp " + right + ", 0", "    setne al",
                "    movzx eax, al"];
    assert lines == pre + [LabelLine(n + 1)];
    assert forall i :: 0 <= i < |pre| ==> Unmarked(pre[i]);
    OnePlace(a, pre, n);
  }

  /** The jumps of '&&'. */
  lemma AndJumps(a: seq<string>, right: string, n: nat)
    ensures JumpsWithin(a, a + OperatorLines(And, right, n).value, n, n + 1)
  {
    var lines := OperatorLines(And, right, n).value;
    var rest := ["    cmp " + right + ", 0", "    setne al", "    movzx eax, al", LabelLine(n + 1)];
    var c1 := a + ["    cmp eax, 0"];
    var c2 := c1 + ["    je " + Label(n + 1)];
    assert a + lines == c2 + rest;
    assert LabelLine(n + 1)[0] == 'l';
    AppendQuiet(a, ["    cmp eax, 0"], n, n + 1);
    AppendJump(c1, "    je ", n + 1, n, n + 1);
    AppendQuiet(c2, rest, n, n + 1);
    JumpsTrans(a, c1, c2, n, n, n + 1, n, n + 1, n + 1);
    JumpsTrans(a, c2, c2 + rest, n, n, n + 1, n, n + 1, n + 1);
  }

  /** The jumps of '||'. */
  lemma OrJumps(a: seq<string>, right: string, n: nat)
    ensures JumpsWithin(a, a + OperatorLines(Or, right, n).value, n, n + 2)
  {
    var lines := OperatorLines(Or, right, n).value;
    var test := ["    cmp " + right + ", 0", "    setne al", "    movzx eax, al"];
    var c1 := a + ["    cmp eax, 0"];
    var c2 := c1 + ["    jne " + Label(n + 1)];
    var c3 := c2 + test;
    var c4 := c3 + ["    jmp " + Label(n + 2)];
    var c5 := c4 + [LabelLine(n + 1), "    mov eax, 1", LabelLine(n + 2)];
    assert a + lines == c5;
    assert LabelLine(n + 1)[0] == 'l' && LabelLine(n + 2)[0] == 'l';
    AppendQuiet(a, ["    cmp eax, 0"], n, n + 2);
    AppendJump(c1, "    jne ", n + 1, n, n + 2);
    AppendQuiet(c2, test, n, n + 2);
    AppendJump(c3, "    jmp ", n + 2, n, n + 2);
    AppendQuiet(c4, [LabelLine(n + 1), "    mov eax, 1", LabelLine(n + 2)], n, n + 2);
    JumpsTrans(a, c1, c2, n, n, n + 2, n, n + 2, n + 2);
    JumpsTrans(a, c2, c3, n, n, n + 2, n, n + 2, n + 2);
    JumpsTrans(a, c3, c4, n, n, n + 2, n, n + 2, n + 2);
    JumpsTrans(a, c4, c5, n, n, n + 2, n, n + 2, n + 2);
  }

  /** Lines that place labels n+1 and n+2, in that order, among lines that place none. */
  lemma TwoPlaces(a: seq<string>, pre: seq<string>, mid: seq<string>, n: nat)
    requires forall i :: 0 <= i < |pre| ==> Unmarked(pre[i])
    requires forall i :: 0 <= i < |mid| ==> Unmarked(mid[i])
    ensures Adds(a, a + pre + [LabelLine(n + 1)] + mid + [LabelLine(n + 2)], n, n + 2)
  {
    var c1 := a + pre;
    var c2 := c1 + [LabelLine(n + 1)];
    var c3 := c2 + mid;
    AppendUnmarked(a, pre);
    AppendPlace(c1, n + 1, n, n);
    AppendUnmarked(c2, mid);
    AppendPlace(c3, n + 2, n, n);
    OperatorAdds(a, c1, c2, c3 + [LabelLine(n + 2)], n, true);
  }

  /** The placements of '||': its two labels, in counter order. */
  lemma OrAdds(a: seq<string>, right: string, n: nat)
    ensures Adds(a, a + OperatorLines(Or, right, n).value, n, n + 2)
  {
    var lines := OperatorLines(Or, right, n).value;
    var pre := ["    cmp eax, 0", "    jne " + Label(n + 1), "    cmp " + right + ", 0", "    setne al",
                "    movzx eax, al", "    jmp " + Label(n + 2)];
    assert lines == pre + [LabelLine(n + 1)] + ["    mov eax, 1"] + [LabelLine(n + 2)];
    assert forall i :: 0 <= i < |pre| ==> Unmarked(pre[i]);
    TwoPlaces(a, pre, ["    mov eax, 1"], n);
    assert a + pre + [LabelLine(n + 1)] + ["    mov eax, 1"] + [LabelLine(n + 2)] == a + lines;
  }

  /** The lines of any other operator place no label and hold no jump. */
  lemma PlainOperatorLabels(a: seq<string>, op: TokenKind, right: string, n: nat)
    requires op != And && op != Or && OperatorLines(op, right, n).Ok?
    ensures Kept(a, a + OperatorLines(op, right, n).value, n, n)
  {
    AppendPlain(a, OperatorLines(op, right, n).value, n, n);
  }

  /** The lines of an operator place exactly the labels it takes, and jump only to them. */
  lemma OperatorLabelsPlaced(a: seq<string>, op: TokenKind, right: string, n: nat)
    requires OperatorLines(op, right, n).Ok?
    ensures Kept(a, a + OperatorLines(op, right, n).value, n, n + OperatorLabels(op))
  {
    if op == And {
      AndJumps(a, right, n);
      AndAdds(a, right, n);
    } else if op == Or {
      OrJumps(a, right, n);
      OrAdds(a, right, n);
    } else {
      PlainOperatorLabels(a, op, right, n);
    }
  }

  // ---------------------------------------------------------------------------
  // Expressions and statements
  // ---------------------------------------------------------------------------

  /**
   * From code a to code b: a stays a prefix, labels lo+1 .. hi gain one
   * placement each and no other label gains one, and every jump among the new
   * lines names one of lo+1 .. hi.
   */
  ghost predicate Kept(a: seq<string>, b: seq<string>, lo: nat, hi: nat) {
    a <= b && lo <= hi && Adds(a, b, lo, hi) && JumpsWithin(a, b, lo, hi)
  }

  lemma KeptTrans(a: seq<string>, b: seq<string>, c: seq<string>, lo: nat, mid: nat, hi: nat)
    requires Kept(a, b, lo, mid) && Kept(b, c, mid, hi)
    ensures Kept(a, c, lo, hi)
  {
    JumpsTrans(a, b, c, lo, lo, mid, mid, hi, hi);
  }

  /** `mov eax, <left>` and the operator's lines after it. */
  lemma OperatorStep(c: seq<string>, left: string, op: TokenKind, right: string, n: nat)
    requires OperatorLines(op, right, n).Ok?
    ensures Kept(c, c + ["    mov eax, " + left] + OperatorLines(op, right, n).value, n, n + OperatorLabels(op))
  {
    var moved := c + ["    mov eax, " + left];
    AppendPlain(c, ["    mov eax, " + left], n, n);
    OperatorLabelsPlaced(moved, op, right, n);
    KeptTrans(c, moved, moved + OperatorLines(op, right, n).value, n, n, n + OperatorLabels(op));
  }

  /** An expression places exactly the labels it takes, and jumps only to them. */
  lemma {:induction false} ExprLabels(st: CState, e: Expression)
    requires CompileExpr(st, e).Ok?
    ensures Kept(st.code, CompileExpr(st, e).value.after.code, st.labelCount, CompileExpr(st, e).value.after.labelCount)
    decreases e
  {
    match e
    case BinaryExpression(a, op, b) =>
      var left := CompileExpr(st, a).value;
      var right := CompileExpr(left.after, b).value;
      var n := right.after.labelCount;
      ExprLabels(st, a);
      ExprLabels(left.after, b);
      KeptTrans(st.code, left.after.code, right.after.code, st.labelCount, left.after.labelCount, n);
      OperatorStep(right.after.code, left.operand, op, right.operand, n);
      KeptTrans(st.code, right.after.code, CompileExpr(st, e).value.after.code, st.labelCount, n, n + OperatorLabels(op));
    case _ =>
  }

  /** The test after a condition: compare with zero and jump to label m when false. */
  lemma AppendTest(a: seq<string>, operand: string, m: nat, lo: nat, hi: nat)
    requires lo < m <= hi
    ensures var b := a + ["    cmp " + operand + ", 0", "    je " + Label(m)];
      Same(a, b) && JumpsWithin(a, b, lo, hi)
  {
    var c1 := a + ["    cmp " + operand + ", 0"];
    AppendPlain(a, ["    cmp " + operand + ", 0"], lo, hi);
    AppendJump(c1, "    je ", m, lo, hi);
    assert c1 + ["    je " + Label(m)] == a + ["    cmp " + operand + ", 0", "    je " + Label(m)];
    JumpsTrans(a, c1, c1 + ["    je " + Label(m)], lo, lo, hi, lo, hi, hi);
  }

  /** A jump to label m, then the placement of label n. */
  lemma AppendJumpPlace(a: seq<string>, p: string, m: nat, n: nat, lo: nat, hi: nat)
    requires JumpPrefix(p) && lo < m <= hi
    ensures var b := a + [p + Label(m), LabelLine(n)];
      AddsOne(a, b, n) && JumpsWithin(a, b, lo, hi)
  {
    var c1 := a + [p + Label(m)];
    AppendJump(a, p, m, lo, hi);
    AppendPlace(c1, n, lo, hi);
    assert c1 + [LabelLine(n)] == a + [p + Label(m), LabelLine(n)];
    JumpsTrans(a, c1, c1 + [LabelLine(n)], lo, lo, hi, lo, hi, hi);
  }

  /**
   * The placements of an if statement: its condition's labels, its own two
   * labels around the then-branch's, then the else-branch's.
   */
  lemma IfAdds(c0: seq<string>, c1: seq<string>, c2: seq<string>, c3: seq<string>, c4: seq<string>,
               c5: seq<string>, c6: seq<string>, lo: nat, n: nat, m1: nat, m2: nat)
    requires lo <= n && n + 2 <= m1 <= m2
    requires Adds(c0, c1, lo, n) && Same(c1, c2) && Adds(c2, c3, n + 2, m1) && AddsOne(c3, c4, n + 1)
    requires Adds(c4, c5, m1, m2) && AddsOne(c5, c6, n + 2)
    ensures Adds(c0, c6, lo, m2)
  {
  }

  /** The jumps of an if statement. */
  lemma IfJumps(c0: seq<string>, c1: seq<string>, c2: seq<string>, c3: seq<string>, c4: seq<string>,
                c5: seq<string>, c6: seq<string>, lo: nat, n: nat, m1: nat, m2: nat)
    requires lo <= n && n + 2 <= m1 <= m2
    requires c1 <= c2 <= c3 <= c4 <= c5 <= c6
    requires JumpsWithin(c0, c1, lo, n) && JumpsWithin(c1, c2, n, n + 2) && JumpsWithin(c2, c3, n + 2, m1)
    requires JumpsWithin(c3, c4, n, n + 2) && JumpsWithin(c4, c5, m1, m2) && JumpsWithin(c5, c6, n, n + 2)
    ensures JumpsWithin(c0, c6, lo, m2)
  {
    JumpsTrans(c0, c1, c2, lo, lo, n, n, n + 2, m2);
    JumpsTrans(c0, c2, c3, lo, lo, m2, n + 2, m1, m2);
    JumpsTrans(c0, c3, c4, lo, lo, m2, n, n + 2, m2);
    JumpsTrans(c0, c4, c5, lo, lo, m2, m1, m2, m2);
    JumpsTrans(c0, c5, c6, lo, lo, m2, n, n + 2, m2);
  }

  lemma IfAssemble(c0: seq<string>, c1: seq<string>, c2: seq<string>, c3: seq<string>, c4: seq<string>,
                   c5: seq<string>, c6: seq<string>, lo: nat, n: nat, m1: nat, m2: nat)
    requires Kept(c0, c1, lo, n)
    requires c1 <= c2 && Same(c1, c2) && JumpsWithin(c1, c2, n, n + 2)
    requires Kept(c2, c3, n + 2, m1)
    requires c3 <= c4 && AddsOne(c3, c4, n + 1) && JumpsWithin(c3, c4, n, n + 2)
    requires Kept(c4, c5, m1, m2)
    requires c5 <= c6 && AddsOne(c5, c6, n + 2) && JumpsWithin(c5, c6, n, n + 2)
    ensures Kept(c0, c6, lo, m2)
  {
    IfAdds(c0, c1, c2, c3, c4, c5, c6, lo, n, m1, m2);
    IfJumps(c0, c1, c2, c3, c4, c5, c6, lo, n, m1, m2);
  }

  /** An if statement's own lines around the code of its condition and branches. */
  lemma IfKept(c0: seq<string>, c1: seq<string>, operand: string, c3: seq<string>, c5: seq<string>,
               lo: nat, n: nat, m1: nat, m2: nat)
    requires Kept(c0, c1, lo, n)
    requires Kept(c1 + ["    cmp " + operand + ", 0", "    je " + Label(n + 1)], c3, n + 2, m1)
    requires Kept(c3 + ["    jmp " + Label(n + 2), LabelLine(n + 1)], c5, m1, m2)
    ensures Kept(c0, c5 + [LabelLine(n + 2)], lo, m2)
  {
    AppendTest(c1, operand, n + 1, n, n + 2);
    AppendJumpPlace(c3, "    jmp ", n + 2, n + 1, n, n + 2);
    AppendPlace(c5, n + 2, n, n + 2);
    IfAssemble(c0, c1, c1 + ["    cmp " + operand + ", 0", "    je " + Label(n + 1)], c3,
      c3 + ["    jmp " + Label(n + 2), LabelLine(n + 1)], c5, c5 + [LabelLine(n + 2)], lo, n, m1, m2);
  }

  /** The placements of a while statement: its start label, its condition's labels, its body's, its end label. */
  lemma WhileAdds(c0: seq<string>, c1: seq<string>, c2: seq<string>, c3: seq<string>, c4: seq<string>,
                  c5: seq<string>, n: nat, m1: nat, m2: nat)
    requires n + 2 <= m1 <= m2
    requires AddsOne(c0, c1, n + 1) && Adds(c1, c2, n + 2, m1) && Same(c2, c3) && Adds(c3, c4, m1, m2)
    requires AddsOne(c4, c5, n + 2)
    ensures Adds(c0, c5, n, m2)
  {
  }

  /** The jumps of a while statement. */
  lemma WhileJumps(c0: seq<string>, c1: seq<string>, c2: seq<string>, c3: seq<string>, c4: seq<string>,
                   c5: seq<string>, n: nat, m1: nat, m2: nat)
    requires n + 2 <= m1 <= m2
    requires c1 <= c2 <= c3 <= c4 <= c5
    requires JumpsWithin(c0, c1, n, n + 2) && JumpsWithin(c1, c2, n + 2, m1) && JumpsWithin(c2, c3, n, n + 2)
    requires JumpsWithin(c3, c4, m1, m2) && JumpsWithin(c4, c5, n, n + 2)
    ensures JumpsWithin(c0, c5, n, m2)
  {
    JumpsTrans(c0, c1, c2, n, n, n + 2, n + 2, m1, m2);
    JumpsTrans(c0, c2, c3, n, n, m2, n, n + 2, m2);
    JumpsTrans(c0, c3, c4, n, n, m2, m1, m2, m2);
    JumpsTrans(c0, c4, c5, n, n, m2, n, n + 2, m2);
  }

  lemma WhileAssemble(c0: seq<string>, c1: seq<string>, c2: seq<string>, c3: seq<string>, c4: seq<string>,
                      c5: seq<string>, n: nat, m1: nat, m2: nat)
    requires c0 <= c1 && AddsOne(c0, c1, n + 1) && JumpsWithin(c0, c1, n, n + 2)
    requires Kept(c1, c2, n + 2, m1) && m1 <= m2
    requires c2 <= c3 && Same(c2, c3) && JumpsWithin(c2, c3, n, n + 2)
    requires Kept(c3, c4, m1, m2)
    requires c4 <= c5 && AddsOne(c4, c5, n + 2) && JumpsWithin(c4, c5, n, n + 2)
    ensures Kept(c0, c5, n, m2)
  {
    WhileAdds(c0, c1, c2, c3, c4, c5, n, m1, m2);
    WhileJumps(c0, c1, c2, c3, c4, c5, n, m1, m2);
  }

  /** A while statement's own lines around the code of its condition and body. */
  lemma WhileKept(c0: seq<string>, n: nat, c2: seq<string>, operand: string, c4: seq<string>, m1: nat, m2: nat)
    requires Kept(c0 + [LabelLine(n + 1)], c2, n + 2, m1)
    requires Kept(c2 + ["    cmp " + operand + ", 0", "    je " + Label(n + 2)], c4, m1, m2)
    ensures Kept(c0, c4 + ["    jmp " + Label(n + 1), LabelLine(n + 2)], n, m2)
  {
    WhileHead(c0, n);
    AppendTest(c2, operand, n + 2, n, n + 2);
    AppendJumpPlace(c4, "    jmp ", n + 1, n + 2, n, n + 2);
    WhileAssemble(c0, c0 + [LabelLine(n + 1)], c2, c2 + ["    cmp " + operand + ", 0", "    je " + Label(n + 2)],
      c4, c4 + ["    jmp " + Label(n + 1), LabelLine(n + 2)], n, m1, m2);
  }

  /** The start label of a while statement. */
  lemma WhileHead(c0: seq<string>, n: nat)
    ensures var c1 := c0 + [LabelLine(n + 1)];
      c0 <= c1 && AddsOne(c0, c1, n + 1) && JumpsWithin(c0, c1, n, n + 2)
  {
    AppendPlace(c0, n + 1, n, n + 2);
  }

  /** A statement places exactly the labels it takes, and jumps only to them. */
  lemma {:induction false} StmtLabels(st: CState, s: Statement)
    requires CompileStmt(st, s).Ok?
    ensures Kept(st.code, CompileStmt(st, s).value.code, st.labelCount, CompileStmt(st, s).value.labelCount)
    decreases s, 1
  {
    match s
    case Assignment(x, e) =>
      var value := CompileExpr(st, e).value;
      ExprLabels(st, e);
      AppendPlain(value.after.code, ["    mov [var_" + x + "], " + value.operand], value.after.labelCount,
        value.after.labelCount);
      KeptTrans(st.code, value.after.code, CompileStmt(st, s).value.code, st.labelCount,
        value.after.labelCount, value.after.labelCount);
    case PrintStatement(e) =>
      var value := CompileExpr(st, e).value;
      ExprLabels(st, e);
      AppendPlain(value.after.code, ["    push " + value.operand, "    call print_int", "    add esp, 4"],
        value.after.labelCount, value.after.labelCount);
      KeptTrans(st.code, value.after.code, CompileStmt(st, s).value.code, st.labelCount,
        value.after.labelCount, value.after.labelCount);
    case IfStatement(c, t, el) =>
      IfLabels(st, c, t, el);
    case WhileStatement(c, b) =>
      WhileLabels(st, c, b);
    case BlockStatement(b) =>
      ListLabels(st, b.statements);
  }

  lemma {:induction false} IfLabels(st: CState, c: Expression, t: Block, el: Option<Block>)
    requires CompileStmt(st, IfStatement(c, t, el)).Ok?
    ensures var after := CompileStmt(st, IfStatement(c, t, el)).value;
      Kept(st.code, after.code, st.labelCount, after.labelCount)
    decreases IfStatement(c, t, el), 0
  {
    var cond := CompileExpr(st, c).value;
    var n := cond.after.labelCount;
    var head := Append(cond.after.(labelCount := n + 2), ["    cmp " + cond.operand + ", 0", "    je " + Label(n + 1)]);
    var thenDone := CompileList(head, t.statements).value;
    var mid := Append(thenDone, ["    jmp " + Label(n + 2), Label(n + 1) + ":"]);
    var elseDone := CompileElse(mid, el).value;
    assert CompileStmt(st, IfStatement(c, t, el)) == Ok(Append(elseDone, [Label(n + 2) + ":"]));
    ExprLabels(st, c);
    ListLabels(head, t.statements);
    ElseLabels(mid, el);
    IfKept(st.code, cond.after.code, cond.operand, thenDone.code, elseDone.code,
      st.labelCount, n, thenDone.labelCount, elseDone.labelCount);
  }

  lemma {:induction false} WhileLabels(st: CState, c: Expression, b: Block)
    requires CompileStmt(st, WhileStatement(c, b)).Ok?
    ensures var after := CompileStmt(st, WhileStatement(c, b)).value;
      Kept(st.code, after.code, st.labelCount, after.labelCount)
    decreases WhileStatement(c, b), 0
  {
    var n := st.labelCount;
    var top := Append(st.(labelCount := n + 2), [Label(n + 1) + ":"]);
    var cond := CompileExpr(top, c).value;
    var head := Append(cond.after, ["    cmp " + cond.operand + ", 0", "    je " + Label(n + 2)]);
    var bodyDone := CompileList(head, b.statements).value;
    assert CompileStmt(st, WhileStatement(c, b)) == Ok(Append(bodyDone, ["    jmp " + Label(n + 1), Label(n + 2) + ":"]));
    ExprLabels(top, c);
    ListLabels(head, b.statements);
    WhileKept(st.code, n, cond.after.code, cond.operand, bodyDone.code, cond.after.labelCount, bodyDone.labelCount);
  }

  lemma {:induction false} ElseLabels(st: CState, el: Option<Block>)
    requires CompileElse(st, el).Ok?
    ensures Kept(st.code, CompileElse(st, el).value.code, st.labelCount, CompileElse(st, el).value.labelCount)
    decreases el, 1
  {
    if el.Some? {
      ListLabels(st, el.value.statements);
    }
  }

  lemma {:induction false} ListLabels(st: CState, ss: seq<Statement>)
    requires CompileList(st, ss).Ok?
    ensures Kept(st.code, CompileList(st, ss).value.code, st.labelCount, CompileList(st, ss).value.labelCount)
    decreases ss
  {
    if ss != [] {
      var next := CompileStmt(st, ss[0]).value;
      StmtLabels(st, ss[0]);
      ListLabels(next, ss[1..]);
      KeptTrans(st.code, next.code, CompileList(next, ss[1..]).value.code, st.labelCount, next.labelCount,
        CompileList(next, ss[1..]).value.labelCount);
    }
  }

  // ---------------------------------------------------------------------------
  // Whole programs
  // ---------------------------------------------------------------------------

  lemma FrameLines(os: string)
    ensures forall i :: 0 <= i < |Prologue(os)| ==> Unmarked(Prologue(os)[i]) && Quiet(Prologue(os)[i])
    ensures forall i :: 0 <= i < |Epilogue(os)| ==> Unmarked(Epilogue(os)[i]) && Quiet(Epilogue(os)[i])
  {
  }

  /**
   * In the output of a fresh compiler, labels 1 .. labelCount are each placed
   * by exactly one line and no other label is placed; every jump names one of
   * them, so every jump has exactly one target.
   */
  lemma ProgramLabels(os: string, p: Program)
    requires CompileProgram(Initial, os, p).Ok?
    ensures var done := CompileProgram(Initial, os, p).value;
      && Places(done.code, 0, done.labelCount)
      && (forall i, k: nat :: 0 <= i < |done.code| && JumpsTo(done.code[i], k) ==> Placements(done.code, k) == 1)
  {
    var start := Append(Initial, Prologue(os));
    var body := CompileList(start, p.statements).value;
    var done := Append(body, Epilogue(os));
    assert CompileProgram(Initial, os, p) == Ok(done);
    FrameLines(os);
    AppendPlain([], Prologue(os), 0, 0);
    assert [] + Prologue(os) == start.code;
    ListLabels(start, p.statements);
    AppendPlain(body.code, Epilogue(os), body.labelCount, body.labelCount);
    KeptTrans([], start.code, body.code, 0, 0, body.labelCount);
    KeptTrans([], body.code, done.code, 0, body.labelCount, body.labelCount);
    assert Places([], 0, 0);
    forall i, k: nat | 0 <= i < |done.code| && JumpsTo(done.code[i], k) ensures Placements(done.code, k) == 1 {
    }
  }
}
