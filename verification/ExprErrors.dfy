/**
 Which error: what the evaluator says about a well-formed text that has an unreadable
 numeral or a zero divisor.
 */
module ExprErrors {
  import opened Commons
  import opened ExprGrammar
  import opened ExprParser
  import opened ExprTheorems
  import EL = ExprLanguage

  /** The value computed; a quotient by zero counts as zero. */
  function Value<V>(L: Lang<V>, c: Cst): V {
    match c
    case Num(text, _) => L.number(text).0
    case Neg(_, arg) => L.neg(Value(L, arg))
    case Bin(l, op, _, r) =>
      if op.Div? && L.isZero(Value(L, r)) then L.zero else L.Binary(op, Value(L, l), Value(L, r))
    case Group(_, arg, _) => Value(L, arg)
    case Call(name, _, _, arg, _, _) => L.apply(name, Value(L, arg))
  }

  /** The last error, from left to right; a quotient errs after its operands. */
  function ErrorOf<V>(L: Lang<V>, c: Cst): Option<Error> {
    match c
    case Num(text, _) => if L.number(text).1 then None else Some(BadNumber(text))
    case Neg(_, arg) => ErrorOf(L, arg)
    case Bin(l, op, _, r) =>
      if op.Div? && L.isZero(Value(L, r)) then Some(DivisionByZero)
      else if ErrorOf(L, r).Some? then ErrorOf(L, r) else ErrorOf(L, l)
    case Group(_, arg, _) => ErrorOf(L, arg)
    case Call(_, _, _, arg, _, _) => ErrorOf(L, arg)
  }

  predicate Aborts<V>(L: Lang<V>, c: Cst) {
    c.Bin? && c.op.Div? && L.isZero(Value(L, c.right))
  }

  /** No quotient by zero is followed by another factor: the evaluator gives up such a
      product on the spot and leaves the rest of it unread. */
  predicate Straight<V>(L: Lang<V>, c: Cst) {
    match c
    case Num(_, _) => true
    case Neg(_, arg) => Straight(L, arg)
    case Bin(l, op, _, r) => Straight(L, l) && Straight(L, r) && (op.Mul? || op.Div? ==> !Aborts(L, l))
    case Group(_, arg, _) => Straight(L, arg)
    case Call(_, _, _, arg, _, _) => Straight(L, arg)
  }

  function Result<V>(L: Lang<V>, c: Cst, rest: string): Res<V> { Res(Value(L, c), rest, ErrorOf(L, c)) }

  /** Where there is no error the value is the tree's. */
  lemma {:induction false} NoError<V>(L: Lang<V>, c: Cst)
    ensures ErrorOf(L, c).None? ==> Meaningful(L, c) && Value(L, c) == Eval(L, c)
    ensures Meaningful(L, c) ==> ErrorOf(L, c).None? && Value(L, c) == Eval(L, c) && Straight(L, c)
  {
    match c
    case Num(_, _) =>
    case Neg(_, arg) => NoError(L, arg);
    case Bin(l, op, _, r) =>
      NoError(L, l);
      NoError(L, r);
    case Group(_, arg, _) => NoError(L, arg);
    case Call(_, _, _, arg, _, _) => NoError(L, arg);
  }

  lemma {:induction false} NumberResult<V>(L: Lang<V>, c: Cst, rest: string)
    requires L.Valid() && c.Num? && L.Numeral(c.text) && Follow(L, 4, rest)
    ensures Primary(L, Text(c, false) + rest) == Result(L, c, rest)
  {
    var tail := Blanks(c.gap) + rest;
    var s := c.text + tail;
    assert Text(c, false) + rest == s;
    assert c.text[0] in c.text;
    NumberSpanOf(L, c.text, tail);
    assert s[..|c.text|] == c.text && s[|c.text|..] == tail;
    SkipBlanks(c.gap, rest);
  }

  lemma {:induction false} CallResult<V>(L: Lang<V>, c: Cst, rest: string)
    requires L.Valid() && c.Call? && Wf(L, c, 4) && Straight(L, c) && Follow(L, 4, rest)
    requires OpenEnded(c) ==> rest == ""
    ensures Primary(L, Text(c, false) + rest) == Result(L, c, rest)
    decreases c, 0
  {
    var after := if c.closed then ")" + (Blanks(c.close) + rest) else "";
    var inner := Blanks(c.open) + (Text(c.arg, false) + after);
    CallText(c, after, rest);
    KnownName(L, c.name);
    UnfoldCall(L, c.name, c.gap, inner);
    OpenedResult(L, c.open, c.arg, after);
    if c.closed {
      assert after[1..] == Blanks(c.close) + rest;
      SkipBlanks(c.close, rest);
    }
  }

  lemma {:induction false} PrimaryResult<V>(L: Lang<V>, c: Cst, rest: string)
    requires L.Valid() && Wf(L, c, 4) && Straight(L, c) && Follow(L, 4, rest)
    requires OpenEnded(c) ==> rest == ""
    ensures Primary(L, Text(c, false) + rest) == Result(L, c, rest)
    decreases c, 1
  {
    match c
    case Num(_, _) => NumberResult(L, c, rest);
    case Group(_, _, _) => GroupResult(L, c, rest);
    case Call(_, _, _, _, _, _) => CallResult(L, c, rest);
  }

  lemma {:induction false} UnaryResult<V>(L: Lang<V>, c: Cst, rest: string)
    requires L.Valid() && Wf(L, c, 3) && Straight(L, c) && Follow(L, 3, rest)
    requires OpenEnded(c) ==> rest == ""
    ensures Unary(L, Text(c, false) + rest) == Result(L, c, rest)
    decreases c, 2
  {
    if c.Neg? {
      NegText(c, rest);
      Head(L, c.arg, 4, false);
      UnfoldNeg(L, c.gap, Text(c.arg, false) + rest);
      PrimaryResult(L, c.arg, rest);
    } else {
      Head(L, c, 4, false);
      PrimaryResult(L, c, rest);
    }
  }

  lemma {:induction false} PowerResult<V>(L: Lang<V>, c: Cst, rest: string)
    requires L.Valid() && Wf(L, c, 2) && Straight(L, c) && Follow(L, 2, rest)
    requires OpenEnded(c) ==> rest == ""
    ensures Power(L, Text(c, false) + rest) == Result(L, c, rest)
    decreases c, 3
  {
    if c.Bin? {
      BinText(c, rest);
      var x := Text(c.right, false) + rest;
      UnaryResult(L, c.left, c.op.Symbol(false) + (Blanks(c.gap) + x));
      Head(L, c.right, 2, false);
      UnfoldPow(L, Text(c.left, false), c.gap, x);
      PowerResult(L, c.right, rest);
    } else {
      UnaryResult(L, c, rest);
    }
  }

  /** A product leaves its value to the loop, unless it has given up. */
  function TermResult<V>(L: Lang<V>, c: Cst, rest: string): Res<V> {
    if Aborts(L, c) then Result(L, c, rest) else TermLoop(L, rest, Value(L, c), ErrorOf(L, c))
  }

  lemma {:induction false} ProductResult<V>(L: Lang<V>, c: Cst, rest: string)
    requires L.Valid() && Wf(L, c, 1) && c.Bin? && !c.op.Pow? && Straight(L, c) && Follow(L, 1, rest)
    requires OpenEnded(c) ==> rest == ""
    ensures Term(L, Text(c, false) + rest) == TermResult(L, c, rest)
    decreases c, 3
  {
    var tail := c.op.Symbol(false) + (Blanks(c.gap) + (Text(c.right, false) + rest));
    BinText(c, rest);
    TermIs(L, c.left, tail);
    Head(L, c.right, 2, false);
    SkipBlanks(c.gap, Text(c.right, false) + rest);
    PowerResult(L, c.right, rest);
  }

  lemma {:induction false} TermIs<V>(L: Lang<V>, c: Cst, rest: string)
    requires L.Valid() && Wf(L, c, 1) && Straight(L, c) && Follow(L, 1, rest)
    requires OpenEnded(c) ==> rest == ""
    ensures Term(L, Text(c, false) + rest) == TermResult(L, c, rest)
    decreases c, 4
  {
    if c.Bin? && !c.op.Pow? {
      ProductResult(L, c, rest);
    } else {
      PowerResult(L, c, rest);
    }
  }

  lemma {:induction false} SumIs<V>(L: Lang<V>, c: Cst, rest: string)
    requires L.Valid() && Wf(L, c, 0) && c.Bin? && c.op.Level() == 0 && Straight(L, c) && Follow(L, 0, rest)
    requires OpenEnded(c) ==> rest == ""
    ensures Expr(L, Text(c, false) + rest) == ExprLoop(L, rest, Value(L, c), ErrorOf(L, c))
    decreases c, 4
  {
    BinText(c, rest);
    var tail := c.op.Symbol(false) + (Blanks(c.gap) + (Text(c.right, false) + rest));
    ExprIs(L, c.left, tail);
    Head(L, c.right, 1, false);
    SkipBlanks(c.gap, Text(c.right, false) + rest);
    TermIs(L, c.right, rest);
  }

  lemma {:induction false} ExprIs<V>(L: Lang<V>, c: Cst, rest: string)
    requires L.Valid() && Wf(L, c, 0) && Straight(L, c) && Follow(L, 0, rest)
    requires OpenEnded(c) ==> rest == ""
    ensures Expr(L, Text(c, false) + rest) == ExprLoop(L, rest, Value(L, c), ErrorOf(L, c))
    decreases c, 5
  {
    if c.Bin? && c.op.Level() == 0 {
      SumIs(L, c, rest);
    } else {
      TermIs(L, c, rest);
    }
  }

  lemma {:induction false} ExprResult<V>(L: Lang<V>, c: Cst, after: string)
    requires L.Valid() && Wf(L, c, 0) && Straight(L, c) && (after == "" || after[0] == ')') && Follow(L, 0, after)
    requires OpenEnded(c) ==> after == ""
    ensures Expr(L, Text(c, false) + after) == Result(L, c, after)
    decreases c, 6
  {
    ExprIs(L, c, after);
  }

  lemma {:induction false} OpenedResult<V>(L: Lang<V>, open: nat, arg: Cst, after: string)
    requires L.Valid() && Wf(L, arg, 0) && Straight(L, arg) && Follow(L, 0, after)
    requires OpenEnded(arg) ==> after == ""
    requires after == "" || after[0] == ')'
    ensures Expr(L, Skip(Blanks(open) + (Text(arg, false) + after))) == Result(L, arg, after)
    decreases arg, 7
  {
    Head(L, arg, 0, false);
    SkipBlanks(open, Text(arg, false) + after);
    ExprResult(L, arg, after);
  }

  lemma {:induction false} GroupResult<V>(L: Lang<V>, c: Cst, rest: string)
    requires L.Valid() && c.Group? && Wf(L, c, 4) && Straight(L, c) && Follow(L, 4, rest)
    ensures Primary(L, Text(c, false) + rest) == Result(L, c, rest)
    decreases c, 0
  {
    var after := ")" + (Blanks(c.close) + rest);
    var inner := Blanks(c.open) + (Text(c.arg, false) + after);
    GroupText(c, rest);
    UnfoldGroup(L, inner);
    OpenedResult(L, c.open, c.arg, after);
    assert after[1..] == Blanks(c.close) + rest;
    SkipBlanks(c.close, rest);
  }

  /** A well-formed text in which no quotient by zero is followed by another factor
      evaluates to its value, or fails with the last of its own errors: a numeral that
      cannot be read, or a zero divisor. */
  lemma {:induction false} FailsWith<V>(L: Lang<V>, s: string, lead: nat, c: Cst)
    requires L.Valid() && EL.Spells(L, s, lead, c) && Straight(L, c)
    ensures EvalExpr(L, s) == match ErrorOf(L, c)
      case None => Ok(Eval(L, c))
      case Some(e) => Err(e)
  {
    EL.ReadFrom(L, s, lead, c);
    ExprResult(L, c, "");
    assert Text(c, false) + "" == Text(c, false);
    NoError(L, c);
  }

  /** Every numeral can be read. */
  predicate Readable<V>(L: Lang<V>, c: Cst) {
    match c
    case Num(text, _) => L.number(text).1
    case Neg(_, arg) => Readable(L, arg)
    case Bin(l, _, _, r) => Readable(L, l) && Readable(L, r)
    case Group(_, arg, _) => Readable(L, arg)
    case Call(_, _, _, arg, _, _) => Readable(L, arg)
  }

  lemma {:induction false} OnlyZeroDivisors<V>(L: Lang<V>, c: Cst)
    requires Readable(L, c)
    ensures ErrorOf(L, c) == if Meaningful(L, c) then None else Some(DivisionByZero)
  {
    NoError(L, c);
    match c
    case Num(_, _) =>
    case Neg(_, arg) => OnlyZeroDivisors(L, arg);
    case Bin(l, op, _, r) =>
      OnlyZeroDivisors(L, l);
      OnlyZeroDivisors(L, r);
      NoError(L, r);
    case Group(_, arg, _) => OnlyZeroDivisors(L, arg);
    case Call(_, _, _, arg, _, _) => OnlyZeroDivisors(L, arg);
  }

  /** A zero divisor in an otherwise readable text is reported as such, if no other
      factor follows the quotient. */
  lemma {:induction false} ZeroDivisor<V>(L: Lang<V>, s: string, lead: nat, c: Cst)
    requires L.Valid() && EL.Spells(L, s, lead, c) && Straight(L, c) && Readable(L, c) && !Meaningful(L, c)
    ensures EvalExpr(L, s) == Err(DivisionByZero)
  {
    FailsWith(L, s, lead, c);
    OnlyZeroDivisors(L, c);
  }

  // ----- when another factor follows

  lemma {:induction false} NoStars()
    ensures Skip(Desugar("(1/0*2)")) == "(1/0*2)"
  {
    var s := "(1/0*2)";
    EL.DesugarPlain("(1/0");
    EL.DesugarPlain("2)");
    assert "*2)"[1..] == "2)" && Desugar("*2)") == "*" + Desugar("2)");
    EL.DesugarConcat("(1/0", "*2)");
    assert s == "(1/0" + "*2)";
  }

  lemma {:induction false} GivesUp<V>(L: Lang<V>)
    requires L.Valid() && L.Numeral("1") && L.Numeral("0") && L.isZero(L.number("0").0)
    ensures Expr(L, Skip("1/0*2)")) == Res(L.zero, "*2)", Some(DivisionByZero))
  {
    var c := Bin(Num("1", 0), Div, 0, Num("0", 0));
    assert Text(c, false) + "*2)" == "1/0*2)" by {
      assert Text(Num("1", 0), false) == "1" && Text(Num("0", 0), false) == "0" && Blanks(0) == "";
    }
    assert "*2)"[0] in "+-*/^(). ";
    TermIs(L, c, "*2)");
  }

  lemma {:induction false} RestOfProduct<V>(L: Lang<V>, e: Error)
    requires L.Valid() && L.Numeral("2") && L.number("2").1
    ensures TermLoop(L, "*2)", L.zero, Some(e)).err == Some(e)
    ensures TermLoop(L, "*2)", L.zero, Some(e)).rest == ")"
  {
    var two := Num("2", 0);
    assert Text(two, false) + ")" == "2)" by { assert Blanks(0) == ""; }
    assert ")"[0] in "+-*/^(). ";
    PowerResult(L, two, ")");
    assert "*2)"[1..] == "2)";
    assert Skip("2)") == "2)" by { assert "2"[0] in "2"; }
  }

  lemma {:induction false} AfterGroup<V>(L: Lang<V>)
    requires L.Valid() && L.Numeral("2") && L.number("2").1
    requires Primary(L, "(1/0*2)") == Res(L.zero, "*2)", Some(MissingParenthesis))
    ensures Expr(L, "(1/0*2)").err == Some(MissingParenthesis)
  {
    RestOfProduct(L, MissingParenthesis);
    assert Power(L, "(1/0*2)") == Res(L.zero, "*2)", Some(MissingParenthesis));
    assert Term(L, "(1/0*2)") == TermLoop(L, "*2)", L.zero, Some(MissingParenthesis));
  }

  /** In `(1/0*2)` the group finds `*` where its parenthesis should be, and that is the
      error reported, not the zero divisor. */
  lemma {:induction false} FactorAfterZero<V>(L: Lang<V>)
    requires L.Valid() && L.Numeral("1") && L.Numeral("0") && L.Numeral("2")
    requires L.number("1").1 && L.number("0").1 && L.number("2").1 && L.isZero(L.number("0").0)
    ensures EvalExpr(L, "(1/0*2)") == Err(MissingParenthesis)
  {
    var x := "1/0*2)";
    NoStars();
    GivesUp(L);
    UnfoldGroup(L, x);
    assert "(" + x == "(1/0*2)";
    AfterGroup(L);
  }
}
