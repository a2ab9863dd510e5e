/**
 What the evaluator accepts, and with which value: exactly the texts of
 well-formed trees (with open calls allowed only at the very end).
 */
module ExprTheorems {
  import opened Commons
  import opened ExprGrammar
  import opened ExprParser

  // ----- layout

  lemma {:induction false} SkipBlanks(n: nat, s: string)
    requires !StartsWith(s, ' ')
    ensures Skip(Blanks(n) + s) == s
  {
    if n == 0 {
      assert Blanks(0) + s == s;
    } else {
      assert (Blanks(n) + s)[1..] == Blanks(n - 1) + s;
      SkipBlanks(n - 1, s);
    }
  }

  /** What `Skip` passes over is a run of blanks. */
  lemma {:induction false} Skipped(s: string) returns (n: nat)
    ensures s == Blanks(n) + Skip(s)
  {
    if StartsWith(s, ' ') {
      var m := Skipped(s[1..]);
      n := m + 1;
      assert s == [' '] + s[1..];
      assert [' '] + Blanks(m) == Blanks(n);
    } else {
      n := 0;
      assert Blanks(0) + s == s;
    }
  }

  /** A text begins with a token: never a blank, an operator other than a sign,
      or a closing parenthesis; a primary does not begin with a sign either. */
  lemma {:induction false} Head<V>(L: Lang<V>, c: Cst, level: nat, source: bool)
    requires L.Valid() && Wf(L, c, level)
    ensures var t := Text(c, source);
      t != "" && t[0] != ' ' && t[0] != '*' && (level == 4 ==> t[0] != '-')
  {
    match c
    case Num(text, gap) =>
      assert text[0] in text;
    case Bin(l, op, gap, r) => Head(L, l, if op.Pow? then 3 else op.Level(), source);
    case Call(name, gap, open, arg, closed, close) =>
      assert name[0] in name;
    case _ =>
  }

  /** The character after a text that was read at `level` does not continue it. */
  predicate Follow<V>(L: Lang<V>, level: nat, rest: string) {
    rest == "" ||
    var h := rest[0];
    && !L.digit(h) && h != '.' && h != ' '
    && (level <= 2 ==> h != '^')
    && (level == 0 ==> h != '*' && h != '/')
  }

  // ----- completeness: every well-formed text is read back as its tree

  /** How reading went: the tree's value and the rest, or some error. */
  ghost predicate Reads<V>(L: Lang<V>, c: Cst, r: Res<V>, want: Res<V>) {
    if Meaningful(L, c) then r == want else r.err.Some?
  }

  lemma {:induction false} TermLoopSticky<V>(L: Lang<V>, s: string, v: V, err: Option<Error>)
    requires err.Some?
    ensures TermLoop(L, s, v, err).err.Some?
    decreases |s|
  {
    if StartsWith(s, '*') {
      var f := Power(L, Skip(s[1..]));
      TermLoopSticky(L, f.rest, L.mul(v, f.v), Later(err, f.err));
    } else if StartsWith(s, '/') {
      var d := Power(L, Skip(s[1..]));
      if !L.isZero(d.v) {
        TermLoopSticky(L, d.rest, L.div(v, d.v), Later(err, d.err));
      }
    }
  }

  lemma {:induction false} BadFactor<V>(L: Lang<V>, s: string, v: V)
    requires (StartsWith(s, '*') || StartsWith(s, '/')) && Power(L, Skip(s[1..])).err.Some?
    ensures TermLoop(L, s, v, None).err.Some?
  {
    var p := Power(L, Skip(s[1..]));
    TermLoopSticky(L, p.rest, L.mul(v, p.v), p.err);
    TermLoopSticky(L, p.rest, L.div(v, p.v), p.err);
  }

  lemma {:induction false} ExprLoopSticky<V>(L: Lang<V>, s: string, v: V, err: Option<Error>)
    requires err.Some?
    ensures ExprLoop(L, s, v, err).err.Some?
    decreases |s|
  {
    if StartsWith(s, '+') {
      var t := Term(L, Skip(s[1..]));
      ExprLoopSticky(L, t.rest, L.add(v, t.v), Later(err, t.err));
    } else if StartsWith(s, '-') {
      var t := Term(L, Skip(s[1..]));
      ExprLoopSticky(L, t.rest, L.sub(v, t.v), Later(err, t.err));
    }
  }

  lemma {:induction false} BadTerm<V>(L: Lang<V>, s: string, v: V)
    requires (StartsWith(s, '+') || StartsWith(s, '-')) && Term(L, Skip(s[1..])).err.Some?
    ensures ExprLoop(L, s, v, None).err.Some?
  {
    var t := Term(L, Skip(s[1..]));
    ExprLoopSticky(L, t.rest, L.add(v, t.v), t.err);
    ExprLoopSticky(L, t.rest, L.sub(v, t.v), t.err);
  }

  lemma {:induction false} NumberSpanOf<V>(L: Lang<V>, text: string, rest: string)
    requires forall c | c in text :: L.digit(c) || c == '.'
    requires rest == "" || !(L.digit(rest[0]) || rest[0] == '.')
    ensures NumberSpan(L, text + rest) == |text|
  {
    if text == "" {
      assert text + rest == rest;
    } else {
      assert text[0] in text;
      assert (text + rest)[1..] == text[1..] + rest;
      NumberSpanOf(L, text[1..], rest);
    }
  }

  lemma {:induction false} NameSpanOf<V>(L: Lang<V>, text: string, rest: string)
    requires forall c | c in text :: L.letter(c)
    requires rest == "" || !L.letter(rest[0])
    ensures NameSpan(L, text + rest) == |text|
  {
    if text == "" {
      assert text + rest == rest;
    } else {
      assert text[0] in text;
      assert (text + rest)[1..] == text[1..] + rest;
      NameSpanOf(L, text[1..], rest);
    }
  }

  lemma {:induction false} ReadNumber<V>(L: Lang<V>, c: Cst, rest: string)
    requires L.Valid() && c.Num? && L.Numeral(c.text)
    requires Follow(L, 4, rest)
    ensures Reads(L, c, Primary(L, Text(c, false) + rest), Res(Eval(L, c), rest, None))
  {
    var tail := Blanks(c.gap) + rest;
    var s := c.text + tail;
    assert Text(c, false) + rest == s;
    assert c.text[0] in c.text;
    NumberSpanOf(L, c.text, tail);
    assert s[..|c.text|] == c.text && s[|c.text|..] == tail;
    SkipBlanks(c.gap, rest);
  }

  /** The right operand of `op`, from just after the operator's symbol. */
  lemma {:induction false} BinText(c: Cst, rest: string)
    requires c.Bin?
    ensures var tail := c.op.Symbol(false) + (Blanks(c.gap) + (Text(c.right, false) + rest));
      && Text(c, false) + rest == Text(c.left, false) + tail
      && tail[0] == c.op.Symbol(false)[0]
      && tail[1..] == Blanks(c.gap) + (Text(c.right, false) + rest)
  {
    var tail := c.op.Symbol(false) + (Blanks(c.gap) + (Text(c.right, false) + rest));
    assert Text(c, false) + rest == Text(c.left, false) + tail;
  }

  lemma {:induction false} NegText(c: Cst, rest: string)
    requires c.Neg?
    ensures Text(c, false) + rest == "-" + (Blanks(c.gap) + (Text(c.arg, false) + rest))
  {
  }

  lemma {:induction false} UnfoldNeg<V>(L: Lang<V>, gap: nat, x: string)
    requires !StartsWith(x, ' ')
    ensures var r := Primary(L, x);
      Unary(L, "-" + (Blanks(gap) + x)) == r.(v := L.neg(r.v))
  {
    assert ("-" + (Blanks(gap) + x))[1..] == Blanks(gap) + x;
    SkipBlanks(gap, x);
  }

  lemma {:induction false} UnfoldGroup<V>(L: Lang<V>, x: string)
    ensures var r := Expr(L, Skip(x));
      Primary(L, "(" + x) == if StartsWith(r.rest, ')') then r.(rest := Skip(r.rest[1..]))
                             else r.(err := Some(MissingParenthesis))
  {
    assert ("(" + x)[1..] == x;
  }

  lemma {:induction false} GroupText(c: Cst, rest: string)
    requires c.Group?
    ensures Text(c, false) + rest ==
      "(" + (Blanks(c.open) + (Text(c.arg, false) + (")" + (Blanks(c.close) + rest))))
  {
  }

  lemma {:induction false} KnownName<V>(L: Lang<V>, name: string)
    requires L.Valid() && name in FUNCTIONS
    ensures name != "" && forall c | c in name :: L.letter(c)
    ensures !L.digit(name[0]) && name[0] != '(' && name[0] != '.' && name[0] != '*'
  {
    assert name[0] in name;
  }

  lemma {:induction false} CallText(c: Cst, after: string, rest: string)
    requires c.Call?
    requires c.closed ==> after == ")" + (Blanks(c.close) + rest)
    requires !c.closed ==> rest == after
    ensures Text(c, false) + rest ==
      c.name + (Blanks(c.gap) + ("(" + (Blanks(c.open) + (Text(c.arg, false) + after))))
  {
  }

  lemma {:induction false} UnfoldCall<V>(L: Lang<V>, name: string, gap: nat, x: string)
    requires name in FUNCTIONS && name != "" && forall c | c in name :: L.letter(c)
    requires !L.digit(name[0]) && name[0] != '(' && name[0] != '.'
    requires !L.letter(' ') && !L.letter('(')
    ensures var r := Expr(L, Skip(x));
      Primary(L, name + (Blanks(gap) + ("(" + x))) ==
      Res(L.apply(name, r.v), if StartsWith(r.rest, ')') then Skip(r.rest[1..]) else r.rest, r.err)
  {
    var tail := Blanks(gap) + ("(" + x);
    var s := name + tail;
    assert s[0] == name[0];
    NameSpanOf(L, name, tail);
    assert s[..|name|] == name && s[|name|..] == tail;
    SkipBlanks(gap, "(" + x);
    assert ("(" + x)[1..] == x;
  }

  lemma {:induction false} ReadGroup<V>(L: Lang<V>, c: Cst, rest: string)
    requires L.Valid() && c.Group? && Wf(L, c, 4)
    requires Follow(L, 4, rest)
    ensures Reads(L, c, Primary(L, Text(c, false) + rest), Res(Eval(L, c), rest, None))
    decreases c, 0
  {
    var after := ")" + (Blanks(c.close) + rest);
    var inner := Blanks(c.open) + (Text(c.arg, false) + after);
    GroupText(c, rest);
    UnfoldGroup(L, inner);
    ReadOpened(L, c.open, c.arg, after);
    assert after[1..] == Blanks(c.close) + rest;
    SkipBlanks(c.close, rest);
  }

  lemma {:induction false} ReadPrimary<V>(L: Lang<V>, c: Cst, rest: string)
    requires L.Valid() && Wf(L, c, 4)
    requires Follow(L, 4, rest)
    requires OpenEnded(c) ==> rest == ""
    ensures Reads(L, c, Primary(L, Text(c, false) + rest), Res(Eval(L, c), rest, None))
    decreases c, 1
  {
    match c
    case Num(text, gap) => ReadNumber(L, c, rest);
    case Group(open, arg, close) => ReadGroup(L, c, rest);
    case Call(name, gap, open, arg, closed, close) => ReadCall(L, c, rest);
  }

  lemma {:induction false} ReadUnary<V>(L: Lang<V>, c: Cst, rest: string)
    requires L.Valid() && Wf(L, c, 3)
    requires Follow(L, 3, rest)
    requires OpenEnded(c) ==> rest == ""
    ensures Reads(L, c, Unary(L, Text(c, false) + rest), Res(Eval(L, c), rest, None))
    decreases c, 2
  {
    if c.Neg? {
      var x := Text(c.arg, false) + rest;
      NegText(c, rest);
      Head(L, c.arg, 4, false);
      UnfoldNeg(L, c.gap, x);
      ReadPrimary(L, c.arg, rest);
    } else {
      Head(L, c, 4, false);
      ReadPrimary(L, c, rest);
    }
  }

  lemma {:induction false} UnfoldPow<V>(L: Lang<V>, base: string, gap: nat, x: string)
    requires !StartsWith(x, ' ')
    ensures var s := base + ("^" + (Blanks(gap) + x));
      var b, e := Unary(L, s), Power(L, x);
      b.rest == "^" + (Blanks(gap) + x) ==>
        Power(L, s) == Res(L.pow(b.v, e.v), e.rest, Later(b.err, e.err))
    ensures var s := base + ("^" + (Blanks(gap) + x));
      Unary(L, s).err.Some? ==> Power(L, s).err.Some?
  {
    assert ("^" + (Blanks(gap) + x))[1..] == Blanks(gap) + x;
    SkipBlanks(gap, x);
  }

  lemma {:induction false} ReadPower<V>(L: Lang<V>, c: Cst, rest: string)
    requires L.Valid() && Wf(L, c, 2)
    requires Follow(L, 2, rest)
    requires OpenEnded(c) ==> rest == ""
    ensures Reads(L, c, Power(L, Text(c, false) + rest), Res(Eval(L, c), rest, None))
    decreases c, 3
  {
    if c.Bin? {
      BinText(c, rest);
      var x := Text(c.right, false) + rest;
      ReadUnary(L, c.left, c.op.Symbol(false) + (Blanks(c.gap) + x));
      Head(L, c.right, 2, false);
      UnfoldPow(L, Text(c.left, false), c.gap, x);
      ReadPower(L, c.right, rest);
    } else {
      ReadUnary(L, c, rest);
    }
  }

  lemma {:induction false} ReadProduct<V>(L: Lang<V>, c: Cst, rest: string)
    requires L.Valid() && Wf(L, c, 1) && c.Bin? && !c.op.Pow?
    requires Follow(L, 1, rest)
    requires OpenEnded(c) ==> rest == ""
    ensures Reads(L, c, Term(L, Text(c, false) + rest), TermLoop(L, rest, Eval(L, c), None))
    decreases c, 3
  {
    var tail := c.op.Symbol(false) + (Blanks(c.gap) + (Text(c.right, false) + rest));
    BinText(c, rest);
    ReadTerm(L, c.left, tail);
    Head(L, c.right, 2, false);
    SkipBlanks(c.gap, Text(c.right, false) + rest);
    ReadPower(L, c.right, rest);
    if Meaningful(L, c.left) && !Meaningful(L, c.right) {
      BadFactor(L, tail, Eval(L, c.left));
    }
  }

  lemma {:induction false} ReadTerm<V>(L: Lang<V>, c: Cst, rest: string)
    requires L.Valid() && Wf(L, c, 1)
    requires Follow(L, 1, rest)
    requires OpenEnded(c) ==> rest == ""
    ensures Reads(L, c, Term(L, Text(c, false) + rest), TermLoop(L, rest, Eval(L, c), None))
    decreases c, 4
  {
    if c.Bin? && !c.op.Pow? {
      ReadProduct(L, c, rest);
    } else {
      ReadPower(L, c, rest);
      if !Meaningful(L, c) {
        var p := Power(L, Text(c, false) + rest);
        TermLoopSticky(L, p.rest, p.v, p.err);
      }
    }
  }

  lemma {:induction false} ReadExpr<V>(L: Lang<V>, c: Cst, rest: string)
    requires L.Valid() && Wf(L, c, 0)
    requires Follow(L, 0, rest)
    requires OpenEnded(c) ==> rest == ""
    ensures Reads(L, c, Expr(L, Text(c, false) + rest), ExprLoop(L, rest, Eval(L, c), None))
    decreases c, 5
  {
    if c.Bin? && c.op.Level() == 0 {
      BinText(c, rest);
      var tail := c.op.Symbol(false) + (Blanks(c.gap) + (Text(c.right, false) + rest));
      ReadExpr(L, c.left, tail);
      Head(L, c.right, 1, false);
      SkipBlanks(c.gap, Text(c.right, false) + rest);
      ReadTerm(L, c.right, rest);
      if Meaningful(L, c.left) && !Meaningful(L, c.right) {
        BadTerm(L, tail, Eval(L, c.left));
      }
    } else {
      ReadTerm(L, c, rest);
      if !Meaningful(L, c) {
        var t := Term(L, Text(c, false) + rest);
        ExprLoopSticky(L, t.rest, t.v, t.err);
      }
    }
  }

  /** Reading `( arg`: the argument and then whatever follows it. */
  lemma {:induction false} ReadOpened<V>(L: Lang<V>, open: nat, arg: Cst, after: string)
    requires L.Valid() && Wf(L, arg, 0)
    requires Follow(L, 0, after)
    requires OpenEnded(arg) ==> after == ""
    requires after == "" || after[0] == ')'
    ensures Reads(L, arg, Expr(L, Skip(Blanks(open) + (Text(arg, false) + after))), Res(Eval(L, arg), after, None))
    decreases arg, 6
  {
    Head(L, arg, 0, false);
    SkipBlanks(open, Text(arg, false) + after);
    ReadExpr(L, arg, after);
  }

  lemma {:induction false} ReadCall<V>(L: Lang<V>, c: Cst, rest: string)
    requires L.Valid() && c.Call? && Wf(L, c, 4)
    requires Follow(L, 4, rest)
    requires OpenEnded(c) ==> rest == ""
    ensures Reads(L, c, Primary(L, Text(c, false) + rest), Res(Eval(L, c), rest, None))
    decreases c, 0
  {
    var after := if c.closed then ")" + (Blanks(c.close) + rest) else "";
    var inner := Blanks(c.open) + (Text(c.arg, false) + after);
    CallText(c, after, rest);
    KnownName(L, c.name);
    UnfoldCall(L, c.name, c.gap, inner);
    ReadOpened(L, c.open, c.arg, after);
    if c.closed {
      assert after[1..] == Blanks(c.close) + rest;
      SkipBlanks(c.close, rest);
    }
  }

  // One unfolding of the evaluator on each shape of input.

}
