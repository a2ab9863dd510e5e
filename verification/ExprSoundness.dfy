/**
 The converse of completeness: whatever the evaluator accepts is the text of a
 well-formed tree with the value it returned.
 */
module ExprSoundness {
  import opened Commons
  import opened ExprGrammar
  import opened ExprParser
  import opened ExprTheorems

  /** No token can follow here except at the end of the input or a stray one. */
  predicate Stuck(rest: string) {
    rest == "" ||
    var h := rest[0];
    h != '+' && h != '-' && h != '*' && h != '/' && h != '^' && h != ')' && h != ' '
  }

  /** What a routine at `level` leaves behind: no blank, and no operator that it
      would itself have consumed. */
  predicate Leaves(level: nat, rest: string) {
    rest == "" ||
    var h := rest[0];
    && h != ' '
    && (level <= 2 ==> h != '^')
    && (level <= 1 ==> h != '*' && h != '/')
    && (level == 0 ==> h != '+' && h != '-')
  }

  /** `c` accounts for what was read from `s` at `level`. */
  ghost predicate Explains<V>(L: Lang<V>, level: nat, c: Cst, s: string, r: Res<V>) {
    && Wf(L, c, level) && Meaningful(L, c) && Eval(L, c) == r.v
    && s == Text(c, false) + r.rest
    && Leaves(level, r.rest)
    && (OpenEnded(c) ==> Stuck(r.rest))
  }

  lemma {:induction false} NumText(c: Cst, rest: string)
    requires c.Num?
    ensures Text(c, false) + rest == c.text + (Blanks(c.gap) + rest)
  {
  }

  lemma {:induction false} NumberFound<V>(L: Lang<V>, s: string) returns (c: Cst)
    requires L.Valid()
    requires s != "" && (L.digit(s[0]) || s[0] == '.')
    requires Number(L, s).err.None?
    ensures Explains(L, 4, c, s, Number(L, s))
  {
    var n := NumberSpan(L, s);
    var text, tail := s[..n], s[n..];
    assert s == text + tail;
    var gap := Skipped(tail);
    c := Num(text, gap);
    NumText(c, Skip(tail));
    assert L.Numeral(text) by {
      assert n > 0;
    }
  }

  /** An accepted name is a function applied to an accepted argument. */
  lemma {:induction false} CallAccepted<V>(L: Lang<V>, s: string)
    requires s != "" && s[0] != '(' && !L.digit(s[0]) && s[0] != '.'
    requires Primary(L, s).err.None?
    ensures var n := NameSpan(L, s);
      var x, r := Skip(s[n..]), Primary(L, s);
      && n > 0 && s[..n] in FUNCTIONS && StartsWith(x, '(')
      && var e := Expr(L, Skip(x[1..]));
      && e.err.None?
      && r == Res(L.apply(s[..n], e.v), if StartsWith(e.rest, ')') then Skip(e.rest[1..]) else e.rest, None)
  {
  }

  lemma {:induction false} CallCut(s: string, n: nat, x: string, inner: string) returns (gap: nat, open: nat)
    requires n <= |s| && Skip(s[n..]) != "" && Skip(s[n..])[0] == '(' && x == Skip(s[n..])[1..]
    requires Skip(x) == inner
    ensures s == s[..n] + (Blanks(gap) + ("(" + (Blanks(open) + inner)))
  {
    gap := Skipped(s[n..]);
    open := Skipped(x);
    assert s == s[..n] + s[n..];
    assert Skip(s[n..]) == "(" + x;
  }

  /** The tree of a call, from its parts and what followed its argument. */
  lemma {:induction false} CallShape<V>(L: Lang<V>, s: string, name: string, gap: nat, open: nat, arg: Cst, r: Res<V>)
    returns (c: Cst)
    requires name in FUNCTIONS && Wf(L, arg, 0) && Meaningful(L, arg) && Eval(L, arg) == r.v
    requires Leaves(0, r.rest) && (OpenEnded(arg) ==> Stuck(r.rest))
    requires s == name + (Blanks(gap) + ("(" + (Blanks(open) + (Text(arg, false) + r.rest))))
    ensures var rest := if StartsWith(r.rest, ')') then Skip(r.rest[1..]) else r.rest;
      Explains(L, 4, c, s, Res(L.apply(name, r.v), rest, None))
  {
    if StartsWith(r.rest, ')') {
      var y := r.rest[1..];
      var close := Skipped(y);
      c := Call(name, gap, open, arg, true, close);
      assert r.rest == ")" + (Blanks(close) + Skip(y));
      CallText(c, r.rest, Skip(y));
    } else {
      c := Call(name, gap, open, arg, false, 0);
      CallText(c, r.rest, r.rest);
    }
  }

  lemma {:induction false} CallFound<V>(L: Lang<V>, s: string) returns (c: Cst)
    requires L.Valid()
    requires s != "" && s[0] != '(' && !L.digit(s[0]) && s[0] != '.'
    requires Primary(L, s).err.None?
    ensures Explains(L, 4, c, s, Primary(L, s))
    decreases |s|, 0
  {
    var n := NameSpan(L, s);
    var name, tail := s[..n], s[n..];
    var x := Skip(tail)[1..];
    CallAccepted(L, s);
    var arg := ExprFound(L, Skip(x));
    var gap, open := CallCut(s, n, x, Text(arg, false) + Expr(L, Skip(x)).rest);
    c := CallShape(L, s, name, gap, open, arg, Expr(L, Skip(x)));
  }

  lemma {:induction false} PrimaryFound<V>(L: Lang<V>, s: string) returns (c: Cst)
    requires L.Valid()
    requires Primary(L, s).err.None?
    ensures Explains(L, 4, c, s, Primary(L, s))
    decreases |s|, 1
  {
    if s[0] == '(' {
      c := GroupFound(L, s);
    } else if L.digit(s[0]) || s[0] == '.' {
      c := NumberFound(L, s);
    } else {
      c := CallFound(L, s);
    }
  }

  lemma {:induction false} UnaryFound<V>(L: Lang<V>, s: string) returns (c: Cst)
    requires L.Valid()
    requires Unary(L, s).err.None?
    ensures Explains(L, 3, c, s, Unary(L, s))
    decreases |s|, 2
  {
    if StartsWith(s, '-') {
      var x := Skip(s[1..]);
      var gap := Skipped(s[1..]);
      assert s == "-" + (Blanks(gap) + x);
      UnfoldNeg(L, gap, x);
      var arg := PrimaryFound(L, x);
      c := Neg(gap, arg);
      NegText(c, Primary(L, x).rest);
    } else {
      c := PrimaryFound(L, s);
    }
  }

  /** One more operand joins the tree read so far. */
  lemma {:induction false} Joined<V>(L: Lang<V>, c: Cst, s: string, op: Op, operand: Cst, rest: string) returns (d: Cst)
    requires StartsWith(s, op.Symbol(false)[0]) && |op.Symbol(false)| == 1
    requires Skip(s[1..]) == Text(operand, false) + rest
    ensures exists gap :: d == Bin(c, op, gap, operand)
    ensures Text(d, false) + rest == Text(c, false) + s
  {
    var gap := Skipped(s[1..]);
    d := Bin(c, op, gap, operand);
    assert s == op.Symbol(false) + (Blanks(gap) + (Text(operand, false) + rest));
    BinText(d, rest);
  }

  lemma {:induction false} PowerFound<V>(L: Lang<V>, s: string) returns (c: Cst)
    requires L.Valid()
    requires Power(L, s).err.None?
    ensures Explains(L, 2, c, s, Power(L, s))
    decreases |s|, 3
  {
    var base := Unary(L, s);
    var b := UnaryFound(L, s);
    if StartsWith(base.rest, '^') {
      var e := PowerFound(L, Skip(base.rest[1..]));
      c := Joined(L, b, base.rest, Pow(false), e, Power(L, s).rest);
    } else {
      c := b;
    }
  }

  lemma {:induction false} TermLoopFound<V>(L: Lang<V>, c: Cst, s: string) returns (d: Cst)
    requires L.Valid()
    requires Wf(L, c, 1) && Meaningful(L, c) && (OpenEnded(c) ==> Stuck(s)) && Leaves(2, s)
    requires TermLoop(L, s, Eval(L, c), None).err.None?
    ensures Explains(L, 1, d, Text(c, false) + s, TermLoop(L, s, Eval(L, c), None))
    decreases |s|, 0
  {
    if StartsWith(s, '*') || StartsWith(s, '/') {
      var op := if s[0] == '*' then Mul else Div;
      var f := Power(L, Skip(s[1..]));
      if f.err.Some? {
        TermLoopSticky(L, f.rest, L.Binary(op, Eval(L, c), f.v), f.err);
      }
      var operand := PowerFound(L, Skip(s[1..]));
      var e := Joined(L, c, s, op, operand, f.rest);
      d := TermLoopFound(L, e, f.rest);
    } else {
      d := c;
    }
  }

  lemma {:induction false} TermFound<V>(L: Lang<V>, s: string) returns (c: Cst)
    requires L.Valid()
    requires Term(L, s).err.None?
    ensures Explains(L, 1, c, s, Term(L, s))
    decreases |s|, 4
  {
    var f := Power(L, s);
    if f.err.Some? {
      TermLoopSticky(L, f.rest, f.v, f.err);
    }
    var first := PowerFound(L, s);
    c := TermLoopFound(L, first, f.rest);
  }

  lemma {:induction false} ExprLoopFound<V>(L: Lang<V>, c: Cst, s: string) returns (d: Cst)
    requires L.Valid()
    requires Wf(L, c, 0) && Meaningful(L, c) && (OpenEnded(c) ==> Stuck(s)) && Leaves(1, s)
    requires ExprLoop(L, s, Eval(L, c), None).err.None?
    ensures Explains(L, 0, d, Text(c, false) + s, ExprLoop(L, s, Eval(L, c), None))
    decreases |s|, 0
  {
    if StartsWith(s, '+') || StartsWith(s, '-') {
      var op := if s[0] == '+' then Add else Sub;
      var t := Term(L, Skip(s[1..]));
      if t.err.Some? {
        ExprLoopSticky(L, t.rest, L.Binary(op, Eval(L, c), t.v), t.err);
      }
      var operand := TermFound(L, Skip(s[1..]));
      var e := Joined(L, c, s, op, operand, t.rest);
      d := ExprLoopFound(L, e, t.rest);
    } else {
      d := c;
    }
  }

  lemma {:induction false} ExprFound<V>(L: Lang<V>, s: string) returns (c: Cst)
    requires L.Valid()
    requires Expr(L, s).err.None?
    ensures Explains(L, 0, c, s, Expr(L, s))
    decreases |s|, 5
  {
    var t := Term(L, s);
    if t.err.Some? {
      ExprLoopSticky(L, t.rest, t.v, t.err);
    }
    var first := TermFound(L, s);
    c := ExprLoopFound(L, first, t.rest);
  }

  lemma {:induction false} GroupFound<V>(L: Lang<V>, s: string) returns (c: Cst)
    requires L.Valid()
    requires StartsWith(s, '(')
    requires Primary(L, s).err.None?
    ensures Explains(L, 4, c, s, Primary(L, s))
    decreases |s|, 0
  {
    var x := s[1..];
    var r := Expr(L, Skip(x));
    assert s == "(" + x;
    UnfoldGroup(L, x);
    var arg := ExprFound(L, Skip(x));
    var open := Skipped(x);
    var y := r.rest[1..];
    var close := Skipped(y);
    c := Group(open, arg, close);
    assert r.rest == ")" + (Blanks(close) + Skip(y));
    GroupText(c, Skip(y));
  }
}
