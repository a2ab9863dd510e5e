/**
 The main results about the calculator: the language `EvalExpr` accepts, the
 value it returns, and the two ways of writing a power.
 */
module ExprLanguage {
  import opened Commons
  import opened ExprGrammar
  import opened ExprParser
  import opened ExprTheorems
  import ES = ExprSoundness

  // ----- `**` and `^`

  lemma {:induction false} DesugarTail(s: string, k: nat)
    requires s != "" && k == if |s| >= 2 && s[0] == '*' && s[1] == '*' then 2 else 1
    ensures Desugar(s) == [Desugar(s)[0]] + Desugar(s[k..]) && Desugar(s)[1..] == Desugar(s[k..])
  {
  }

  /** Replacement works piecewise unless the cut falls between two stars. */
  lemma {:induction false} DesugarHead(a: string, b: string)
    requires a != "" && (b == "" || a[|a| - 1] != '*' || b[0] != '*')
    ensures Desugar(a) != "" && Desugar(a + b) != "" && Desugar(a + b)[0] == Desugar(a)[0]
  {
  }

  lemma {:induction false} Prepended(c: char, x: string, y: string)
    ensures [c] + (x + y) == [c] + x + y
  {
  }

  lemma {:induction false} DesugarConcat(a: string, b: string)
    requires a == "" || b == "" || a[|a| - 1] != '*' || b[0] != '*'
    ensures Desugar(a + b) == Desugar(a) + Desugar(b)
  {
    if a == "" {
      assert a + b == b;
    } else if b == "" {
      assert a + b == a;
    } else {
      var k := if |a| >= 2 && a[0] == '*' && a[1] == '*' then 2 else 1;
      assert (a + b)[k..] == a[k..] + b;
      DesugarConcat(a[k..], b);
      DesugarTail(a, k);
      DesugarTail(a + b, k);
      DesugarHead(a, b);
      Prepended(Desugar(a)[0], Desugar(a[k..]), Desugar(b));
    }
  }

  lemma {:induction false} DesugarPlain(s: string)
    requires '*' !in s
    ensures Desugar(s) == s
  {
    if s != "" {
      DesugarPlain(s[1..]);
    }
  }

  /** A text never ends in a star. */
  predicate EndsPlain(t: string) { t != "" && t[|t| - 1] != '*' }

  lemma {:induction false} EndsPlainLater(a: string, b: string)
    requires EndsPlain(b)
    ensures EndsPlain(a + b)
  {
  }

  lemma {:induction false} Closes(a: string, gap: nat)
    ensures EndsPlain(a + ")" + Blanks(gap))
  {
  }

  lemma {:induction false} Last<V>(L: Lang<V>, c: Cst, level: nat, source: bool)
    requires L.Valid() && Wf(L, c, level)
    ensures EndsPlain(Text(c, source))
    decreases c, 1
  {
    match c
    case Num(text, gap) =>
      assert text[|text| - 1] in text;
    case Neg(gap, arg) =>
      Last(L, arg, 4, source);
      EndsPlainLater("-" + Blanks(gap), Text(arg, source));
    case Bin(l, op, gap, r) =>
      Last(L, r, if op.Pow? then 2 else op.Level() + 1, source);
      EndsPlainLater(Text(l, source) + op.Symbol(source) + Blanks(gap), Text(r, source));
    case Group(open, arg, close) =>
      Closes("(" + Blanks(open) + Text(arg, source), close);
    case Call(_, _, _, _, _, _) =>
      LastOfCall(L, c, source);
  }

  lemma {:induction false} LastOfCall<V>(L: Lang<V>, c: Cst, source: bool)
    requires L.Valid() && c.Call? && Wf(L, c.arg, 0)
    ensures EndsPlain(Text(c, source))
    decreases c, 0
  {
    var before := c.name + Blanks(c.gap) + "(" + Blanks(c.open);
    if c.closed {
      Closes("", c.close);
      assert "" + ")" + Blanks(c.close) == ")" + Blanks(c.close);
      EndsPlainLater(before + Text(c.arg, source), ")" + Blanks(c.close));
    } else {
      Last(L, c.arg, 0, source);
      EndsPlainLater(before, Text(c.arg, source));
      assert Text(c, source) == before + Text(c.arg, source);
    }
  }

  lemma {:induction false} DesugarBrackets(before: string, inner: string, after: string)
    requires '*' !in before && '*' !in after
    ensures Desugar(before + inner + after) == before + Desugar(inner) + after
  {
    DesugarPlain(before);
    DesugarPlain(after);
    DesugarConcat(before, inner);
    DesugarConcat(before + inner, after);
  }

  lemma {:induction false} DesugarCall(c: Cst)
    requires c.Call? && '*' !in c.name && Desugar(Text(c.arg, true)) == Text(c.arg, false)
    ensures Desugar(Text(c, true)) == Text(c, false)
  {
    DesugarBrackets(c.name + Blanks(c.gap) + "(" + Blanks(c.open), Text(c.arg, true),
                    if c.closed then ")" + Blanks(c.close) else "");
  }

  lemma {:induction false} KnownNamePlain<V>(L: Lang<V>, name: string)
    requires L.Valid() && name in FUNCTIONS
    ensures '*' !in name && '^' !in name
  {
    KnownName(L, name);
  }

  lemma {:induction false} DesugarJoin(left: string, sym: string, gap: nat, right: string)
    requires left != "" && left[|left| - 1] != '*'
    requires right != "" && right[0] != '*'
    ensures Desugar(left + sym + Blanks(gap) + right) ==
      Desugar(left) + Desugar(sym) + Blanks(gap) + Desugar(right)
  {
    var b := Blanks(gap);
    DesugarConcat(left + sym + b, right);
    DesugarPlain(b);
    DesugarConcat(left + sym, b);
    DesugarConcat(left, sym);
  }

  lemma {:induction false} DesugarSymbol(op: Op)
    ensures Desugar(op.Symbol(true)) == op.Symbol(false)
  {
    if op.Pow? && op.starred {
      assert "**"[2..] == "";
    } else {
      assert op.Symbol(true)[1..] == "";
    }
  }

  lemma {:induction false} DesugarNeg(c: Cst)
    requires c.Neg? && Desugar(Text(c.arg, true)) == Text(c.arg, false)
    ensures Desugar(Text(c, true)) == Text(c, false)
  {
    DesugarBrackets("-" + Blanks(c.gap), Text(c.arg, true), "");
    assert Text(c, true) == ("-" + Blanks(c.gap)) + Text(c.arg, true) + "";
  }

  lemma {:induction false} DesugarGroup(c: Cst)
    requires c.Group? && Desugar(Text(c.arg, true)) == Text(c.arg, false)
    ensures Desugar(Text(c, true)) == Text(c, false)
  {
    DesugarBrackets("(" + Blanks(c.open), Text(c.arg, true), ")" + Blanks(c.close));
    assert Text(c, true) == ("(" + Blanks(c.open)) + Text(c.arg, true) + (")" + Blanks(c.close));
  }

  lemma {:induction false} DesugarBin<V>(L: Lang<V>, c: Cst, level: nat)
    requires L.Valid() && Wf(L, c, level) && c.Bin?
    ensures Desugar(Text(c, true)) == Text(c, false)
    decreases c, 0
  {
    var Bin(l, op, gap, r) := c;
    var rl := if op.Pow? then 2 else op.Level() + 1;
    DesugarText(L, l, if op.Pow? then 3 else op.Level());
    DesugarText(L, r, rl);
    Last(L, l, if op.Pow? then 3 else op.Level(), true);
    Head(L, r, rl, true);
    DesugarJoin(Text(l, true), op.Symbol(true), gap, Text(r, true));
    DesugarSymbol(op);
  }

  lemma {:induction false} DesugarText<V>(L: Lang<V>, c: Cst, level: nat)
    requires L.Valid() && Wf(L, c, level)
    ensures Desugar(Text(c, true)) == Text(c, false)
    decreases c, 1
  {
    match c
    case Num(text, gap) =>
      DesugarPlain(Text(c, true));
    case Neg(gap, arg) =>
      DesugarText(L, arg, 4);
      DesugarNeg(c);
    case Bin(l, op, gap, r) =>
      DesugarBin(L, c, level);
    case Group(open, arg, close) =>
      DesugarText(L, arg, 0);
      DesugarGroup(c);
    case Call(name, gap, open, arg, closed, close) =>
      DesugarText(L, arg, 0);
      KnownNamePlain(L, name);
      DesugarCall(c);
  }

  lemma {:induction false} UnsplitHead(s: string, k: nat, p: string, q: string)
    requires s != "" && k == if |s| >= 2 && s[0] == '*' && s[1] == '*' then 2 else 1
    requires s[k..] == p + q
    ensures Desugar(s[..k] + p) == [Desugar(s)[0]] + Desugar(p)
  {
    var t := s[..k] + p;
    assert t[k..] == p;
    if k == 1 && p != "" {
      assert s[1] == p[0];
    }
  }

  /** A cut of the replaced text comes from a cut of the source. */
  lemma {:induction false} Rebuilt(s: string, k: nat, p: string, q: string)
    requires k <= |s| && s[k..] == p + q
    ensures s == s[..k] + p + q
  {
    assert s == s[..k] + s[k..];
  }

  lemma {:induction false} Unsplit(s: string, a: string, b: string) returns (p: string, q: string)
    requires Desugar(s) == a + b
    ensures s == p + q && Desugar(p) == a && Desugar(q) == b
  {
    if a == "" {
      p, q := "", s;
      assert a + b == b;
    } else {
      var k := if |s| >= 2 && s[0] == '*' && s[1] == '*' then 2 else 1;
      DesugarTail(s, k);
      assert (a + b)[1..] == a[1..] + b;
      var p', q' := Unsplit(s[k..], a[1..], b);
      p, q := s[..k] + p', q';
      Rebuilt(s, k, p', q');
      UnsplitHead(s, k, p', q');
      assert a == [a[0]] + a[1..];
    }
  }

  lemma {:induction false} UnDesugarPlain(s: string, a: string)
    requires Desugar(s) == a && '^' !in a
    ensures s == a
  {
    if s != "" {
      assert a[0] in a;
      UnDesugarPlain(s[1..], a[1..]);
    }
  }

  lemma {:induction false} UnDesugarSymbol(s: string, op: Op) returns (op': Op)
    requires Desugar(s) == op.Symbol(false)
    ensures op'.Symbol(true) == s
    ensures op' == op || (op.Pow? && op'.Pow?)
  {
    if op.Pow? {
      op' := Pow(s == "**");
      if |s| >= 2 && s[0] == '*' && s[1] == '*' {
        assert Desugar(s[2..]) == "";
        assert s == "**";
      } else {
        assert Desugar(s[1..]) == "";
        assert s == "^";
      }
    } else {
      op' := op;
      UnDesugarPlain(s, op.Symbol(false));
    }
  }

  /** Two trees that differ at most in how powers are written. */
  ghost predicate SameMeaning<V>(L: Lang<V>, level: nat, c: Cst, d: Cst) {
    && Wf(L, d, level) && OpenEnded(d) == OpenEnded(c)
    && Eval(L, d) == Eval(L, c) && Meaningful(L, d) == Meaningful(L, c)
  }

  lemma {:induction false} Between(s: string, before: string, inner: string, after: string) returns (q: string)
    requires Desugar(s) == before + inner + after
    requires '^' !in before && '^' !in after
    ensures s == before + q + after && Desugar(q) == inner
  {
    var p, z := Unsplit(s, before + inner, after);
    var y, x := Unsplit(p, before, inner);
    UnDesugarPlain(z, after);
    UnDesugarPlain(y, before);
    q := x;
  }

  lemma {:induction false} CutBin(c: Cst, s: string) returns (p: string, o: string, q: string)
    requires c.Bin? && Desugar(s) == Text(c, false)
    ensures s == p + o + Blanks(c.gap) + q
    ensures Desugar(p) == Text(c.left, false)
    ensures Desugar(o) == c.op.Symbol(false)
    ensures Desugar(q) == Text(c.right, false)
  {
    var x, y, g;
    x, q := Unsplit(s, Text(c.left, false) + c.op.Symbol(false) + Blanks(c.gap), Text(c.right, false));
    y, g := Unsplit(x, Text(c.left, false) + c.op.Symbol(false), Blanks(c.gap));
    p, o := Unsplit(y, Text(c.left, false), c.op.Symbol(false));
    UnDesugarPlain(g, Blanks(c.gap));
  }

  lemma {:induction false} RestoreBin<V>(L: Lang<V>, c: Cst, level: nat, s: string) returns (d: Cst)
    requires L.Valid() && Wf(L, c, level) && c.Bin?
    requires Desugar(s) == Text(c, false)
    ensures Text(d, true) == s && SameMeaning(L, level, c, d)
    decreases c, 0
  {
    var Bin(l, op, gap, r) := c;
    var p, o, q := CutBin(c, s);
    var op' := UnDesugarSymbol(o, op);
    var l' := Restore(L, l, if op.Pow? then 3 else op.Level(), p);
    var r' := Restore(L, r, if op.Pow? then 2 else op.Level() + 1, q);
    d := Bin(l', op', gap, r');
  }

  lemma {:induction false} Restore<V>(L: Lang<V>, c: Cst, level: nat, s: string) returns (d: Cst)
    requires L.Valid() && Wf(L, c, level)
    requires Desugar(s) == Text(c, false)
    ensures Text(d, true) == s && SameMeaning(L, level, c, d)
    decreases c, 1
  {
    match c
    case Num(text, gap) =>
      d := c;
      UnDesugarPlain(s, Text(c, false));
    case Neg(gap, arg) =>
      var p, q := Unsplit(s, "-" + Blanks(gap), Text(arg, false));
      UnDesugarPlain(p, "-" + Blanks(gap));
      var arg' := Restore(L, arg, 4, q);
      d := Neg(gap, arg');
    case Bin(l, op, gap, r) =>
      d := RestoreBin(L, c, level, s);
    case Group(open, arg, close) =>
      var before, after := "(" + Blanks(open), ")" + Blanks(close);
      assert Text(c, false) == before + Text(arg, false) + after;
      var q := Between(s, before, Text(arg, false), after);
      var arg' := Restore(L, arg, 0, q);
      d := Group(open, arg', close);
      assert Text(d, true) == before + q + after;
    case Call(_, _, _, _, _, _) =>
      d := RestoreCall(L, c, level, s);
  }

  /** The tree of a source text, from the tree of the text after replacement. */
  lemma {:induction false} RestoreCall<V>(L: Lang<V>, c: Cst, level: nat, s: string) returns (d: Cst)
    requires L.Valid() && Wf(L, c, level) && c.Call?
    requires Desugar(s) == Text(c, false)
    ensures Text(d, true) == s && SameMeaning(L, level, c, d)
    decreases c, 0
  {
    var before := c.name + Blanks(c.gap) + "(" + Blanks(c.open);
    var after := if c.closed then ")" + Blanks(c.close) else "";
    KnownNamePlain(L, c.name);
    var q := Between(s, before, Text(c.arg, false), after);
    var arg' := Restore(L, c.arg, 0, q);
    d := Call(c.name, c.gap, c.open, arg', c.closed, c.close);
    assert Text(d, true) == before + q + after;
  }

  // ----- the accepted language

  /** `s` is the text of `c`, possibly after some blanks. */
  ghost predicate Spells<V>(L: Lang<V>, s: string, lead: nat, c: Cst) {
    Wf(L, c, 0) && s == Blanks(lead) + Text(c, true)
  }

  /** A spelling is read from its first token, with powers replaced. */
  lemma {:induction false} ReadFrom<V>(L: Lang<V>, s: string, lead: nat, c: Cst)
    requires L.Valid() && Spells(L, s, lead, c)
    ensures Skip(Desugar(s)) == Text(c, false)
  {
    Head(L, c, 0, true);
    Head(L, c, 0, false);
    DesugarText(L, c, 0);
    DesugarPlain(Blanks(lead));
    DesugarConcat(Blanks(lead), Text(c, true));
    SkipBlanks(lead, Text(c, false));
  }

  /** Every well-formed text is read back as its tree: `EvalExpr` returns the
      tree's value, or an error when a numeral is unreadable or a divisor zero. */
  lemma {:induction false} Complete<V>(L: Lang<V>, s: string, lead: nat, c: Cst)
    requires L.Valid() && Spells(L, s, lead, c)
    ensures Meaningful(L, c) ==> EvalExpr(L, s) == Ok(Eval(L, c))
    ensures !Meaningful(L, c) ==> EvalExpr(L, s).Err?
  {
    var t := Text(c, false);
    ReadFrom(L, s, lead, c);
    ReadExpr(L, c, "");
    assert t + "" == t;
  }

  /** Whatever is accepted is the text of a well-formed tree with that value. */
  lemma {:induction false} Sound<V>(L: Lang<V>, s: string) returns (lead: nat, c: Cst)
    requires L.Valid() && EvalExpr(L, s).Ok?
    ensures Spells(L, s, lead, c) && Meaningful(L, c) && EvalExpr(L, s).value == Eval(L, c)
  {
    var t := Desugar(s);
    var c0 := ES.ExprFound(L, Skip(t));
    var r := Expr(L, Skip(t));
    assert r.rest == "";
    assert Text(c0, false) + "" == Text(c0, false);
    lead := Skipped(t);
    var p, q := Unsplit(s, Blanks(lead), Text(c0, false));
    UnDesugarPlain(p, Blanks(lead));
    c := Restore(L, c0, 0, q);
  }

  /** Exactly which strings evaluate, and to what. */
  lemma {:induction false} Exact<V>(L: Lang<V>, s: string, v: V)
    requires L.Valid()
    ensures EvalExpr(L, s) == Ok(v) <==>
      exists lead, c :: Spells(L, s, lead, c) && Meaningful(L, c) && Eval(L, c) == v
  {
    if EvalExpr(L, s) == Ok(v) {
      var lead, c := Sound(L, s);
    }
    if exists lead, c :: Spells(L, s, lead, c) && Meaningful(L, c) && Eval(L, c) == v {
      var lead, c :| Spells(L, s, lead, c) && Meaningful(L, c) && Eval(L, c) == v;
      Complete(L, s, lead, c);
    }
  }

  // ----- open calls

  /** Supply the closing parentheses that the text leaves out. */
  function Close(c: Cst): Cst {
    match c
    case Num(_, _) => c
    case Neg(gap, arg) => Neg(gap, Close(arg))
    case Bin(l, op, gap, r) => Bin(l, op, gap, Close(r))
    case Group(_, _, _) => c
    case Call(name, gap, open, arg, closed, close) =>
      if closed then c else Call(name, gap, open, Close(arg), true, 0)
  }

  function Missing(c: Cst): nat {
    match c
    case Num(_, _) => 0
    case Neg(_, arg) => Missing(arg)
    case Bin(_, _, _, r) => Missing(r)
    case Group(_, _, _) => 0
    case Call(_, _, _, arg, closed, _) => if closed then 0 else 1 + Missing(arg)
  }

  function Parens(n: nat): string {
    seq(n, _ => ')')
  }

  lemma {:induction false} ClosingCall(c: Cst)
    requires c.Call? && !c.closed
    requires Text(Close(c.arg), true) == Text(c.arg, true) + Parens(Missing(c.arg))
    ensures Text(Close(c), true) == Text(c, true) + Parens(Missing(c))
  {
    var before := c.name + Blanks(c.gap) + "(" + Blanks(c.open);
    assert Parens(Missing(c)) == Parens(Missing(c.arg)) + ")";
    assert Text(c, true) == before + Text(c.arg, true);
    assert Text(Close(c), true) == before + Text(Close(c.arg), true) + ")";
  }

  lemma {:induction false} ClosingText(c: Cst)
    ensures Text(Close(c), true) == Text(c, true) + Parens(Missing(c))
  {
    match c
    case Num(text, gap) =>
    case Neg(gap, arg) => ClosingText(arg);
    case Bin(l, op, gap, r) => ClosingText(r);
    case Group(open, arg, close) =>
    case Call(name, gap, open, arg, closed, close) =>
      if !closed {
        ClosingText(arg);
        ClosingCall(c);
      }
  }

  lemma {:induction false} Closing<V>(L: Lang<V>, c: Cst, level: nat)
    requires Wf(L, c, level)
    ensures Wf(L, Close(c), level) && !OpenEnded(Close(c))
    ensures Eval(L, Close(c)) == Eval(L, c) && Meaningful(L, Close(c)) == Meaningful(L, c)
  {
    match c
    case Num(text, gap) =>
    case Neg(gap, arg) => Closing(L, arg, 4);
    case Bin(l, op, gap, r) => Closing(L, r, if op.Pow? then 2 else op.Level() + 1);
    case Group(open, arg, close) =>
    case Call(name, gap, open, arg, closed, close) =>
      if !closed {
        Closing(L, arg, 0);
      }
  }

  /** Appending the missing parentheses turns any accepted input into a sentence
      with every call closed, accepted with the same value. */
  lemma {:induction false} AcceptedUpToParens<V>(L: Lang<V>, s: string) returns (k: nat, lead: nat, c: Cst)
    requires L.Valid() && EvalExpr(L, s).Ok?
    ensures Spells(L, s + Parens(k), lead, c) && !OpenEnded(c)
    ensures EvalExpr(L, s + Parens(k)) == EvalExpr(L, s) == Ok(Eval(L, c))
  {
    var c0: Cst;
    lead, c0 := Sound(L, s);
    Closing(L, c0, 0);
    ClosingText(c0);
    k, c := Missing(c0), Close(c0);
    assert s + Parens(k) == Blanks(lead) + Text(c, true);
    Complete(L, s + Parens(k), lead, c);
  }

  // ----- trees without layout

  lemma {:induction false} BareWf<V>(L: Lang<V>, t: Tree)
    requires WfTree(L, t)
    ensures forall level: nat | level <= TreeLevel(t) :: Wf(L, Bare(t), level)
    ensures !OpenEnded(Bare(t)) && Strip(Bare(t)) == t && Eval(L, Bare(t)) == TreeValue(L, t)
    decreases t, 0
  {
    match t
    case Const(text) =>
    case Minus(arg) => WriteWf(L, arg, 4);
    case Apply(op, l, r) =>
      WriteWf(L, l, if op.Pow? then 3 else op.Level());
      WriteWf(L, r, if op.Pow? then 2 else op.Level() + 1);
    case Fn(name, arg) => WriteWf(L, arg, 0);
  }

  /** Parenthesizing by precedence yields a well-formed text of the same tree. */
  lemma {:induction false} WriteWf<V>(L: Lang<V>, t: Tree, level: nat)
    requires WfTree(L, t) && level <= 4
    ensures Wf(L, Write(t, level), level) && !OpenEnded(Write(t, level))
    ensures Strip(Write(t, level)) == t
    ensures Eval(L, Write(t, level)) == TreeValue(L, t)
    decreases t, 1
  {
    BareWf(L, t);
  }

  lemma {:induction false} StripValue<V>(L: Lang<V>, c: Cst)
    ensures Eval(L, c) == TreeValue(L, Strip(c))
  {
    match c
    case Num(text, gap) =>
    case Neg(gap, arg) => StripValue(L, arg);
    case Bin(l, op, gap, r) => StripValue(L, l); StripValue(L, r);
    case Group(open, arg, close) => StripValue(L, arg);
    case Call(name, gap, open, arg, closed, close) => StripValue(L, arg);
  }

  predicate TreeMeaningful<V>(L: Lang<V>, t: Tree) {
    match t
    case Const(text) => L.number(text).1
    case Minus(arg) => TreeMeaningful(L, arg)
    case Apply(op, l, r) =>
      TreeMeaningful(L, l) && TreeMeaningful(L, r) && (op.Div? ==> !L.isZero(TreeValue(L, r)))
    case Fn(_, arg) => TreeMeaningful(L, arg)
  }

  lemma {:induction false} StripMeaning<V>(L: Lang<V>, c: Cst)
    ensures Meaningful(L, c) == TreeMeaningful(L, Strip(c))
  {
    match c
    case Num(text, gap) =>
    case Neg(gap, arg) => StripMeaning(L, arg);
    case Bin(l, op, gap, r) => StripMeaning(L, l); StripMeaning(L, r); StripValue(L, r);
    case Group(open, arg, close) => StripMeaning(L, arg);
    case Call(name, gap, open, arg, closed, close) => StripMeaning(L, arg);
  }

  /** Any spelling of a tree - any blanks, any extra parentheses, `^` or `**` -
      evaluates exactly when the tree has no zero divisor (and no unreadable
      numeral), and then to the value of the tree. */
  lemma {:induction false} TreeRoundTrip<V>(L: Lang<V>, t: Tree, s: string, lead: nat, c: Cst)
    requires L.Valid() && Spells(L, s, lead, c) && Strip(c) == t
    ensures EvalExpr(L, s) == Ok(TreeValue(L, t)) <==> TreeMeaningful(L, t)
    ensures EvalExpr(L, s).Err? <==> !TreeMeaningful(L, t)
  {
    Complete(L, s, lead, c);
    StripValue(L, c);
    StripMeaning(L, c);
  }

  /** `Write` uses only the parentheses that precedence requires: no other
      spelling of the tree with all its calls closed is shorter. */
  lemma {:induction false} WriteShortest<V>(L: Lang<V>, c: Cst, level: nat)
    requires Wf(L, c, level) && level <= 4 && !OpenEnded(c)
    ensures |Text(Write(Strip(c), level), true)| <= |Text(c, true)|
    ensures c.Group? || |Text(Bare(Strip(c)), true)| <= |Text(c, true)|
    decreases c
  {
    match c
    case Num(text, gap) =>
    case Neg(gap, arg) => WriteShortest(L, arg, 4);
    case Bin(l, op, gap, r) =>
      WriteShortest(L, l, if op.Pow? then 3 else op.Level());
      WriteShortest(L, r, if op.Pow? then 2 else op.Level() + 1);
    case Group(open, arg, close) =>
      WriteShortest(L, arg, 0);
    case Call(name, gap, open, arg, closed, close) => WriteShortest(L, arg, 0);
  }

  /** The grammar is unambiguous as far as any arithmetic can tell: two readings
      of one string have the same value. */
  lemma {:induction false} Unambiguous<V>(L: Lang<V>, s: string, lead: nat, c: Cst, lead': nat, c': Cst)
    requires L.Valid() && Spells(L, s, lead, c) && Spells(L, s, lead', c')
    ensures Meaningful(L, c) == Meaningful(L, c')
    ensures Meaningful(L, c) ==> Eval(L, c) == Eval(L, c')
  {
    Complete(L, s, lead, c);
    Complete(L, s, lead', c');
  }
}
