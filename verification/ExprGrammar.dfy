/**
 The language of the calculator tool: concrete syntax trees, the text they are
 written as, and what they mean in an arbitrary arithmetic.
 */
module ExprGrammar {
  import opened Commons

  const FUNCTIONS: set<string> := {"sqrt", "abs", "floor", "ceil", "log", "ln"}

  datatype Op = Add | Sub | Mul | Div | Pow(starred: bool)
  {
    /** 0 for sums, 1 for products, 2 for powers. */
    function Level(): nat {
      match this
      case Add => 0
      case Sub => 0
      case Mul => 1
      case Div => 1
      case Pow(_) => 2
    }

    /** The operator as written (`source`) or after `**` has become `^`. */
    function Symbol(source: bool): string {
      match this
      case Add => "+"
      case Sub => "-"
      case Mul => "*"
      case Div => "/"
      case Pow(starred) => if source && starred then "**" else "^"
    }
  }

  /** The arithmetic and the character tables the evaluator runs on.  Nothing is
      assumed about the arithmetic, so every theorem below is about structure. */
  datatype Lang<!V> = Lang(
    digit: char -> bool,
    letter: char -> bool,
    number: string -> (V, bool),  // value, and whether the numeral could be read
    zero: V,
    isZero: V -> bool,
    add: (V, V) -> V,
    sub: (V, V) -> V,
    mul: (V, V) -> V,
    div: (V, V) -> V,
    pow: (V, V) -> V,
    neg: V -> V,
    apply: (string, V) -> V)
  {
    /** What Unicode guarantees of the two character tables. */
    ghost predicate Valid() {
      && (forall c | c in "+-*/^(). " :: !digit(c) && !letter(c))
      && (forall c :: !(digit(c) && letter(c)))
      && (forall name, c | name in FUNCTIONS && c in name :: letter(c))
    }

    predicate Numeral(text: string) {
      text != "" && forall c | c in text :: digit(c) || c == '.'
    }

    function Binary(op: Op, x: V, y: V): V {
      match op
      case Add => add(x, y)
      case Sub => sub(x, y)
      case Mul => mul(x, y)
      case Div => div(x, y)
      case Pow(_) => pow(x, y)
    }
  }

  /** A concrete syntax tree.  Every token carries the number of blanks after it,
      a power remembers whether it was written `**`, and a call remembers whether
      its closing parenthesis is there. */
  datatype Cst =
    | Num(text: string, gap: nat)
    | Neg(gap: nat, arg: Cst)
    | Bin(left: Cst, op: Op, gap: nat, right: Cst)
    | Group(open: nat, arg: Cst, close: nat)
    | Call(name: string, gap: nat, open: nat, arg: Cst, closed: bool, close: nat)

  function Blanks(n: nat): string {
    seq(n, _ => ' ')
  }

  function Text(c: Cst, source: bool): string {
    match c
    case Num(text, gap) => text + Blanks(gap)
    case Neg(gap, arg) => "-" + Blanks(gap) + Text(arg, source)
    case Bin(l, op, gap, r) => Text(l, source) + op.Symbol(source) + Blanks(gap) + Text(r, source)
    case Group(open, arg, close) => "(" + Blanks(open) + Text(arg, source) + ")" + Blanks(close)
    case Call(name, gap, open, arg, closed, close) =>
      name + Blanks(gap) + "(" + Blanks(open) + Text(arg, source)
      + if closed then ")" + Blanks(close) else ""
  }

  /** The text ends inside a call whose parenthesis is missing. */
  predicate OpenEnded(c: Cst) {
    match c
    case Num(_, _) => false
    case Neg(_, arg) => OpenEnded(arg)
    case Bin(_, _, _, r) => OpenEnded(r)
    case Group(_, _, _) => false
    case Call(_, _, _, _, closed, _) => !closed
  }

  /** The tree can stand where the grammar asks for `level`: 0 sum, 1 product,
      2 power, 3 signed, 4 primary.  Sums and products associate to the left,
      powers to the right, a sign applies to a primary only, and nothing may
      follow a call that was left open. */
  predicate Wf<V>(L: Lang<V>, c: Cst, level: nat) {
    match c
    case Num(text, _) => L.Numeral(text)
    case Neg(_, arg) => level <= 3 && Wf(L, arg, 4)
    case Bin(l, op, _, r) =>
      && level <= op.Level()
      && Wf(L, l, if op.Pow? then 3 else op.Level())
      && Wf(L, r, if op.Pow? then 2 else op.Level() + 1)
      && !OpenEnded(l)
    case Group(_, arg, _) => Wf(L, arg, 0) && !OpenEnded(arg)
    case Call(name, _, _, arg, closed, _) =>
      name in FUNCTIONS && Wf(L, arg, 0) && (closed ==> !OpenEnded(arg))
  }

  function Eval<V>(L: Lang<V>, c: Cst): V {
    match c
    case Num(text, _) => L.number(text).0
    case Neg(_, arg) => L.neg(Eval(L, arg))
    case Bin(l, op, _, r) => L.Binary(op, Eval(L, l), Eval(L, r))
    case Group(_, arg, _) => Eval(L, arg)
    case Call(name, _, _, arg, _, _) => L.apply(name, Eval(L, arg))
  }

  /** Every numeral can be read and no divisor is zero. */
  predicate Meaningful<V>(L: Lang<V>, c: Cst) {
    match c
    case Num(text, _) => L.number(text).1
    case Neg(_, arg) => Meaningful(L, arg)
    case Bin(l, op, _, r) =>
      Meaningful(L, l) && Meaningful(L, r) && (op.Div? ==> !L.isZero(Eval(L, r)))
    case Group(_, arg, _) => Meaningful(L, arg)
    case Call(_, _, _, arg, _, _) => Meaningful(L, arg)
  }

  // ----- expression trees without layout or parentheses

  datatype Tree =
    | Const(text: string)
    | Minus(arg: Tree)
    | Apply(op: Op, left: Tree, right: Tree)
    | Fn(name: string, arg: Tree)

  predicate WfTree<V>(L: Lang<V>, t: Tree) {
    match t
    case Const(text) => L.Numeral(text)
    case Minus(arg) => WfTree(L, arg)
    case Apply(_, l, r) => WfTree(L, l) && WfTree(L, r)
    case Fn(name, arg) => name in FUNCTIONS && WfTree(L, arg)
  }

  function TreeValue<V>(L: Lang<V>, t: Tree): V {
    match t
    case Const(text) => L.number(text).0
    case Minus(arg) => L.neg(TreeValue(L, arg))
    case Apply(op, l, r) => L.Binary(op, TreeValue(L, l), TreeValue(L, r))
    case Fn(name, arg) => L.apply(name, TreeValue(L, arg))
  }

  /** The tree a text stands for: groups and blanks forgotten. */
  function Strip(c: Cst): Tree {
    match c
    case Num(text, _) => Const(text)
    case Neg(_, arg) => Minus(Strip(arg))
    case Bin(l, op, _, r) => Apply(op, Strip(l), Strip(r))
    case Group(_, arg, _) => Strip(arg)
    case Call(name, _, _, arg, _, _) => Fn(name, Strip(arg))
  }

  function TreeLevel(t: Tree): nat {
    match t
    case Const(_) => 4
    case Minus(_) => 3
    case Apply(op, _, _) => op.Level()
    case Fn(_, _) => 4
  }

  function Bare(t: Tree): Cst
    decreases t, 0
  {
    match t
    case Const(text) => Num(text, 0)
    case Minus(arg) => Neg(0, Write(arg, 4))
    case Apply(op, l, r) =>
      Bin(Write(l, if op.Pow? then 3 else op.Level()), op, 0,
          Write(r, if op.Pow? then 2 else op.Level() + 1))
    case Fn(name, arg) => Call(name, 0, 0, Write(arg, 0), true, 0)
  }

  /** Write a tree where `level` is expected, with only the parentheses that
      precedence requires. */
  function Write(t: Tree, level: nat): Cst
    decreases t, 1
  {
    if TreeLevel(t) < level then Group(0, Bare(t), 0) else Bare(t)
  }
}
