/**
 What each routine of the recursive-descent evaluator of agent/tool.go returns on
 the text still ahead of it: a value, the text left over, and the last error.  The
 stateful routines themselves are in `ExprMachine`.
 */
module ExprParser {
  import opened Commons
  import opened ExprGrammar

  datatype Error =
    | DivisionByZero
    | UnexpectedEnd
    | MissingParenthesis
    | UnexpectedCharacter(c: char)
    | BadNumber(text: string)
    | TrailingInput(text: string)

  /** A value, the text left over, and the last error raised on the way. */
  datatype Res<V> = Res(v: V, rest: string, err: Option<Error>)

  datatype Outcome<V> = Ok(value: V) | Err(error: Error)

  predicate StartsWith(s: string, c: char) {
    s != "" && s[0] == c
  }

  function Later(first: Option<Error>, second: Option<Error>): Option<Error> {
    if second.Some? then second else first
  }

  function Skip(s: string): (rest: string)
    ensures |rest| <= |s|
    ensures !StartsWith(rest, ' ')
  {
    if StartsWith(s, ' ') then Skip(s[1..]) else s
  }

  /** Length of the longest prefix made of digits and dots. */
  function NumberSpan<V>(L: Lang<V>, s: string): (n: nat)
    ensures n <= |s|
    ensures forall i | 0 <= i < n :: L.digit(s[i]) || s[i] == '.'
    ensures n < |s| ==> !(L.digit(s[n]) || s[n] == '.')
  {
    if s != "" && (L.digit(s[0]) || s[0] == '.') then 1 + NumberSpan(L, s[1..]) else 0
  }

  /** Length of the longest prefix made of letters. */
  function NameSpan<V>(L: Lang<V>, s: string): (n: nat)
    ensures n <= |s|
    ensures forall i | 0 <= i < n :: L.letter(s[i])
    ensures n < |s| ==> !L.letter(s[n])
  {
    if s != "" && L.letter(s[0]) then 1 + NameSpan(L, s[1..]) else 0
  }

  function Number<V>(L: Lang<V>, s: string): (r: Res<V>)
    ensures |r.rest| <= |s|
  {
    var n := NumberSpan(L, s);
    var (v, ok) := L.number(s[..n]);
    Res(v, Skip(s[n..]), if ok then None else Some(BadNumber(s[..n])))
  }

  /** A function call; the closing parenthesis may be missing. */
  function Named<V>(L: Lang<V>, s: string): (r: Res<V>)
    requires s != ""
    ensures |r.rest| <= |s|
    decreases |s|, 0
  {
    var n := NameSpan(L, s);
    var after := if n > 0 then Skip(s[n..]) else s;
    if n > 0 && StartsWith(after, '(') then
      var r := Expr(L, Skip(after[1..]));
      var rest := if StartsWith(r.rest, ')') then Skip(r.rest[1..]) else r.rest;
      if s[..n] in FUNCTIONS then Res(L.apply(s[..n], r.v), rest, r.err)
      else Res(L.zero, rest, Some(UnexpectedCharacter(s[0])))
    else Res(L.zero, after, Some(UnexpectedCharacter(s[0])))
  }

  function Primary<V>(L: Lang<V>, s: string): (r: Res<V>)
    ensures |r.rest| <= |s|
    decreases |s|, 1
  {
    if s == "" then Res(L.zero, s, Some(UnexpectedEnd))
    else if s[0] == '(' then Grouped(L, s)
    else if L.digit(s[0]) || s[0] == '.' then Number(L, s)
    else Named(L, s)
  }

  function Unary<V>(L: Lang<V>, s: string): (r: Res<V>)
    ensures |r.rest| <= |s|
    decreases |s|, 2
  {
    if StartsWith(s, '-') then
      var r := Primary(L, Skip(s[1..]));
      r.(v := L.neg(r.v))
    else Primary(L, s)
  }

  function Power<V>(L: Lang<V>, s: string): (r: Res<V>)
    ensures |r.rest| <= |s|
    decreases |s|, 3
  {
    var base := Unary(L, s);
    if StartsWith(base.rest, '^') then
      var exp := Power(L, Skip(base.rest[1..]));
      Res(L.pow(base.v, exp.v), exp.rest, Later(base.err, exp.err))
    else base
  }

  function TermLoop<V>(L: Lang<V>, s: string, v: V, err: Option<Error>): (r: Res<V>)
    ensures |r.rest| <= |s|
    decreases |s|, 4
  {
    if StartsWith(s, '*') then
      var f := Power(L, Skip(s[1..]));
      TermLoop(L, f.rest, L.mul(v, f.v), Later(err, f.err))
    else if StartsWith(s, '/') then
      var d := Power(L, Skip(s[1..]));
      if L.isZero(d.v) then Res(L.zero, d.rest, Some(DivisionByZero))
      else TermLoop(L, d.rest, L.div(v, d.v), Later(err, d.err))
    else Res(v, s, err)
  }

  function Term<V>(L: Lang<V>, s: string): (r: Res<V>)
    ensures |r.rest| <= |s|
    decreases |s|, 5
  {
    var f := Power(L, s);
    TermLoop(L, f.rest, f.v, f.err)
  }

  function ExprLoop<V>(L: Lang<V>, s: string, v: V, err: Option<Error>): (r: Res<V>)
    ensures |r.rest| <= |s|
    decreases |s|, 6
  {
    if StartsWith(s, '+') then
      var t := Term(L, Skip(s[1..]));
      ExprLoop(L, t.rest, L.add(v, t.v), Later(err, t.err))
    else if StartsWith(s, '-') then
      var t := Term(L, Skip(s[1..]));
      ExprLoop(L, t.rest, L.sub(v, t.v), Later(err, t.err))
    else Res(v, s, err)
  }

  function Expr<V>(L: Lang<V>, s: string): (r: Res<V>)
    ensures |r.rest| <= |s|
    decreases |s|, 7
  {
    var t := Term(L, s);
    ExprLoop(L, t.rest, t.v, t.err)
  }

  /** A parenthesized expression; the closing parenthesis is required. */
  function Grouped<V>(L: Lang<V>, s: string): (r: Res<V>)
    requires s != ""
    ensures |r.rest| <= |s|
    decreases |s|, 0
  {
    var r := Expr(L, Skip(s[1..]));
    if StartsWith(r.rest, ')') then r.(rest := Skip(r.rest[1..]))
    else r.(err := Some(MissingParenthesis))
  }

  /** Leftmost, non-overlapping replacement of `**` by `^`. */
  function Desugar(s: string): string {
    if |s| >= 2 && s[0] == '*' && s[1] == '*' then "^" + Desugar(s[2..])
    else if s == "" then ""
    else [s[0]] + Desugar(s[1..])
  }

  function EvalExpr<V>(L: Lang<V>, s: string): Outcome<V> {
    var r := Expr(L, Skip(Desugar(s)));
    if r.err.Some? then Err(r.err.value)
    else
      var rest := Skip(r.rest);
      if rest != "" then Err(TrailingInput(rest)) else Ok(r.v)
  }
}
