/**
 The evaluator of agent/tool.go as it is written: a cursor that every routine
 advances and an error field that later errors overwrite.  Each routine is proved
 to leave behind what its function in `ExprParser` says.
 */
module ExprMachine {
  import opened Commons
  import opened ExprGrammar
  import opened ExprParser

  lemma {:induction false} Slices(s: string, i: nat, j: nat)
    requires i <= j <= |s|
    ensures s[i..][..j - i] == s[i..j] && s[i..][j - i..] == s[j..]
  {
  }

  lemma {:induction false} NumberSpanOn<V>(L: Lang<V>, s: string, i: nat)
    requires i < |s| && (L.digit(s[i]) || s[i] == '.')
    ensures NumberSpan(L, s[i..]) == 1 + NumberSpan(L, s[i + 1..])
  {
    assert s[i..][1..] == s[i + 1..];
  }

  lemma {:induction false} NumberSpanOver<V>(L: Lang<V>, s: string, i: nat)
    requires i <= |s| && (i < |s| ==> !L.digit(s[i]) && s[i] != '.')
    ensures NumberSpan(L, s[i..]) == 0
  {
  }

  lemma {:induction false} NameSpanOver<V>(L: Lang<V>, s: string, i: nat)
    requires i <= |s| && (i < |s| ==> !L.letter(s[i]))
    ensures NameSpan(L, s[i..]) == 0
  {
  }

  lemma {:induction false} NameSpanOn<V>(L: Lang<V>, s: string, i: nat)
    requires i < |s| && L.letter(s[i])
    ensures NameSpan(L, s[i..]) == 1 + NameSpan(L, s[i + 1..])
  {
    assert s[i..][1..] == s[i + 1..];
  }

  class Parser<V> {
    const L: Lang<V>
    const input: string
    var pos: nat
    var err: Option<Error>

    ghost predicate Valid()
      reads this
    {
      pos <= |input|
    }

    /** The text still ahead of the cursor. */
    ghost function Ahead(): string
      reads this
      requires Valid()
    {
      input[pos..]
    }

    /** The state after a routine that was started before `s` with error `e`. */
    ghost predicate Did(s: string, e: Option<Error>, r: Res<V>)
      reads this
      requires |r.rest| <= |s| <= |input|
    {
      Valid() && Ahead() == r.rest && err == Later(e, r.err)
    }

    constructor (L: Lang<V>, s: string)
      ensures this.L == L && input == Desugar(s)
      ensures Valid() && Ahead() == Desugar(s) && err.None?
    {
      this.L := L;
      this.input := Desugar(s);
      this.pos := 0;
      this.err := None;
    }

    method SkipWS()
      requires Valid()
      modifies this
      ensures Valid() && Ahead() == Skip(old(Ahead())) && err == old(err)
    {
      while pos < |input| && input[pos] == ' '
        invariant Valid() && err == old(err)
        invariant Skip(Ahead()) == Skip(old(Ahead()))
        decreases |input| - pos
      {
        assert Ahead()[1..] == input[pos + 1..];
        pos := pos + 1;
      }
    }

    /** Step over one character and the blanks after it. */
    method Advance()
      requires Valid() && pos < |input|
      modifies this
      ensures Valid() && Ahead() == Skip(old(Ahead())[1..]) && err == old(err)
    {
      assert Ahead()[1..] == input[pos + 1..];
      pos := pos + 1;
      SkipWS();
    }

    method ScanNumber() returns (text: string)
      requires Valid()
      modifies this
      ensures var n := NumberSpan(L, old(Ahead()));
        && text == old(Ahead())[..n]
        && Valid() && Ahead() == old(Ahead())[n..] && err == old(err)
    {
      var start := pos;
      ghost var s := Ahead();
      while pos < |input| && (L.digit(input[pos]) || input[pos] == '.')
        invariant start <= pos <= |input| && err == old(err)
        invariant NumberSpan(L, s) == pos - start + NumberSpan(L, input[pos..])
        decreases |input| - pos
      {
        NumberSpanOn(L, input, pos);
        pos := pos + 1;
      }
      NumberSpanOver(L, input, pos);
      Slices(input, start, pos);
      text := input[start..pos];
    }

    method ParseNumber() returns (v: V)
      requires Valid()
      modifies this
      ensures var r := Number(L, old(Ahead())); v == r.v && Did(old(Ahead()), old(err), r)
    {
      var text := ScanNumber();
      var (value, ok) := L.number(text);
      v := value;
      if !ok {
        err := Some(BadNumber(text));
      }
      SkipWS();
    }

    method ParseName() returns (name: string)
      requires Valid()
      modifies this
      ensures var n := NameSpan(L, old(Ahead()));
        && name == old(Ahead())[..n]
        && Valid() && Ahead() == old(Ahead())[n..] && err == old(err)
    {
      var start := pos;
      ghost var s := Ahead();
      while pos < |input| && L.letter(input[pos])
        invariant start <= pos <= |input| && err == old(err)
        invariant NameSpan(L, s) == pos - start + NameSpan(L, input[pos..])
        decreases |input| - pos
      {
        NameSpanOn(L, input, pos);
        pos := pos + 1;
      }
      NameSpanOver(L, input, pos);
      Slices(input, start, pos);
      name := input[start..pos];
    }

    method ParsePower() returns (v: V)
      requires Valid()
      modifies this
      ensures var r := Power(L, old(Ahead())); v == r.v && Did(old(Ahead()), old(err), r)
      decreases |input| - pos, 5
    {
      v := ParseUnary();
      if pos < |input| && input[pos] == '^' {
        Advance();
        var exp := ParsePower();
        v := L.pow(v, exp);
      }
    }

    /** The operand after an operator. */
    method ParseOperand() returns (v: V)
      requires Valid() && pos < |input|
      modifies this
      ensures var r := Power(L, Skip(old(Ahead())[1..]));
        v == r.v && Valid() && Ahead() == r.rest && err == Later(old(err), r.err)
      decreases |input| - pos, 0
    {
      Advance();
      v := ParsePower();
    }

    method ParseTerm() returns (v: V)
      requires Valid()
      modifies this
      ensures var r := Term(L, old(Ahead())); v == r.v && Did(old(Ahead()), old(err), r)
      decreases |input| - pos, 6
    {
      v := ParsePower();
      ghost var e := Power(L, old(Ahead())).err;
      while pos < |input|
        invariant Valid() && |input| - pos <= |old(Ahead())|
        invariant err == Later(old(err), e)
        invariant TermLoop(L, Ahead(), v, e) == Term(L, old(Ahead()))
        decreases |input| - pos
      {
        ghost var s := Ahead();
        ghost var p := Power(L, Skip(s[1..]));
        if input[pos] == '*' {
          var f := ParseOperand();
          assert TermLoop(L, s, v, e) == TermLoop(L, p.rest, L.mul(v, f), Later(e, p.err));
          v := L.mul(v, f);
        } else if input[pos] == '/' {
          var d := ParseOperand();
          if L.isZero(d) {
            err := Some(DivisionByZero);
            return L.zero;
          }
          assert TermLoop(L, s, v, e) == TermLoop(L, p.rest, L.div(v, d), Later(e, p.err));
          v := L.div(v, d);
        } else {
          return;
        }
        e := Later(e, p.err);
      }
    }

    method ParseExpr() returns (v: V)
      requires Valid()
      modifies this
      ensures var r := Expr(L, old(Ahead())); v == r.v && Did(old(Ahead()), old(err), r)
      decreases |input| - pos, 7
    {
      v := ParseTerm();
      ghost var e := Term(L, old(Ahead())).err;
      while pos < |input|
        invariant Valid() && |input| - pos <= |old(Ahead())|
        invariant err == Later(old(err), e)
        invariant ExprLoop(L, Ahead(), v, e) == Expr(L, old(Ahead()))
        decreases |input| - pos
      {
        var c := input[pos];
        if c != '+' && c != '-' {
          return;
        }
        ghost var s := Ahead();
        Advance();
        var t := ParseTerm();
        v := if c == '+' then L.add(v, t) else L.sub(v, t);
        e := Later(e, Term(L, Skip(s[1..])).err);
      }
    }

    method ParseGroup() returns (v: V)
      requires Valid() && pos < |input| && input[pos] == '('
      modifies this
      ensures var r := Grouped(L, old(Ahead())); v == r.v && Did(old(Ahead()), old(err), r)
      decreases |input| - pos, 0
    {
      Advance();
      v := ParseExpr();
      if pos < |input| && input[pos] == ')' {
        Advance();
      } else {
        err := Some(MissingParenthesis);
      }
    }

    /** `( arg )`, where the closing parenthesis may be missing. */
    method ParseArgument() returns (v: V)
      requires Valid() && pos < |input|
      modifies this
      ensures var r := Expr(L, Skip(old(Ahead())[1..]));
        && v == r.v && Valid() && err == Later(old(err), r.err)
        && Ahead() == if StartsWith(r.rest, ')') then Skip(r.rest[1..]) else r.rest
      decreases |input| - pos, 0
    {
      Advance();
      v := ParseExpr();
      if pos < |input| && input[pos] == ')' {
        Advance();
      }
    }

    /** What follows a name: its argument, if the name is that of a function. */
    method ParseApplied(name: string, c: char) returns (v: V)
      requires Valid()
      modifies this
      ensures var after := old(Ahead());
        Valid() &&
        if StartsWith(after, '(') then
          var r := Expr(L, Skip(after[1..]));
          && Ahead() == (if StartsWith(r.rest, ')') then Skip(r.rest[1..]) else r.rest)
          && (name in FUNCTIONS ==> v == L.apply(name, r.v) && err == Later(old(err), r.err))
          && (name !in FUNCTIONS ==> v == L.zero && err == Some(UnexpectedCharacter(c)))
        else Ahead() == after && v == L.zero && err == Some(UnexpectedCharacter(c))
      decreases |input| - pos, 1
    {
      if pos < |input| && input[pos] == '(' {
        var arg := ParseArgument();
        if name in FUNCTIONS {
          return L.apply(name, arg);
        }
      }
      err := Some(UnexpectedCharacter(c));
      v := L.zero;
    }

    method ParseCall() returns (v: V)
      requires Valid() && pos < |input|
      modifies this
      ensures var r := Named(L, old(Ahead())); v == r.v && Did(old(Ahead()), old(err), r)
      decreases |input| - pos, 2
    {
      var c := input[pos];
      var name := ParseName();
      if name != "" {
        SkipWS();
        v := ParseApplied(name, c);
      } else {
        err := Some(UnexpectedCharacter(c));
        v := L.zero;
      }
    }

    method ParsePrimary() returns (v: V)
      requires Valid()
      modifies this
      ensures var r := Primary(L, old(Ahead())); v == r.v && Did(old(Ahead()), old(err), r)
      decreases |input| - pos, 3
    {
      if pos >= |input| {
        err := Some(UnexpectedEnd);
        return L.zero;
      }
      var c := input[pos];
      if c == '(' {
        v := ParseGroup();
      } else if L.digit(c) || c == '.' {
        v := ParseNumber();
      } else {
        v := ParseCall();
      }
    }

    method ParseUnary() returns (v: V)
      requires Valid()
      modifies this
      ensures var r := Unary(L, old(Ahead())); v == r.v && Did(old(Ahead()), old(err), r)
      decreases |input| - pos, 4
    {
      if pos < |input| && input[pos] == '-' {
        Advance();
        var x := ParsePrimary();
        return L.neg(x);
      }
      v := ParsePrimary();
    }

    /** The end of an evaluation: the sticky error, or trailing input, or the value. */
    method Close(v: V) returns (r: Outcome<V>)
      requires Valid()
      modifies this
      ensures old(err).Some? ==> r == Err(old(err).value)
      ensures old(err).None? ==>
        var rest := Skip(old(Ahead())); r == if rest != "" then Err(TrailingInput(rest)) else Ok(v)
    {
      if err.Some? {
        return Err(err.value);
      }
      SkipWS();
      if pos < |input| {
        return Err(TrailingInput(input[pos..]));
      }
      return Ok(v);
    }
  }

  /** The evaluator itself: together with `ExprLanguage.Exact` this says which
      strings it accepts and with which value. */
  method Evaluate<V>(L: Lang<V>, s: string) returns (r: Outcome<V>)
    ensures r == EvalExpr(L, s)
  {
    var p := new Parser(L, s);
    p.SkipWS();
    ghost var t := p.Ahead();
    ghost var e := Expr(L, t);
    var v := p.ParseExpr();
    assert v == e.v && p.err == e.err && p.Ahead() == e.rest;
    r := p.Close(v);
  }
}
