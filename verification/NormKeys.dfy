/** The cache key of a tool call (agent/toolcache.go, normKey), over ASCII. */
module NormKeys {
  import opened Texts

  function WordSpan(s: string): (n: nat)
    ensures n <= |s|
    ensures forall i | 0 <= i < n :: !IsSpace(s[i])
    ensures s != "" && !IsSpace(s[0]) ==> n > 0
    ensures n < |s| ==> IsSpace(s[n])
  {
    if s != "" && !IsSpace(s[0]) then 1 + WordSpan(s[1..]) else 0
  }

  /** The maximal runs of non-blank characters. */
  function Fields(s: string): seq<string>
    decreases |s|
  {
    if s == "" then []
    else if IsSpace(s[0]) then Fields(s[1..])
    else [s[..WordSpan(s)]] + Fields(s[WordSpan(s)..])
  }

  function Join(ws: seq<string>): string {
    if ws == [] then "" else if |ws| == 1 then ws[0] else ws[0] + " " + Join(ws[1..])
  }

  const NUL: char := 0 as char

  function NormTool(tool: string): string { Lower(Trim(tool)) }

  function NormWords(input: string): seq<string> { Fields(Lower(Trim(input))) }

  function NormKey(tool: string, input: string): string {
    NormTool(tool) + [NUL] + Join(NormWords(input))
  }

  ghost predicate Words(ws: seq<string>) {
    forall i | 0 <= i < |ws| :: ws[i] != "" && forall j | 0 <= j < |ws[i]| :: !IsSpace(ws[i][j])
  }

  lemma {:induction false} FieldsAreWords(s: string)
    ensures Words(Fields(s))
    decreases |s|
  {
    if s != "" {
      if IsSpace(s[0]) {
        FieldsAreWords(s[1..]);
      } else {
        FieldsAreWords(s[WordSpan(s)..]);
      }
    }
  }

  lemma {:induction false} WordSpanOf(w: string, rest: string)
    requires forall j | 0 <= j < |w| :: !IsSpace(w[j])
    requires rest == "" || IsSpace(rest[0])
    ensures WordSpan(w + rest) == |w|
  {
    if w == "" {
      assert w + rest == rest;
    } else {
      assert (w + rest)[1..] == w[1..] + rest;
      WordSpanOf(w[1..], rest);
    }
  }

  /** Joined words split into the same words again. */
  lemma {:induction false} FieldsJoin(ws: seq<string>)
    requires Words(ws)
    ensures Fields(Join(ws)) == ws
  {
    if ws != [] {
      var rest := if |ws| == 1 then "" else " " + Join(ws[1..]);
      var s := ws[0] + rest;
      assert Join(ws) == s;
      WordSpanOf(ws[0], rest);
      assert s[..|ws[0]|] == ws[0] && s[|ws[0]|..] == rest;
      FieldsJoin(ws[1..]);
      if |ws| > 1 {
        assert rest[1..] == Join(ws[1..]);
        assert Fields(rest) == ws[1..];
      }
      assert ws == [ws[0]] + ws[1..];
    }
  }

  predicate Slides(a: string, x: string, b: string, y: string) {
    |a| > |b| && a[..|b| + 1] == b + [NUL] && y == a[|b| + 1..] + [NUL] + x
  }

  lemma {:induction false} SlideJoins(a: string, x: string, b: string, y: string)
    requires Slides(a, x, b, y)
    ensures a + [NUL] + x == b + [NUL] + y
  {
    assert a == a[..|b| + 1] + a[|b| + 1..];
  }

  lemma {:induction false} SameJoined(a: string, x: string, b: string, y: string)
    ensures a + [NUL] + x == b + [NUL] + y <==> (a == b && x == y) || Slides(a, x, b, y) || Slides(b, y, a, x)
  {
    var s, s' := a + [NUL] + x, b + [NUL] + y;
    if s == s' {
      assert a == s[..|a|] && b == s[..|b|];
      assert x == s[|a| + 1..] && y == s[|b| + 1..];
      if |a| > |b| {
        assert a[..|b| + 1] == s[..|b| + 1] == b + [NUL];
        assert y == a[|b| + 1..] + [NUL] + x;
      } else if |b| > |a| {
        assert b[..|a| + 1] == s[..|a| + 1] == a + [NUL];
        assert x == b[|a| + 1..] + [NUL] + y;
      }
    } else if Slides(a, x, b, y) {
      SlideJoins(a, x, b, y);
    } else if Slides(b, y, a, x) {
      SlideJoins(b, y, a, x);
    }
  }

  /** For arbitrary texts there is one more way to share a key: the separator is
      taken from inside the longer tool name and the other input. */
  lemma {:induction false} KeysAgreeExactly(tool: string, input: string, tool': string, input': string)
    ensures NormKey(tool, input) == NormKey(tool', input') <==>
      || (NormTool(tool) == NormTool(tool') && NormWords(input) == NormWords(input'))
      || Slides(NormTool(tool), Join(NormWords(input)), NormTool(tool'), Join(NormWords(input')))
      || Slides(NormTool(tool'), Join(NormWords(input')), NormTool(tool), Join(NormWords(input)))
  {
    var (a, b) := (NormTool(tool), NormTool(tool'));
    var (x, y) := (Join(NormWords(input)), Join(NormWords(input')));
    SameJoined(a, x, b, y);
    FieldsAreWords(Lower(Trim(input)));
    FieldsAreWords(Lower(Trim(input')));
    FieldsJoin(NormWords(input));
    FieldsJoin(NormWords(input'));
  }

  lemma {:induction false} TrimLeftKeeps(s: string, c: char)
    requires c !in s
    ensures c !in TrimLeft(s)
  {
    if s != "" && IsSpace(s[0]) {
      TrimLeftKeeps(s[1..], c);
    }
  }

  lemma {:induction false} TrimRightKeeps(s: string, c: char)
    requires c !in s
    ensures c !in TrimRight(s)
    decreases |s|
  {
    if s != "" && IsSpace(s[|s| - 1]) {
      TrimRightKeeps(s[..|s| - 1], c);
    }
  }

  /** The joined words of a text contain only blanks and characters of the text. */
  lemma {:induction false} JoinFieldsKeeps(s: string, c: char)
    requires c !in s && c != ' '
    ensures c !in Join(Fields(s))
    decreases |s|
  {
    if s != "" {
      if IsSpace(s[0]) {
        JoinFieldsKeeps(s[1..], c);
      } else {
        var n := WordSpan(s);
        JoinFieldsKeeps(s[n..], c);
        assert Fields(s)[1..] == Fields(s[n..]);
      }
    }
  }

  lemma {:induction false} NoNul(input: string)
    requires NUL !in input
    ensures NUL !in Join(NormWords(input))
  {
    TrimLeftKeeps(input, NUL);
    TrimRightKeeps(TrimLeft(input), NUL);
    JoinFieldsKeeps(Lower(Trim(input)), NUL);
  }

  /** Two calls share a key exactly when their tools agree up to case and outer
      blanks and their inputs agree word by word up to case.  Inputs are marshalled
      JSON (agent/react.go:140), which escapes control characters. */
  lemma {:induction false} KeysAgree(tool: string, input: string, tool': string, input': string)
    requires 0 as char !in input && 0 as char !in input'
    ensures NormKey(tool, input) == NormKey(tool', input') <==>
      NormTool(tool) == NormTool(tool') && NormWords(input) == NormWords(input')
  {
    NoNul(input);
    NoNul(input');
    KeysAgreeExactly(tool, input, tool', input');
    assert NUL in [NUL] + Join(NormWords(input)) && NUL in [NUL] + Join(NormWords(input'));
  }

  lemma {:induction false} OneWord()
    ensures NormWords("2+2") != [] && NormWords("2+2")[0] == "2+2"
  {
    assert Trim("2+2") == "2+2" && Lower("2+2") == "2+2";
    WordSpanOf("2+2", "");
    assert "2+2" + "" == "2+2";
  }

  lemma {:induction false} ThreeWords()
    ensures NormWords("2 + 2") != [] && NormWords("2 + 2")[0] == "2"
  {
    assert Trim("2 + 2") == "2 + 2" && Lower("2 + 2") == "2 + 2";
    WordSpanOf("2", " + 2");
    assert "2" + " + 2" == "2 + 2";
  }

  /** Blanks inside an expression matter: the comment at agent/toolcache.go:44
      promises a shared result that the code does not give. */
  lemma {:induction false} SpacedSumsDiffer()
    ensures NormKey("calc", "2+2") != NormKey("calc", "2 + 2")
  {
    OneWord();
    ThreeWords();
    KeysAgree("calc", "2+2", "calc", "2 + 2");
  }

  // ----- in plain terms

  /** White space only. */
  predicate Blank(s: string) { forall i | 0 <= i < |s| :: IsSpace(s[i]) }

  /** The same letters, apart from the case of ASCII letters. */
  predicate SameLetters(s: string, s': string) {
    && |s| == |s'|
    && forall i | 0 <= i < |s| ::
         s[i] == s'[i] || ('A' <= s[i] <= 'Z' && s'[i] as int == s[i] as int + 32)
                       || ('A' <= s'[i] <= 'Z' && s[i] as int == s'[i] as int + 32)
  }

  lemma {:induction false} LowerSame(s: string, s': string)
    ensures Lower(s) == Lower(s') <==> SameLetters(s, s')
  {
    if Lower(s) == Lower(s') {
      assert |s| == |Lower(s)| == |s'|;
      forall i | 0 <= i < |s|
        ensures s[i] == s'[i] || ('A' <= s[i] <= 'Z' && s'[i] as int == s[i] as int + 32)
                              || ('A' <= s'[i] <= 'Z' && s[i] as int == s'[i] as int + 32)
      {
        assert Lower(s)[i] == Lower(s')[i];
      }
    }
  }

  lemma {:induction false} TrimLeftOf(a: string, s: string)
    requires Blank(a) && (s == "" || !IsSpace(s[0]))
    ensures TrimLeft(a + s) == s
  {
    if a == "" {
      assert a + s == s;
    } else {
      assert (a + s)[1..] == a[1..] + s && (a + s)[0] == a[0];
      TrimLeftOf(a[1..], s);
    }
  }

  lemma {:induction false} TrimRightOf(s: string, b: string)
    requires Blank(b) && (s == "" || !IsSpace(s[|s| - 1]))
    ensures TrimRight(s + b) == s
    decreases |b|
  {
    if b == "" {
      assert s + b == s;
    } else {
      var n := |b| - 1;
      assert (s + b)[..|s + b| - 1] == s + b[..n] && (s + b)[|s + b| - 1] == b[n];
      TrimRightOf(s, b[..n]);
    }
  }

  /** Outer white space goes, and nothing else. */
  lemma {:induction false} TrimOf(a: string, s: string, b: string)
    requires Blank(a) && Blank(b) && (s == "" || (!IsSpace(s[0]) && !IsSpace(s[|s| - 1])))
    ensures Trim(a + s + b) == s
  {
    if s == "" {
      assert a + s + b == a + b;
      assert Blank(a + b);
      TrimLeftOf(a + b, "");
      assert a + b + "" == a + b;
    } else {
      assert a + s + b == a + (s + b);
      TrimLeftOf(a, s + b);
      TrimRightOf(s, b);
    }
  }

  lemma {:induction false} SameHead(a: string, b: string, x: string)
    ensures a + x == b + x <==> a == b
  {
    if a + x == b + x {
      assert a == (a + x)[..|a|] && b == (b + x)[..|b|];
    }
  }

  /** Whatever the input, two tool names without outer white space, put into any, share
      a key exactly when they have the same letters apart from case. */
  lemma {:induction false} SameTool(a: string, tool: string, b: string, a': string, tool': string, b': string,
                                    input: string)
    requires Blank(a) && Blank(b) && Blank(a') && Blank(b')
    requires tool == "" || (!IsSpace(tool[0]) && !IsSpace(tool[|tool| - 1]))
    requires tool' == "" || (!IsSpace(tool'[0]) && !IsSpace(tool'[|tool'| - 1]))
    ensures NormKey(a + tool + b, input) == NormKey(a' + tool' + b', input) <==> SameLetters(tool, tool')
  {
    TrimOf(a, tool, b);
    TrimOf(a', tool', b');
    LowerSame(tool, tool');
    var tail := [NUL] + Join(NormWords(input));
    assert NormKey(a + tool + b, input) == Lower(tool) + tail;
    assert NormKey(a' + tool' + b', input) == Lower(tool') + tail;
    SameHead(Lower(tool), Lower(tool'), tail);
  }

  lemma {:induction false} FieldsBlank(g: string, y: string)
    requires Blank(g)
    ensures Fields(g + y) == Fields(y)
  {
    if g == "" {
      assert g + y == y;
    } else {
      assert (g + y)[0] == g[0] && (g + y)[1..] == g[1..] + y;
      FieldsBlank(g[1..], y);
    }
  }

  /** White space between two texts separates their words, however much there is. */
  lemma {:induction false} FieldsBetween(x: string, g: string, y: string)
    requires Blank(g) && g != ""
    ensures Fields(x + g + y) == Fields(x) + Fields(y)
    decreases |x|
  {
    if x == "" {
      assert x + g + y == g + y;
      FieldsBlank(g, y);
    } else if IsSpace(x[0]) {
      assert (x + g + y)[1..] == x[1..] + g + y;
      FieldsBetween(x[1..], g, y);
    } else {
      var n := WordSpan(x);
      var w, rest := x[..n], x[n..];
      assert x == w + rest;
      assert x + g + y == w + (rest + g + y);
      assert rest + g + y != "" && IsSpace((rest + g + y)[0]) by {
        assert rest == "" ==> (rest + g + y)[0] == g[0];
        assert rest != "" ==> (rest + g + y)[0] == rest[0];
      }
      WordSpanOf(w, rest + g + y);
      assert (x + g + y)[..n] == w && (x + g + y)[n..] == rest + g + y;
      FieldsBetween(rest, g, y);
    }
  }

  lemma {:induction false} LowerConcat(x: string, y: string)
    ensures Lower(x + y) == Lower(x) + Lower(y)
    ensures Blank(x) ==> Blank(Lower(x))
  {
  }

  lemma {:induction false} TrimLeftParts(s: string) returns (a: string)
    ensures Blank(a) && s == a + TrimLeft(s)
  {
    a := "";
    if s != "" && IsSpace(s[0]) {
      var a' := TrimLeftParts(s[1..]);
      a := [s[0]] + a';
    }
  }

  lemma {:induction false} TrimRightParts(s: string) returns (b: string)
    ensures Blank(b) && s == TrimRight(s) + b
    decreases |s|
  {
    b := "";
    if s != "" && IsSpace(s[|s| - 1]) {
      var b' := TrimRightParts(s[..|s| - 1]);
      b := b' + [s[|s| - 1]];
    }
  }

  /** Trimming takes only outer white space. */
  lemma {:induction false} TrimParts(s: string) returns (a: string, b: string)
    ensures Blank(a) && Blank(b) && s == a + Trim(s) + b
  {
    var a' := TrimLeftParts(s);
    var b' := TrimRightParts(TrimLeft(s));
    a, b := a', b';
  }

  lemma {:induction false} WordsUntrimmed(input: string)
    ensures NormWords(input) == Fields(Lower(input))
  {
    var a, b := TrimParts(input);
    var t := Lower(Trim(input));
    LowerConcat(a, Trim(input));
    LowerConcat(a + Trim(input), b);
    LowerConcat(b, "");
    assert Lower(input) == Lower(a) + t + Lower(b);
    if b == "" {
      assert Lower(input) == Lower(a) + t;
    } else {
      FieldsBetween(Lower(a) + t, Lower(b), "");
      assert Lower(a) + t + Lower(b) + "" == Lower(input);
    }
    FieldsBlank(Lower(a), t);
  }

  /** The words of an input, in plain terms: white space has none, a text without
      white space is one word in lower case, and white space between two texts, however
      much, separates their words. */
  lemma {:induction false} InputWords(x: string, g: string, y: string)
    requires Blank(g) && g != ""
    ensures NormWords(g) == []
    ensures NormWords(x + g + y) == NormWords(x) + NormWords(y)
    ensures x != "" && (forall i | 0 <= i < |x| :: !IsSpace(x[i])) ==> NormWords(x) == [Lower(x)]
  {
    WordsUntrimmed(g);
    WordsUntrimmed(x);
    WordsUntrimmed(y);
    WordsUntrimmed(x + g + y);
    LowerConcat(x + g, y);
    LowerConcat(x, g);
    LowerConcat(g, "");
    FieldsBlank(Lower(g), "");
    assert Lower(g) + "" == Lower(g);
    FieldsBetween(Lower(x), Lower(g), Lower(y));
    if x != "" && forall i | 0 <= i < |x| :: !IsSpace(x[i]) {
      WordSpanOf(Lower(x), "");
      assert Lower(x) + "" == Lower(x);
      assert Lower(x)[|x|..] == "";
    }
  }
}
