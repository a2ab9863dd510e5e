/** Scoring of responses (quality/evaluator.go). */
module Quality {
  import opened Commons
  import opened Ring
  import opened Texts
  import opened Vectors

  datatype Name = Repetition | LengthAnomaly | RefusalMarker | LowCoherence | LanguageMismatch

  datatype Signal = Signal(name: Name, penalty: real)

  datatype Result = Result(score: real, signals: seq<Signal>)

  function Weight(n: Name): real {
    match n
    case Repetition => 0.45
    case LengthAnomaly => 0.25
    case RefusalMarker => 0.40
    case LowCoherence => 0.20
    case LanguageMismatch => 0.30
  }

  // ----- refusal markers

  const PATTERNS: seq<string> := [
    "as an ai language model",
    "i cannot and will not",
    "i am unable to assist",
    "i'm unable to assist",
    "i don't have access to real-time",
    "i apologize, but i cannot",
    "i apologize, but as an",
    "i am just an ai",
    "i'm just an ai"]

  function Hits(lower: string, patterns: seq<string>): nat {
    if patterns == [] then 0
    else Hits(lower, patterns[..|patterns| - 1]) + if Contains(lower, patterns[|patterns| - 1]) then 1 else 0
  }

  function RefusalScore(text: string): real {
    var hits := Hits(Lower(text), PATTERNS);
    if hits == 0 then 1.0
    else if 1.0 - hits as real * 0.35 >= 0.0 then 1.0 - hits as real * 0.35 else 0.0
  }

  lemma {:induction false} HitsLonger(s: string, more: string, patterns: seq<string>)
    ensures Hits(s, patterns) <= Hits(s + more, patterns)
  {
    if patterns != [] {
      HitsLonger(s, more, patterns[..|patterns| - 1]);
      if Contains(s, patterns[|patterns| - 1]) {
        ContainsLonger(s, more, patterns[|patterns| - 1]);
      }
    }
  }

  /** The gate's threshold of one half means two phrases. */
  lemma {:induction false} RefusalMeansTwo(text: string)
    ensures 0.0 <= RefusalScore(text) <= 1.0
    ensures RefusalScore(text) < 0.5 <==> Hits(Lower(text), PATTERNS) >= 2
  {
    var hits := Hits(Lower(text), PATTERNS);
    if hits >= 2 {
      assert hits as real >= 2.0;
    }
  }

  /** Text that fails the gate goes on failing as it grows. */
  lemma {:induction false} RefusalPersists(text: string, more: string)
    ensures RefusalScore(text) < 0.5 ==> RefusalScore(text + more) < 0.5
  {
    assert Lower(text + more) == Lower(text) + Lower(more);
    HitsLonger(Lower(text), Lower(more), PATTERNS);
    RefusalMeansTwo(text);
    RefusalMeansTwo(text + more);
  }

  method RefusalMarkerScore(text: string) returns (score: real)
    ensures score == RefusalScore(text)
  {
    var lower := Lower(text);
    var hits := 0;
    for i := 0 to |PATTERNS|
      invariant hits == Hits(lower, PATTERNS[..i])
    {
      assert PATTERNS[..i + 1][..i] == PATTERNS[..i];
      if Contains(lower, PATTERNS[i]) {
        hits := hits + 1;
      }
    }
    assert PATTERNS[..|PATTERNS|] == PATTERNS;
    if hits == 0 {
      return 1.0;
    }
    score := 1.0 - hits as real * 0.35;
    if score < 0.0 {
      score := 0.0;
    }
  }

  // ----- repetition

  function Trigram(words: seq<string>, i: nat): string
    requires i + 3 <= |words|
  {
    words[i] + " " + words[i + 1] + " " + words[i + 2]
  }

  function Trigrams(words: seq<string>, n: nat): set<string>
    requires n + 2 <= |words|
  {
    set i | 0 <= i < n :: Trigram(words, i)
  }

  function Fade(x: real, lo: real, hi: real): real
    requires lo < hi
  {
    (x - lo) / (hi - lo)
  }

  function RepetitionOf(ratio: real): real {
    if ratio < 0.15 then 1.0 else if ratio > 0.60 then 0.0 else 1.0 - Fade(ratio, 0.15, 0.60)
  }

  /** The share of trigrams that repeat an earlier one decides the score. */
  function RepetitionScore(words: seq<string>): real {
    if |words| < 6 then 1.0
    else
      var total := |words| - 2;
      RepetitionOf((total - |Trigrams(words, total)|) as real / total as real)
  }

  /** Sum of the counts beyond the first, over a set of keys. */
  ghost function Repeats(counts: map<string, nat>, keys: set<string>): int
    requires keys <= counts.Keys
  {
    if keys == {} then 0
    else
      var k :| k in keys;
      counts[k] - 1 + Repeats(counts, keys - {k})
  }

  lemma {:induction false} RepeatsPick(counts: map<string, nat>, keys: set<string>, k: string)
    requires keys <= counts.Keys && k in keys
    ensures Repeats(counts, keys) == counts[k] - 1 + Repeats(counts, keys - {k})
    decreases |keys|
  {
    var x :| x in keys && Repeats(counts, keys) == counts[x] - 1 + Repeats(counts, keys - {x});
    if x != k {
      RepeatsPick(counts, keys - {x}, k);
      RepeatsPick(counts, keys - {k}, x);
      assert keys - {x} - {k} == keys - {k} - {x};
    }
  }

  lemma {:induction false} RepeatsSame(counts: map<string, nat>, other: map<string, nat>, keys: set<string>)
    requires keys <= counts.Keys && keys <= other.Keys
    requires forall k | k in keys :: counts[k] == other[k]
    ensures Repeats(counts, keys) == Repeats(other, keys)
    decreases |keys|
  {
    if keys != {} {
      var k :| k in keys;
      RepeatsPick(counts, keys, k);
      RepeatsPick(other, keys, k);
      RepeatsSame(counts, other, keys - {k});
    }
  }

  /** Counting one more key adds one repeat unless the key is new. */
  lemma {:induction false} RepeatsBump(counts: map<string, nat>, k: string)
    ensures var n := if k in counts then counts[k] else 0;
      var more := counts[k := n + 1];
      Repeats(more, more.Keys) == Repeats(counts, counts.Keys) + if k in counts then 1 else 0
  {
    var n := if k in counts then counts[k] else 0;
    var more := counts[k := n + 1];
    RepeatsPick(more, more.Keys, k);
    assert more.Keys - {k} == counts.Keys - {k};
    RepeatsSame(more, counts, counts.Keys - {k});
    if k in counts {
      RepeatsPick(counts, counts.Keys, k);
    } else {
      assert counts.Keys - {k} == counts.Keys;
    }
  }

  lemma {:induction false} TrigramsStep(words: seq<string>, n: nat)
    requires n + 3 <= |words|
    ensures Trigrams(words, n + 1) == Trigrams(words, n) + {Trigram(words, n)}
  {
  }

  lemma {:induction false} BumpBalance(after: int, before: int, size': int, size: int, known: bool)
    requires after == before + if known then 1 else 0
    requires size' == size + if known then 0 else 1
    ensures after - before == 1 - (size' - size)
  {
  }

  lemma {:induction false} KeysBump(counts: map<string, nat>, key: string, n: nat)
    ensures var more := counts[key := n];
      && more.Keys == counts.Keys + {key}
      && |more| == |counts| + if key in counts then 0 else 1
  {
    var more := counts[key := n];
    assert |more| == |more.Keys| && |counts| == |counts.Keys|;
    assert more.Keys == counts.Keys + {key};
  }

  /** Count one occurrence; a key that is not yet there counts from zero. */
  method Bump(counts: map<string, nat>, key: string) returns (more: map<string, nat>)
    requires forall k | k in counts :: counts[k] >= 1
    ensures more.Keys == counts.Keys + {key}
    ensures forall k | k in more :: more[k] >= 1
    ensures Repeats(more, more.Keys) - Repeats(counts, counts.Keys) == 1 - (|more| - |counts|)
  {
    var n := if key in counts then counts[key] else 0;
    more := counts[key := n + 1];
    RepeatsBump(counts, key);
    KeysBump(counts, key, n + 1);
    BumpBalance(Repeats(more, more.Keys), Repeats(counts, counts.Keys), |more|, |counts|, key in counts);
  }

  method CountTrigrams(words: seq<string>) returns (counts: map<string, nat>, total: nat)
    requires |words| >= 3
    ensures total == |words| - 2
    ensures counts.Keys == Trigrams(words, total)
    ensures forall k | k in counts :: counts[k] >= 1
    ensures Repeats(counts, counts.Keys) == total - |counts|
  {
    counts, total := map[], 0;
    while total <= |words| - 3
      invariant 0 <= total <= |words| - 2
      invariant counts.Keys == Trigrams(words, total)
      invariant forall k | k in counts :: counts[k] >= 1
      invariant Repeats(counts, counts.Keys) == total - |counts|
    {
      TrigramsStep(words, total);
      counts := Bump(counts, Trigram(words, total));
      total := total + 1;
    }
  }

  method Decay(ratio: real) returns (score: real)
    ensures score == RepetitionOf(ratio)
  {
    if ratio < 0.15 {
      return 1.0;
    }
    if ratio > 0.60 {
      return 0.0;
    }
    score := 1.0 - (ratio - 0.15) / (0.60 - 0.15);
  }

  /** Walk the map in whatever order it yields its keys. */
  method CountDuplicates(counts: map<string, nat>) returns (duplicates: nat)
    requires forall k | k in counts :: counts[k] >= 1
    ensures duplicates == Repeats(counts, counts.Keys)
  {
    duplicates := 0;
    var left := counts.Keys;
    while left != {}
      invariant left <= counts.Keys
      invariant duplicates + Repeats(counts, left) == Repeats(counts, counts.Keys)
      decreases left
    {
      var k :| k in left;
      RepeatsPick(counts, left, k);
      if counts[k] > 1 {
        duplicates := duplicates + counts[k] - 1;
      }
      left := left - {k};
    }
  }

  method MeasureRepetition(words: seq<string>) returns (score: real)
    ensures score == RepetitionScore(words)
  {
    if |words| < 6 {
      return 1.0;
    }
    var counts, total := CountTrigrams(words);
    var duplicates := CountDuplicates(counts);
    assert |counts| == |counts.Keys|;
    score := Decay(duplicates as real / total as real);
  }

  // ----- length, coherence, language

  function LengthOf(avg: real, length: nat): real {
    if avg == 0.0 || length == 0 then 1.0
    else
      var ratio := length as real / avg;
      if ratio >= 0.35 then 1.0 else if ratio < 0.10 then 0.0 else Fade(ratio, 0.10, 0.35)
  }

  function LengthScore(avg: real, response: string): real {
    if 0 < Bytes(response) < 10 then 0.0 else LengthOf(avg, Bytes(response))
  }

  /** The text up to the first sentence end that leaves at least ten bytes. */
  function FirstSentence(text: string, i: nat): string
    requires i <= |text|
    decreases |text| - i
  {
    if i == |text| then text
    else if text[i] in ".!?" && Bytes(Trim(text[..i + 1])) >= 10 then Trim(text[..i + 1])
    else FirstSentence(text, i + 1)
  }

  type Embedder = string -> Option<seq<real>>

  function CoherenceScore(sqrt: real -> real, embed: Embedder, prompt: string, response: string): real {
    var p, r := embed(prompt), embed(response);
    if p.None? || r.None? then 1.0
    else
      var sim := Cosine(sqrt, p.value, r.value);
      if sim < 0.20 then 0.0
      else
        var score := if sim < 0.55 then Fade(sim, 0.20, 0.55) else 1.0;
        var first := FirstSentence(response, 0);
        if first == "" || first == response then score
        else
          match embed(first)
          case None => score
          case Some(f) =>
            if sim > 0.0 && Cosine(sqrt, p.value, f) < 0.5 * sim then score * 0.85 else score
  }

  function NonAscii(s: string): nat {
    if s == "" then 0 else NonAscii(s[..|s| - 1]) + if s[|s| - 1] > 127 as char then 1 else 0
  }

  function NonAsciiRatio(s: string): real {
    if s == "" then 0.0 else NonAscii(s) as real / |s| as real
  }

  function LanguageScore(prompt: string, response: string): real {
    if Bytes(prompt) < 20 || Bytes(response) < 20 then 1.0
    else if NonAsciiRatio(prompt) < 0.10 && NonAsciiRatio(response) > 0.50 then 0.0
    else if NonAsciiRatio(prompt) > 0.50 && NonAsciiRatio(response) < 0.10 then 0.5
    else 1.0
  }

  lemma {:induction false} Share(n: real, d: real)
    requires d > 0.0 && 0.0 <= n <= d
    ensures 0.0 <= n / d <= 1.0
  {
  }

  lemma {:induction false} FadeBounds(x: real, lo: real, hi: real)
    requires lo < hi && lo <= x <= hi
    ensures 0.0 <= Fade(x, lo, hi) <= 1.0
  {
    Share(x - lo, hi - lo);
  }

  lemma {:induction false} RepetitionBounds(words: seq<string>)
    ensures 0.0 <= RepetitionScore(words) <= 1.0
  {
    if |words| >= 6 {
      var total := |words| - 2;
      var ratio := (total - |Trigrams(words, total)|) as real / total as real;
      if 0.15 <= ratio <= 0.60 {
        FadeBounds(ratio, 0.15, 0.60);
      }
    }
  }

  lemma {:induction false} CoherenceBounds(sqrt: real -> real, embed: Embedder, prompt: string, response: string)
    ensures 0.0 <= CoherenceScore(sqrt, embed, prompt, response) <= 1.0
  {
    var p, r := embed(prompt), embed(response);
    if p.Some? && r.Some? {
      var sim := Cosine(sqrt, p.value, r.value);
      if 0.20 <= sim < 0.55 {
        FadeBounds(sim, 0.20, 0.55);
      }
    }
  }

  /** Every signal lies between no penalty and its full weight. */
  lemma {:induction false} SignalBounds(words: seq<string>, avg: real, sqrt: real -> real, embed: Embedder,
                                        prompt: string, response: string)
    ensures 0.0 <= RepetitionScore(words) <= 1.0
    ensures 0.0 <= LengthScore(avg, response) <= 1.0
    ensures 0.0 <= RefusalScore(response) <= 1.0
    ensures 0.0 <= CoherenceScore(sqrt, embed, prompt, response) <= 1.0
    ensures 0.0 <= LanguageScore(prompt, response) <= 1.0
  {
    RepetitionBounds(words);
    RefusalMeansTwo(response);
    if !(avg == 0.0) {
      var ratio := Bytes(response) as real / avg;
      if 0.10 <= ratio < 0.35 {
        FadeBounds(ratio, 0.10, 0.35);
      }
    }
    CoherenceBounds(sqrt, embed, prompt, response);
  }

  // ----- the verdict

  function Penalties(signals: seq<Signal>): real {
    if signals == [] then 0.0 else Penalties(signals[..|signals| - 1]) + signals[|signals| - 1].penalty
  }

  function Clamp(x: real): real { if x < 0.0 then 0.0 else x }

  /** What every verdict satisfies, whatever the texts and the history. */
  ghost predicate Sound(r: Result) {
    && r.score == Clamp(1.0 - Penalties(r.signals))
    && 0.0 <= r.score <= 1.0
    && (forall i | 0 <= i < |r.signals| :: 0.0 < r.signals[i].penalty <= Weight(r.signals[i].name))
    && (forall i, j | 0 <= i < j < |r.signals| :: r.signals[i].name != r.signals[j].name)
  }

  lemma {:induction false} PenaltiesAtMost(signals: seq<Signal>)
    requires forall i | 0 <= i < |signals| :: signals[i].penalty <= 0.45
    ensures Penalties(signals) <= |signals| as real * 0.45
  {
    if signals != [] {
      PenaltiesAtMost(signals[..|signals| - 1]);
    }
  }

  /** No single signal can push a response below the acceptable score, so the
      extra test for a non-empty signal list is redundant in both model tiers. */
  lemma {:induction false} RejectedMeansTwoSignals(r: Result)
    requires Sound(r) && r.score < ACCEPTABLE
    ensures |r.signals| >= 2
  {
    PenaltiesAtMost(r.signals);
    assert |r.signals| as real * 0.45 > 0.55;
  }

  /** The signal for a sub-score, if it fell short of 1. */
  function Raised(n: Name, sub: real): seq<Signal> {
    if sub < 1.0 then [Signal(n, (1.0 - sub) * Weight(n))] else []
  }

  function AllSignals(rep: real, len: real, refusal: real, coherence: real, language: real): seq<Signal> {
    [] + Raised(Repetition, rep) + Raised(LengthAnomaly, len) + Raised(RefusalMarker, refusal)
    + Raised(LowCoherence, coherence) + Raised(LanguageMismatch, language)
  }

  lemma {:induction false} PenaltiesConcat(a: seq<Signal>, b: seq<Signal>)
    ensures Penalties(a + b) == Penalties(a) + Penalties(b)
  {
    if b == [] {
      assert a + b == a;
    } else {
      assert (a + b)[..|a + b| - 1] == a + b[..|b| - 1];
      PenaltiesConcat(a, b[..|b| - 1]);
    }
  }

  lemma {:induction false} PenaltiesJoined(a: seq<Signal>, b: seq<Signal>, c: seq<Signal>,
                                           d: seq<Signal>, e: seq<Signal>)
    ensures Penalties([] + a + b + c + d + e) ==
      Penalties(a) + Penalties(b) + Penalties(c) + Penalties(d) + Penalties(e)
  {
    assert [] + a == a;
    PenaltiesConcat(a, b);
    PenaltiesConcat(a + b, c);
    PenaltiesConcat(a + b + c, d);
    PenaltiesConcat(a + b + c + d, e);
  }

  lemma {:induction false} RaisedPenalty(n: Name, sub: real)
    requires sub <= 1.0
    ensures Penalties(Raised(n, sub)) == (1.0 - sub) * Weight(n)
  {
    var r := Raised(n, sub);
    if sub < 1.0 {
      assert r[..|r| - 1] == [];
    }
  }

  /** The penalties are the weighted shortfalls of all five sub-scores. */
  lemma {:induction false} PenaltiesWeighted(rep: real, len: real, refusal: real, coherence: real, language: real)
    requires rep <= 1.0 && len <= 1.0 && refusal <= 1.0 && coherence <= 1.0 && language <= 1.0
    ensures Penalties(AllSignals(rep, len, refusal, coherence, language)) ==
      (1.0 - rep) * 0.45 + (1.0 - len) * 0.25 + (1.0 - refusal) * 0.40
      + (1.0 - coherence) * 0.20 + (1.0 - language) * 0.30
  {
    RaisedPenalty(Repetition, rep);
    RaisedPenalty(LengthAnomaly, len);
    RaisedPenalty(RefusalMarker, refusal);
    RaisedPenalty(LowCoherence, coherence);
    RaisedPenalty(LanguageMismatch, language);
    PenaltiesJoined(Raised(Repetition, rep), Raised(LengthAnomaly, len), Raised(RefusalMarker, refusal),
                    Raised(LowCoherence, coherence), Raised(LanguageMismatch, language));
  }

  function Reals(s: seq<nat>): seq<real> {
    seq(|s|, i requires 0 <= i < |s| => s[i] as real)
  }

  /** What an evaluator is configured with; no embedder skips coherence. */
  datatype Setup = Setup(sqrt: real -> real, embed: Option<Embedder>, tokenize: string -> seq<string>)

  function CoherenceOrSkip(setup: Setup, prompt: string, response: string): real {
    if setup.embed.Some? && prompt != "" then CoherenceScore(setup.sqrt, setup.embed.value, prompt, response) else 1.0
  }

  /** The signals that a response raises, given the lengths of earlier responses. */
  function SignalsFor(setup: Setup, history: seq<nat>, prompt: string, response: string): seq<Signal> {
    AllSignals(
      RepetitionScore(setup.tokenize(response)),
      LengthScore(MeanOrZero(Reals(history)), response),
      RefusalScore(response),
      CoherenceOrSkip(setup, prompt, response),
      LanguageScore(prompt, response))
  }

  /** The score of a response for a prompt: one minus the penalties, not below 0. */
  function ScoreFor(setup: Setup, history: seq<nat>, prompt: string, response: string): real {
    Clamp(1.0 - Penalties(SignalsFor(setup, history, prompt, response)))
  }

  const WINDOW: nat := 20

  /** The length history after one more response; empty ones are not recorded. */
  function Recorded(history: seq<nat>, response: string): seq<nat> {
    if response == "" then history else Last(history + [Bytes(response)], WINDOW)
  }

  /** The length history after evaluating a sequence of responses. */
  function Baseline(responses: seq<string>): seq<nat>
    decreases |responses|
  {
    if responses == [] then [] else Recorded(Baseline(responses[..|responses| - 1]), responses[|responses| - 1])
  }

  function LengthsOf(responses: seq<string>): seq<nat>
    decreases |responses|
  {
    if responses == [] then []
    else
      var init, last := LengthsOf(responses[..|responses| - 1]), responses[|responses| - 1];
      if last == "" then init else init + [Bytes(last)]
  }

  /** The baseline is always the lengths of the last twenty non-empty responses. */
  lemma {:induction false} BaselineIsRecent(responses: seq<string>)
    ensures Baseline(responses) == Last(LengthsOf(responses), 20)
    decreases |responses|
  {
    if responses != [] {
      var init, last := responses[..|responses| - 1], responses[|responses| - 1];
      BaselineIsRecent(init);
      if last != "" {
        LastPush(LengthsOf(init), Bytes(last), WINDOW);
      }
    }
  }

  // ----- what is charged

  /** The signals charge exactly this penalty under this name; none if it is 0. */
  ghost predicate Charges(signals: seq<Signal>, n: Name, penalty: real) {
    if penalty == 0.0 then forall s | s in signals :: s.name != n
    else (exists s :: s in signals && s.name == n) && forall s | s in signals && s.name == n :: s.penalty == penalty
  }

  /** Charges of parts with different names. */
  ghost predicate Only(part: seq<Signal>, n: Name, penalty: real) {
    Charges(part, n, penalty) && forall s | s in part :: s.name == n
  }

  lemma {:induction false} RaisedCharges(n: Name, sub: real)
    requires sub <= 1.0
    ensures Only(Raised(n, sub), n, (1.0 - sub) * Weight(n))
  {
    if sub < 1.0 {
      assert Signal(n, (1.0 - sub) * Weight(n)) in Raised(n, sub);
      assert (1.0 - sub) * Weight(n) != 0.0;
    }
  }

  /** What is charged in one part is charged in the whole, if no other part has the
      name. */
  lemma {:induction false} PartCharges(all: seq<Signal>, part: seq<Signal>, n: Name, penalty: real)
    requires Charges(part, n, penalty)
    requires forall s | s in part :: s in all
    requires forall s | s in all && s.name == n :: s in part
    ensures Charges(all, n, penalty)
  {
  }

  lemma {:induction false} Parts(a: seq<Signal>, b: seq<Signal>, c: seq<Signal>, d: seq<Signal>, e: seq<Signal>)
    ensures forall s :: s in [] + a + b + c + d + e <==> s in a || s in b || s in c || s in d || s in e
  {
  }

  lemma {:induction false} JoinedCharges(a: seq<Signal>, b: seq<Signal>, c: seq<Signal>, d: seq<Signal>, e: seq<Signal>,
                                         p: real, q: real, r: real, s: real, t: real)
    requires Only(a, Repetition, p) && Only(b, LengthAnomaly, q) && Only(c, RefusalMarker, r)
    requires Only(d, LowCoherence, s) && Only(e, LanguageMismatch, t)
    ensures var all := [] + a + b + c + d + e;
      && Charges(all, Repetition, p) && Charges(all, LengthAnomaly, q) && Charges(all, RefusalMarker, r)
      && Charges(all, LowCoherence, s) && Charges(all, LanguageMismatch, t)
  {
    var all := [] + a + b + c + d + e;
    Parts(a, b, c, d, e);
    PartCharges(all, a, Repetition, p);
    PartCharges(all, b, LengthAnomaly, q);
    PartCharges(all, c, RefusalMarker, r);
    PartCharges(all, d, LowCoherence, s);
    PartCharges(all, e, LanguageMismatch, t);
  }

  /** Each of the five sub-scores is charged with its own weight. */
  lemma {:induction false} AllCharged(rep: real, len: real, refusal: real, coherence: real, language: real)
    requires rep <= 1.0 && len <= 1.0 && refusal <= 1.0 && coherence <= 1.0 && language <= 1.0
    ensures var signals := AllSignals(rep, len, refusal, coherence, language);
      && Charges(signals, Repetition, (1.0 - rep) * 0.45)
      && Charges(signals, LengthAnomaly, (1.0 - len) * 0.25)
      && Charges(signals, RefusalMarker, (1.0 - refusal) * 0.40)
      && Charges(signals, LowCoherence, (1.0 - coherence) * 0.20)
      && Charges(signals, LanguageMismatch, (1.0 - language) * 0.30)
  {
    RaisedCharges(Repetition, rep);
    RaisedCharges(LengthAnomaly, len);
    RaisedCharges(RefusalMarker, refusal);
    RaisedCharges(LowCoherence, coherence);
    RaisedCharges(LanguageMismatch, language);
    JoinedCharges(Raised(Repetition, rep), Raised(LengthAnomaly, len), Raised(RefusalMarker, refusal),
                  Raised(LowCoherence, coherence), Raised(LanguageMismatch, language),
                  (1.0 - rep) * 0.45, (1.0 - len) * 0.25, (1.0 - refusal) * 0.40,
                  (1.0 - coherence) * 0.20, (1.0 - language) * 0.30);
  }

  lemma {:induction false} SignalsCharged(setup: Setup, history: seq<nat>, prompt: string, response: string)
    ensures var signals := SignalsFor(setup, history, prompt, response);
      && Charges(signals, Repetition, (1.0 - RepetitionScore(setup.tokenize(response))) * 0.45)
      && Charges(signals, LengthAnomaly, (1.0 - LengthScore(MeanOrZero(Reals(history)), response)) * 0.25)
      && Charges(signals, RefusalMarker, (1.0 - RefusalScore(response)) * 0.40)
      && Charges(signals, LowCoherence, (1.0 - CoherenceOrSkip(setup, prompt, response)) * 0.20)
      && Charges(signals, LanguageMismatch, (1.0 - LanguageScore(prompt, response)) * 0.30)
  {
    var words, avg := setup.tokenize(response), MeanOrZero(Reals(history));
    var embed: Embedder := if setup.embed.Some? then setup.embed.value else _ => None;
    SignalBounds(words, avg, setup.sqrt, embed, prompt, response);
    AllCharged(RepetitionScore(words), LengthScore(avg, response), RefusalScore(response),
               CoherenceOrSkip(setup, prompt, response), LanguageScore(prompt, response));
  }

  lemma {:induction false} Compare(a: real, n: real, c: real)
    requires n > 0.0
    ensures a / n < c <==> a < c * n
    ensures a / n > c <==> a > c * n
  {
    var r := a / n;
    assert r * n == a;
    if r < c {
      assert (c - r) * n > 0.0;
    } else if r > c {
      assert (r - c) * n > 0.0;
    }
  }

  lemma {:induction false} Fraction(a: int, n: int)
    requires n > 0
    ensures a as real / n as real < 0.15 <==> 100 * a < 15 * n
    ensures a as real / n as real > 0.60 <==> 100 * a > 60 * n
  {
    Compare(a as real, n as real, 0.15);
    Compare(a as real, n as real, 0.60);
  }

  lemma {:induction false} BlankInside(a: string, x: string, b: string, y: string)
    requires a + " " + x == b + " " + y && |a| < |b|
    ensures ' ' in b
  {
    assert (a + " " + x)[|a|] == ' ';
    assert (b + " " + y)[|a|] == b[|a|];
  }

  lemma {:induction false} SplitAtBlank(a: string, x: string, b: string, y: string)
    requires ' ' !in a && ' ' !in b && a + " " + x == b + " " + y
    ensures a == b && x == y
  {
    if |a| < |b| {
      BlankInside(a, x, b, y);
    } else if |b| < |a| {
      BlankInside(b, y, a, x);
    }
    var s := a + " " + x;
    assert a == s[..|a|] && b == (b + " " + y)[..|b|];
    assert x == s[|a| + 1..] && y == (b + " " + y)[|b| + 1..];
  }

  /** Of words without blanks, two runs of three count as the same exactly when they
      are the same three words. */
  lemma {:induction false} SameTrigram(words: seq<string>, i: nat, j: nat)
    requires i + 3 <= |words| && j + 3 <= |words| && forall w | w in words :: ' ' !in w
    ensures Trigram(words, i) == Trigram(words, j) <==> words[i..i + 3] == words[j..j + 3]
  {
    var a, b, c := words[i], words[i + 1], words[i + 2];
    var a', b', c' := words[j], words[j + 1], words[j + 2];
    assert words[i..i + 3] == [a, b, c] && words[j..j + 3] == [a', b', c'];
    if Trigram(words, i) == Trigram(words, j) {
      assert a + " " + (b + " " + c) == Trigram(words, i) == a' + " " + (b' + " " + c');
      SplitAtBlank(a, b + " " + c, a', b' + " " + c');
      SplitAtBlank(b, c, b', c');
    }
  }

  /** How many runs of three words repeat an earlier one. */
  ghost function Repeated3(words: seq<string>): int
    requires |words| >= 2
  {
    |words| - 2 - |set i | 0 <= i < |words| - 2 :: Trigram(words, i)|
  }

  lemma {:induction false} RepetitionByRepeats(words: seq<string>)
    requires |words| >= 6
    ensures RepetitionScore(words) == RepetitionOf(Repeated3(words) as real / (|words| - 2) as real)
  {
    var n := |words| - 2;
    assert Trigrams(words, n) == set i | 0 <= i < n :: Trigram(words, i);
  }

  lemma {:induction false} RepetitionShare(ratio: real)
    ensures (1.0 - RepetitionOf(ratio)) * 0.45 ==
      if ratio < 0.15 then 0.0 else if ratio > 0.60 then 0.45 else ratio - 0.15
  {
  }

  lemma {:induction false} RepetitionCost(words: seq<string>)
    ensures (1.0 - RepetitionScore(words)) * 0.45 ==
      if |words| < 6 then 0.0
      else
        var n, repeats := |words| - 2, Repeated3(words);
        if 100 * repeats < 15 * n then 0.0
        else if 100 * repeats > 60 * n then 0.45
        else repeats as real / n as real - 0.15
  {
    if |words| >= 6 {
      var n, repeats := |words| - 2, Repeated3(words);
      RepetitionByRepeats(words);
      Fraction(repeats, n);
      RepetitionShare(repeats as real / n as real);
    }
  }

  /** Words that repeat no run of three are not charged, nor is a share of repeats
      below 15 percent; more than 60 percent cost 0.45, and in between it is the
      share less 0.15. */
  lemma {:induction false} RepetitionCharged(setup: Setup, history: seq<nat>, prompt: string, response: string)
    ensures var signals, words := SignalsFor(setup, history, prompt, response), setup.tokenize(response);
      if |words| < 6 then Charges(signals, Repetition, 0.0)
      else
        var n, repeats := |words| - 2, Repeated3(words);
        if 100 * repeats < 15 * n then Charges(signals, Repetition, 0.0)
        else if 100 * repeats > 60 * n then Charges(signals, Repetition, 0.45)
        else Charges(signals, Repetition, repeats as real / n as real - 0.15)
  {
    SignalsCharged(setup, history, prompt, response);
    RepetitionCost(setup.tokenize(response));
  }

  lemma {:induction false} NewTrigram(words: seq<string>, n: nat)
    requires n + 3 <= |words| && forall i | 0 <= i < n :: Trigram(words, i) != Trigram(words, n)
    ensures Trigram(words, n) !in Trigrams(words, n)
  {
  }

  lemma {:induction false} DistinctTrigrams(words: seq<string>, n: nat)
    requires n + 2 <= |words|
    requires forall i, j | 0 <= i < j < n :: Trigram(words, i) != Trigram(words, j)
    ensures |Trigrams(words, n)| == n
  {
    if n > 0 {
      DistinctTrigrams(words, n - 1);
      TrigramsStep(words, n - 1);
      NewTrigram(words, n - 1);
    }
  }

  /** In particular a text whose runs of three words all differ is not charged. */
  lemma {:induction false} VariedUncharged(setup: Setup, history: seq<nat>, prompt: string, response: string)
    requires var words := setup.tokenize(response);
      forall i, j | 0 <= i < j < |words| - 2 :: Trigram(words, i) != Trigram(words, j)
    ensures Charges(SignalsFor(setup, history, prompt, response), Repetition, 0.0)
  {
    var words := setup.tokenize(response);
    RepetitionCharged(setup, history, prompt, response);
    if |words| >= 6 {
      var n := |words| - 2;
      DistinctTrigrams(words, n);
      assert Trigrams(words, n) == set i | 0 <= i < n :: Trigram(words, i);
    }
  }

  lemma {:induction false} Steeper(a: real, b: real, lo: real, hi: real)
    requires lo < hi && a <= b
    ensures Fade(a, lo, hi) <= Fade(b, lo, hi)
  {
    assert (b - lo) / (hi - lo) - (a - lo) / (hi - lo) == (b - a) / (hi - lo);
  }

  lemma {:induction false} LargerShare(a: int, b: int, n: int)
    requires n > 0 && a <= b
    ensures a as real / n as real <= b as real / n as real
  {
    assert b as real / n as real - a as real / n as real == (b - a) as real / n as real;
  }

  /** Of texts with equally many runs of three, more repeats never score higher. */
  lemma {:induction false} RepeatsLowerScore(words: seq<string>, words': seq<string>)
    requires |words| == |words'| >= 6
    requires |Trigrams(words, |words| - 2)| >= |Trigrams(words', |words| - 2)|
    ensures RepetitionScore(words) >= RepetitionScore(words')
  {
    var n := |words| - 2;
    var a, b := n - |Trigrams(words, n)|, n - |Trigrams(words', n)|;
    LargerShare(a, b, n);
    Steeper(a as real / n as real, b as real / n as real, 0.15, 0.60);
    RepetitionBounds(words);
    RepetitionBounds(words');
  }

  lemma {:induction false} BytesPositive(s: string)
    ensures Bytes(s) == 0 <==> s == ""
  {
  }

  /** Under ten bytes cost 0.25.  Otherwise, against the mean of the recorded lengths:
      nothing without any, nothing from 35 percent of it, 0.25 below 10 percent, and
      in between what is missing to 35 percent. */
  lemma {:induction false} LengthCharged(setup: Setup, history: seq<nat>, prompt: string, response: string)
    ensures var signals, len := SignalsFor(setup, history, prompt, response), Bytes(response);
      var avg := if history == [] then 0.0 else Mean(Reals(history));
      if response == "" then Charges(signals, LengthAnomaly, 0.0)
      else if len < 10 then Charges(signals, LengthAnomaly, 0.25)
      else if avg == 0.0 || len as real / avg >= 0.35 then Charges(signals, LengthAnomaly, 0.0)
      else if len as real / avg < 0.10 then Charges(signals, LengthAnomaly, 0.25)
      else Charges(signals, LengthAnomaly, 0.35 - len as real / avg)
  {
    SignalsCharged(setup, history, prompt, response);
    BytesPositive(response);
  }

  lemma {:induction false} HitsCount(lower: string, patterns: seq<string>)
    requires forall i, j | 0 <= i < j < |patterns| :: patterns[i] != patterns[j]
    ensures Hits(lower, patterns) == |set p | p in patterns && Contains(lower, p)|
  {
    var all := set p | p in patterns && Contains(lower, p);
    if patterns == [] {
      assert all == {};
    } else {
      var init, last := patterns[..|patterns| - 1], patterns[|patterns| - 1];
      var rest := set p | p in init && Contains(lower, p);
      HitsCount(lower, init);
      assert patterns == init + [last];
      assert last !in init;
      assert all == rest + if Contains(lower, last) then {last} else {};
    }
  }

  lemma {:induction false} PatternsDiffer()
    ensures forall i, j | 0 <= i < j < |PATTERNS| :: PATTERNS[i] != PATTERNS[j]
  {
  }

  lemma {:induction false} RefusalShare(response: string)
    ensures var hits := Hits(Lower(response), PATTERNS);
      (1.0 - RefusalScore(response)) * 0.40 ==
        if hits == 0 then 0.0 else if hits == 1 then 0.14 else if hits == 2 then 0.28 else 0.40
  {
    var hits := Hits(Lower(response), PATTERNS);
    if hits >= 3 {
      assert hits as real * 0.35 >= 1.05;
    }
  }

  /** One refusal phrase costs 0.14, two cost 0.28, three or more 0.40. */
  lemma {:induction false} RefusalCharged(setup: Setup, history: seq<nat>, prompt: string, response: string)
    ensures var signals, lower := SignalsFor(setup, history, prompt, response), Lower(response);
      var phrases := |set p | p in PATTERNS && Contains(lower, p)|;
      Charges(signals, RefusalMarker,
        if phrases == 0 then 0.0 else if phrases == 1 then 0.14 else if phrases == 2 then 0.28 else 0.40)
  {
    SignalsCharged(setup, history, prompt, response);
    PatternsDiffer();
    HitsCount(Lower(response), PATTERNS);
    RefusalShare(response);
  }

  /** A sentence ends at `i`, with ten bytes or more so far. */
  predicate Ends(text: string, i: nat)
    requires i < |text|
  {
    (text[i] == '.' || text[i] == '!' || text[i] == '?') && Bytes(Trim(text[..i + 1])) >= 10
  }

  /** No sentence ends between the two positions. */
  ghost predicate NoEnd(text: string, from: nat, to: nat)
    requires to <= |text|
  {
    forall k | from <= k < to :: !Ends(text, k)
  }

  lemma {:induction false} FirstStep(text: string, from: nat)
    requires from < |text|
    ensures FirstSentence(text, from) ==
      if Ends(text, from) then Trim(text[..from + 1]) else FirstSentence(text, from + 1)
  {
  }

  lemma {:induction false} NoEndBefore(text: string, from: nat, to: nat)
    requires from < to <= |text| && !Ends(text, from) && NoEnd(text, from + 1, to)
    ensures NoEnd(text, from, to)
  {
  }

  /** The first sentence of at least ten bytes, trimmed, or the whole text. */
  lemma {:induction false} FirstSentenceIs(text: string, from: nat) returns (i: nat)
    requires from <= |text|
    ensures from <= i <= |text| && NoEnd(text, from, i)
    ensures if i < |text| then Ends(text, i) && FirstSentence(text, from) == Trim(text[..i + 1])
            else FirstSentence(text, from) == text
    decreases |text| - from
  {
    i := from;
    if from < |text| {
      FirstStep(text, from);
      if !Ends(text, from) {
        i := FirstSentenceIs(text, from + 1);
        NoEndBefore(text, from, i);
      }
    }
  }

  /** The first sentence is less than half as similar to the prompt as the whole. */
  ghost predicate StartsElsewhere(setup: Setup, p: seq<real>, sim: real, response: string)
    requires setup.embed.Some?
  {
    var first := FirstSentence(response, 0);
    var f := setup.embed.value(first);
    first != "" && first != response && f.Some? && 2.0 * Cosine(setup.sqrt, p, f.value) < sim
  }

  /** Coherence costs nothing where it cannot be measured, 0.20 below a similarity of
      0.20, and above that the shortfall from 0.55 as a share of 0.20; a response that
      starts elsewhere keeps 85 percent of what it has. */
  lemma {:induction false} CoherenceCharged(setup: Setup, history: seq<nat>, prompt: string, response: string)
    ensures var signals := SignalsFor(setup, history, prompt, response);
      if setup.embed.None? || prompt == "" || setup.embed.value(prompt).None? || setup.embed.value(response).None? then
        Charges(signals, LowCoherence, 0.0)
      else
        var p := setup.embed.value(prompt).value;
        var sim := Cosine(setup.sqrt, p, setup.embed.value(response).value);
        if sim < 0.20 then Charges(signals, LowCoherence, 0.20)
        else
          var kept := if sim < 0.55 then (sim - 0.20) / 0.35 else 1.0;
          Charges(signals, LowCoherence,
            if StartsElsewhere(setup, p, sim, response) then (1.0 - kept * 0.85) * 0.20 else (1.0 - kept) * 0.20)
  {
    SignalsCharged(setup, history, prompt, response);
  }

  lemma {:induction false} Outside(s: string)
    requires s != ""
    ensures NonAsciiRatio(s) < 0.10 <==> 10 * NonAscii(s) < |s|
    ensures NonAsciiRatio(s) > 0.50 <==> 2 * NonAscii(s) > |s|
  {
    Compare(NonAscii(s) as real, |s| as real, 0.10);
    Compare(NonAscii(s) as real, |s| as real, 0.50);
  }

  /** A response in another script costs 0.30 when the prompt is mostly ASCII and 0.15
      the other way round; texts under twenty bytes are not compared. */
  lemma {:induction false} LanguageCharged(setup: Setup, history: seq<nat>, prompt: string, response: string)
    ensures var signals := SignalsFor(setup, history, prompt, response);
      var p, r := NonAscii(prompt), NonAscii(response);
      if Bytes(prompt) < 20 || Bytes(response) < 20 then Charges(signals, LanguageMismatch, 0.0)
      else if 10 * p < |prompt| && 2 * r > |response| then Charges(signals, LanguageMismatch, 0.30)
      else if 2 * p > |prompt| && 10 * r < |response| then Charges(signals, LanguageMismatch, 0.15)
      else Charges(signals, LanguageMismatch, 0.0)
  {
    SignalsCharged(setup, history, prompt, response);
    if Bytes(prompt) >= 20 && Bytes(response) >= 20 {
      Outside(prompt);
      Outside(response);
    }
  }

  /** UTF-8 takes one byte for ASCII and two to four for anything else. */
  lemma {:induction false} BytesBetween(s: string)
    ensures |s| + NonAscii(s) <= Bytes(s) <= |s| + 3 * NonAscii(s)
  {
    if s != "" {
      BytesBetween(s[..|s| - 1]);
    }
  }

  lemma {:induction false} OneCharge(signals: seq<Signal>, n: Name, p: real, q: real)
    requires Charges(signals, n, p) && Charges(signals, n, q)
    ensures p == q
  {
  }

  lemma {:induction false} PenaltiesFor(setup: Setup, history: seq<nat>, prompt: string, response: string)
    ensures Penalties(SignalsFor(setup, history, prompt, response)) ==
      (1.0 - RepetitionScore(setup.tokenize(response))) * 0.45
      + (1.0 - LengthScore(MeanOrZero(Reals(history)), response)) * 0.25
      + (1.0 - RefusalScore(response)) * 0.40
      + (1.0 - CoherenceOrSkip(setup, prompt, response)) * 0.20
      + (1.0 - LanguageScore(prompt, response)) * 0.30
  {
    var words, avg := setup.tokenize(response), MeanOrZero(Reals(history));
    var embed: Embedder := if setup.embed.Some? then setup.embed.value else _ => None;
    SignalBounds(words, avg, setup.sqrt, embed, prompt, response);
    PenaltiesWeighted(RepetitionScore(words), LengthScore(avg, response), RefusalScore(response),
                      CoherenceOrSkip(setup, prompt, response), LanguageScore(prompt, response));
  }

  /** The score is what the five penalties leave of 1, and never below 0. */
  lemma {:induction false} ScoreLeft(setup: Setup, history: seq<nat>, prompt: string, response: string,
                                     rep: real, len: real, refusal: real, coherence: real, language: real)
    requires var signals := SignalsFor(setup, history, prompt, response);
      && Charges(signals, Repetition, rep) && Charges(signals, LengthAnomaly, len)
      && Charges(signals, RefusalMarker, refusal) && Charges(signals, LowCoherence, coherence)
      && Charges(signals, LanguageMismatch, language)
    ensures var charged := rep + len + refusal + coherence + language;
      ScoreFor(setup, history, prompt, response) == if charged > 1.0 then 0.0 else 1.0 - charged
  {
    var signals := SignalsFor(setup, history, prompt, response);
    SignalsCharged(setup, history, prompt, response);
    PenaltiesFor(setup, history, prompt, response);
    OneCharge(signals, Repetition, rep, (1.0 - RepetitionScore(setup.tokenize(response))) * 0.45);
    OneCharge(signals, LengthAnomaly, len, (1.0 - LengthScore(MeanOrZero(Reals(history)), response)) * 0.25);
    OneCharge(signals, RefusalMarker, refusal, (1.0 - RefusalScore(response)) * 0.40);
    OneCharge(signals, LowCoherence, coherence, (1.0 - CoherenceOrSkip(setup, prompt, response)) * 0.20);
    OneCharge(signals, LanguageMismatch, language, (1.0 - LanguageScore(prompt, response)) * 0.30);
  }

  // ----- a response that fails under every setup

  function Repeated(c: char, n: nat): string { seq(n, _ => c) }

  const ENGLISH: string := Repeated('a', 20)

  /** Two refusal phrases, and more letters outside ASCII than inside. */
  const REFUSAL: string := PATTERNS[7] + (PATTERNS[8] + Repeated(0xE9 as char, 30))

  lemma {:induction false} TwoPhrases()
    ensures RefusalScore(REFUSAL) <= 0.30
  {
    var lower := Lower(REFUSAL);
    assert Lower(PATTERNS[7]) == PATTERNS[7] && Lower(PATTERNS[8]) == PATTERNS[8];
    assert lower[..15] == PATTERNS[7];
    assert lower[15..29] == PATTERNS[8];
    assert OccursAt(lower, PATTERNS[7], 0) && OccursAt(lower, PATTERNS[8], 15);
    assert Hits(lower, PATTERNS) >= 2;
  }

  lemma {:induction false} NonAsciiConcat(a: string, b: string)
    ensures NonAscii(a + b) == NonAscii(a) + NonAscii(b)
  {
    if b == "" {
      assert a + b == a;
    } else {
      assert (a + b)[..|a + b| - 1] == a + b[..|b| - 1];
      NonAsciiConcat(a, b[..|b| - 1]);
    }
  }

  lemma {:induction false} NonAsciiRepeated(c: char, n: nat)
    ensures NonAscii(Repeated(c, n)) == if c > 127 as char then n else 0
  {
    if n > 0 {
      assert Repeated(c, n)[..n - 1] == Repeated(c, n - 1);
      NonAsciiRepeated(c, n - 1);
    }
  }

  lemma {:induction false} BytesAtLeast(s: string)
    ensures Bytes(s) >= |s|
  {
    if s != "" {
      BytesAtLeast(s[..|s| - 1]);
    }
  }

  lemma {:induction false} HalfOutside(n: nat)
    requires n >= 30
    ensures n as real / 59.0 > 0.50
  {
  }

  lemma {:induction false} OtherLanguage()
    ensures LanguageScore(ENGLISH, REFUSAL) == 0.0
  {
    var letters := Repeated(0xE9 as char, 30);
    NonAsciiRepeated('a', 20);
    NonAsciiRepeated(0xE9 as char, 30);
    NonAsciiConcat(PATTERNS[8], letters);
    NonAsciiConcat(PATTERNS[7], PATTERNS[8] + letters);
    BytesAtLeast(ENGLISH);
    BytesAtLeast(REFUSAL);
    assert |REFUSAL| == 59;
    HalfOutside(NonAscii(REFUSAL));
  }

  /** Whatever the history, the embedder and the tokenizer, that response to that
      prompt is not acceptable. */
  lemma {:induction false} RefusalFails(setup: Setup, history: seq<nat>)
    ensures ScoreFor(setup, history, ENGLISH, REFUSAL) <= 0.42
  {
    var words, avg := setup.tokenize(REFUSAL), MeanOrZero(Reals(history));
    var embed: Embedder := if setup.embed.Some? then setup.embed.value else _ => None;
    SignalBounds(words, avg, setup.sqrt, embed, ENGLISH, REFUSAL);
    TwoPhrases();
    RefusalMeansTwo(REFUSAL);
    OtherLanguage();
    var coherence := CoherenceOrSkip(setup, ENGLISH, REFUSAL);
    PenaltiesWeighted(RepetitionScore(words), LengthScore(avg, REFUSAL), RefusalScore(REFUSAL), coherence, 0.0);
  }

  /** The order in which signals are raised. */
  function Rank(n: Name): nat {
    match n
    case Repetition => 0
    case LengthAnomaly => 1
    case RefusalMarker => 2
    case LowCoherence => 3
    case LanguageMismatch => 4
  }

  ghost predicate RaisedInOrder(signals: seq<Signal>, bound: nat) {
    && (forall i | 0 <= i < |signals| :: 0.0 < signals[i].penalty <= Weight(signals[i].name))
    && (forall i | 0 <= i < |signals| :: Rank(signals[i].name) < bound)
    && (forall i, j | 0 <= i < j < |signals| :: Rank(signals[i].name) < Rank(signals[j].name))
  }

  lemma {:induction false} RaiseOne(signals: seq<Signal>, x: Signal)
    requires RaisedInOrder(signals, Rank(x.name)) && 0.0 < x.penalty <= Weight(x.name)
    ensures RaisedInOrder(signals + [x], Rank(x.name) + 1)
    ensures Penalties(signals + [x]) == Penalties(signals) + x.penalty
  {
    assert (signals + [x])[..|signals|] == signals;
  }

  method Subtract(score: real, signals: seq<Signal>, x: Signal) returns (score': real, signals': seq<Signal>)
    requires score == 1.0 - Penalties(signals)
    requires RaisedInOrder(signals, Rank(x.name)) && 0.0 < x.penalty <= Weight(x.name)
    ensures signals' == signals + [x]
    ensures score' == 1.0 - Penalties(signals') && RaisedInOrder(signals', Rank(x.name) + 1)
  {
    RaiseOne(signals, x);
    signals' := signals + [x];
    score' := score - x.penalty;
  }

  lemma {:induction false} PartOf(x: real, w: real, p: real)
    requires 0.0 < x <= 1.0 && w > 0.0 && p == x * w
    ensures 0.0 < p <= w
  {
  }

  lemma {:induction false} RaisedIs(n: Name, sub: real, penalty: real)
    requires 0.0 <= sub <= 1.0 && penalty == (1.0 - sub) * Weight(n)
    ensures Raised(n, sub) == if sub < 1.0 then [Signal(n, penalty)] else []
    ensures sub < 1.0 ==> 0.0 < penalty <= Weight(n)
  {
    if sub < 1.0 {
      PartOf(1.0 - sub, Weight(n), penalty);
    }
  }

  /** One more signal is raised and subtracted. */
  method Charge(score: real, signals: seq<Signal>, n: Name, sub: real) returns (score': real, signals': seq<Signal>)
    requires 0.0 <= sub <= 1.0
    requires score == 1.0 - Penalties(signals) && RaisedInOrder(signals, Rank(n))
    ensures signals' == signals + Raised(n, sub)
    ensures score' == 1.0 - Penalties(signals') && RaisedInOrder(signals', Rank(n) + 1)
  {
    score', signals' := score, signals;
    var penalty := (1.0 - sub) * Weight(n);
    RaisedIs(n, sub, penalty);
    if sub < 1.0 {
      score', signals' := Subtract(score, signals, Signal(n, penalty));
    }
  }

  lemma {:induction false} PenaltiesNonnegative(signals: seq<Signal>)
    requires forall i | 0 <= i < |signals| :: signals[i].penalty > 0.0
    ensures Penalties(signals) >= 0.0
  {
    if signals != [] {
      PenaltiesNonnegative(signals[..|signals| - 1]);
    }
  }

  method Verdict(total: real, signals: seq<Signal>) returns (r: Result)
    requires total == 1.0 - Penalties(signals) && RaisedInOrder(signals, 5)
    ensures Sound(r) && r.signals == signals
  {
    PenaltiesNonnegative(signals);
    var score := total;
    if score < 0.0 {
      score := 0.0;
    }
    r := Result(score, signals);
    assert forall i, j | 0 <= i < j < |signals| :: signals[i].name != signals[j].name by {
      assert forall i, j | 0 <= i < j < |signals| :: Rank(signals[i].name) < Rank(signals[j].name);
    }
  }

  method Combine(rep: real, len: real, refusal: real, coherence: real, language: real) returns (r: Result)
    requires 0.0 <= rep <= 1.0 && 0.0 <= len <= 1.0 && 0.0 <= refusal <= 1.0
    requires 0.0 <= coherence <= 1.0 && 0.0 <= language <= 1.0
    ensures Sound(r) && r.signals == AllSignals(rep, len, refusal, coherence, language)
  {
    var score, signals := 1.0, [];
    score, signals := Charge(score, signals, Repetition, rep);
    score, signals := Charge(score, signals, LengthAnomaly, len);
    score, signals := Charge(score, signals, RefusalMarker, refusal);
    score, signals := Charge(score, signals, LowCoherence, coherence);
    score, signals := Charge(score, signals, LanguageMismatch, language);
    r := Verdict(score, signals);
  }

  class Evaluator {
    const setup: Setup
    const lengths: array<nat>
    var lenIdx: nat
    var lenFilled: bool

    ghost predicate Valid()
      reads this
    {
      lengths.Length == WINDOW && lenIdx < WINDOW
    }

    /** Byte lengths of the most recent non-empty responses, oldest first. */
    ghost function History(): seq<nat>
      reads this, lengths
      requires Valid()
    {
      Unroll(lengths[..], lenIdx, lenFilled)
    }

    constructor (setup: Setup)
      ensures Valid() && History() == [] && fresh(lengths) && this.setup == setup
    {
      this.setup := setup;
      lengths := new nat[20](_ => 0);
      lenIdx, lenFilled := 0, false;
    }

    method AvgLength() returns (avg: real)
      requires Valid()
      ensures avg == MeanOrZero(Reals(History()))
    {
      var end := if lenFilled then WINDOW else lenIdx;
      if end == 0 {
        return 0.0;
      }
      var sum := 0;
      ghost var values := Reals(lengths[..]);
      for i := 0 to end
        invariant sum as real == Sum(values[..i])
      {
        assert values[..i + 1][..i] == values[..i];
        sum := sum + lengths[i];
      }
      assert Reals(History()) == Unroll(values, lenIdx, lenFilled);
      SumUnroll(values, lenIdx, lenFilled);
      avg := sum as real / end as real;
    }

    method RecordLength(n: nat)
      requires Valid()
      modifies this, lengths
      ensures Valid() && History() == Last(old(History()) + [n], WINDOW)
    {
      Push(lengths[..], lenIdx, lenFilled, n);
      NextCases(lenIdx, WINDOW);
      lengths[lenIdx] := n;
      lenIdx := (lenIdx + 1) % WINDOW;
      if lenIdx == 0 {
        lenFilled := true;
      }
    }

    method Evaluate(prompt: string, response: string) returns (r: Result)
      requires Valid()
      modifies this, lengths
      ensures Valid() && Sound(r)
      ensures r.signals == SignalsFor(setup, old(History()), prompt, response)
      ensures r.score == ScoreFor(setup, old(History()), prompt, response)
      ensures History() == Recorded(old(History()), response)
    {
      var words := setup.tokenize(response);
      var rep := MeasureRepetition(words);
      var avg := AvgLength();
      var len := LengthScore(avg, response);
      BytesPositive(response);
      if Bytes(response) > 0 {
        RecordLength(Bytes(response));
      }
      var refusal := RefusalMarkerScore(response);
      var coherence := 1.0;
      if setup.embed.Some? && prompt != "" {
        coherence := CoherenceScore(setup.sqrt, setup.embed.value, prompt, response);
        CoherenceBounds(setup.sqrt, setup.embed.value, prompt, response);
      }
      var language := LanguageScore(prompt, response);
      SignalBounds(words, avg, setup.sqrt, _ => None, prompt, response);
      r := Combine(rep, len, refusal, coherence, language);
    }
  }
}
