/**
 The ReAct loop of agent/react.go around the tool cache.  Model replies and tool
 outcomes are arbitrary; the log records every tool call of the run.
 */
module ReactLoop {
  import opened Commons
  import opened Lru
  import opened NormKeys
  import opened Texts
  import opened ToolCaches

  const MAX_ITERATIONS: nat := 6

  const EXHAUSTED: string := "I was unable to complete the reasoning chain within the allowed iterations."

  const MAX_ATTR: nat := 2048

  /** One parsed model reply; `input` is the marshalled arguments. */
  datatype Step = Step(raw: string, thought: string, action: string, input: string, answer: string)

  datatype Outcome = Ok(text: string) | Error(text: string)

  datatype Call = Call(key: string, executed: bool, ok: bool, observation: string)

  function Truncate(s: string): string {
    if |s| <= MAX_ATTR then s else s[..MAX_ATTR] + "...[truncated]"
  }

  /** Tool inputs stand for themselves up to the limit only: longer ones are told
      apart by their first 2 KB. */
  lemma {:induction false} TruncateAgrees(a: string, b: string)
    ensures Truncate(a) == Truncate(b) <==>
      a == b || (|a| > 2048 && |b| > 2048 && a[..2048] == b[..2048])
    ensures Truncate(a) == if |a| <= 2048 then a else a[..2048] + "...[truncated]"
  {
    if |a| > MAX_ATTR && |b| > MAX_ATTR {
      assert Truncate(a)[..MAX_ATTR] == a[..MAX_ATTR];
      assert Truncate(b)[..MAX_ATTR] == b[..MAX_ATTR];
    }
  }

  function CallKey(step: Step): string {
    NormKey(step.action, Truncate(step.input))
  }

  /** A short input without white space or separators. */
  predicate Solid(input: string) {
    0 < |input| <= 2048 && 0 as char !in input && forall i | 0 <= i < |input| :: !IsSpace(input[i])
  }

  /** So calls of one tool share a key when their inputs are the same or agree on the
      first 2 KB and are both longer; and without white space or long inputs, only if
      they have the same letters up to case. */
  lemma {:induction false} LongInputsShareKey(s: Step, s': Step)
    requires s.action == s'.action
    ensures s.input == s'.input || (|s.input| > 2048 && |s'.input| > 2048 && s.input[..2048] == s'.input[..2048])
      ==> CallKey(s) == CallKey(s')
    ensures CallKey(s) == CallKey(s') && Solid(s.input) && Solid(s'.input) ==> SameLetters(s.input, s'.input)
  {
    TruncateAgrees(s.input, s'.input);
    if CallKey(s) == CallKey(s') && Solid(s.input) && Solid(s'.input) {
      KeysAgree(s.action, s.input, s'.action, s'.input);
      InputWords(s.input, " ", "");
      InputWords(s'.input, " ", "");
      LowerSame(s.input, s'.input);
    }
  }

  /** The cache operations behind a log. */
  function Ops(log: seq<Call>): seq<Op<string, string>> {
    if log == [] then []
    else
      var c := log[|log| - 1];
      Ops(log[..|log| - 1]) + [Op<string, string>.Get(c.key)]
      + if c.executed && c.ok then [Op<string, string>.Set(c.key, c.observation)] else []
  }

  /** Each call went to the tool exactly when the cache had no entry for it. */
  ghost predicate Logged(max: int, log: seq<Call>)
    decreases |log|
  {
    log == [] ||
    var init, c := log[..|log| - 1], log[|log| - 1];
    var found := Lookup(Run(max, Ops(init)), c.key);
    && Logged(max, init)
    && c.executed == found.None?
    && (found.Some? ==> c.ok && c.observation == found.value)
  }

  function KeysOf(log: seq<Call>): set<string> {
    set i | 0 <= i < |log| :: log[i].key
  }

  lemma {:induction false} RunSnoc(max: int, ops: seq<Op<string, string>>, op: Op<string, string>)
    ensures Run(max, ops + [op]) == Apply(max, Run(max, ops), op)
    ensures Touched(max, ops + [op]) == Touched(max, ops) + if Touches(Run(max, ops), op) then [op.key] else []
    ensures forall k ::
      LastSet(ops + [op], k) == (if op.Set? && op.key == k then Some(op.value) else LastSet(ops, k))
  {
    assert (ops + [op])[..|ops + [op]| - 1] == ops;
  }

  /** Some earlier call with this key got a result from its tool or the cache. */
  ghost predicate Succeeded(log: seq<Call>, k: string) {
    exists i :: 0 <= i < |log| && log[i].key == k && log[i].ok
  }

  lemma {:induction false} SucceededStep(log: seq<Call>, k: string)
    requires log != []
    ensures var init, c := log[..|log| - 1], log[|log| - 1];
      Succeeded(log, k) <==> Succeeded(init, k) || (c.key == k && c.ok)
  {
    var init, c := log[..|log| - 1], log[|log| - 1];
    if Succeeded(init, k) {
      var i :| 0 <= i < |init| && init[i].key == k && init[i].ok;
      assert log[i] == init[i];
    }
    if Succeeded(log, k) {
      var i :| 0 <= i < |log| && log[i].key == k && log[i].ok;
      assert i < |init| ==> init[i] == log[i];
    }
  }

  lemma {:induction false} KeysStep(log: seq<Call>)
    requires log != []
    ensures KeysOf(log) == KeysOf(log[..|log| - 1]) + {log[|log| - 1].key}
  {
    var init := log[..|log| - 1];
    assert forall i | 0 <= i < |init| :: init[i] == log[i];
    forall k | k in KeysOf(log) ensures k in KeysOf(init) + {log[|log| - 1].key} {
      var i :| 0 <= i < |log| && log[i].key == k;
      assert i < |init| ==> init[i].key in KeysOf(init);
    }
    forall k | k in KeysOf(init) ensures k in KeysOf(log) {
      var i :| 0 <= i < |init| && init[i].key == k;
      assert log[i].key in KeysOf(log);
    }
    assert log[|log| - 1].key in KeysOf(log);
  }

  lemma {:induction false} TouchedStep(max: int, log: seq<Call>, k: string)
    requires log != [] && Logged(max, log)
    ensures var init, c := log[..|log| - 1], log[|log| - 1];
      k in Touched(max, Ops(log)) <==> k in Touched(max, Ops(init)) || (c.key == k && c.ok)
  {
    var init, c := log[..|log| - 1], log[|log| - 1];
    var g := Op<string, string>.Get(c.key);
    RunSnoc(max, Ops(init), g);
    if c.executed && c.ok {
      RunSnoc(max, Ops(init) + [g], Op<string, string>.Set(c.key, c.observation));
    } else {
      assert Ops(log) == Ops(init) + [g];
    }
  }

  /** The keys that count as touched are exactly those whose tool succeeded. */
  lemma {:induction false} TouchedAreSucceeded(max: int, log: seq<Call>)
    requires Logged(max, log)
    ensures forall k :: k in Touched(max, Ops(log)) <==> Succeeded(log, k)
    ensures forall k | k in Touched(max, Ops(log)) :: k in KeysOf(log)
    decreases |log|
  {
    if log != [] {
      var init, c := log[..|log| - 1], log[|log| - 1];
      TouchedAreSucceeded(max, init);
      KeysStep(log);
      forall k ensures k in Touched(max, Ops(log)) <==> Succeeded(log, k) {
        TouchedStep(max, log, k);
        SucceededStep(log, k);
      }
      forall k | k in Touched(max, Ops(log)) ensures k in KeysOf(log) {
        TouchedStep(max, log, k);
      }
    }
  }

  /** Only keys other than `k` are touched since `k`. */
  lemma {:induction false} SinceOthers(touched: seq<string>, k: string)
    ensures TouchedSince(touched, k) <= (set x | x in touched) - {k}
    decreases |touched|
  {
    if touched != [] {
      var init, last := touched[..|touched| - 1], touched[|touched| - 1];
      SinceOthers(init, k);
      assert touched == init + [last];
    }
  }

  lemma {:induction false} SubsetSize(a: set<string>, b: set<string>)
    requires a <= b
    ensures |a| <= |b|
  {
    assert b == a + (b - a);
  }

  /** With room for every key of the log, a key is in the cache exactly when one of
      its calls has succeeded. */
  lemma {:induction false} NothingEvicted(max: int, log: seq<Call>, k: string)
    requires Logged(max, log) && |KeysOf(log)| <= Room(max)
    ensures Lookup(Run(max, Ops(log)), k).Some? <==> Succeeded(log, k)
  {
    var t := Touched(max, Ops(log));
    TouchedAreSucceeded(max, log);
    HitExactly(max, Ops(log), k);
    if k in t {
      SinceOthers(t, k);
      SubsetSize(TouchedSince(t, k), KeysOf(log) - {k});
    }
  }

  lemma {:induction false} LastSetStep(max: int, log: seq<Call>, k: string)
    requires log != []
    ensures var init, c := log[..|log| - 1], log[|log| - 1];
      LastSet(Ops(log), k) == if c.executed && c.ok && c.key == k then Some(c.observation) else LastSet(Ops(init), k)
  {
    var init, c := log[..|log| - 1], log[|log| - 1];
    var g := Op<string, string>.Get(c.key);
    RunSnoc(max, Ops(init), g);
    if c.executed && c.ok {
      RunSnoc(max, Ops(init) + [g], Op<string, string>.Set(c.key, c.observation));
    } else {
      assert Ops(log) == Ops(init) + [g];
    }
  }

  lemma {:induction false} SameObservation(max: int, log: seq<Call>, i: nat)
    requires Logged(max, log) && |KeysOf(log)| <= Room(max)
    requires i < |log| && log[i].ok
    ensures LastSet(Ops(log), log[i].key) == Some(log[i].observation)
    decreases |log|
  {
    var n := |log| - 1;
    var init, c := log[..n], log[n];
    var k := log[i].key;
    KeysStep(log);
    SubsetSize(KeysOf(init), KeysOf(log));
    NothingEvicted(max, init, c.key);
    HitReturnsLastSet(max, Ops(init), c.key);
    LastSetStep(max, log, k);
    if i < n {
      assert init[i] == log[i];
      SameObservation(max, init, i);
      if c.key == k {
        assert Succeeded(init, k);
      }
    }
  }

  lemma {:induction false} LoggedPrefix(max: int, log: seq<Call>, n: nat)
    requires n <= |log| && Logged(max, log)
    ensures Logged(max, log[..n])
    decreases |log|
  {
    if n == |log| {
      assert log[..n] == log;
    } else {
      LoggedPrefix(max, log[..|log| - 1], n);
      assert log[..|log| - 1][..n] == log[..n];
    }
  }

  /** While the cache has room for all keys of a run, a call goes to its tool
      exactly when no earlier call with the same key succeeded, and every later
      call observes what that one did. */
  lemma {:induction false} OncePerKey(max: int, log: seq<Call>, j: nat)
    requires Logged(max, log) && j < |log|
    requires |KeysOf(log[..j])| <= Room(max)
    ensures log[j].executed <==> !Succeeded(log[..j], log[j].key)
    ensures forall i | 0 <= i < j && log[i].key == log[j].key && log[i].ok ::
      log[j].ok && log[j].observation == log[i].observation
  {
    var init := log[..j];
    LoggedPrefix(max, log, j + 1);
    assert log[..j + 1][..j] == init;
    assert Logged(max, init);
    NothingEvicted(max, init, log[j].key);
    HitReturnsLastSet(max, Ops(init), log[j].key);
    forall i | 0 <= i < j && log[i].key == log[j].key && log[i].ok
      ensures log[j].ok && log[j].observation == log[i].observation
    {
      assert init[i] == log[i];
      SameObservation(max, init, i);
      assert Succeeded(init, log[j].key);
    }
  }

  lemma {:induction false} FewKeys(log: seq<Call>)
    ensures |KeysOf(log)| <= |log|
    decreases |log|
  {
    if log != [] {
      FewKeys(log[..|log| - 1]);
      KeysStep(log);
    }
  }

  /** With at least six entries every run of the loop is like that. */
  lemma {:induction false} LoopExecutesOnce(max: int, log: seq<Call>, j: nat)
    requires max >= 6 && |log| <= 6
    requires Logged(max, log) && j < |log|
    ensures log[j].executed <==> !Succeeded(log[..j], log[j].key)
    ensures forall i | 0 <= i < j && log[i].key == log[j].key && log[i].ok ::
      log[j].ok && log[j].observation == log[i].observation
  {
    FewKeys(log[..j]);
    OncePerKey(max, log, j);
  }

  /** The call was made for this reply and, if it went to the tool, got `o`. */
  ghost predicate CallMatches(c: Call, step: Step, o: Outcome) {
    && c.key == CallKey(step)
    && (c.executed ==> c.ok == o.Ok? && c.observation == if o.Ok? then o.text else "Tool error: " + o.text)
  }

  predicate GoesOn(step: Step) { step.answer == "" && step.action != "" }

  /** The cache holds what the logged calls put there. */
  ghost predicate Agrees(tc: ToolCache, log: seq<Call>)
    reads tc, tc.Elements()
  {
    && tc.Valid()
    && (tc.enabled ==> Logged(tc.max, log) && tc.Contents() == Run(tc.max, Ops(log)))
    && (!tc.enabled ==> forall i | 0 <= i < |log| :: log[i].executed)
  }

  /** Every turn so far named a tool, and its call is the one logged. */
  ghost predicate Turns(replies: seq<Step>, outcomes: seq<Outcome>, log: seq<Call>) {
    && |log| <= |replies| && |log| <= |outcomes|
    && forall i | 0 <= i < |log| :: GoesOn(replies[i]) && CallMatches(log[i], replies[i], outcomes[i])
  }

  lemma {:induction false} TurnLogged(replies: seq<Step>, outcomes: seq<Outcome>, log: seq<Call>, c: Call)
    requires Turns(replies, outcomes, log) && |log| < |replies| && |log| < |outcomes|
    requires GoesOn(replies[|log|]) && CallMatches(c, replies[|log|], outcomes[|log|])
    ensures Turns(replies, outcomes, log + [c])
  {
    var more := log + [c];
    assert more[|log|] == c;
    assert forall i | 0 <= i < |log| :: more[i] == log[i];
  }

  lemma {:induction false} OpsStep(max: int, log: seq<Call>, c: Call)
    ensures var es := Got(Run(max, Ops(log)), c.key);
      Run(max, Ops(log + [c])) == if c.executed && c.ok then Put(max, es, c.key, c.observation) else es
    ensures (log + [c])[..|log|] == log
  {
    assert (log + [c])[..|log|] == log;
    var g := Op<string, string>.Get(c.key);
    RunSnoc(max, Ops(log), g);
    if c.executed && c.ok {
      RunSnoc(max, Ops(log) + [g], Op<string, string>.Set(c.key, c.observation));
    } else {
      assert Ops(log + [c]) == Ops(log) + [g];
    }
  }

  /** One tool call: from the cache if it is there, else from the tool. */
  method UseTool(tc: ToolCache, step: Step, outcome: Outcome, ghost log: seq<Call>) returns (c: Call)
    requires Agrees(tc, log)
    modifies tc, tc.Elements()
    ensures Agrees(tc, log + [c]) && fresh(tc.Elements() - old(tc.Elements()))
    ensures CallMatches(c, step, outcome)
  {
    var input := Truncate(step.input);
    ghost var k := CallKey(step);
    var cached, hit := tc.Get(step.action, input);
    if hit {
      c := Call(NormKey(step.action, input), false, true, cached);
    } else if outcome.Ok? {
      c := Call(NormKey(step.action, input), true, true, outcome.text);
      tc.Store(step.action, input, outcome.text);
    } else {
      c := Call(NormKey(step.action, input), true, false, "Tool error: " + outcome.text);
    }
    OpsStep(tc.max, log, c);
  }

  /** One turn: the next reply ends the loop, or its tool call is made and logged. */
  method Turn(tc: ToolCache, replies: seq<Step>, outcomes: seq<Outcome>, log: seq<Call>)
    returns (more: bool, log': seq<Call>)
    requires |log| < |replies| && |log| < |outcomes|
    requires Agrees(tc, log) && Turns(replies, outcomes, log)
    modifies tc, tc.Elements()
    ensures Agrees(tc, log') && fresh(tc.Elements() - old(tc.Elements()))
    ensures Turns(replies, outcomes, log')
    ensures more == GoesOn(replies[|log|]) && |log'| == if more then |log| + 1 else |log|
  {
    var step := replies[|log|];
    if step.answer != "" || step.action == "" {
      return false, log;
    }
    var c := UseTool(tc, step, outcomes[|log|], log);
    TurnLogged(replies, outcomes, log, c);
    return true, log + [c];
  }

  method RunLoop(tc: ToolCache, replies: seq<Step>, outcomes: seq<Outcome>) returns (turns: nat, log: seq<Call>)
    requires |replies| >= MAX_ITERATIONS && |outcomes| >= MAX_ITERATIONS
    requires Agrees(tc, [])
    modifies tc, tc.Elements()
    ensures 1 <= turns <= MAX_ITERATIONS
    ensures turns < MAX_ITERATIONS ==> !GoesOn(replies[turns - 1])
    ensures |log| == if GoesOn(replies[turns - 1]) then turns else turns - 1
    ensures Agrees(tc, log) && Turns(replies, outcomes, log)
  {
    log := [];
    turns := 0;
    var more := true;
    while more && turns < MAX_ITERATIONS
      invariant turns <= MAX_ITERATIONS && |log| == if more then turns else turns - 1
      invariant more || (turns > 0 && !GoesOn(replies[turns - 1]))
      invariant Agrees(tc, log) && fresh(tc.Elements() - old(tc.Elements()))
      invariant Turns(replies, outcomes, log)
      decreases MAX_ITERATIONS - turns, more
    {
      turns := turns + 1;
      more, log := Turn(tc, replies, outcomes, log);
    }
    assert more ==> Turns(replies, outcomes, log) && |log| == turns && GoesOn(replies[turns - 1]);
  }

  /** The run goes on exactly while replies name a tool and give no answer, for at
      most six model calls; the log has one call for each reply that went on. */
  method React(max: int, enabled: bool, replies: seq<Step>, outcomes: seq<Outcome>)
    returns (answer: string, turns: nat, log: seq<Call>)
    requires |replies| >= MAX_ITERATIONS && |outcomes| >= MAX_ITERATIONS
    ensures 1 <= turns <= 6
    ensures forall i | 0 <= i < turns - 1 :: replies[i].answer == "" && replies[i].action != ""
    ensures turns < 6 ==> replies[turns - 1].answer != "" || replies[turns - 1].action == ""
    ensures |log| == if replies[turns - 1].answer == "" && replies[turns - 1].action != "" then turns else turns - 1
    ensures enabled ==> Logged(max, log)
    ensures !enabled ==> forall i | 0 <= i < |log| :: log[i].executed
    ensures forall i | 0 <= i < |log| :: CallMatches(log[i], replies[i], outcomes[i])
    ensures var last := replies[turns - 1];
      answer == if last.answer != "" then last.answer
                else if last.action == "" then last.raw
                else if last.thought != "" then last.thought
                else "I was unable to complete the reasoning chain within the allowed iterations."
  {
    var tc := new ToolCache(max, enabled);
    turns, log := RunLoop(tc, replies, outcomes);
    var last := replies[turns - 1];
    if !GoesOn(last) {
      answer := if last.answer != "" then last.answer else last.raw;
    } else {
      answer := EXHAUSTED;
      if last.thought != "" {
        answer := last.thought;
      }
    }
  }
}
