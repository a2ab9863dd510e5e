/**
 Kill switches that restore themselves (orchestrator/chaos.go).  One switch is a
 flag, a timer slot and a generation counter; the flag is written outside the
 mutex, so the atomic steps below may interleave in any order.
 */
module Chaos {
  import opened Commons

  /** A scheduled callback: the generation it captured and when it is due.  The
      serial number tells timers apart, as their addresses do. */
  datatype Timer = Timer(serial: nat, gen: nat, due: int)

  datatype Switch = Switch(
    flag: bool,
    slot: Option<Timer>,
    gen: nat,
    armed: set<Timer>,      // timers that have not fired
    queued: set<Timer>,     // fired; the callback has not taken the mutex yet
    restoring: set<Timer>,  // the callback has cleared the slot, not yet the flag
    issued: nat,
    now: int)

  datatype Action =
    | StoreOn                // first half of Kill
    | Arm                    // second half of Kill: scheduleAutoRestore
    | StoreOff               // first half of Restore
    | Cancel                 // second half of Restore: cancelTimer
    | Fire(timer: Timer)
    | Check(timer: Timer)    // the callback's locked section
    | Reset(timer: Timer)    // the callback's restore()
    | Tick(delta: nat)

  const TIMEOUT: nat := 300

  function Initial(now: int): Switch {
    Switch(false, None, 0, {}, {}, {}, 0, now)
  }

  /** One atomic step; a step that cannot happen leaves everything as it is. */
  function Do(s: Switch, a: Action): Switch {
    match a
    case StoreOn => s.(flag := true)
    case Arm =>
      if s.slot.Some? then s
      else
        var t := Timer(s.issued, s.gen, s.now + TIMEOUT);
        s.(slot := Some(t), armed := s.armed + {t}, issued := s.issued + 1)
    case StoreOff => s.(flag := false)
    case Cancel =>
      s.(slot := None, gen := s.gen + 1,
         armed := if s.slot.Some? then s.armed - {s.slot.value} else s.armed)
    case Fire(t) =>
      if t in s.armed && t.due <= s.now then s.(armed := s.armed - {t}, queued := s.queued + {t}) else s
    case Check(t) =>
      if t !in s.queued then s
      else if t.gen != s.gen then s.(queued := s.queued - {t})
      else s.(queued := s.queued - {t}, slot := None, restoring := s.restoring + {t})
    case Reset(t) =>
      if t in s.restoring then s.(restoring := s.restoring - {t}, flag := false) else s
    case Tick(delta) => s.(now := s.now + delta)
  }

  function Run(start: int, acts: seq<Action>): Switch
    decreases |acts|
  {
    if acts == [] then Initial(start)
    else Do(Run(start, acts[..|acts| - 1]), acts[|acts| - 1])
  }

  // ----- generations

  /** Timers and callbacks that have not yet been compared with the generation. */
  function PreCheck(s: Switch): set<Timer> { s.armed + s.queued }

  function Carrying(s: Switch, gen: nat): set<Timer> {
    set t | t in PreCheck(s) && t.gen == gen
  }

  function Occupant(s: Switch): set<Timer> {
    if s.slot.Some? then {s.slot.value} else {}
  }

  ghost predicate Invariant(s: Switch) {
    && Carrying(s, s.gen) == Occupant(s)
    && s.armed !! s.queued && PreCheck(s) !! s.restoring
    && (forall t | t in PreCheck(s) + s.restoring :: t.gen <= s.gen && t.serial < s.issued && t.due <= s.now + TIMEOUT)
    && (forall t | t in s.queued + s.restoring :: t.due <= s.now)
    && (forall t | t in s.armed :: s.slot == Some(t))
  }

  lemma {:induction false} DoKeeps(s: Switch, a: Action)
    requires Invariant(s)
    ensures Invariant(Do(s, a))
  {
    var s' := Do(s, a);
    if a.Check? && a.timer in s.queued && a.timer.gen == s.gen {
      assert a.timer in Carrying(s, s.gen);
    }
    forall t ensures t in Carrying(s', s'.gen) <==> t in Occupant(s') {
      assert t in Carrying(s, s.gen) <==> t in Occupant(s);
      assert t in PreCheck(s) ==> t in PreCheck(s) + s.restoring && t.gen <= s.gen;
    }
  }

  /** Under every interleaving, exactly one timer or callback carries the current
      generation when the slot is occupied - the slot's own - and none when it is
      empty. */
  lemma {:induction false} OneCurrentTimer(start: int, acts: seq<Action>)
    ensures Invariant(Run(start, acts))
    decreases |acts|
  {
    if acts != [] {
      OneCurrentTimer(start, acts[..|acts| - 1]);
      DoKeeps(Run(start, acts[..|acts| - 1]), acts[|acts| - 1]);
    }
  }

  /** `t` is out of date: it can no longer reach the slot or the flag. */
  ghost predicate Superseded(s: Switch, t: Timer) {
    t.gen < s.gen && t.serial < s.issued && t !in s.restoring
  }

  lemma {:induction false} StaysSuperseded(start: int, acts: seq<Action>, j: nat, k: nat, t: Timer)
    requires j <= k <= |acts| && Superseded(Run(start, acts[..j]), t)
    ensures Superseded(Run(start, acts[..k]), t)
    decreases k
  {
    if j < k {
      StaysSuperseded(start, acts, j, k - 1, t);
      assert acts[..k][..k - 1] == acts[..k - 1];
    }
  }

  /** A callback that is overtaken by a cancel before it checks never touches the
      slot or the flag, however late it runs. */
  lemma {:induction false} CancelDisarms(start: int, acts: seq<Action>, j: nat, k: nat, t: Timer)
    requires j < k <= |acts| && acts[j] == Cancel
    requires t in PreCheck(Run(start, acts[..j]))
    ensures var s := Run(start, acts[..k]);
      && Do(s, Check(t)) == s.(queued := s.queued - {t})
      && Do(s, Reset(t)) == s
  {
    OneCurrentTimer(start, acts[..j]);
    assert acts[..j + 1][..j] == acts[..j];
    StaysSuperseded(start, acts, j + 1, k, t);
  }

  lemma {:induction false} RunSnoc(start: int, acts: seq<Action>, a: Action)
    ensures Run(start, acts + [a]) == Do(Run(start, acts), a)
  {
    assert (acts + [a])[..|acts + [a]| - 1] == acts;
  }

  lemma {:induction false} RunStep(start: int, acts: seq<Action>, k: nat)
    requires k < |acts|
    ensures Run(start, acts[..k + 1]) == Do(Run(start, acts[..k]), acts[k])
  {
    assert acts[..k + 1][..k] == acts[..k];
  }

  lemma {:induction false} RestoringStays(s: Switch, a: Action, t: Timer)
    requires a != Reset(t)
    ensures t in s.restoring ==> t in Do(s, a).restoring
  {
  }

  /** Exactly the callbacks that were past their check at a cancel survive it: as
      long as one does not restore, it is about to restore after any later step if
      and only if it already was at the cancel. */
  lemma {:induction false} CancelDisarmsExactly(start: int, acts: seq<Action>, j: nat, k: nat, t: Timer)
    requires j < k <= |acts| && acts[j] == Cancel
    requires t in PreCheck(Run(start, acts[..j])) + Run(start, acts[..j]).restoring
    requires forall i | j <= i < k :: acts[i] != Reset(t)
    ensures t in Run(start, acts[..k]).restoring <==> t in Run(start, acts[..j]).restoring
    decreases k
  {
    OneCurrentTimer(start, acts[..j]);
    RunStep(start, acts, j);
    RestoringStays(Run(start, acts[..j]), Cancel, t);
    if t in PreCheck(Run(start, acts[..j])) {
      StaysSuperseded(start, acts, j + 1, k, t);
    } else if k > j + 1 {
      CancelDisarmsExactly(start, acts, j, k - 1, t);
      RunStep(start, acts, k - 1);
      RestoringStays(Run(start, acts[..k - 1]), acts[k - 1], t);
    }
  }

  // ----- when a flag is stranded

  /** The flag is on and nothing that has been started will turn it off: no timer
      is pending and no callback is past its check. */
  predicate Stranded(s: Switch) {
    s.flag && s.slot.None? && s.restoring == {}
  }

  /** A cancel that finds the flag on, or a store that finds no timer pending. */
  predicate Strands(s: Switch, a: Action) {
    s.restoring == {} && ((a.Cancel? && s.flag) || (a.StoreOn? && s.slot.None?))
  }

  /** A store that is followed by its own arming, or a restore, ends it. */
  predicate Rescues(a: Action) { a.Arm? || a.StoreOff? }

  lemma {:induction false} StrandedStep(s: Switch, a: Action)
    requires Invariant(s)
    ensures Stranded(Do(s, a)) <==> Strands(s, a) || (Stranded(s) && !Rescues(a))
  {
    if a.Check? && a.timer in s.queued && a.timer.gen == s.gen {
      assert a.timer in Carrying(s, s.gen);
      assert a.timer in Do(s, a).restoring;
    }
  }

  ghost predicate StrandedAt(start: int, acts: seq<Action>, j: nat)
    requires j < |acts|
  {
    Strands(Run(start, acts[..j]), acts[j]) && forall k | j < k < |acts| :: !Rescues(acts[k])
  }

  /** Under every interleaving a flag is stranded if and only if some step stranded
      it and neither an arming nor a restore has come since. */
  lemma {:induction false} StrandedExactly(start: int, acts: seq<Action>)
    ensures Stranded(Run(start, acts)) <==>
      exists j :: 0 <= j < |acts| && StrandedAt(start, acts, j)
    decreases |acts|
  {
    if acts != [] {
      var n := |acts| - 1;
      var init := acts[..n];
      StrandedExactly(start, init);
      OneCurrentTimer(start, init);
      StrandedStep(Run(start, init), acts[n]);
      forall j | 0 <= j < n
        ensures StrandedAt(start, acts, j) <==> StrandedAt(start, init, j) && !Rescues(acts[n])
      {
        assert init[..j] == acts[..j];
        assert forall k | j < k < n :: init[k] == acts[k];
      }
      assert StrandedAt(start, acts, n) <==> Strands(Run(start, init), acts[n]);
    }
  }

  /** Time and the callbacks that are owed, without any further kill or restore. */
  predicate Unattended(a: Action) { a.Fire? || a.Check? || a.Reset? || a.Tick? }

  ghost predicate AllUnattended(acts: seq<Action>) {
    forall i | 0 <= i < |acts| :: Unattended(acts[i])
  }

  lemma {:induction false} StaysStranded(start: int, acts: seq<Action>, rest: seq<Action>)
    requires Stranded(Run(start, acts)) && AllUnattended(rest)
    ensures Stranded(Run(start, acts + rest))
    decreases |rest|
  {
    if rest == [] {
      assert acts + rest == acts;
    } else {
      var n := |rest| - 1;
      StaysStranded(start, acts, rest[..n]);
      assert acts + rest == (acts + rest[..n]) + [rest[n]];
      RunSnoc(start, acts + rest[..n], rest[n]);
      OneCurrentTimer(start, acts + rest[..n]);
      StrandedStep(Run(start, acts + rest[..n]), rest[n]);
    }
  }

  /** What is owed next: the reset of a callback past its check, else the rest of
      the slot's timer. */
  ghost function Owed(s: Switch): seq<Action>
    requires s.restoring != {} || s.slot.Some?
  {
    if s.restoring != {} then
      var t :| t in s.restoring;
      [Reset(t)]
    else
      var t := s.slot.value;
      [Tick(if t.due > s.now then t.due - s.now else 0), Fire(t), Check(t), Reset(t)]
  }

  lemma {:induction false} Two(start: int, acts: seq<Action>, a: Action, b: Action)
    ensures Run(start, acts + [a, b]) == Do(Do(Run(start, acts), a), b)
  {
    var all, n := acts + [a, b], |acts|;
    assert all[..n] == acts;
    assert all[..n + 2] == all;
    RunStep(start, all, n);
    RunStep(start, all, n + 1);
  }

  lemma {:induction false} Four(start: int, acts: seq<Action>, a: Action, b: Action, c: Action, d: Action)
    ensures Run(start, acts + [a, b, c, d]) == Do(Do(Do(Do(Run(start, acts), a), b), c), d)
  {
    Two(start, acts, a, b);
    Two(start, acts + [a, b], c, d);
    assert acts + [a, b, c, d] == acts + [a, b] + [c, d];
  }

  /** The slot's own timer is among those still to check. */
  lemma {:induction false} SlotIsPending(s: Switch)
    requires Invariant(s) && s.slot.Some?
    ensures s.slot.value in PreCheck(s) && s.slot.value.gen == s.gen
  {
    assert s.slot.value in Carrying(s, s.gen);
  }

  /** A flag that is not stranded is turned off by what is owed, no later than the
      slot's timer is due. */
  lemma {:induction false} OwedClears(start: int, acts: seq<Action>)
    requires var s := Run(start, acts); s.restoring != {} || s.slot.Some?
    ensures var s := Run(start, acts);
      var s' := Run(start, acts + Owed(s));
      && AllUnattended(Owed(s)) && !s'.flag
      && s'.now == if s.restoring == {} && s.slot.value.due > s.now then s.slot.value.due else s.now
  {
    var s := Run(start, acts);
    OneCurrentTimer(start, acts);
    if s.restoring != {} {
      var t :| t in s.restoring && Owed(s) == [Reset(t)];
      RunSnoc(start, acts, Reset(t));
    } else {
      SlotIsPending(s);
      var t := s.slot.value;
      var tick := Tick(if t.due > s.now then t.due - s.now else 0);
      Four(start, acts, tick, Fire(t), Check(t), Reset(t));
      var s1 := Do(s, tick);
      var s2 := Do(s1, Fire(t));
      assert t in s2.queued && t.gen == s2.gen;
      var s3 := Do(s2, Check(t));
      assert t in s3.restoring;
    }
  }

  /** A killed switch restores itself if and only if it is not stranded. */
  lemma {:induction false} RestoresItselfExactly(start: int, acts: seq<Action>)
    requires Run(start, acts).flag
    ensures (exists rest :: AllUnattended(rest) && !Run(start, acts + rest).flag) <==> !Stranded(Run(start, acts))
  {
    if Stranded(Run(start, acts)) {
      forall rest | AllUnattended(rest) ensures Run(start, acts + rest).flag {
        StaysStranded(start, acts, rest);
      }
    } else {
      OwedClears(start, acts);
    }
  }

  lemma {:induction false} Six(start: int, a: Action, b: Action, c: Action, d: Action, e: Action, f: Action)
    ensures Run(start, [a, b, c, d, e, f]) ==
      Do(Do(Do(Do(Do(Do(Initial(start), a), b), c), d), e), f)
  {
    assert [a][..0] == [] && Run(start, [a]) == Do(Initial(start), a);
    assert [a, b][..1] == [a] && Run(start, [a, b]) == Do(Run(start, [a]), b);
    assert [a, b, c][..2] == [a, b] && Run(start, [a, b, c]) == Do(Run(start, [a, b]), c);
    assert [a, b, c, d][..3] == [a, b, c] && Run(start, [a, b, c, d]) == Do(Run(start, [a, b, c]), d);
    assert [a, b, c, d, e][..4] == [a, b, c, d];
    assert Run(start, [a, b, c, d, e]) == Do(Run(start, [a, b, c, d]), e);
    assert [a, b, c, d, e, f][..5] == [a, b, c, d, e];
  }

  /** A kill that runs between the two halves of a restore strands its flag: it
      stays on whatever callbacks run and however long one waits. */
  lemma {:induction false} OverlapLeavesFlagOn(start: int, rest: seq<Action>)
    requires AllUnattended(rest)
    ensures Run(start, [StoreOn, Arm, StoreOff, StoreOn, Arm, Cancel] + rest).flag
  {
    Six(start, StoreOn, Arm, StoreOff, StoreOn, Arm, Cancel);
    StaysStranded(start, [StoreOn, Arm, StoreOff, StoreOn, Arm, Cancel], rest);
  }

  // ----- how long a kill lasts

  /** A callback that has passed its check can undo a kill that came after it. */
  lemma {:induction false} LateResetUndoesKill(start: int)
    ensures var t := Timer(0, 0, start + TIMEOUT);
      var s := Run(start, [StoreOn, Arm, Tick(TIMEOUT), Fire(t), Check(t), StoreOn]);
      var s' := Do(Do(s, Arm), Reset(t));
      s.flag && !s'.flag && s'.slot.Some?
  {
    var t := Timer(0, 0, start + TIMEOUT);
    Six(start, StoreOn, Arm, Tick(TIMEOUT), Fire(t), Check(t), StoreOn);
    var s2 := Do(Do(Initial(start), StoreOn), Arm);
    assert s2.armed == {t} && s2.slot == Some(t);
  }

  /** Nothing that could turn the flag off is due before `until`. */
  ghost predicate QuietUntil(s: Switch, until: int) {
    && (forall t | t in s.restoring :: t.due >= until)
    && (forall t | t in PreCheck(s) && t.gen == s.gen :: t.due >= until)
    && s.now + TIMEOUT >= until
  }

  lemma {:induction false} QuietStep(s: Switch, a: Action, until: int)
    requires Invariant(s) && QuietUntil(s, until) && !a.StoreOff? && s.flag
    ensures QuietUntil(Do(s, a), until)
    ensures Do(s, a).now < until ==> Do(s, a).flag
  {
    if a.Reset? && a.timer in s.restoring {
      assert a.timer in s.queued + s.restoring;
    }
    forall t | t in PreCheck(Do(s, a)) && t.gen == Do(s, a).gen ensures t.due >= until {
      assert t in PreCheck(s) ==> t in PreCheck(s) + s.restoring;
    }
  }

  ghost predicate NoRestore(acts: seq<Action>) {
    forall i | 0 <= i < |acts| :: !acts[i].StoreOff?
  }

  lemma {:induction false} NowGrows(s: Switch, a: Action)
    ensures Do(s, a).now >= s.now
  {
  }

  lemma {:induction false} QuietRun(start: int, acts: seq<Action>, rest: seq<Action>, until: int)
    requires QuietUntil(Run(start, acts), until) && Run(start, acts).flag
    requires NoRestore(rest)
    requires Run(start, acts + rest).now < until
    ensures Run(start, acts + rest).flag && QuietUntil(Run(start, acts + rest), until)
    decreases |rest|
  {
    if rest == [] {
      assert acts + rest == acts;
    } else {
      var n := |rest| - 1;
      var init := acts + rest[..n];
      assert acts + rest == init + [rest[n]];
      RunSnoc(start, init, rest[n]);
      NowGrows(Run(start, init), rest[n]);
      QuietRun(start, acts, rest[..n], until);
      OneCurrentTimer(start, init);
      QuietStep(Run(start, init), rest[n], until);
    }
  }

  /** At the moment of a kill no callback is past its check, and no timer pending
      from an earlier moment. */
  predicate Clear(s: Switch) {
    s.restoring == {} && (s.slot.Some? ==> s.slot.value.due >= s.now + TIMEOUT)
  }

  /** Every continuation of a kill without a restore keeps the flag on until the
      timeout has passed. */
  ghost predicate Lasts(start: int, acts: seq<Action>) {
    forall rest: seq<Action> ::
      NoRestore(rest) &&
      Run(start, acts + [StoreOn] + rest).now < Run(start, acts).now + 300 ==>
        Run(start, acts + [StoreOn] + rest).flag
  }

  /** A kill lasts its full timeout under every interleaving if and only if it
      finds the switch clear; otherwise an older callback or timer can undo it. */
  lemma {:induction false} KillLastsExactly(start: int, acts: seq<Action>)
    ensures Lasts(start, acts) <==> Clear(Run(start, acts))
  {
    var s := Run(start, acts);
    var killed := acts + [StoreOn];
    var until := s.now + TIMEOUT;
    RunSnoc(start, acts, StoreOn);
    OneCurrentTimer(start, acts);
    if Clear(s) {
      forall t | t in PreCheck(s) && t.gen == s.gen ensures t.due >= until {
        assert t in Carrying(s, s.gen);
      }
      forall rest: seq<Action> | NoRestore(rest) && Run(start, killed + rest).now < until
        ensures Run(start, killed + rest).flag
      {
        QuietRun(start, killed, rest, until);
      }
    } else {
      var rest := Owed(Run(start, killed));
      OwedClears(start, killed);
      assert forall i | 0 <= i < |rest| :: Unattended(rest[i]);
      assert !Run(start, killed + rest).flag;
    }
  }

  // ----- serialised kills and restores

  datatype Op = Idle | Killing(since: int) | Restoring

  /** A switch whose kills and restores take turns, while callbacks interleave.
      `onSince` is when the flag last went from off to on. */
  datatype Served = Served(switch: Switch, op: Op, onSince: int)

  datatype Move = BeginKill | EndKill | BeginRestore | EndRestore | Callback(action: Action) | Wait(delta: nat)

  /** How promptly the host acts: a kill arms its timer within `lag` of storing
      the flag, and a callback has run within `delay` of being due. */
  datatype Pace = Pace(lag: nat, delay: nat)

  predicate MayWait(p: Pace, v: Served, delta: nat) {
    var later := v.switch.now + delta;
    && (forall t | t in PreCheck(v.switch) + v.switch.restoring :: later <= t.due + p.delay)
    && (v.op.Killing? ==> later <= v.op.since + p.lag)
  }

  function Serve(p: Pace, v: Served, m: Move): Served {
    var s := v.switch;
    match m
    case BeginKill =>
      if !v.op.Idle? then v
      else Served(Do(s, StoreOn), Killing(s.now), if s.flag then v.onSince else s.now)
    case EndKill => if v.op.Killing? then v.(switch := Do(s, Arm), op := Idle) else v
    case BeginRestore => if v.op.Idle? then v.(switch := Do(s, StoreOff), op := Restoring) else v
    case EndRestore => if v.op.Restoring? then v.(switch := Do(s, Cancel), op := Idle) else v
    case Callback(a) => if a.Fire? || a.Check? || a.Reset? then v.(switch := Do(s, a)) else v
    case Wait(delta) => if MayWait(p, v, delta) then v.(switch := Do(s, Tick(delta))) else v
  }

  function ServeAll(p: Pace, start: int, moves: seq<Move>): Served
    decreases |moves|
  {
    if moves == [] then Served(Initial(start), Idle, start)
    else Serve(p, ServeAll(p, start, moves[..|moves| - 1]), moves[|moves| - 1])
  }

  /** Something that will turn the flag off is due in time. */
  ghost predicate Guarded(p: Pace, v: Served) {
    var s, bound := v.switch, v.onSince + p.lag + TIMEOUT;
    || (s.slot.Some? && s.slot.value.due <= bound)
    || (exists t :: t in s.restoring && t.due <= bound)
    || (v.op.Killing? && v.op.since <= v.onSince)
  }

  ghost predicate ServedInvariant(p: Pace, v: Served) {
    var s := v.switch;
    && Invariant(s)
    && (forall t | t in PreCheck(s) + s.restoring :: s.now <= t.due + p.delay)
    && (v.op.Killing? ==> v.op.since <= s.now <= v.op.since + p.lag)
    && (v.op.Restoring? ==> !s.flag)
    && (s.flag ==> Guarded(p, v))
  }

  lemma {:induction false} CallbackKeepsGuard(p: Pace, v: Served, a: Action)
    requires ServedInvariant(p, v) && (a.Fire? || a.Check? || a.Reset?)
    ensures var v' := v.(switch := Do(v.switch, a)); v'.switch.flag ==> Guarded(p, v')
  {
    var s, s' := v.switch, Do(v.switch, a);
    if s'.flag {
      assert Carrying(s, s.gen) == Occupant(s);
      if a.Check? && a.timer in s.queued && a.timer.gen == s.gen {
        assert a.timer in Carrying(s, s.gen);
        assert a.timer in s'.restoring;
        if exists t :: t in s.restoring && t.due <= v.onSince + p.lag + TIMEOUT {
          var t :| t in s.restoring && t.due <= v.onSince + p.lag + TIMEOUT;
          assert t in s'.restoring;
        }
      }
    }
  }

  lemma {:induction false} KillBegins(p: Pace, v: Served)
    requires ServedInvariant(p, v)
    ensures ServedInvariant(p, Serve(p, v, BeginKill))
  {
    DoKeeps(v.switch, StoreOn);
    if v.switch.slot.Some? {
      SlotIsPending(v.switch);
    }
  }

  lemma {:induction false} KillEnds(p: Pace, v: Served)
    requires ServedInvariant(p, v)
    ensures ServedInvariant(p, Serve(p, v, EndKill))
  {
    DoKeeps(v.switch, Arm);
    if v.switch.slot.Some? {
      SlotIsPending(v.switch);
    }
  }

  lemma {:induction false} RestoreKeeps(p: Pace, v: Served, m: Move)
    requires ServedInvariant(p, v) && (m.BeginRestore? || m.EndRestore?)
    ensures ServedInvariant(p, Serve(p, v, m))
  {
    DoKeeps(v.switch, if m.BeginRestore? then StoreOff else Cancel);
  }

  lemma {:induction false} CallbackKeeps(p: Pace, v: Served, a: Action)
    requires ServedInvariant(p, v)
    ensures ServedInvariant(p, Serve(p, v, Callback(a)))
  {
    if a.Fire? || a.Check? || a.Reset? {
      DoKeeps(v.switch, a);
      CallbackKeepsGuard(p, v, a);
    }
  }

  lemma {:induction false} WaitKeeps(p: Pace, v: Served, delta: nat)
    requires ServedInvariant(p, v)
    ensures ServedInvariant(p, Serve(p, v, Wait(delta)))
  {
    DoKeeps(v.switch, Tick(delta));
  }

  lemma {:induction false} ServeKeeps(p: Pace, v: Served, m: Move)
    requires ServedInvariant(p, v)
    ensures ServedInvariant(p, Serve(p, v, m))
  {
    match m
    case BeginKill => KillBegins(p, v);
    case EndKill => KillEnds(p, v);
    case BeginRestore => RestoreKeeps(p, v, m);
    case EndRestore => RestoreKeeps(p, v, m);
    case Callback(a) => CallbackKeeps(p, v, a);
    case Wait(delta) => WaitKeeps(p, v, delta);
  }

  lemma {:induction false} ServedAlways(p: Pace, start: int, moves: seq<Move>)
    ensures ServedInvariant(p, ServeAll(p, start, moves))
    decreases |moves|
  {
    if moves != [] {
      ServedAlways(p, start, moves[..|moves| - 1]);
      ServeKeeps(p, ServeAll(p, start, moves[..|moves| - 1]), moves[|moves| - 1]);
    }
  }

  /** While the flag stays on, `onSince` stays put. */
  lemma {:induction false} OnSinceStays(p: Pace, start: int, moves: seq<Move>, i: nat, j: nat)
    requires i <= j <= |moves|
    requires forall k | i <= k <= j :: ServeAll(p, start, moves[..k]).switch.flag
    ensures ServeAll(p, start, moves[..j]).onSince == ServeAll(p, start, moves[..i]).onSince
    decreases j
  {
    if i < j {
      OnSinceStays(p, start, moves, i, j - 1);
      assert moves[..j][..j - 1] == moves[..j - 1];
      assert ServeAll(p, start, moves[..j - 1]).switch.flag;
    }
  }

  lemma {:induction false} ServeOnSince(p: Pace, v: Served, m: Move)
    requires v.onSince <= v.switch.now
    ensures Serve(p, v, m).onSince <= Serve(p, v, m).switch.now
  {
  }

  lemma {:induction false} OnSincePast(p: Pace, start: int, moves: seq<Move>)
    ensures var v := ServeAll(p, start, moves); v.onSince <= v.switch.now
    decreases |moves|
  {
    if moves != [] {
      OnSincePast(p, start, moves[..|moves| - 1]);
      ServeOnSince(p, ServeAll(p, start, moves[..|moves| - 1]), moves[|moves| - 1]);
    }
  }

  /** However often a switch is killed again, its flag is never continuously on
      for longer than the timeout, give or take the pace of the host. */
  lemma {:induction false} BoundedOutage(p: Pace, start: int, moves: seq<Move>, i: nat, j: nat)
    requires i <= j <= |moves|
    requires forall k | i <= k <= j :: ServeAll(p, start, moves[..k]).switch.flag
    ensures ServeAll(p, start, moves[..j]).switch.now - ServeAll(p, start, moves[..i]).switch.now
         <= TIMEOUT + p.lag + p.delay
  {
    OnSinceStays(p, start, moves, i, j);
    OnSincePast(p, start, moves[..i]);
    ServedAlways(p, start, moves[..j]);
    var v := ServeAll(p, start, moves[..j]);
    assert v.switch.flag;
    if v.switch.slot.Some? {
      SlotIsPending(v.switch);
    }
  }

  /** The switch as the program holds it.  Timers that the runtime still owes are
      kept beside the fields; `Interleave` lets every step happen in any order. */
  class KillSwitch {
    var flag: bool
    var slot: Option<Timer>
    var gen: nat
    var armed: set<Timer>
    var queued: set<Timer>
    var restoring: set<Timer>
    var issued: nat
    var now: int

    ghost function Value(): Switch
      reads this
    {
      Switch(flag, slot, gen, armed, queued, restoring, issued, now)
    }

    constructor (now: int)
      ensures Value() == Initial(now)
    {
      flag, slot, gen := false, None, 0;
      armed, queued, restoring, issued := {}, {}, {}, 0;
      this.now := now;
    }

    /** Arm a timer unless one is pending. */
    method ScheduleAutoRestore()
      modifies this
      ensures Value() == Do(old(Value()), Arm)
    {
      if slot.Some? {
        return;
      }
      var timer := Timer(issued, gen, now + TIMEOUT);
      armed := armed + {timer};
      slot := Some(timer);
      issued := issued + 1;
    }

    method CancelTimer()
      modifies this
      ensures Value() == Do(old(Value()), Cancel)
    {
      if slot.Some? {
        armed := armed - {slot.value};
        slot := None;
      }
      gen := gen + 1;
    }

    /** The callback's locked section; true when it goes on to restore. */
    method Callback(timer: Timer) returns (restore: bool)
      requires timer in queued
      modifies this
      ensures Value() == Do(old(Value()), Check(timer))
      ensures restore == (timer.gen == old(gen))
    {
      queued := queued - {timer};
      if gen != timer.gen {
        return false;
      }
      slot := None;
      restoring := restoring + {timer};
      return true;
    }

    method Kill()
      modifies this
      ensures Value() == Do(Do(old(Value()), StoreOn), Arm)
    {
      flag := true;
      ScheduleAutoRestore();
    }

    method Restore()
      modifies this
      ensures Value() == Do(Do(old(Value()), StoreOff), Cancel)
    {
      flag := false;
      CancelTimer();
    }

    /** The runtime's part: an armed timer that is due starts its callback. */
    method FireTimer(timer: Timer)
      modifies this
      ensures Value() == Do(old(Value()), Fire(timer))
    {
      if timer in armed && timer.due <= now {
        armed, queued := armed - {timer}, queued + {timer};
      }
    }

    /** A callback's restore(), outside the mutex. */
    method ResetFlag(timer: Timer)
      modifies this
      ensures Value() == Do(old(Value()), Reset(timer))
    {
      if timer in restoring {
        restoring := restoring - {timer};
        flag := false;
      }
    }

    /** One atomic step of whichever caller or callback is scheduled next. */
    method Perform(a: Action)
      modifies this
      ensures Value() == Do(old(Value()), a)
    {
      match a
      case StoreOn => flag := true;
      case Arm => ScheduleAutoRestore();
      case StoreOff => flag := false;
      case Cancel => CancelTimer();
      case Fire(t) => FireTimer(t);
      case Check(t) =>
        if t in queued {
          var _ := Callback(t);
        }
      case Reset(t) => ResetFlag(t);
      case Tick(delta) => now := now + delta;
    }
  }

  /** Any interleaving of the switch's own steps: what it comes to is `Run`, so
      every theorem about `Run` is about the switch. */
  method Interleave(start: int, acts: seq<Action>) returns (s: KillSwitch)
    ensures s.Value() == Run(start, acts) && Invariant(s.Value())
    ensures Stranded(s.Value()) <==> exists j :: 0 <= j < |acts| && StrandedAt(start, acts, j)
  {
    s := new KillSwitch(start);
    for i := 0 to |acts|
      invariant fresh(s) && s.Value() == Run(start, acts[..i])
    {
      RunStep(start, acts, i);
      s.Perform(acts[i]);
    }
    assert acts[..|acts|] == acts;
    OneCurrentTimer(start, acts);
    StrandedExactly(start, acts);
  }
}
