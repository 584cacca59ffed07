/**
 * Properties of the session core: what a batch dispatches, how the log and
 * the reward grow over a run, the loop budget, and the feedback rule.
 */
module AppProofs {
  import opened Wrappers
  import opened Apis
  import opened ApisProofs
  import opened App

  // ------------------------------------------------------------ dispatch

  /** The batch from position `i` on behaves as the batch that is the same from `j` on. */
  lemma {:induction false} DispatchSameTail(a: seq<Item>, i: nat, b: seq<Item>, j: nat, w: World, faulty: set<nat>)
    requires i <= |a| && j <= |b| && a[i..] == b[j..]
    ensures Dispatch(a, i, w, faulty) == Dispatch(b, j, w, faulty)
    decreases |a| - i
  {
    if i < |a| {
      assert a[i] == a[i..][0] == b[j..][0] == b[j];
      assert a[i + 1..] == a[i..][1..] == b[j..][1..] == b[j + 1..];
      var i1, j1 := i + 1, j + 1;
      forall v: World ensures Dispatch(a, i1, v, faulty) == Dispatch(b, j1, v, faulty) {
        DispatchSameTail(a, i1, b, j1, v, faulty);
      }
    }
  }

  /** Operations after a `done` are never looked at: the batch cut just after it behaves the same. */
  lemma {:induction false} DoneEndsBatch(items: seq<Item>, i: nat, k: nat, w: World, faulty: set<nat>)
    requires i <= k < |items| && items[k].Record? && Classify(items[k].op) == DoneOp
    ensures Dispatch(items, i, w, faulty) == Dispatch(items[..k + 1], i, w, faulty)
    ensures Dispatch(items, k, w, faulty) == Step(WithEntry(w, DoneEntry(items[k].op)), Finished)
    decreases k - i
  {
    var cut := items[..k + 1];
    assert cut[i] == items[i];
    if i < k {
      var i1 := i + 1;
      forall v: World ensures Dispatch(items, i1, v, faulty) == Dispatch(cut, i1, v, faulty) {
        DoneEndsBatch(items, i1, k, v, faulty);
      }
    }
  }

  /** A skipped operation (an unknown tag, a click without truthy coordinates) can be removed from the batch without any effect. */
  lemma {:induction false} SkipHasNoEffect(items: seq<Item>, i: nat, j: nat, w: World, faulty: set<nat>)
    requires i <= j < |items| && items[j].Record? && Classify(items[j].op) == Skip
    ensures Dispatch(items, i, w, faulty) == Dispatch(items[..j] + items[j + 1..], i, w, faulty)
    decreases j - i
  {
    var removed := items[..j] + items[j + 1..];
    if i == j {
      assert items[j + 1..] == removed[j..];
      DispatchSameTail(items, j + 1, removed, j, w, faulty);
    } else {
      assert removed[i] == items[i];
      var i1 := i + 1;
      forall v: World ensures Dispatch(items, i1, v, faulty) == Dispatch(removed, i1, v, faulty) {
        SkipHasNoEffect(items, i1, j, v, faulty);
      }
    }
  }

  /**
   * The executor calls a batch plans: its presses, writes and clicks in order,
   * up to the first `done` or element that is no record.
   */
  function Planned(items: seq<Item>): seq<Action>
  {
    if items == [] then []
    else match items[0]
      case NotRecord => []
      case Record(op) =>
        match Classify(op)
        case DoneOp => []
        case Skip => Planned(items[1..])
        case _ => [ActionFor(op)] + Planned(items[1..])
  }

  /** A batch changes neither the history nor the attempts, and only appends to the trace. */
  lemma {:induction false} DispatchKeeps(items: seq<Item>, i: nat, w: World, faulty: set<nat>)
    requires i <= |items|
    ensures var s := Dispatch(items, i, w, faulty);
      s.world.history == w.history && s.world.attempts == w.attempts && w.trace <= s.world.trace
    decreases |items| - i
  {
    if i < |items| && items[i].Record? {
      var op := items[i].op;
      match Classify(op)
      case DoneOp =>
      case Skip =>
        DispatchKeeps(items, i + 1, w, faulty);
      case _ =>
        var called := w.(trace := w.trace + [ActionFor(op)]);
        if |w.trace| !in faulty {
          DispatchKeeps(items, i + 1, WithEntry(called, ActionEntry(op)), faulty);
        }
    }
  }

  /**
   * The executor sees a prefix of the planned calls, in order; all of them
   * when none of those calls raises.
   */
  lemma {:induction false} DispatchCalls(items: seq<Item>, i: nat, w: World, faulty: set<nat>)
    requires i <= |items|
    ensures var s := Dispatch(items, i, w, faulty);
      var plan := Planned(items[i..]);
      w.trace <= s.world.trace <= w.trace + plan &&
      ((forall k :: |w.trace| <= k < |w.trace| + |plan| ==> k !in faulty) ==> s.world.trace == w.trace + plan)
    decreases |items| - i
  {
    if i < |items| {
      assert items[i..][0] == items[i] && items[i..][1..] == items[i + 1..];
      if items[i].Record? {
        var op := items[i].op;
        match Classify(op)
        case DoneOp =>
        case Skip =>
          DispatchCalls(items, i + 1, w, faulty);
        case _ =>
          var a := ActionFor(op);
          var rest := Planned(items[i + 1..]);
          assert Planned(items[i..]) == [a] + rest;
          assert w.trace + [a] + rest == w.trace + ([a] + rest);
          if |w.trace| !in faulty {
            var next := WithEntry(w.(trace := w.trace + [a]), ActionEntry(op));
            DispatchCalls(items, i + 1, next, faulty);
          }
      }
    }
  }

  // ----------------------------------------------------- log and reward of a run

  /** The reward a run earns by the way it ends. */
  function OutcomeReward(o: Outcome): int {
    match o
    case Done => 20
    case MaxLoopsReached => -5
    case Error => -10
    case FatalError => -20
    case Stalled => 0
  }

  /** The entry type that records the way a run ends (a stalled run records none). */
  function TerminalKind(o: Outcome): string {
    match o
    case Done => "DONE"
    case MaxLoopsReached => "MAX_LOOPS"
    case Error => "ERROR"
    case FatalError => "FATAL_ERROR"
    case Stalled => ""
  }

  /** The entry types that record how a run ends. */
  predicate IsTerminalKind(kind: string) {
    kind == "DONE" || kind == "MAX_LOOPS" || kind == "ERROR" || kind == "FATAL_ERROR"
  }

  /** No entry has a known success or a terminal type; such entries leave the reward as it is. */
  ghost predicate Pending(entries: seq<Entry>) {
    forall k :: 0 <= k < |entries| ==> entries[k].success.None? && !IsTerminalKind(entries[k].kind)
  }

  ghost predicate Terminal(e: Entry, o: Outcome) {
    e.kind == TerminalKind(o) && e.success == Some(o == Done) && e.reward == OutcomeReward(o)
  }

  /**
   * `after` is `before` with entries appended and the reward moved by the
   * outcome's reward; no appended entry has a known success, except that for
   * an outcome other than `Stalled` the last one is the outcome's terminal entry.
   */
  ghost predicate Settles(before: Ledger, after: Ledger, o: Outcome) {
    |before.actions| <= |after.actions| && after.actions[..|before.actions|] == before.actions &&
    after.totalReward == before.totalReward + OutcomeReward(o) &&
    var added := after.actions[|before.actions|..];
    if o == Stalled then Pending(added)
    else |added| > 0 && Pending(added[..|added| - 1]) && Terminal(added[|added| - 1], o)
  }

  lemma SettlesLogged(l: Ledger, e: Entry, o: Outcome)
    requires if o == Stalled then e.success.None? && !IsTerminalKind(e.kind) else Terminal(e, o)
    ensures Settles(l, Logged(l, e), o)
  {
    var after := Logged(l, e);
    assert after.actions[..|l.actions|] == l.actions;
    assert after.actions[|l.actions|..] == [e];
  }

  lemma SettlesTrans(a: Ledger, b: Ledger, c: Ledger, o: Outcome)
    requires Settles(a, b, Stalled) && Settles(b, c, o)
    ensures Settles(a, c, o)
  {
    assert c.actions[..|a.actions|] == c.actions[..|b.actions|][..|a.actions|];
    var first := b.actions[|a.actions|..];
    var second := c.actions[|b.actions|..];
    var added := c.actions[|a.actions|..];
    assert added == first + second;
    if o != Stalled {
      assert added[..|added| - 1] == first + second[..|second| - 1];
    }
  }

  /** Logging a pending entry in front of a settled stretch keeps it settled. */
  lemma SettlesAfterPending(l: Ledger, e: Entry, after: Ledger, o: Outcome)
    requires e.success.None? && !IsTerminalKind(e.kind) && Settles(Logged(l, e), after, o)
    ensures Settles(l, after, o)
  {
    SettlesLogged(l, e, Stalled);
    SettlesTrans(l, Logged(l, e), after, o);
  }

  /** The entries an operation logs do not have a terminal type. */
  lemma ActionEntryNotTerminal(op: OpRecord)
    requires Classify(op) in {PressOp, WriteOp, ClickOp}
    ensures !IsTerminalKind(ActionEntry(op).kind)
  {
    var k := ActionEntry(op).kind;
    assert k[1] == 'R' || k[0] == 'C';
  }

  /** A batch appends only pending entries, except a final DONE (+20) when it ends in `done`. */
  lemma {:induction false} DispatchLedger(items: seq<Item>, i: nat, w: World, faulty: set<nat>)
    requires i <= |items|
    ensures var s := Dispatch(items, i, w, faulty);
      s.flow != Exhausted && Settles(w.ledger, s.world.ledger, if s.flow == Finished then Done else Stalled)
    decreases |items| - i
  {
    if i == |items| || items[i].NotRecord? {
      assert w.ledger.actions[..|w.ledger.actions|] == w.ledger.actions;
    } else {
      var op := items[i].op;
      var kind := Classify(op);
      if kind == DoneOp {
        SettlesLogged(w.ledger, DoneEntry(op), Done);
      } else if kind == Skip {
        DispatchLedger(items, i + 1, w, faulty);
      } else if |w.trace| in faulty {
        assert w.ledger.actions[..|w.ledger.actions|] == w.ledger.actions;
      } else {
        var e := ActionEntry(op);
        var next := WithEntry(w.(trace := w.trace + [ActionFor(op)]), e);
        var s := Dispatch(items, i + 1, next, faulty);
        assert Dispatch(items, i, w, faulty) == s;
        DispatchLedger(items, i + 1, next, faulty);
        ActionEntryNotTerminal(op);
        SettlesAfterPending(w.ledger, e, s.world.ledger, if s.flow == Finished then Done else Stalled);
      }
    }
  }

  /** An iteration appends an LLM_RESPONSE entry and the batch's entries, or nothing when the attempts run out. */
  lemma IterateLedger(loopCount: nat, w: World, env: Env)
    ensures var s := Iterate(loopCount, w, env);
      Settles(w.ledger, s.world.ledger, if s.flow == Finished then Done else Stalled)
  {
    var e := AskModel(w.history, w.attempts, env.adapter);
    var asked := w.(history := e.history, attempts := e.rest);
    match e.reply
    case OutOfAttempts =>
      assert w.ledger.actions[..|w.ledger.actions|] == w.ledger.actions;
    case NoReply =>
      SettlesLogged(w.ledger, ResponseEntry(None, loopCount), Stalled);
    case Operations(items) =>
      var logged := WithEntry(asked, ResponseEntry(Some(items), loopCount));
      SettlesLogged(w.ledger, ResponseEntry(Some(items), loopCount), Stalled);
      DispatchLedger(items, 0, logged, env.faulty);
      var s := Dispatch(items, 0, logged, env.faulty);
      SettlesTrans(w.ledger, logged.ledger, s.world.ledger, if s.flow == Finished then Done else Stalled);
  }

  /** The loop from `loopCount` on settles the log by its outcome. */
  lemma {:induction false} RunFromLedger(loopCount: nat, w: World, env: Env)
    requires loopCount <= MaxLoops
    ensures var r := RunFrom(loopCount, w, env);
      Settles(w.ledger, r.world.ledger, r.outcome)
    decreases MaxLoops - loopCount
  {
    if loopCount == MaxLoops {
      SettlesLogged(w.ledger, MaxLoopsEntry(loopCount), MaxLoopsReached);
    } else {
      var s := Iterate(loopCount, w, env);
      IterateLedger(loopCount, w, env);
      match s.flow
      case Continue =>
        RunFromLedger(loopCount + 1, s.world, env);
        var r := RunFrom(loopCount + 1, s.world, env);
        SettlesTrans(w.ledger, s.world.ledger, r.world.ledger, r.outcome);
      case Finished =>
      case Raised =>
        SettlesLogged(s.world.ledger, ErrorEntry(loopCount), Error);
        SettlesTrans(w.ledger, s.world.ledger, Logged(s.world.ledger, ErrorEntry(loopCount)), Error);
      case Exhausted =>
    }
  }

  /**
   * A whole run: the log only grows; every entry it appends is pending except
   * the last, which is DONE (+20), MAX_LOOPS (-5), ERROR (-10) or FATAL_ERROR
   * (-20) by the outcome; the reward moves by exactly that amount. So a run
   * that is `done` logs no MAX_LOOPS and no ERROR, and a run that failed logs no DONE.
   */
  lemma RunLedger(systemPrompt: Option<string>, ledger: Ledger, trace: seq<Action>, attempts: seq<Attempt>, env: Env)
    ensures var r := RunAgentSpec(systemPrompt, ledger, trace, attempts, env);
      Settles(ledger, r.world.ledger, r.outcome)
  {
    match systemPrompt
    case None =>
      SettlesLogged(ledger, FatalEntry, FatalError);
    case Some(p) =>
      RunFromLedger(0, World(ledger, trace, [Message(System, p, None)], attempts), env);
  }

  // ------------------------------------------------------------ loop budget

  /** `loop_count` only grows from its start, never passes `MaxLoops`, and hits it exactly when MAX_LOOPS ends the run. */
  lemma {:induction false} RunFromLoops(loopCount: nat, w: World, env: Env)
    requires loopCount <= MaxLoops
    ensures var r := RunFrom(loopCount, w, env);
      loopCount <= r.loops <= MaxLoops && r.outcome != FatalError &&
      (r.outcome == MaxLoopsReached <==> r.loops == MaxLoops)
    decreases MaxLoops - loopCount
  {
    if loopCount < MaxLoops {
      var s := Iterate(loopCount, w, env);
      if s.flow == Continue {
        RunFromLoops(loopCount + 1, s.world, env);
      }
    }
  }

  /** A run ends within the budget; an error or `done` leaves it with `loop_count < MaxLoops`; FATAL_ERROR only when there is no system prompt. */
  lemma RunLoops(systemPrompt: Option<string>, ledger: Ledger, trace: seq<Action>, attempts: seq<Attempt>, env: Env)
    ensures var r := RunAgentSpec(systemPrompt, ledger, trace, attempts, env);
      r.loops <= MaxLoops &&
      (r.outcome == MaxLoopsReached <==> r.loops == MaxLoops) &&
      (r.outcome == FatalError <==> systemPrompt.None?)
  {
    if systemPrompt.Some? {
      RunFromLoops(0, World(ledger, trace, [Message(System, systemPrompt.value, None)], attempts), env);
    }
  }

  // ---------------------------------------------------- what a run leaves behind

  /** `v` extends `w`: more executor calls and history after the old ones, fewer attempts left. */
  ghost predicate Extends(w: World, v: World) {
    w.trace <= v.trace && w.history <= v.history &&
    |v.attempts| <= |w.attempts| && v.attempts == w.attempts[|w.attempts| - |v.attempts|..]
  }

  lemma ExtendsTrans(u: World, v: World, w: World)
    requires Extends(u, v) && Extends(v, w)
    ensures Extends(u, w)
  {
    var n := |u.attempts| - |v.attempts|;
    assert w.attempts == v.attempts[|v.attempts| - |w.attempts|..] == u.attempts[n..][|v.attempts| - |w.attempts|..];
  }

  lemma IterateFrame(loopCount: nat, w: World, env: Env)
    ensures var s := Iterate(loopCount, w, env);
      Extends(w, s.world) && (s.flow == Exhausted ==> s.world.attempts == [])
  {
    var e := AskModel(w.history, w.attempts, env.adapter);
    AskKeepsHistory(w.history, w.attempts, env.adapter);
    var asked := w.(history := e.history, attempts := e.rest);
    if e.reply.Operations? {
      var logged := WithEntry(asked, ResponseEntry(Some(e.reply.items), loopCount));
      DispatchKeeps(e.reply.items, 0, logged, env.faulty);
      DispatchLedger(e.reply.items, 0, logged, env.faulty);
    }
  }

  /** The loop only appends to the trace and the history and consumes attempts; it stalls only on an empty script. */
  lemma {:induction false} RunFromFrame(loopCount: nat, w: World, env: Env)
    requires loopCount <= MaxLoops
    ensures var r := RunFrom(loopCount, w, env);
      Extends(w, r.world) && (r.outcome == Stalled ==> r.world.attempts == [])
    decreases MaxLoops - loopCount
  {
    if loopCount < MaxLoops {
      var s := Iterate(loopCount, w, env);
      IterateFrame(loopCount, w, env);
      if s.flow == Continue {
        RunFromFrame(loopCount + 1, s.world, env);
        ExtendsTrans(w, s.world, RunFrom(loopCount + 1, s.world, env).world);
      }
    }
  }

  /** Whatever happens, the history of a run still starts with its system message. */
  lemma RunKeepsSystemMessage(p: string, ledger: Ledger, trace: seq<Action>, attempts: seq<Attempt>, env: Env)
    ensures var r := RunAgentSpec(Some(p), ledger, trace, attempts, env);
      |r.world.history| >= 1 && r.world.history[0] == Message(System, p, None) &&
      trace <= r.world.trace && (r.outcome == Stalled ==> r.world.attempts == [])
  {
    var w := World(ledger, trace, [Message(System, p, None)], attempts);
    RunFromFrame(0, w, env);
  }

  // -------------------------------------------------- one response per consultation

  /** How many entries have type `kind`. */
  function CountKind(entries: seq<Entry>, kind: string): nat {
    if entries == [] then 0
    else CountKind(entries[..|entries| - 1], kind) + (if entries[|entries| - 1].kind == kind then 1 else 0)
  }

  lemma CountKindLogged(l: Ledger, e: Entry, kind: string)
    ensures CountKind(Logged(l, e).actions, kind) == CountKind(l.actions, kind) + (if e.kind == kind then 1 else 0)
  {
    assert (l.actions + [e])[..|l.actions|] == l.actions;
  }

  lemma {:induction false} DispatchResponses(items: seq<Item>, i: nat, w: World, faulty: set<nat>)
    requires i <= |items|
    ensures CountKind(Dispatch(items, i, w, faulty).world.ledger.actions, "LLM_RESPONSE") == CountKind(w.ledger.actions, "LLM_RESPONSE")
    decreases |items| - i
  {
    if i < |items| && items[i].Record? {
      var op := items[i].op;
      match Classify(op)
      case DoneOp =>
        CountKindLogged(w.ledger, DoneEntry(op), "LLM_RESPONSE");
      case Skip =>
        DispatchResponses(items, i + 1, w, faulty);
      case _ =>
        var called := w.(trace := w.trace + [ActionFor(op)]);
        if |w.trace| !in faulty {
          CountKindLogged(called.ledger, ActionEntry(op), "LLM_RESPONSE");
          DispatchResponses(items, i + 1, WithEntry(called, ActionEntry(op)), faulty);
        }
    }
  }

  /** An iteration logs one LLM_RESPONSE, unless the attempts ran out before any answer. */
  lemma IterateResponses(loopCount: nat, w: World, env: Env)
    ensures var s := Iterate(loopCount, w, env);
      CountKind(s.world.ledger.actions, "LLM_RESPONSE") ==
        CountKind(w.ledger.actions, "LLM_RESPONSE") + (if s.flow == Exhausted then 0 else 1)
  {
    var e := AskModel(w.history, w.attempts, env.adapter);
    var asked := w.(history := e.history, attempts := e.rest);
    match e.reply
    case OutOfAttempts =>
    case NoReply =>
      CountKindLogged(w.ledger, ResponseEntry(None, loopCount), "LLM_RESPONSE");
    case Operations(items) =>
      var logged := WithEntry(asked, ResponseEntry(Some(items), loopCount));
      CountKindLogged(w.ledger, ResponseEntry(Some(items), loopCount), "LLM_RESPONSE");
      DispatchResponses(items, 0, logged, env.faulty);
      DispatchLedger(items, 0, logged, env.faulty);
  }

  /**
   * Every model consultation that got an answer or a `ResponseError` logs one
   * LLM_RESPONSE: one per completed iteration, plus one for the iteration
   * that ended the run in `done` or an error.
   */
  lemma {:induction false} RunFromResponses(loopCount: nat, w: World, env: Env)
    requires loopCount <= MaxLoops
    ensures var r := RunFrom(loopCount, w, env);
      loopCount <= r.loops &&
      CountKind(r.world.ledger.actions, "LLM_RESPONSE") ==
        CountKind(w.ledger.actions, "LLM_RESPONSE") + (r.loops - loopCount) +
        (if r.outcome == Done || r.outcome == Error then 1 else 0)
    decreases MaxLoops - loopCount
  {
    RunFromLoops(loopCount, w, env);
    if loopCount == MaxLoops {
      CountKindLogged(w.ledger, MaxLoopsEntry(loopCount), "LLM_RESPONSE");
    } else {
      var s := Iterate(loopCount, w, env);
      IterateResponses(loopCount, w, env);
      match s.flow
      case Continue =>
        RunFromResponses(loopCount + 1, s.world, env);
      case Raised =>
        CountKindLogged(s.world.ledger, ErrorEntry(loopCount), "LLM_RESPONSE");
      case Finished =>
      case Exhausted =>
    }
  }

  /** The terminal entry types are distinct, so each names one outcome. */
  lemma TerminalKindInjective(o: Outcome, o': Outcome)
    requires o != Stalled && o' != Stalled
    ensures IsTerminalKind(TerminalKind(o))
    ensures TerminalKind(o) == TerminalKind(o') <==> o == o'
  {
    assert |TerminalKind(o)| != |TerminalKind(o')| || o == o';
  }

  lemma {:induction false} CountKindAppend(a: seq<Entry>, b: seq<Entry>, kind: string)
    ensures CountKind(a + b, kind) == CountKind(a, kind) + CountKind(b, kind)
    decreases |b|
  {
    if b == [] {
      assert a + b == a;
    } else {
      assert (a + b)[..|a + b| - 1] == a + b[..|b| - 1];
      assert (a + b)[|a + b| - 1] == b[|b| - 1];
      CountKindAppend(a, b[..|b| - 1], kind);
    }
  }

  /** Pending entries include no entry of a terminal type. */
  lemma {:induction false} CountKindPending(entries: seq<Entry>, kind: string)
    requires Pending(entries) && IsTerminalKind(kind)
    ensures CountKind(entries, kind) == 0
    decreases |entries|
  {
    if entries != [] {
      var init := entries[..|entries| - 1];
      assert Pending(init) by {
        forall k | 0 <= k < |init| ensures init[k].success.None? && !IsTerminalKind(init[k].kind) {
          assert init[k] == entries[k];
        }
      }
      CountKindPending(init, kind);
      assert !IsTerminalKind(entries[|entries| - 1].kind);
    }
  }

  /** A settled stretch adds one entry of type `TerminalKind(o')` exactly when its outcome is `o'`. */
  lemma SettlesCounts(before: Ledger, after: Ledger, o: Outcome, o': Outcome)
    requires Settles(before, after, o) && o' != Stalled
    ensures CountKind(after.actions, TerminalKind(o')) ==
      CountKind(before.actions, TerminalKind(o')) + (if o == o' then 1 else 0)
  {
    var kind := TerminalKind(o');
    var added := after.actions[|before.actions|..];
    assert after.actions == before.actions + added;
    CountKindAppend(before.actions, added, kind);
    TerminalKindInjective(o', o');
    if o == Stalled {
      CountKindPending(added, kind);
    } else {
      TerminalKindInjective(o, o');
      CountKindPending(added[..|added| - 1], kind);
    }
  }

  /**
   * A whole run logs one more entry of type `TerminalKind(o)` exactly when its
   * outcome is `o`: a `done` run logs one DONE and no MAX_LOOPS, ERROR or
   * FATAL_ERROR, and a stalled run logs none of them.
   */
  lemma RunTerminals(systemPrompt: Option<string>, ledger: Ledger, trace: seq<Action>,
                     attempts: seq<Attempt>, env: Env, o: Outcome)
    requires o != Stalled
    ensures var r := RunAgentSpec(systemPrompt, ledger, trace, attempts, env);
      CountKind(r.world.ledger.actions, TerminalKind(o)) ==
        CountKind(ledger.actions, TerminalKind(o)) + (if r.outcome == o then 1 else 0)
  {
    var r := RunAgentSpec(systemPrompt, ledger, trace, attempts, env);
    RunLedger(systemPrompt, ledger, trace, attempts, env);
    SettlesCounts(ledger, r.world.ledger, r.outcome, o);
  }

  // ------------------------------------------------------------ feedback

  /** Feedback amends exactly the addressed entry (its success and reward) and adds its reward to the total. */
  lemma FeedbackAmendsOne(l: Ledger, p: nat, success: bool)
    requires p < |l.actions|
    ensures var m := Amended(l, p, success);
      |m.actions| == |l.actions| &&
      m.actions[p].kind == l.actions[p].kind && m.actions[p].details == l.actions[p].details &&
      m.actions[p].success == Some(success) && m.actions[p].reward == (if success then 10 else -5) &&
      m.totalReward == l.totalReward + (if success then 10 else -5) &&
      forall j :: 0 <= j < |l.actions| && j != p ==> m.actions[j] == l.actions[j]
  {
  }

  /** There is no guard against repeated feedback: the entry shows the last verdict, the total adds both rewards. */
  lemma FeedbackRepeated(l: Ledger, p: nat, first: bool, second: bool)
    requires p < |l.actions|
    ensures Amended(Amended(l, p, first), p, second).actions == Amended(l, p, second).actions
    ensures Amended(Amended(l, p, first), p, second).totalReward ==
            l.totalReward + FeedbackReward(first) + FeedbackReward(second)
  {
  }

  /** As written, a negative index `-k` with `k <= len` passes the guard and amends entry `len - k`, which the intended check refuses. */
  lemma NegativeIndexAmendsFromEnd(k: int, length: nat)
    requires 1 <= k <= length
    ensures FeedbackIndexAsWritten(Some(-k), length) == Target(length - k)
    ensures FeedbackIndex(Some(-k), length) == None
  {
  }

  /** As written, an index below `-len` passes the guard and then raises `IndexError`. */
  lemma IndexBelowRangeRaises(index: int, length: nat)
    requires index < -(length as int)
    ensures FeedbackIndexAsWritten(Some(index), length) == RaisesIndexError
  {
  }

  /** On a missing or non-negative index the code as written and the intended check agree. */
  lemma FeedbackIndexAgreement(index: Option<int>, length: nat)
    requires index.None? || index.value >= 0
    ensures FeedbackIndexAsWritten(index, length) ==
            (if FeedbackIndex(index, length).Some? then Target(index.value) else Rejected)
  {
  }
}
