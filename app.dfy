/**
 * The session core of controller/web/app.py: the action logger with its
 * running reward, the feedback rule, the session start/stop entries, and the
 * bounded perception-action loop of `run_agent`.
 *
 * The executor of input actions is an object that records every call and
 * raises on the calls whose numbers it is given; the model is reached through
 * the adapter of module Apis.
 */
module App {
  import opened Wrappers
  import opened Text
  import opened Apis

  // ----------------------------------------------------------- action log

  /** The structured `details` of a log entry, per entry type. */
  datatype Details =
    | StartDetails(objective: string, model: string)         // SESSION_START
    | NoDetails                                               // SESSION_STOP
    | ResponseDetails(operations: Option<seq<Item>>, loop: nat) // LLM_RESPONSE
    | SummaryDetails(thought: string, summary: string)        // DONE
    | KeysDetails(thought: string, keys: seq<string>)         // PRESS
    | TextDetails(thought: string, content: string)           // WRITE
    | PointDetails(thought: string, x: int, y: int)           // CLICK
    | FailureDetails(atLoop: Option<nat>)                     // ERROR (with the loop), FATAL_ERROR
    | LoopsDetails(loops: nat)                                // MAX_LOOPS

  /** One entry of the action log; `success` is `None` while unknown. The timestamp is not modelled. */
  datatype Entry = Entry(kind: string, details: Details, success: Option<bool>, reward: int)

  /** The logger's state as a value: the entries and the running reward. */
  datatype Ledger = Ledger(actions: seq<Entry>, totalReward: int)

  /** `log_action` on values: append the entry; count its reward only when its success is known. */
  function Logged(l: Ledger, e: Entry): Ledger {
    Ledger(l.actions + [e], l.totalReward + (if e.success.Some? then e.reward else 0))
  }

  /** How many entries have success equal to `outcome`. */
  function CountOutcome(actions: seq<Entry>, outcome: bool): nat
  {
    if actions == [] then 0
    else CountOutcome(actions[..|actions| - 1], outcome) + (if actions[|actions| - 1].success == Some(outcome) then 1 else 0)
  }

  lemma {:induction false} CountOutcomeBound(actions: seq<Entry>)
    ensures CountOutcome(actions, true) + CountOutcome(actions, false) <= |actions|
  {
    if actions != [] {
      CountOutcomeBound(actions[..|actions| - 1]);
    }
  }

  /** The figures of `get_summary`; `successRate` is a percentage. */
  datatype Summary = Summary(total: nat, successful: nat, failed: nat, reward: int, successRate: real)

  class ActionLogger {
    var actions: seq<Entry>
    var totalReward: int

    constructor ()
      ensures actions == [] && totalReward == 0
    {
      actions := [];
      totalReward := 0;
    }

    function State(): Ledger
      reads this
    {
      Ledger(actions, totalReward)
    }

    /** `log_action`: appends one entry; the reward is added only when `success` is not `None`. */
    method LogAction(kind: string, details: Details, success: Option<bool>, reward: int) returns (entry: Entry)
      modifies this
      ensures entry == Entry(kind, details, success, reward)
      ensures actions == old(actions) + [entry]
      ensures totalReward == old(totalReward) + (if success.Some? then reward else 0)
      ensures State() == Logged(old(State()), entry)
    {
      entry := Entry(kind, details, success, reward);
      actions := actions + [entry];
      if success.Some? {
        totalReward := totalReward + reward;
      }
    }

    /** `get_summary`: counts of the entries, the reward, and a success rate that is 0 on an empty log. */
    function GetSummary(): (s: Summary)
      reads this
      ensures s.total == |actions| && s.reward == totalReward
      ensures s.successful == CountOutcome(actions, true) && s.failed == CountOutcome(actions, false)
      ensures s.successful + s.failed <= s.total
      ensures s.total == 0 ==> s.successful == 0 && s.failed == 0 && s.successRate == 0.0
      ensures s.total > 0 ==> s.successRate == (s.successful as real) * 100.0 / (s.total as real)
      ensures 0.0 <= s.successRate <= 100.0
    {
      CountOutcomeBound(actions);
      var total := |actions|;
      var successful := CountOutcome(actions, true);
      var failed := CountOutcome(actions, false);
      Summary(total, successful, failed, totalReward,
              if total > 0 then (successful as real) / (total as real) * 100.0 else 0.0)
    }
  }

  // -------------------------------------------------------------- feedback

  /** The reward of a feedback: +10 for success, -5 otherwise. */
  function FeedbackReward(success: bool): int {
    if success then 10 else -5
  }

  /** How the guard and the list indexing of `submit_feedback` treat an index, as written. */
  datatype IndexCheck = Target(position: nat) | Rejected | RaisesIndexError

  /**
   * The index handling of `submit_feedback` as written: the guard only asks
   * for `index < len(actions)`, so Python's negative indexing reaches the
   * entries from the end, and an index below `-len` raises `IndexError`.
   */
  function FeedbackIndexAsWritten(index: Option<int>, length: nat): IndexCheck {
    if index.None? || index.value >= length then Rejected
    else if index.value >= 0 then Target(index.value)
    else if index.value >= -(length as int) then Target(length + index.value)
    else RaisesIndexError
  }

  /** The index handling as intended: an entry is addressed exactly by its position. */
  function FeedbackIndex(index: Option<int>, length: nat): (r: Option<nat>)
    ensures r.Some? <==> index.Some? && 0 <= index.value < length
    ensures r.Some? ==> r.value == index.value
  {
    if index.Some? && 0 <= index.value < length then Some(index.value) else None
  }

  /** The feedback rule on values: overwrite the entry's success and reward, and add the reward to the total. */
  function Amended(l: Ledger, position: nat, success: bool): Ledger
    requires position < |l.actions|
  {
    var reward := FeedbackReward(success);
    Ledger(l.actions[position := l.actions[position].(success := Some(success), reward := reward)],
           l.totalReward + reward)
  }

  datatype FeedbackReply = Rewarded(reward: int) | InvalidIndex

  /**
   * `submit_feedback` (with the index check as intended): amends the entry at
   * `index` and adds +10 or -5 to the total; any other index is refused and
   * nothing changes. There is no guard against amending an entry again.
   */
  method SubmitFeedback(logger: ActionLogger, index: Option<int>, success: bool) returns (r: FeedbackReply)
    modifies logger
    ensures FeedbackIndex(index, |old(logger.actions)|).None? ==>
      r == InvalidIndex && logger.State() == old(logger.State())
    ensures FeedbackIndex(index, |old(logger.actions)|).Some? ==>
      r == Rewarded(FeedbackReward(success)) &&
      logger.State() == Amended(old(logger.State()), index.value, success)
  {
    var position := FeedbackIndex(index, |logger.actions|);
    if position.Some? {
      var reward := FeedbackReward(success);
      var entry := logger.actions[position.value];
      logger.actions := logger.actions[position.value := entry.(success := Some(success), reward := reward)];
      logger.totalReward := logger.totalReward + reward;
      return Rewarded(reward);
    }
    return InvalidIndex;
  }

  // --------------------------------------------------------- start and stop

  datatype StartReply = Started | ObjectiveRequired | OllamaNotRunning

  /**
   * The logging part of `start_session`: an empty objective or an unreachable
   * model server is refused without an entry; otherwise a SESSION_START entry
   * is appended (the loop itself is started by the caller).
   */
  method StartSession(logger: ActionLogger, objective: string, model: string, ollamaReachable: bool)
    returns (r: StartReply)
    modifies logger
    ensures objective == [] ==> r == ObjectiveRequired && logger.State() == old(logger.State())
    ensures objective != [] && !ollamaReachable ==> r == OllamaNotRunning && logger.State() == old(logger.State())
    ensures objective != [] && ollamaReachable ==>
      r == Started && logger.State() == Logged(old(logger.State()), Entry("SESSION_START", StartDetails(objective, model), None, 0))
  {
    if objective == [] {
      return ObjectiveRequired;
    }
    if !ollamaReachable {
      return OllamaNotRunning;
    }
    var _ := logger.LogAction("SESSION_START", StartDetails(objective, model), None, 0);
    return Started;
  }

  /** `stop_session`: appends a SESSION_STOP entry, which leaves the reward as it is. */
  method StopSession(logger: ActionLogger)
    modifies logger
    ensures logger.State() == Logged(old(logger.State()), Entry("SESSION_STOP", NoDetails, None, 0))
    ensures logger.totalReward == old(logger.totalReward)
  {
    var _ := logger.LogAction("SESSION_STOP", NoDetails, None, 0);
  }

  // -------------------------------------------------------------- executor

  /** An input action handed to the operating-system layer. */
  datatype Action = Press(keys: seq<string>) | Write(content: string) | Mouse(x: int, y: int)

  /** The operating-system layer: it records every call, and call number `k` raises when `k` is in `faulty`. */
  class Executor {
    const faulty: set<nat>
    var trace: seq<Action>

    constructor (faulty: set<nat>)
      ensures this.faulty == faulty && trace == []
    {
      this.faulty := faulty;
      trace := [];
    }

    method Perform(a: Action) returns (ok: bool)
      modifies this
      ensures trace == old(trace) + [a]
      ensures ok == (|old(trace)| !in faulty)
    {
      ok := |trace| !in faulty;
      trace := trace + [a];
    }
  }

  // -------------------------------------------------------------- dispatch

  /** Python truthiness of an optional integer coordinate: present and non-zero. */
  predicate Truthy(v: Option<int>) {
    v.Some? && v.value != 0
  }

  /** How the tag switch of `run_agent` treats an operation record. */
  datatype Kind = DoneOp | PressOp | WriteOp | ClickOp | Skip

  /** The tag switch: the lower-cased tag decides; a click needs truthy `x` and `y`; anything else is skipped. */
  function Classify(op: OpRecord): Kind {
    var tag := Lower(op.operation);
    if tag == "done" then DoneOp
    else if tag == "press" then PressOp
    else if tag == "write" then WriteOp
    else if tag == "click" then (if Truthy(op.x) && Truthy(op.y) then ClickOp else Skip)
    else Skip
  }

  /** The executor call of a press, write or click. */
  function ActionFor(op: OpRecord): Action
    requires Classify(op) in {PressOp, WriteOp, ClickOp}
  {
    match Classify(op)
    case PressOp => Press(op.keys)
    case WriteOp => Write(op.content)
    case ClickOp => Mouse(op.x.value, op.y.value)
  }

  /** The log entry of an executed press, write or click. */
  function ActionEntry(op: OpRecord): Entry
    requires Classify(op) in {PressOp, WriteOp, ClickOp}
  {
    match Classify(op)
    case PressOp => Entry("PRESS", KeysDetails(op.thought, op.keys), None, 0)
    case WriteOp => Entry("WRITE", TextDetails(op.thought, op.content), None, 0)
    case ClickOp => Entry("CLICK", PointDetails(op.thought, op.x.value, op.y.value), None, 0)
  }

  function DoneEntry(op: OpRecord): Entry {
    Entry("DONE", SummaryDetails(op.thought, op.summary), Some(true), 20)
  }

  function ResponseEntry(operations: Option<seq<Item>>, loopCount: nat): Entry {
    Entry("LLM_RESPONSE", ResponseDetails(operations, loopCount + 1), None, 0)
  }

  function ErrorEntry(loopCount: nat): Entry {
    Entry("ERROR", FailureDetails(Some(loopCount)), Some(false), -10)
  }

  function MaxLoopsEntry(loopCount: nat): Entry {
    Entry("MAX_LOOPS", LoopsDetails(loopCount), Some(false), -5)
  }

  const FatalEntry: Entry := Entry("FATAL_ERROR", FailureDetails(None), Some(false), -20)

  // ------------------------------------------------------------ the loop

  const MaxLoops: nat := 10

  /** The state the loop changes: the logger's ledger, the executor's trace, the history, the unused attempts. */
  datatype World = World(ledger: Ledger, trace: seq<Action>, history: seq<Message>, attempts: seq<Attempt>)

  /** How one batch or iteration ends. */
  datatype Flow = Continue | Finished | Raised | Exhausted

  datatype Step = Step(world: World, flow: Flow)

  /** How a session ends; `Stalled` is where the attempt script runs out and Python would keep retrying. */
  datatype Outcome = Done | MaxLoopsReached | Error | FatalError | Stalled

  datatype Run = Run(world: World, outcome: Outcome, loops: nat)

  /** The model adapter and the numbers of the executor calls that raise. */
  datatype Env = Env(adapter: Adapter, faulty: set<nat>)

  function WithEntry(w: World, e: Entry): World {
    w.(ledger := Logged(w.ledger, e))
  }

  /** The `for operation in operations` loop from position `i` on. */
  function Dispatch(items: seq<Item>, i: nat, w: World, faulty: set<nat>): Step
    requires i <= |items|
    decreases |items| - i
  {
    if i == |items| then Step(w, Continue)
    else match items[i]
      case NotRecord => Step(w, Raised)
      case Record(op) =>
        match Classify(op)
        case DoneOp => Step(WithEntry(w, DoneEntry(op)), Finished)
        case Skip => Dispatch(items, i + 1, w, faulty)
        case _ =>
          var called := w.(trace := w.trace + [ActionFor(op)]);
          if |w.trace| in faulty then Step(called, Raised)
          else Dispatch(items, i + 1, WithEntry(called, ActionEntry(op)), faulty)
  }

  /** One iteration of the `while` body: ask the model, log the response, dispatch the batch. */
  function Iterate(loopCount: nat, w: World, env: Env): Step {
    var e := AskModel(w.history, w.attempts, env.adapter);
    var asked := w.(history := e.history, attempts := e.rest);
    match e.reply
    case OutOfAttempts => Step(asked, Exhausted)
    case NoReply => Step(WithEntry(asked, ResponseEntry(None, loopCount)), Raised)
    case Operations(items) => Dispatch(items, 0, WithEntry(asked, ResponseEntry(Some(items), loopCount)), env.faulty)
  }

  /** The `while loop_count < max_loops` loop from `loopCount` on, with the MAX_LOOPS check after it. */
  function RunFrom(loopCount: nat, w: World, env: Env): Run
    requires loopCount <= MaxLoops
    decreases MaxLoops - loopCount
  {
    if loopCount == MaxLoops then Run(WithEntry(w, MaxLoopsEntry(loopCount)), MaxLoopsReached, loopCount)
    else
      var s := Iterate(loopCount, w, env);
      match s.flow
      case Continue => RunFrom(loopCount + 1, s.world, env)
      case Finished => Run(s.world, Done, loopCount)
      case Raised => Run(WithEntry(s.world, ErrorEntry(loopCount)), Error, loopCount)
      case Exhausted => Run(s.world, Stalled, loopCount)
  }

  /**
   * `run_agent` on values. `systemPrompt` is `None` when building the system
   * prompt raised, which the outer handler logs as FATAL_ERROR.
   */
  function RunAgentSpec(systemPrompt: Option<string>, ledger: Ledger, trace: seq<Action>,
                        attempts: seq<Attempt>, env: Env): Run
  {
    match systemPrompt
    case None => Run(World(Logged(ledger, FatalEntry), trace, [], attempts), FatalError, 0)
    case Some(p) => RunFrom(0, World(ledger, trace, [Message(System, p, None)], attempts), env)
  }

  /**
   * The `for operation in operations` loop of `run_agent`: `done` logs +20 and
   * ends the batch, a press, write or click is executed and then logged, an
   * executor failure or an element that is no record raises.
   */
  method RunBatch(logger: ActionLogger, exec: Executor, items: seq<Item>,
                  ghost history: seq<Message>, ghost attempts: seq<Attempt>)
    returns (flow: Flow)
    modifies logger, exec
    ensures Dispatch(items, 0, World(old(logger.State()), old(exec.trace), history, attempts), exec.faulty)
         == Step(World(logger.State(), exec.trace, history, attempts), flow)
  {
    var i := 0;
    while i < |items|
      invariant 0 <= i <= |items|
      invariant Dispatch(items, 0, World(old(logger.State()), old(exec.trace), history, attempts), exec.faulty)
             == Dispatch(items, i, World(logger.State(), exec.trace, history, attempts), exec.faulty)
    {
      match items[i] {
        case NotRecord =>
          return Raised;
        case Record(op) =>
          var kind := Classify(op);
          if kind == DoneOp {
            var _ := logger.LogAction("DONE", SummaryDetails(op.thought, op.summary), Some(true), 20);
            return Finished;
          } else if kind != Skip {
            var ok := exec.Perform(ActionFor(op));
            if !ok {
              return Raised;
            }
            var entry := ActionEntry(op);
            var _ := logger.LogAction(entry.kind, entry.details, entry.success, entry.reward);
          }
      }
      i := i + 1;
    }
    return Continue;
  }

  /** One pass of the `while` body of `run_agent`, up to (not including) the ERROR entry. */
  method RunIteration(logger: ActionLogger, exec: Executor, h: History, remaining: seq<Attempt>,
                      prompts: Prompts, parse: string -> Option<seq<Item>>, loopCount: nat)
    returns (flow: Flow, rest: seq<Attempt>)
    modifies logger, exec, h
    ensures Iterate(loopCount, World(old(logger.State()), old(exec.trace), old(h.messages), remaining),
                    Env(Adapter(prompts, ReplyContent, parse), exec.faulty))
         == Step(World(logger.State(), exec.trace, h.messages, rest), flow)
  {
    var reply;
    reply, rest := CallOllama(h, remaining, prompts, parse);
    if reply.OutOfAttempts? {
      return Exhausted, rest;
    }
    var operations := if reply.Operations? then Some(reply.items) else None;
    var _ := logger.LogAction("LLM_RESPONSE", ResponseDetails(operations, loopCount + 1), None, 0);
    if reply.NoReply? {
      return Raised, rest;
    }
    flow := RunBatch(logger, exec, reply.items, h.messages, rest);
  }

  /**
   * One pass of the `while` body of `run_agent` together with its way out:
   * `None` when the loop goes on, the outcome when it was `done`, an
   * exception (logged as ERROR, -10) or an exhausted attempt script.
   */
  method LoopStep(logger: ActionLogger, exec: Executor, h: History, remaining: seq<Attempt>,
                  prompts: Prompts, parse: string -> Option<seq<Item>>, loopCount: nat)
    returns (stop: Option<Outcome>, rest: seq<Attempt>)
    requires loopCount < MaxLoops
    modifies logger, exec, h
    ensures var env := Env(Adapter(prompts, ReplyContent, parse), exec.faulty);
      var w := World(old(logger.State()), old(exec.trace), old(h.messages), remaining);
      var now := World(logger.State(), exec.trace, h.messages, rest);
      if stop.None? then RunFrom(loopCount, w, env) == RunFrom(loopCount + 1, now, env)
      else RunFrom(loopCount, w, env) == Run(now, stop.value, loopCount)
  {
    var flow;
    flow, rest := RunIteration(logger, exec, h, remaining, prompts, parse, loopCount);
    match flow {
      case Finished =>
        stop := Some(Done);
      case Exhausted =>
        stop := Some(Stalled);
      case Raised =>
        var _ := logger.LogAction("ERROR", FailureDetails(Some(loopCount)), Some(false), -10);
        stop := Some(Error);
      case Continue =>
        stop := None;
    }
  }

  /**
   * `run_agent`: seeds the history with the system prompt, then up to
   * `MaxLoops` times asks the model and dispatches the operations in order.
   * `done` returns at once with +20, an exception logs ERROR (-10) and leaves
   * the loop, and an exhausted budget logs MAX_LOOPS (-5).
   */
  method RunAgent(logger: ActionLogger, exec: Executor, systemPrompt: Option<string>,
                  prompts: Prompts, parse: string -> Option<seq<Item>>, attempts: seq<Attempt>)
    returns (outcome: Outcome)
    modifies logger, exec
    ensures var r := RunAgentSpec(systemPrompt, old(logger.State()), old(exec.trace), attempts,
                                  Env(Adapter(prompts, ReplyContent, parse), exec.faulty));
      logger.State() == r.world.ledger && exec.trace == r.world.trace && outcome == r.outcome
  {
    ghost var env := Env(Adapter(prompts, ReplyContent, parse), exec.faulty);
    if systemPrompt.None? {
      var _ := logger.LogAction("FATAL_ERROR", FailureDetails(None), Some(false), -20);
      return FatalError;
    }
    var h := new History([Message(System, systemPrompt.value, None)]);
    var remaining := attempts;
    var loopCount: nat := 0;
    ghost var start := World(logger.State(), exec.trace, h.messages, remaining);
    while loopCount < MaxLoops
      invariant loopCount <= MaxLoops
      invariant RunFrom(0, start, env) == RunFrom(loopCount, World(logger.State(), exec.trace, h.messages, remaining), env)
      decreases MaxLoops - loopCount
    {
      var stop;
      stop, remaining := LoopStep(logger, exec, h, remaining, prompts, parse, loopCount);
      if stop.Some? {
        return stop.value;
      }
      loopCount := loopCount + 1;
    }
    var _ := logger.LogAction("MAX_LOOPS", LoopsDetails(loopCount), Some(false), -5);
    return MaxLoopsReached;
  }
}
