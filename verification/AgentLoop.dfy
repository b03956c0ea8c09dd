/**
  The agent loop (`AgentExecutor::execute`, crates/cairn-agent/src/executor.rs):
  driver steps, reflection and runtime hooks, all of them arbitrary.  The
  results are about the sequence of hook calls an execution makes.
 */
module AgentLoop {
  import opened Common

  datatype StepOutcome =
    | Continue
    | ToolCall(toolName: string)
    | SpawnSubagent(agentType: string)
    | WaitApproval
    | Done
    | Failed(reason: string)

  datatype Advisory =
    | OnTrack
    | SlowProgress(iterationsElapsed: nat)
    | LoopDetected(pattern: string)
    | Escalate(reason: string)

  datatype Hook =
    | Starting
    | StepCompleted(iteration: nat, outcome: StepOutcome)
    | SubagentRequested(agentType: string)
    | ExecutionCompleted
    | ExecutionFailed(reason: string)

  datatype ExecutionResult =
    | Finished(iterations: nat, finalOutcome: StepOutcome)
    | HookError
    | DriverError
    | MaxIterations(limit: nat)
    | StillRunning // the observed number of passes is used up

  /** The surroundings: each answer may depend on all hook calls so far.
      `step` gives None for a driver error. */
  datatype Environment = Environment(
    hookOk: seq<Hook> -> bool,
    promptOk: bool,
    step: (seq<Hook>, nat) -> Option<StepOutcome>,
    reflect: (seq<Hook>, StepOutcome) -> Advisory
  )

  const U32_MAX: nat := 0xFFFF_FFFF
  const MAX_ITERATIONS_REACHED := "max iterations reached"

  function DefaultedMax(configured: Option<nat>): nat {
    if configured.Some? then configured.value else 100
  }

  /** The iteration counter is a wrapping 32-bit one. */
  function Increment(iteration: nat): nat {
    (iteration + 1) % (U32_MAX + 1)
  }

  // ----- what an execution should do, hook by hook

  /** The number on the last completed step, 0 before the first. */
  function LastIteration(trace: seq<Hook>): nat {
    if trace == [] then 0
    else if Last(trace).StepCompleted? then Last(trace).iteration
    else LastIteration(Front(trace))
  }

  /** The hook that begins a pass: the step just taken, or giving up; None
      after a driver error. */
  function PassHook(env: Environment, max: nat, trace: seq<Hook>): Option<Hook> {
    var i := Increment(LastIteration(trace));
    if i > max then Some(ExecutionFailed(MAX_ITERATIONS_REACHED))
    else if env.step(trace, i).None? then None
    else Some(StepCompleted(i, env.step(trace, i).value))
  }

  /** The hook to call after some successful calls; None at the end. */
  function NextHook(env: Environment, max: nat, trace: seq<Hook>): Option<Hook> {
    if trace == [] then Some(Starting)
    else
      match Last(trace)
      case Starting => if env.promptOk then PassHook(env, max, trace) else None
      case SubagentRequested(_) => PassHook(env, max, trace)
      case ExecutionCompleted => None
      case ExecutionFailed(_) => None
      case StepCompleted(_, outcome) =>
        var advisory := env.reflect(trace, outcome);
        if advisory.Escalate? then Some(ExecutionFailed(advisory.reason))
        else
          match outcome
          case Done => Some(ExecutionCompleted)
          case Failed(reason) => Some(ExecutionFailed(reason))
          case SpawnSubagent(agentType) => Some(SubagentRequested(agentType))
          case _ => PassHook(env, max, trace)
  }

  /** Each hook was the one to call, and all calls before the last succeeded. */
  ghost predicate Obeys(env: Environment, max: nat, trace: seq<Hook>) {
    trace != [] ==>
      && Obeys(env, max, Front(trace))
      && (Front(trace) != [] ==> env.hookOk(Front(trace)))
      && NextHook(env, max, Front(trace)) == Some(Last(trace))
  }

  function StepsIn(trace: seq<Hook>): nat {
    if trace == [] then 0 else StepsIn(Front(trace)) + (if Last(trace).StepCompleted? then 1 else 0)
  }

  /** The hooks that a completed step calls for. */
  function CalledFor(advisory: Advisory, outcome: StepOutcome): seq<Hook> {
    match advisory
    case Escalate(reason) => [ExecutionFailed(reason)]
    case OnTrack | SlowProgress(_) | LoopDetected(_) =>
      match outcome
      case Done => [ExecutionCompleted]
      case Failed(reason) => [ExecutionFailed(reason)]
      case SpawnSubagent(agentType) => [SubagentRequested(agentType)]
      case Continue | ToolCall(_) | WaitApproval => []
  }

  /** After these successful calls the execution takes another step: it has
      just begun, has asked for a subagent, or has completed a step that calls
      for nothing more. */
  ghost predicate GoesOn(env: Environment, done: seq<Hook>)
    requires done != []
  {
    match Last(done)
    case Starting => env.promptOk
    case StepCompleted(_, outcome) => CalledFor(env.reflect(done, outcome), outcome) == []
    case SubagentRequested(_) => true
    case ExecutionCompleted => false
    case ExecutionFailed(_) => false
  }

  /** What an execution that made these hook calls reports. */
  ghost predicate Reports(env: Environment, max: nat, fuel: nat, trace: seq<Hook>, r: ExecutionResult) {
    && trace != []
    && match r
       case HookError => !env.hookOk(trace) || (trace == [Starting] && !env.promptOk)
       case DriverError => env.hookOk(trace) && NextHook(env, max, trace) == None && GoesOn(env, trace)
       case MaxIterations(limit) =>
         && env.hookOk(trace) && limit == max && Last(trace) == ExecutionFailed(MAX_ITERATIONS_REACHED)
         && Front(trace) != [] && GoesOn(env, Front(trace))
       case Finished(iterations, outcome) =>
         && env.hookOk(trace) && |trace| >= 2 && Front(trace) != [] && Last(Front(trace)).StepCompleted?
         && !GoesOn(env, Front(trace)) && iterations == Last(Front(trace)).iteration
         && (match Last(trace)
             case ExecutionCompleted => outcome == Done
             case ExecutionFailed(reason) => outcome == Failed(reason)
             case _ => false)
       case StillRunning => env.hookOk(trace) && StepsIn(trace) == fuel && GoesOn(env, trace)
  }

  predicate Terminal(h: Hook) {
    h.ExecutionCompleted? || h.ExecutionFailed?
  }

  // ----- the executor

  class AgentExecutor {
    var trace: seq<Hook>

    constructor ()
      ensures trace == []
    {
      trace := [];
    }

    /** Call the hook that is due. */
    method CallHook(h: Hook, env: Environment, ghost max: nat) returns (ok: bool)
      requires Obeys(env, max, trace) && (trace != [] ==> env.hookOk(trace))
      requires NextHook(env, max, trace) == Some(h)
      modifies this`trace
      ensures trace == old(trace) + [h] && ok == env.hookOk(trace)
      ensures Front(trace) == old(trace) && Last(trace) == h && Obeys(env, max, trace)
    {
      trace := trace + [h];
      assert Front(trace) == old(trace);
      ok := env.hookOk(trace);
    }

    /** Reflection on a completed step, and what its outcome calls for: the
        result, or None to go on. */
    method Settle(iteration: nat, outcome: StepOutcome, env: Environment, max: nat, ghost fuel: nat)
      returns (r: Option<ExecutionResult>)
      requires trace != [] && Front(trace) != [] && Last(trace) == StepCompleted(iteration, outcome)
      requires Obeys(env, max, trace) && env.hookOk(trace)
      modifies this`trace
      ensures trace != [] && Obeys(env, max, trace)
      ensures r.Some? ==> Reports(env, max, fuel, trace, r.value)
      ensures r.None? ==>
        && env.hookOk(trace) && GoesOn(env, trace)
        && LastIteration(trace) == iteration && StepsIn(trace) == StepsIn(old(trace))
      // the hooks and the result, by the advice and the outcome
      ensures trace == old(trace) + CalledFor(env.reflect(old(trace), outcome), outcome)
      ensures
        var advisory := env.reflect(old(trace), outcome);
        r ==
          if !env.hookOk(trace) then Some(HookError)
          else if advisory.Escalate? then Some(Finished(iteration, Failed(advisory.reason)))
          else if outcome == Done || outcome.Failed? then Some(Finished(iteration, outcome))
          else None
    {
      assert trace + [] == trace;
      var advisory := env.reflect(trace, outcome);
      if advisory.Escalate? {
        var ok := CallHook(ExecutionFailed(advisory.reason), env, max);
        return Some(if ok then Finished(iteration, Failed(advisory.reason)) else HookError);
      }
      match outcome {
        case Done =>
          var ok := CallHook(ExecutionCompleted, env, max);
          return Some(if ok then Finished(iteration, outcome) else HookError);
        case Failed(reason) =>
          var ok := CallHook(ExecutionFailed(reason), env, max);
          return Some(if ok then Finished(iteration, outcome) else HookError);
        case SpawnSubagent(agentType) =>
          var ok := CallHook(SubagentRequested(agentType), env, max);
          return if ok then None else Some(HookError);
        case _ =>
          return None;
      }
    }

    /** Execute, observed for `fuel` passes of the loop. */
    method Execute(configured: Option<nat>, env: Environment, fuel: nat) returns (r: ExecutionResult)
      requires trace == []
      requires configured.Some? ==> configured.value <= U32_MAX
      modifies this`trace
      ensures Obeys(env, DefaultedMax(configured), trace)
      ensures Reports(env, DefaultedMax(configured), fuel, trace, r)
      ensures var max := if configured.Some? then configured.value else 100;
        EachFollows(env, max, trace) && Concludes(env, max, fuel, trace, r)
    {
      var max := DefaultedMax(configured);
      var ok := CallHook(Starting, env, max);
      if !ok || !env.promptOk {
        r := HookError;
      } else {
        r := Loop(max, env, fuel);
      }
      EachHookFollows(env, max, trace);
      ResultConcludes(env, max, fuel, trace, r);
    }

    method Loop(max: nat, env: Environment, fuel: nat) returns (r: ExecutionResult)
      requires trace == [Starting] && Obeys(env, max, trace) && env.hookOk(trace) && env.promptOk
      modifies this`trace
      ensures Obeys(env, max, trace) && Reports(env, max, fuel, trace, r)
    {
      assert Front(trace) == [];
      var iteration := 0;
      var passes := 0;
      while passes < fuel
        invariant passes <= fuel && StepsIn(trace) == passes
        invariant trace != [] && Obeys(env, max, trace) && env.hookOk(trace)
        invariant iteration == LastIteration(trace)
        invariant GoesOn(env, trace)
      {
        iteration := Increment(iteration);
        if iteration > max {
          var ok := CallHook(ExecutionFailed(MAX_ITERATIONS_REACHED), env, max);
          return if ok then MaxIterations(max) else HookError;
        }
        var stepped := env.step(trace, iteration);
        if stepped.None? {
          return DriverError;
        }
        var outcome := stepped.value;
        var ok := CallHook(StepCompleted(iteration, outcome), env, max);
        if !ok {
          return HookError;
        }
        var settled := Settle(iteration, outcome, env, max, fuel);
        if settled.Some? {
          return settled.value;
        }
        passes := passes + 1;
      }
      return StillRunning;
    }
  }

  // ----- what follows what

  /** The number of the next step: one more than there have been, in 32 bits. */
  function NextNumber(done: seq<Hook>): nat {
    (StepsIn(done) + 1) % 0x1_0000_0000
  }

  /** Whether `next` is what comes after some successful calls, None being the
      end of the trace: what the completed step calls for; else the next step,
      giving up past the limit, or nothing when the driver errs. */
  ghost predicate Follows(env: Environment, max: nat, done: seq<Hook>, next: Option<Hook>)
    requires done != []
  {
    if !GoesOn(env, done) then
      next ==
        if !Last(done).StepCompleted? then None
        else Some(CalledFor(env.reflect(done, Last(done).outcome), Last(done).outcome)[0])
    else if NextNumber(done) > max then next == Some(ExecutionFailed("max iterations reached"))
    else
      var stepped := env.step(done, NextNumber(done));
      next == if stepped.None? then None else Some(StepCompleted(NextNumber(done), stepped.value))
  }

  /** The trace begins with `starting`, and each further call follows the calls
      before it, which have all succeeded. */
  ghost predicate EachFollows(env: Environment, max: nat, trace: seq<Hook>) {
    && (trace != [] ==> trace[0] == Starting)
    && (forall k :: 1 <= k < |trace| ==> env.hookOk(trace[..k]) && Follows(env, max, trace[..k], Some(trace[k])))
  }

  /** The result by the end of the trace. */
  ghost predicate Concludes(env: Environment, max: nat, fuel: nat, trace: seq<Hook>, r: ExecutionResult) {
    && trace != []
    && match r
       case HookError => !env.hookOk(trace) || (trace == [Starting] && !env.promptOk)
       case DriverError =>
         env.hookOk(trace) && GoesOn(env, trace) && NextNumber(trace) <= max && env.step(trace, NextNumber(trace)).None?
       case MaxIterations(limit) =>
         && env.hookOk(trace) && |trace| >= 2 && limit == max
         && GoesOn(env, Front(trace)) && NextNumber(Front(trace)) > max
       case Finished(iterations, outcome) =>
         && env.hookOk(trace) && |trace| >= 2
         && Front(trace) != [] && Last(Front(trace)).StepCompleted? && Last(Front(trace)).iteration == iterations
         && (var own := Last(Front(trace)).outcome; var advisory := env.reflect(Front(trace), own);
             if advisory.Escalate? then outcome == Failed(advisory.reason)
             else outcome == own && (own == Done || own.Failed?))
       case StillRunning => env.hookOk(trace) && StepsIn(trace) == fuel && GoesOn(env, trace)
  }

  lemma NextFollows(env: Environment, max: nat, done: seq<Hook>)
    requires done != [] && Obeys(env, max, done) && max <= U32_MAX
    ensures Follows(env, max, done, NextHook(env, max, done))
    ensures GoesOn(env, done) ==> NextHook(env, max, done) == PassHook(env, max, done)
    ensures Increment(LastIteration(done)) == NextNumber(done)
  {
    StepsAreCounted(env, max, done);
    WrappedStep(StepsIn(done));
  }

  /** In what `Execute` calls, each hook follows those before it. */
  lemma {:induction false} EachHookFollows(env: Environment, max: nat, trace: seq<Hook>)
    requires Obeys(env, max, trace) && max <= U32_MAX
    ensures EachFollows(env, max, trace)
  {
    if trace != [] {
      var front := Front(trace);
      EachHookFollows(env, max, front);
      forall k | 1 <= k < |trace|
        ensures env.hookOk(trace[..k]) && Follows(env, max, trace[..k], Some(trace[k]))
      {
        if k < |trace| - 1 {
          assert front[..k] == trace[..k];
        } else {
          assert trace[..k] == front;
          NextFollows(env, max, front);
        }
      }
    }
  }

  lemma ResultConcludes(env: Environment, max: nat, fuel: nat, trace: seq<Hook>, r: ExecutionResult)
    requires Obeys(env, max, trace) && Reports(env, max, fuel, trace, r) && max <= U32_MAX
    ensures Concludes(env, max, fuel, trace, r)
  {
    NextFollows(env, max, trace);
    if |trace| >= 2 {
      NextFollows(env, max, Front(trace));
    }
  }

  // ----- the shape of the hook trace

  /** The number a 32-bit counter shows after n increments. */
  function Wrapped(n: nat): nat {
    n % (U32_MAX + 1)
  }

  /** The shape: starting, then steps numbered 1, 2, ... by a 32-bit counter,
      each followed by at most one subagent request (for that step's
      subagent), then at most one terminal hook and nothing after; completion
      only after a Done step. */
  ghost predicate WellFormed(trace: seq<Hook>) {
    trace != [] ==>
      && WellFormed(Front(trace))
      && (Last(trace).Starting? <==> Front(trace) == [])
      && (Front(trace) != [] ==> !Terminal(Last(Front(trace))))
      && (Last(trace).StepCompleted? ==> Last(trace).iteration == Wrapped(StepsIn(trace)))
      && (Last(trace).SubagentRequested? ==>
            Front(trace) != [] && Last(Front(trace)).StepCompleted? &&
            Last(Front(trace)).outcome == SpawnSubagent(Last(trace).agentType))
      && (Last(trace).ExecutionCompleted? ==>
            Front(trace) != [] && Last(Front(trace)).StepCompleted? && Last(Front(trace)).outcome == Done)
  }

  lemma WrappedStep(n: nat)
    ensures Wrapped(n + 1) == Increment(Wrapped(n))
    ensures n <= U32_MAX ==> Wrapped(n) == n
  {
  }

  /** A step is only ever completed by the pass whose number it bears. */
  lemma StepIsNumbered(env: Environment, max: nat, trace: seq<Hook>)
    requires trace != [] && Obeys(env, max, trace) && Last(trace).StepCompleted?
    ensures Last(trace).iteration == Increment(LastIteration(Front(trace))) <= max
  {
  }

  lemma {:induction false} StepsAreCounted(env: Environment, max: nat, trace: seq<Hook>)
    requires Obeys(env, max, trace) && max <= U32_MAX
    ensures LastIteration(trace) == Wrapped(StepsIn(trace))
    ensures max < U32_MAX ==> StepsIn(trace) <= max
  {
    if trace != [] {
      StepsAreCounted(env, max, Front(trace));
      if Last(trace).StepCompleted? {
        StepIsNumbered(env, max, trace);
        WrappedStep(StepsIn(Front(trace)));
      }
    }
  }

  /** For all driver, reflection and hook behaviours and every limit the trace
      has that shape; with a limit below the largest 32-bit number it has at
      most `max` steps, so their numbers have not wrapped. */
  lemma {:induction false} TraceIsWellFormed(env: Environment, max: nat, trace: seq<Hook>)
    requires Obeys(env, max, trace) && max <= U32_MAX
    ensures WellFormed(trace) && LastIteration(trace) == Wrapped(StepsIn(trace))
    ensures max < U32_MAX ==> StepsIn(trace) <= max && Wrapped(StepsIn(trace)) == StepsIn(trace)
  {
    StepsAreCounted(env, max, trace);
    if trace != [] {
      TraceIsWellFormed(env, max, Front(trace));
    }
  }

  /** An Ok result ends in exactly one terminal hook, which is `completed`
      exactly when the final outcome is Done, and gives the number of the last
      step; running into the limit takes exactly `max` steps and a limit below
      the largest; a driver error ends with no terminal hook. */
  lemma ResultMatchesTrace(env: Environment, max: nat, fuel: nat, trace: seq<Hook>, r: ExecutionResult)
    requires Obeys(env, max, trace) && Reports(env, max, fuel, trace, r) && max <= U32_MAX
    ensures r.Finished? ==>
      && Terminal(Last(trace)) && 1 <= StepsIn(trace) && r.iterations == Wrapped(StepsIn(trace))
      && (max < U32_MAX ==> r.iterations == StepsIn(trace) <= max)
      && (Last(trace).ExecutionCompleted? <==> r.finalOutcome == Done)
    ensures r.MaxIterations? ==> Terminal(Last(trace)) && StepsIn(trace) == max < U32_MAX
    ensures r.DriverError? || r.StillRunning? ==> !Terminal(Last(trace)) && TerminalsIn(trace) == 0
    ensures TerminalsIn(trace) == (if Terminal(Last(trace)) then 1 else 0)
  {
    TraceIsWellFormed(env, max, trace);
    OneTerminal(trace);
    if r.MaxIterations? {
      LimitReached(env, max, trace);
    } else if r.Finished? {
      TraceIsWellFormed(env, max, Front(trace));
    }
  }

  /** Giving up at the limit. */
  lemma LimitReached(env: Environment, max: nat, trace: seq<Hook>)
    requires Obeys(env, max, trace) && max <= U32_MAX && |trace| >= 1
    requires Last(trace) == ExecutionFailed(MAX_ITERATIONS_REACHED)
    requires Front(trace) != [] && GoesOn(env, Front(trace))
    ensures StepsIn(trace) == max < U32_MAX
  {
    var front := Front(trace);
    TraceIsWellFormed(env, max, front);
    WrappedStep(StepsIn(front));
    assert Increment(LastIteration(front)) > max;
  }

  function TerminalsIn(trace: seq<Hook>): nat {
    if trace == [] then 0 else TerminalsIn(Front(trace)) + (if Terminal(Last(trace)) then 1 else 0)
  }

  lemma {:induction false} OneTerminal(trace: seq<Hook>)
    requires WellFormed(trace)
    ensures TerminalsIn(trace) == (if trace != [] && Terminal(Last(trace)) then 1 else 0)
  {
    if trace != [] {
      OneTerminal(Front(trace));
    }
  }

  // ----- termination

  /** With a limit below the largest 32-bit number, `max + 1` passes are
      enough: the loop ends. */
  lemma LoopEnds(env: Environment, max: nat, fuel: nat, trace: seq<Hook>, r: ExecutionResult)
    requires Obeys(env, max, trace) && Reports(env, max, fuel, trace, r)
    requires max < U32_MAX && fuel > max
    ensures !r.StillRunning?
  {
    TraceIsWellFormed(env, max, trace);
  }

  const ENDLESS := Environment(
    (trace: seq<Hook>) => true, true, (trace: seq<Hook>, i: nat) => Some(Continue),
    (trace: seq<Hook>, outcome: StepOutcome) => OnTrack)

  /** With the largest 32-bit limit the counter can never exceed it: a driver
      that always continues is then never stopped, after any number of passes. */
  lemma {:induction false} LargestLimitNeverStops(fuel: nat, trace: seq<Hook>, r: ExecutionResult)
    requires Obeys(ENDLESS, U32_MAX, trace) && Reports(ENDLESS, U32_MAX, fuel, trace, r)
    ensures r.StillRunning?
  {
    NoTerminal(trace);
  }

  lemma {:induction false} NoTerminal(trace: seq<Hook>)
    requires Obeys(ENDLESS, U32_MAX, trace)
    ensures trace != [] ==> Last(trace) == Starting || (Last(trace).StepCompleted? && Last(trace).outcome == Continue)
    ensures NextHook(ENDLESS, U32_MAX, trace).Some?
  {
    if trace != [] {
      NoTerminal(Front(trace));
    }
  }
}
