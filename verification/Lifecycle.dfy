/** The states of a backend, and the two decisions the executor takes about them:
    what a step returns, and what the run loop does with that result. */
module Lifecycle {

  datatype Option<+T> = None | Some(value: T)

  type BackendId = string
  type Address = string

  datatype BackendState =
    | Loading
    | ErrorLoading
    | Starting
    | ErrorStarting
    | Ready
    | TimedOutBeforeReady
    | Failed
    | Exited
    | Swept
    | Terminated
  {
    predicate Terminal() {
      ErrorLoading? || ErrorStarting? || TimedOutBeforeReady? || Failed? || Exited? || Swept? || Terminated?
    }

    /** True if the state implies that the container is running. */
    predicate Running() {
      this == Starting || this == Ready
    }

    function ToString(): string {
      match this
      case Loading => "Loading"
      case ErrorLoading => "ErrorLoading"
      case Starting => "Starting"
      case ErrorStarting => "ErrorStarting"
      case Ready => "Ready"
      case TimedOutBeforeReady => "TimedOutBeforeReady"
      case Failed => "Failed"
      case Exited => "Exited"
      case Swept => "Swept"
      case Terminated => "Terminated"
    }

    /** The place of a state in the lifecycle: a terminal state other than `Terminated`
        may still be overwritten by `Terminated`, which therefore comes last. */
    function Rank(): nat {
      if this == Loading then 0
      else if this == Starting then 1
      else if this == Ready then 2
      else if this == Terminated then 4
      else 3
    }

    /** The number of step attempts that lead to this state when nothing interrupts them. */
    function Stage(): nat {
      if Terminal() then 4 else Rank() + 1
    }
  }

  function FromString(s: string): (r: Option<BackendState>)
    // parsing inverts printing, and accepts nothing that is not a printed state
    ensures forall b: BackendState :: r == Some(b) <==> s == b.ToString()
  {
    if s == "Loading" then Some(Loading)
    else if s == "ErrorLoading" then Some(ErrorLoading)
    else if s == "Starting" then Some(Starting)
    else if s == "ErrorStarting" then Some(ErrorStarting)
    else if s == "Ready" then Some(Ready)
    else if s == "TimedOutBeforeReady" then Some(TimedOutBeforeReady)
    else if s == "Failed" then Some(Failed)
    else if s == "Exited" then Some(Exited)
    else if s == "Swept" then Some(Swept)
    else if s == "Terminated" then Some(Terminated)
    else None
  }

  /** `b` may be written to the database over `a`. */
  predicate Follows(a: BackendState, b: BackendState) {
    && b != TimedOutBeforeReady
    && ((a.Rank() < b.Rank() && a != Swept) || (a == Terminated && b == Terminated))
  }

  /** A history of database writes that respects the lifecycle. */
  predicate Ordered(trace: seq<BackendState>) {
    && (trace != [] ==> trace[0] == Loading)
    && (forall i :: 0 <= i < |trace| - 1 ==> Follows(trace[i], trace[i + 1]))
  }

  datatype EngineStatus =
    | Unknown
    | Up(addr: Address)
    | ExitedZero
    | ExitedNonzero
    | Killed

  /** Everything outside the executor that one step attempt depends on. */
  datatype StepEnv = StepEnv(
    loads: bool,
    status: Option<EngineStatus>,
    portOpens: bool,
    routeInserted: bool,
    idleExpires: bool,
    stops: bool)

  datatype StepResult =
    | Next(state: BackendState)
    | Done
    | Error

  /** `Executor::step`, with the outcome of every awaited call given by `env`. */
  function Step(state: BackendState, env: StepEnv): StepResult {
    match state
    case Loading => if env.loads then Next(Starting) else Error
    case Starting =>
      if env.status.None? then Error
      else if !env.status.value.Up? then Next(ErrorStarting)
      else if env.portOpens && env.routeInserted then Next(Ready)
      else Error
    case Ready =>
      (match env.status
       case None => Error
       case Some(ExitedNonzero) => Next(Failed)
       case Some(ExitedZero) => Next(Exited)
       case Some(Killed) => Next(Swept)
       case _ => if env.idleExpires then Next(Swept) else Error)
    case _ => if env.stops then Done else Error
  }

  /** Sent to a run: look at the container again, or terminate the backend. */
  datatype Signal = Interrupt | Terminate

  /** What the run loop does with the result of a step taken in `state`. */
  datatype Verdict =
    | Continue(next: BackendState)
    | Leave
    | LeaveAs(last: BackendState)

  function Judge(state: BackendState, result: StepResult): Verdict {
    match result
    case Next(s) => Continue(s)
    case Done => Leave
    case Error => if state == Loading then LeaveAs(ErrorLoading) else Leave
  }

  /** Every result of a step moves the lifecycle strictly forward, never leaves `Swept`, and a run
      can leave through `Done` only from a terminal state whose container was stopped. */
  lemma StepAdvances(state: BackendState, env: StepEnv)
    ensures
      match Judge(state, Step(state, env))
      case Continue(s) => Follows(state, s) && state.Stage() < s.Stage() && s != Terminated
      case LeaveAs(s) => Follows(state, s) && s.Terminal()
      case Leave => Step(state, env) == Done ==> state.Terminal() && env.stops
  {
  }

  /** Which outcomes of the awaited calls lead to which result: the table of a step read backwards. */
  lemma StepExactly(state: BackendState, env: StepEnv, next: BackendState)
    ensures Step(state, env) == Next(next) <==>
            match next
            case Starting => state == Loading && env.loads
            case ErrorStarting => state == Starting && env.status.Some? && !env.status.value.Up?
            case Ready => state == Starting && env.status.Some? && env.status.value.Up? && env.portOpens && env.routeInserted
            case Failed => state == Ready && env.status == Some(ExitedNonzero)
            case Exited => state == Ready && env.status == Some(ExitedZero)
            case Swept =>
              state == Ready && env.status.Some? &&
              (env.status.value == Killed || (env.idleExpires && (env.status.value.Up? || env.status.value == Unknown)))
            case _ => false
    ensures Step(state, env) == Done <==> state !in {Loading, Starting, Ready} && env.stops
  {
  }
}
