/**
 * What one launch attempt of `executor<Sequence>::operator()` does, as
 * functions of the executor's fields, the component sequence, the error
 * policy fixed by the sequence's type, and what the native call did.
 * `hasErrorHandler` is the policy: true when the sequence holds an error
 * handler (errors are stored in `ec`), false when errors are thrown.
 */
module LaunchSemantics {
  import opened Wrappers
  import opened LaunchTypes

  function ApplyWrite(r: Request, w: Write): Request {
    match w
    case SetProcAttrs(a) => r.(procAttrs := a)
    case SetThreadAttrs(a) => r.(threadAttrs := a)
    case SetInheritHandles(b) => r.(inheritHandles := b)
    case SetCreationFlags(flags) => r.(creationFlags := flags)
    case SetWorkDir(d) => r.(workDir := d)
    case SetCmdLine(c) => r.(cmdLine := c)
    case SetExe(e) => r.(exe := e)
    case SetEnv(e) => r.(env := e)
  }

  /** The message `handle_error` passes on: the caller's, or the default argument. */
  function MessageOf(msg: Option<string>): string {
    if msg.Some? then msg.value else UnknownErrorMessage
  }

  /** The executor's fields after a hook (or part of one), and the exception that escaped, if any. */
  datatype HookOut = HookOut(f: Fields, exc: Option<Exception>)

  /**
   * `handle_error(code, msg)`: with an error handler in the sequence it stores
   * `code` in `ec`; without one it throws `system_error(code, msg)` and
   * changes nothing.
   */
  function HandleErrorEffect(f: Fields, code: ErrorCode, msg: Option<string>, hasErrorHandler: bool): HookOut {
    if hasErrorHandler then HookOut(f.(ec := code), None)
    else HookOut(f, Some(SystemError(code, Some(MessageOf(msg)))))
  }

  /** One access of a component to the executor. */
  function StepEffect(f: Fields, s: Step, hasErrorHandler: bool): HookOut {
    match s
    case Assign(w) => HookOut(f.(req := ApplyWrite(f.req, w)), None)
    case SetEc(code) => HookOut(f.(ec := code), None)
    case HandleError(code, msg) => HandleErrorEffect(f, code, msg, hasErrorHandler)
    case Raise(e) => HookOut(f, Some(e))
  }

  /** The first `n` steps of hook `h`, stopping at the first exception. */
  function HookEffect(f: Fields, h: Hook, hasErrorHandler: bool, n: nat): HookOut
    requires n <= |h|
    decreases n
  {
    if n == 0 then HookOut(f, None)
    else
      var p := HookEffect(f, h, hasErrorHandler, n - 1);
      if p.exc.Some? then p else StepEffect(p.f, h[n - 1], hasErrorHandler)
  }

  function RunHook(f: Fields, h: Hook, hasErrorHandler: bool): HookOut {
    HookEffect(f, h, hasErrorHandler, |h|)
  }

  /** The hook a visitor calls on a component. */
  function HookOf(v: Visitor, c: Component): Hook {
    match v
    case SetupVisitor => c.onSetup
    case ErrorVisitor(_) => c.onError
    case SuccessVisitor => c.onSuccess
  }

  /**
   * The event of calling visitor `v` on component `i` when the executor's
   * fields are `f`: an error visitor bound to `ec` passes the current `ec`.
   */
  function EventOf(v: Visitor, i: nat, f: Fields): Event {
    match v
    case SetupVisitor => OnSetup(i)
    case ErrorVisitor(BoundToEc) => OnError(i, f.ec)
    case ErrorVisitor(Copy(code)) => OnError(i, code)
    case SuccessVisitor => OnSuccess(i, f.ec)
  }

  /** The fields, the events and the escaping exception of one `for_each` pass. */
  datatype PhaseOut = PhaseOut(f: Fields, trace: seq<Event>, exc: Option<Exception>)

  /**
   * `for_each(seq, v)` over the first `n` components: each hook runs on the
   * fields the previous one left; an exception ends the pass.
   */
  function VisitEffect(v: Visitor, f: Fields, cs: seq<Component>, hasErrorHandler: bool, n: nat): PhaseOut
    requires n <= |cs|
    decreases n
  {
    if n == 0 then PhaseOut(f, [], None)
    else
      var p := VisitEffect(v, f, cs, hasErrorHandler, n - 1);
      if p.exc.Some? then p
      else
        var h := RunHook(p.f, HookOf(v, cs[n - 1]), hasErrorHandler);
        PhaseOut(h.f, p.trace + [EventOf(v, n - 1, p.f)], h.exc)
  }

  function ForEach(v: Visitor, f: Fields, cs: seq<Component>, hasErrorHandler: bool): PhaseOut {
    VisitEffect(v, f, cs, hasErrorHandler, |cs|)
  }

  /** The executor's fields, process information and events after `operator()`, and how it ended. */
  datatype LaunchOut = LaunchOut(f: Fields, procInfo: ProcessInformation, trace: seq<Event>, outcome: Outcome)

  /**
   * The launch-time failure path: `on_error` with a copy of `lastError` on
   * every component, then `internal_throw`, which throws only without an
   * error handler; the executor itself never stores `lastError` in `ec`.
   */
  function LaunchFailure(f: Fields, pi: ProcessInformation, lastError: ErrorCode,
                         cs: seq<Component>, hasErrorHandler: bool): LaunchOut
  {
    var e := ForEach(ErrorVisitor(Copy(lastError)), f, cs, hasErrorHandler);
    LaunchOut(e.f, pi, e.trace,
      if e.exc.Some? then Thrown(e.exc.value)
      else if hasErrorHandler then Returned(EmptyChild)
      else Thrown(SystemError(lastError, None)))
  }

  /**
   * `operator()` from the native call on, once setup left `ec` clear: the
   * call writes the process information whether or not it succeeds, and the
   * child is built from it and the exit-status cell; on success `ec` is
   * cleared and `on_success` runs on every component; the failure path
   * follows when the call failed or a success hook set `ec`.
   */
  function Spawn(f: Fields, exitStatus: int, cs: seq<Component>,
                 hasErrorHandler: bool, call: CallResult): LaunchOut
  {
    var c := Running(call.info, exitStatus);
    if !call.succeeded then
      var r := LaunchFailure(f, call.info, LastError(call.lastError), cs, hasErrorHandler);
      r.(trace := [CreateProcess(f.req)] + r.trace)
    else
      var p := ForEach(SuccessVisitor, f.(ec := Clear), cs, hasErrorHandler);
      if p.exc.Some? then
        LaunchOut(p.f, call.info, [CreateProcess(f.req)] + p.trace, Thrown(p.exc.value))
      else if IsSet(p.f.ec) then
        var r := LaunchFailure(p.f, call.info, p.f.ec, cs, hasErrorHandler);
        r.(trace := [CreateProcess(f.req)] + p.trace + r.trace)
      else
        LaunchOut(p.f, call.info, [CreateProcess(f.req)] + p.trace, Returned(c))
  }

  /**
   * `operator()`: setup on every component; on a setup error, `on_error`
   * bound to the executor's own `ec` and an empty child, never a throw of the
   * executor's own; otherwise Spawn.
   */
  function Launch(f: Fields, pi: ProcessInformation, exitStatus: int, cs: seq<Component>,
                  hasErrorHandler: bool, call: CallResult): LaunchOut
  {
    var s := ForEach(SetupVisitor, f, cs, hasErrorHandler);
    if s.exc.Some? then
      LaunchOut(s.f, pi, s.trace, Thrown(s.exc.value))
    else if IsSet(s.f.ec) then
      var e := ForEach(ErrorVisitor(BoundToEc), s.f, cs, hasErrorHandler);
      LaunchOut(e.f, pi, s.trace + e.trace,
                if e.exc.Some? then Thrown(e.exc.value) else Returned(EmptyChild))
    else
      var r := Spawn(s.f, exitStatus, cs, hasErrorHandler, call);
      r.(trace := s.trace + r.trace)
  }

  /** Once a hook has thrown, its remaining steps do not run. */
  lemma {:induction false} HookEffectStops(f: Fields, h: Hook, hasErrorHandler: bool, k: nat, n: nat)
    requires k <= n <= |h|
    requires HookEffect(f, h, hasErrorHandler, k).exc.Some?
    ensures HookEffect(f, h, hasErrorHandler, n) == HookEffect(f, h, hasErrorHandler, k)
    decreases n
  {
    if n > k {
      HookEffectStops(f, h, hasErrorHandler, k, n - 1);
    }
  }

  /** Once a hook has thrown, the remaining components are not visited. */
  lemma {:induction false} VisitEffectStops(v: Visitor, f: Fields, cs: seq<Component>, hasErrorHandler: bool, k: nat, n: nat)
    requires k <= n <= |cs|
    requires VisitEffect(v, f, cs, hasErrorHandler, k).exc.Some?
    ensures VisitEffect(v, f, cs, hasErrorHandler, n) == VisitEffect(v, f, cs, hasErrorHandler, k)
    decreases n
  {
    if n > k {
      VisitEffectStops(v, f, cs, hasErrorHandler, k, n - 1);
    }
  }
}
