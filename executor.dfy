/**
 * `executor<Sequence>`, the Windows launch executor: it drives a fixed
 * sequence of components through `on_setup`, one native `create_process`
 * call, and `on_success` or `on_error`, and returns the child or throws.
 * Each method is proved against the functions of LaunchSemantics; a thrown
 * exception is the `Some` of the returned `Option<Exception>`.
 */
module WindowsExecutor {
  import opened Wrappers
  import opened LaunchTypes
  import opened LaunchSemantics

  class Executor {
    // the launch request components fill in
    var procAttrs: Option<nat>
    var threadAttrs: Option<nat>
    var inheritHandles: bool
    var creationFlags: dword
    var workDir: Option<string>
    var cmdLine: Option<string>
    var exe: Option<string>
    var env: Option<string>

    /** The error slot hooks and `handle_error` write. */
    var ec: ErrorCode

    /** The component sequence and the error policy its type fixes. */
    const components: seq<Component>
    const hasErrorHandler: bool

    /** Written by a successful `create_process`. */
    var procInfo: ProcessInformation

    /** The value of the exit-status cell the child shares. */
    const exitStatus: int

    /** Every hook invocation and native call so far, in order. */
    ghost var trace: seq<Event>

    function CurrentRequest(): Request
      reads this
    {
      Request(procAttrs, threadAttrs, inheritHandles, creationFlags, workDir, cmdLine, exe, env)
    }

    /** The fields a hook can read and write. */
    function Snapshot(): Fields
      reads this
    {
      Fields(CurrentRequest(), ec)
    }

    /**
     * A fresh executor over `cs`: null request pointers, no handle
     * inheritance, `ec` clear, null process information, the exit-status
     * cell at STILL_ACTIVE, and creation flags EXTENDED_STARTUPINFO_PRESENT
     * on Windows 6+ builds and 0 otherwise.
     */
    constructor (cs: seq<Component>, hasErrorHandler: bool, win6: bool)
      ensures components == cs && this.hasErrorHandler == hasErrorHandler
      ensures procAttrs == None && threadAttrs == None && !inheritHandles
      ensures workDir == None && cmdLine == None && exe == None && env == None
      ensures creationFlags == (if win6 then ExtendedStartupInfoPresent else 0)
      ensures CurrentRequest() == DefaultRequest(win6)
      ensures ec == Clear && !IsSet(ec)
      ensures procInfo == NullProcessInformation
      ensures exitStatus == StillActive
      ensures trace == []
    {
      components := cs;
      this.hasErrorHandler := hasErrorHandler;
      procAttrs, threadAttrs, inheritHandles := None, None, false;
      creationFlags := if win6 then ExtendedStartupInfoPresent else 0;
      workDir, cmdLine, exe, env := None, None, None, None;
      ec := Clear;
      procInfo := NullProcessInformation;
      exitStatus := StillActive;
      trace := [];
    }

    /**
     * `handle_error(code, msg)`: with an error handler it stores `code` in
     * `ec`; without one it throws `system_error(code, msg)`, the message
     * defaulting to "Unknown Error.", and leaves `ec` alone.
     */
    method HandleError(code: ErrorCode, msg: Option<string>) returns (exc: Option<Exception>)
      modifies this`ec
      ensures hasErrorHandler ==> ec == code && exc == None
      ensures !hasErrorHandler ==> ec == old(ec) && exc == Some(SystemError(code, Some(MessageOf(msg))))
      ensures HookOut(Snapshot(), exc) == HandleErrorEffect(old(Snapshot()), code, msg, hasErrorHandler)
    {
      if hasErrorHandler {
        ec := code;
        exc := None;
      } else {
        exc := Some(SystemError(code, Some(MessageOf(msg))));
      }
    }

    /** `internal_throw(has_error_handler(), code)`: throws `system_error(code)` only without an error handler. */
    method InternalThrow(code: ErrorCode) returns (exc: Option<Exception>)
      ensures exc.None? <==> hasErrorHandler
      ensures exc.Some? ==> exc.value == SystemError(code, None)
    {
      if hasErrorHandler {
        exc := None;
      } else {
        exc := Some(SystemError(code, None));
      }
    }

    method Assign(w: Write)
      modifies this
      ensures Snapshot() == Fields(ApplyWrite(old(CurrentRequest()), w), old(ec))
      ensures procInfo == old(procInfo) && trace == old(trace)
    {
      match w
      case SetProcAttrs(a) => procAttrs := a;
      case SetThreadAttrs(a) => threadAttrs := a;
      case SetInheritHandles(b) => inheritHandles := b;
      case SetCreationFlags(flags) => creationFlags := flags;
      case SetWorkDir(d) => workDir := d;
      case SetCmdLine(c) => cmdLine := c;
      case SetExe(e) => exe := e;
      case SetEnv(e) => env := e;
    }

    /** One access of a component's hook to this executor. */
    method Perform(s: Step) returns (exc: Option<Exception>)
      modifies this
      ensures HookOut(Snapshot(), exc) == StepEffect(old(Snapshot()), s, hasErrorHandler)
      ensures procInfo == old(procInfo) && trace == old(trace)
    {
      match s
      case Assign(w) =>
        Assign(w);
        exc := None;
      case SetEc(code) =>
        ec := code;
        exc := None;
      case HandleError(code, msg) =>
        exc := HandleError(code, msg);
      case Raise(e) =>
        exc := Some(e);
    }

    /** A component's hook, run on this executor until it ends or throws. */
    method InvokeHook(h: Hook) returns (exc: Option<Exception>)
      modifies this
      ensures HookOut(Snapshot(), exc) == RunHook(old(Snapshot()), h, hasErrorHandler)
      ensures procInfo == old(procInfo) && trace == old(trace)
    {
      ghost var f0 := Snapshot();
      exc := None;
      var i := 0;
      while i < |h| && exc.None?
        invariant i <= |h|
        invariant HookOut(Snapshot(), exc) == HookEffect(f0, h, hasErrorHandler, i)
        invariant procInfo == old(procInfo) && trace == old(trace)
      {
        exc := Perform(h[i]);
        i := i + 1;
      }
      if i < |h| {
        HookEffectStops(f0, h, hasErrorHandler, i, |h|);
      }
    }

    /** `boost::fusion::for_each(seq, v)`: visitor `v` on every component in order, until a hook throws. */
    method ForEach(v: Visitor) returns (exc: Option<Exception>)
      modifies this
      ensures var p := LaunchSemantics.ForEach(v, old(Snapshot()), components, hasErrorHandler);
              Snapshot() == p.f && trace == old(trace) + p.trace && exc == p.exc
      ensures procInfo == old(procInfo)
    {
      ghost var f0 := Snapshot();
      exc := None;
      var i := 0;
      while i < |components| && exc.None?
        invariant i <= |components|
        invariant var p := VisitEffect(v, f0, components, hasErrorHandler, i);
                  Snapshot() == p.f && trace == old(trace) + p.trace && exc == p.exc
        invariant procInfo == old(procInfo)
      {
        trace := trace + [EventOf(v, i, Snapshot())];
        exc := InvokeHook(HookOf(v, components[i]));
        i := i + 1;
      }
      if i < |components| {
        VisitEffectStops(v, f0, components, hasErrorHandler, i, |components|);
      }
    }

    /** Lines 196-201 of `operator()`: `on_error` with a copy of `lastError`, then `internal_throw`. */
    method FailLaunch(lastError: ErrorCode) returns (o: Outcome)
      modifies this
      ensures var r := LaunchFailure(old(Snapshot()), old(procInfo), lastError, components, hasErrorHandler);
              Snapshot() == r.f && procInfo == r.procInfo && trace == old(trace) + r.trace && o == r.outcome
    {
      var exc := ForEach(ErrorVisitor(Copy(lastError)));
      if exc.Some? {
        return Thrown(exc.value);
      }
      exc := InternalThrow(lastError);
      if exc.Some? {
        return Thrown(exc.value);
      }
      return Returned(EmptyChild);
    }

    /** `operator()` from the native call on (lines 173-204), once setup left `ec` clear. */
    method Spawn(call: CallResult) returns (o: Outcome)
      modifies this
      ensures var r := LaunchSemantics.Spawn(old(Snapshot()), exitStatus, components, hasErrorHandler, call);
              Snapshot() == r.f && procInfo == r.procInfo && trace == old(trace) + r.trace && o == r.outcome
    {
      ghost var t0 := trace;
      trace := trace + [CreateProcess(CurrentRequest())];
      procInfo := call.info;
      var c := Running(procInfo, exitStatus);

      if !call.succeeded {
        o := FailLaunch(LastError(call.lastError));
        assert t0 + [CreateProcess(old(CurrentRequest()))] + (trace[|t0| + 1..]) == trace;
        return;
      }
      ec := Clear;
      var exc := ForEach(SuccessVisitor);
      if exc.Some? {
        return Thrown(exc.value);
      }
      if IsSet(ec) {
        ghost var t1 := trace;
        o := FailLaunch(ec);
        assert t1 + trace[|t1|..] == trace;
        return;
      }
      return Returned(c);
    }

    /**
     * `operator()`, given what the native `create_process` call does: the
     * new fields, process information and events, and the outcome, are those
     * of Launch.
     */
    method Run(call: CallResult) returns (o: Outcome)
      modifies this
      ensures var r := Launch(old(Snapshot()), old(procInfo), exitStatus, components, hasErrorHandler, call);
              Snapshot() == r.f && procInfo == r.procInfo && trace == old(trace) + r.trace && o == r.outcome
    {
      var exc := ForEach(SetupVisitor);
      if exc.Some? {
        return Thrown(exc.value);
      }
      if IsSet(ec) {
        exc := ForEach(ErrorVisitor(BoundToEc));
        if exc.Some? {
          return Thrown(exc.value);
        }
        return Returned(EmptyChild);
      }
      o := Spawn(call);
    }
  }

  /** `make_executor(seq)`: a fresh executor over the sequence. */
  method MakeExecutor(cs: seq<Component>, hasErrorHandler: bool, win6: bool) returns (e: Executor)
    ensures fresh(e)
    ensures e.components == cs && e.hasErrorHandler == hasErrorHandler
    ensures e.CurrentRequest() == DefaultRequest(win6) && e.ec == Clear
    ensures e.procInfo == NullProcessInformation && e.exitStatus == StillActive && e.trace == []
  {
    e := new Executor(cs, hasErrorHandler, win6);
  }
}

