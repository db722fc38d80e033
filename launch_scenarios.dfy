/**
 * Launches of concrete component sequences, reasoned about through the
 * executor's contracts and the properties of its passes.
 */
module LaunchScenarios {
  import opened Wrappers
  import opened LaunchTypes
  import opened LaunchSemantics
  import opened HookProperties
  import opened WindowsExecutor

  /** Two components that only log in `on_setup`, and a successful call: both ran once, in order, before the call. */
  method TwoSetupLoggers(info: ProcessInformation) {
    var logger := Component([], [], []);
    var cs := [logger, logger];
    var e := MakeExecutor(cs, false, true);
    ghost var f0 := e.Snapshot();
    var o := e.Run(CallResult(true, info, 0));
    NoOpPass(SetupVisitor, f0, cs, false, 2);
    NoOpPass(SuccessVisitor, f0.(ec := Clear), cs, false, 2);
    assert e.trace == [OnSetup(0), OnSetup(1), CreateProcess(f0.req), OnSuccess(0, Clear), OnSuccess(1, Clear)];
    assert o == Returned(Running(info, StillActive));
  }

  /** A working directory that does not exist and no error handler: the call fails and its error is thrown. */
  method MissingWorkDir(dir: string, lastError: int) {
    var wd := Component([Assign(SetWorkDir(Some(dir)))], [], []);
    var cs := [wd];
    var e := MakeExecutor(cs, false, true);
    ghost var f0 := e.Snapshot();
    var o := e.Run(CallResult(false, NullProcessInformation, lastError));
    ghost var f1 := f0.(req := f0.req.(workDir := Some(dir)));
    assert StepEffect(f0, Assign(SetWorkDir(Some(dir))), false) == HookOut(f1, None);
    assert HookEffect(f0, wd.onSetup, false, 0) == HookOut(f0, None);
    assert RunHook(f0, wd.onSetup, false) == HookOut(f1, None);
    assert VisitEffect(SetupVisitor, f0, cs, false, 0) == PhaseOut(f0, [], None);
    assert VisitEffect(SetupVisitor, f0, cs, false, 1) == PhaseOut(f1, [] + [OnSetup(0)], None);
    assert ForEach(SetupVisitor, f0, cs, false) == PhaseOut(f1, [OnSetup(0)], None);
    NoOpPass(ErrorVisitor(Copy(LastError(lastError))), f1, cs, false, 1);
    assert o == Thrown(SystemError(LastError(lastError), None));
    assert e.trace == [OnSetup(0), CreateProcess(f1.req), OnError(0, LastError(lastError))];
    assert e.workDir == Some(dir);
  }

  /** An executable and an error handler in the sequence: the child comes back, its exit status still active. */
  method ExeWithErrorHandler(exe: string, info: ProcessInformation) {
    var setExe := Component([Assign(SetExe(Some(exe)))], [], []);
    var handler := Component([], [], []);
    var cs := [setExe, handler];
    var e := MakeExecutor(cs, true, false);
    ghost var f0 := e.Snapshot();
    var o := e.Run(CallResult(true, info, 0));
    ghost var f1 := f0.(req := f0.req.(exe := Some(exe)));
    assert VisitEffect(SetupVisitor, f0, cs, true, 1) == PhaseOut(f1, [OnSetup(0)], None);
    assert ForEach(SetupVisitor, f0, cs, true) == PhaseOut(f1, [OnSetup(0), OnSetup(1)], None);
    NoOpPass(SuccessVisitor, f1.(ec := Clear), cs, true, 2);
    assert o == Returned(Running(info, StillActive));
  }

  /** A setup error reported through `handle_error` with an error handler: every `on_error` sees it, and no call is made. */
  method SetupErrorWithHandler(code: ErrorCode, info: ProcessInformation)
    requires IsSet(code)
  {
    var bad := Component([HandleError(code, None)], [], []);
    var other := Component([], [], []);
    var cs := [bad, other];
    var e := MakeExecutor(cs, true, true);
    ghost var f0 := e.Snapshot();
    var o := e.Run(CallResult(true, info, 0));
    ghost var f1 := f0.(ec := code);
    assert VisitEffect(SetupVisitor, f0, cs, true, 1) == PhaseOut(f1, [OnSetup(0)], None);
    assert ForEach(SetupVisitor, f0, cs, true) == PhaseOut(f1, [OnSetup(0), OnSetup(1)], None);
    NoOpPass(ErrorVisitor(BoundToEc), f1, cs, true, 2);
    assert o == Returned(EmptyChild);
    assert e.trace == [OnSetup(0), OnSetup(1), OnError(0, code), OnError(1, code)];
    assert e.procInfo == NullProcessInformation;
  }

  /** The same setup error without an error handler: `handle_error` throws from inside the first `on_setup`. */
  method SetupErrorPropagates(code: ErrorCode, info: ProcessInformation) {
    var bad := Component([HandleError(code, None)], [], []);
    var other := Component([], [], []);
    var cs := [bad, other];
    var e := MakeExecutor(cs, false, true);
    ghost var f0 := e.Snapshot();
    var o := e.Run(CallResult(true, info, 0));
    assert VisitEffect(SetupVisitor, f0, cs, false, 1).exc.Some?;
    LaunchSemantics.VisitEffectStops(SetupVisitor, f0, cs, false, 1, 2);
    assert o == Thrown(SystemError(code, Some("Unknown Error.")));
    assert e.trace == [OnSetup(0)];
  }
}
