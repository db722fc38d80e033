/** Option, used for the nullable pointers of the launch request. */
module Wrappers {
  datatype Option<+T> = None | Some(value: T)
}

/**
 * The values the Windows launch executor works with: error codes, the launch
 * request that components fill in, the scripted behaviour of a component's
 * hooks, the events a launch produces and its final outcome.
 */
module LaunchTypes {
  import opened Wrappers

  /** A Win32 DWORD. */
  newtype dword = x: int | 0 <= x < 0x1_0000_0000

  /** EXTENDED_STARTUPINFO_PRESENT, the default creation flags on Windows 6+ builds. */
  const ExtendedStartupInfoPresent: dword := 0x0008_0000

  /** STILL_ACTIVE, the value an exit-status cell holds while the child runs. */
  const StillActive: int := 259

  /** The default message of `handle_error`. */
  const UnknownErrorMessage: string := "Unknown Error."

  datatype Category = SystemCategory | GenericCategory | OtherCategory(name: string)

  /** A std::error_code: a value and its category. */
  datatype ErrorCode = ErrorCode(value: int, category: Category)

  /** What `ec.clear()` leaves, and what a fresh executor's `ec` holds. */
  const Clear: ErrorCode := ErrorCode(0, SystemCategory)

  /** `if (ec)`: an error code is set exactly when its value is non-zero. */
  predicate IsSet(ec: ErrorCode) {
    ec.value != 0
  }

  /** The code `get_last_error()` builds from the thread's last Win32 error. */
  function LastError(code: int): ErrorCode {
    ErrorCode(code, SystemCategory)
  }

  /**
   * The request fields components fill in during setup; `None` stands for a
   * null pointer. Security attributes are opaque addresses.
   */
  datatype Request = Request(
    procAttrs: Option<nat>,
    threadAttrs: Option<nat>,
    inheritHandles: bool,
    creationFlags: dword,
    workDir: Option<string>,
    cmdLine: Option<string>,
    exe: Option<string>,
    env: Option<string>)

  /** The part of the executor that hooks read and write. */
  datatype Fields = Fields(req: Request, ec: ErrorCode)

  /** PROCESS_INFORMATION: the two handles (`None` is null) and the two ids. */
  datatype ProcessInformation = ProcessInformation(
    hProcess: Option<nat>, hThread: Option<nat>, processId: dword, threadId: dword)

  const NullProcessInformation: ProcessInformation := ProcessInformation(None, None, 0, 0)

  /** One write of a request field by a component. */
  datatype Write =
    | SetProcAttrs(procAttrs: Option<nat>)
    | SetThreadAttrs(threadAttrs: Option<nat>)
    | SetInheritHandles(inherit: bool)
    | SetCreationFlags(flags: dword)
    | SetWorkDir(workDir: Option<string>)
    | SetCmdLine(cmdLine: Option<string>)
    | SetExe(exe: Option<string>)
    | SetEnv(env: Option<string>)

  /** An exception escaping a hook or the executor. */
  datatype Exception =
    | SystemError(code: ErrorCode, message: Option<string>)
    | ComponentException(id: nat)

  /**
   * One thing a component's hook does with the executor: write a request
   * field, write `ec` directly, call `handle_error(code, msg)` (`msg` None is
   * the default argument), or throw an exception of its own.
   */
  datatype Step =
    | Assign(w: Write)
    | SetEc(code: ErrorCode)
    | HandleError(code: ErrorCode, msg: Option<string>)
    | Raise(exc: Exception)

  /** A hook is the sequence of executor accesses it makes; `[]` is a no-op hook. */
  type Hook = seq<Step>

  /** A launch configuration component and its three hooks. */
  datatype Component = Component(onSetup: Hook, onError: Hook, onSuccess: Hook)

  /**
   * What the `on_error_t` functor is built with: a reference bound to the
   * executor's own `ec` (after a setup error), or a copy of an error code
   * (after a launch-time failure).
   */
  datatype ErrorArg = BoundToEc | Copy(code: ErrorCode)

  /** The three hook functors of the executor. */
  datatype Visitor = SetupVisitor | ErrorVisitor(arg: ErrorArg) | SuccessVisitor

  /**
   * What a launch does, in order: each hook invocation with the index of its
   * component (an `on_error` with the error it receives, an `on_success` with
   * the executor's `ec` on entry), and the one native call with its request.
   */
  datatype Event =
    | OnSetup(index: nat)
    | OnError(index: nat, error: ErrorCode)
    | OnSuccess(index: nat, ecOnEntry: ErrorCode)
    | CreateProcess(req: Request)

  /** What the native `create_process` call did: it succeeded or not, the
      process information it wrote, and the thread's last error afterwards. */
  datatype CallResult = CallResult(succeeded: bool, info: ProcessInformation, lastError: int)

  /** A child: empty (owns nothing) or built from process information and the exit-status cell's value. */
  datatype Child = EmptyChild | Running(info: ProcessInformation, exitStatus: int)

  /** How `operator()` ends: it returns a child or an exception escapes it. */
  datatype Outcome = Returned(child: Child) | Thrown(exc: Exception)

  /** The executor's request before any component ran. */
  function DefaultRequest(win6: bool): Request {
    Request(None, None, false, if win6 then ExtendedStartupInfoPresent else 0,
            None, None, None, None)
  }
}
