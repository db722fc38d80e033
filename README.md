# Boost.Process Windows launch executor, in Dafny

This project models `executor<Sequence>` from Boost.Process's Windows back end
(`include/boost/process/detail/windows/executor.hpp`). The executor launches one
child process by driving a fixed, ordered sequence of configuration components
through three hook phases around one native `create_process` call:

1. `on_setup` on every component, in sequence order. Each hook may fill in the
   launch request (`exe`, `cmd_line`, `work_dir`, `env`, the security
   attributes, `inherit_handles`, `creation_flags`) or set the error slot `ec`.
2. If `ec` is set after setup, `on_error` runs on every component and an empty
   `child` is returned, unless an error hook throws. This happens under both
   error policies.
3. Otherwise `create_process` is called exactly once. A child is built from the
   process information and the shared exit-status cell. If the call succeeded,
   `ec` is cleared and `on_success` runs on every component.
4. If the call failed, or a success hook set `ec`, `on_error` runs on every
   component with that error (`get_last_error()` or the copied `ec`). Then
   `internal_throw` throws `system_error` when the sequence has no error
   handler, and does nothing when it has one. An empty child is returned.

The error policy (`has_error_handler`) is fixed by the sequence's type. It also
decides `handle_error`: with a handler, the code is stored in `ec`; without
one, `system_error(code, msg)` is thrown from inside the calling hook.

## How it is modelled

- `launch_types.dfy` (`LaunchTypes`): the values. These are error codes with
  their categories, the launch request, process information, the steps a hook
  performs, components, the events of a launch, and the outcome. An outcome is
  either `Returned(child)` or `Thrown(exception)`.
- `launch_semantics.dfy` (`LaunchSemantics`): what a launch does, as pure
  functions. `StepEffect` covers one executor access by a hook. `HookEffect` and
  `VisitEffect` cover one hook and one `for_each` pass. `Spawn` covers the code
  from the native call on, and `Launch` covers all of `operator()`.
- `executor.dfy` (`WindowsExecutor`): the class `Executor`, with the source's
  fields. A ghost `trace` records every hook call and the native call. `Run`
  (`operator()`), `Spawn`, `FailLaunch`, `ForEach` (`fusion::for_each`),
  `InvokeHook`, `Perform` and `HandleError` are each proved equal to the
  matching function. `InternalThrow` states its effect directly. The
  constructor and `MakeExecutor` fix the field defaults.
- `hook_properties.dfy` and `launch_properties.dfy`: lemmas about the
  functions above.
- `launch_scenarios.dfy`: client methods that follow the executor's contracts
  through concrete launches, such as two setup-only loggers, a missing working
  directory without a handler, and a setup error with and without a handler.

A component is modelled as three scripts of executor accesses (`Step`). A step
can write a request field, write `ec`, call `handle_error(code, msg)`, or throw
an exception of the component's own. An exception that escapes a hook ends
`operator()` at once. The native call is an oracle parameter (`CallResult`). It
gives the success flag, the process information it wrote, and the thread's last
error. The call receives `&proc_info` whether or not it succeeds, so the
executor's process information is the oracle's after every call.

Two behaviours of the code are easy to misread; the model follows the code:

- After a setup error the executor itself does not throw, even without an
  error handler: once every `on_error` has run, it returns an empty child. An
  error hook can still throw, for instance by calling `handle_error` without a
  handler. Without a handler, a setup error escapes only when a component
  reports it through `handle_error`. That throws inside `on_setup` itself,
  skips the remaining setup hooks, and runs no `on_error`
  (`SetupReportThrows`).
- After a setup error, `on_error_t` holds a reference to the executor's own
  `ec`. Each error hook therefore receives `ec` as it is when that hook is
  called. After a launch failure, the hooks receive a copy. Every error hook
  sees the setup error itself only if none of them writes `ec`
  (`SetupErrorPath`).
- With an error handler, a failed launch does not store the error in `ec`. Only
  the hooks do (`CallFailurePath`).
- The child is built from `proc_info` right after the native call, before any
  success hook runs.

## Model

| member | source | states |
|---|---|---|
| WindowsExecutor.Executor.constructor | include/boost/process/detail/windows/executor.hpp:213-226 | a fresh executor has null `proc_attrs`, `thread_attrs`, `work_dir`, `cmd_line`, `exe`, `env`; `inherit_handles` false; `ec` clear; null process information; exit status STILL_ACTIVE; creation flags EXTENDED_STARTUPINFO_PRESENT on Windows 6+ and 0 otherwise |
| WindowsExecutor.MakeExecutor | include/boost/process/detail/windows/executor.hpp:232-236 | `make_executor` yields a fresh executor over the sequence with those defaults |
| WindowsExecutor.Executor.HandleError | include/boost/process/detail/windows/executor.hpp:208-211 | with an error handler it stores the code in `ec` and returns; without one it throws `system_error(code, msg)` ("Unknown Error." by default) and leaves `ec` alone; the effect is HandleErrorEffect's |
| WindowsExecutor.Executor.InternalThrow | include/boost/process/detail/windows/executor.hpp:127-128 | throws `system_error(code)` exactly when there is no error handler |
| WindowsExecutor.Executor.Assign | include/boost/process/detail/windows/executor.hpp:213-219 | a component's write of one request field changes that field only |
| WindowsExecutor.Executor.Perform | include/boost/process/detail/windows/executor.hpp:136-137 | one access of a hook to the executor has the effect StepEffect gives, and leaves the process information alone |
| WindowsExecutor.Executor.InvokeHook | include/boost/process/detail/windows/executor.hpp:132-155 | a hook runs its accesses in order until one throws; the result is RunHook's |
| WindowsExecutor.Executor.ForEach | include/boost/process/detail/windows/executor.hpp:160-166 | `for_each` calls the visitor on every component in order, records each call, and stops at the first exception; the result is ForEach's |
| WindowsExecutor.Executor.FailLaunch | include/boost/process/detail/windows/executor.hpp:194-201 | the launch-failure tail: error hooks with a copy of the error, then `internal_throw`, then an empty child |
| WindowsExecutor.Executor.Spawn | include/boost/process/detail/windows/executor.hpp:173-204 | from the native call on, the new fields, process information, events and outcome are Spawn's |
| WindowsExecutor.Executor.Run | include/boost/process/detail/windows/executor.hpp:158-206 | `operator()` leaves the fields, process information, events and outcome Launch gives |
| LaunchSemantics.HookEffectStops | include/boost/process/detail/windows/executor.hpp:137 | once a hook has thrown, none of its later accesses happens |
| LaunchSemantics.VisitEffectStops | include/boost/process/detail/windows/executor.hpp:161 | once a hook has thrown, no later component is visited in that pass |
| HookProperties.VisitEvents | include/boost/process/detail/windows/executor.hpp:161 | a pass calls the visitor on components 0, 1, ... in order, each once; it reaches all of them unless a hook throws |
| HookProperties.SetupPassEvents | include/boost/process/detail/windows/executor.hpp:160-161 | the setup pass is exactly `on_setup(0)`, `on_setup(1)`, ..., over all components when nothing throws |
| HookProperties.VisitPrefixRuns | include/boost/process/detail/windows/executor.hpp:161 | if the hooks of the first n components never throw, the pass reaches component n |
| HookProperties.VisitLeavesEc | include/boost/process/detail/windows/executor.hpp:163-166 | if no hook of a pass writes `ec`, `ec` is unchanged and every hook receives (or finds) the `ec` the pass started with |
| HookProperties.ReportedErrorEndsPass | include/boost/process/detail/windows/executor.hpp:122-125 | without an error handler, a hook calling `handle_error` at any point after accesses that do not throw throws `system_error(code, msg)` and ends the pass at that component |
| HookProperties.NoOpPass | include/boost/process/detail/windows/executor.hpp:132-155 | a pass over no-op hooks changes nothing and records one call per component in order |
| LaunchProperties.SetupComesFirst | include/boost/process/detail/windows/executor.hpp:160-183 | `on_setup` runs first, once per component in order, and never again; the native call happens at most once, right after every `on_setup`, only when `ec` is clear, and with the request setup left |
| LaunchProperties.SetupErrorPath | include/boost/process/detail/windows/executor.hpp:163-168 | after a setup error there is no native call and no `on_success`, the process information is untouched, and `on_error` runs on the components in order; unless an error hook throws, all of them run and an empty child is returned under either policy; they all receive the setup error when none writes `ec` |
| LaunchProperties.CleanSetupSpawns | include/boost/process/detail/windows/executor.hpp:163-173 | after a clean setup, the launch is Spawn on the fields setup left, preceded by the `on_setup` events |
| LaunchProperties.SpawnEvents | include/boost/process/detail/windows/executor.hpp:173-199 | the native call comes first and only hook events follow; the process information is what the call wrote, whether or not it succeeded |
| LaunchProperties.SuccessPath | include/boost/process/detail/windows/executor.hpp:185-192 | on a successful call `ec` is cleared before the first `on_success`, and `on_success` runs in order right after the call; with clean, non-throwing success hooks the child built from the call's process information is returned and no `on_error` runs |
| LaunchProperties.CallFailurePath | include/boost/process/detail/windows/executor.hpp:194-201 | when the call failed, the process information is what the call wrote, `on_error` runs in order with `get_last_error()` and no `on_success` runs; then `system_error(last error)` is thrown without a handler, or an empty child is returned with one, and the executor leaves `ec` as the hooks left it |
| LaunchProperties.SuccessHookFailurePath | include/boost/process/detail/windows/executor.hpp:187-201 | when a success hook set `ec`, every `on_success` ran and then `on_error` runs in order with that `ec`, under the same policy |
| LaunchProperties.LaunchFailureEffect | include/boost/process/detail/windows/executor.hpp:196-201 | the failure tail runs `on_error` with one error value on a prefix of the components, on all of them unless one throws, never returns a process, and resolves by policy |
| LaunchProperties.ChildReturnedIff | include/boost/process/detail/windows/executor.hpp:185-204 | the process-holding child is returned if and only if setup was clean, the call succeeded and the success hooks were clean; it then carries the call's process information and the exit-status cell, and no `on_error` ran |
| LaunchProperties.SpawnAnswersAll | include/boost/process/detail/windows/executor.hpp:187-204 | after the call, when no hook throws, every component is offered `on_success` or `on_error`; only `system_error(code)` without a handler can escape |
| LaunchProperties.CleanSetupAnswered | include/boost/process/detail/windows/executor.hpp:173-204 | the same after a clean setup, for the whole launch |
| LaunchProperties.EveryComponentAnswered | include/boost/process/detail/windows/executor.hpp:158-206 | when no hook throws, every component that ran `on_setup` is then offered `on_error` or `on_success`; with an error handler nothing is thrown; without one only `system_error(code)` is thrown, and only after the native call |
| LaunchProperties.SetupReportThrows | include/boost/process/detail/windows/executor.hpp:158-168 | without an error handler, `handle_error` anywhere in an `on_setup`, after accesses that do not throw, throws from that hook: later setup hooks, every `on_error` and the native call are skipped |

## Left out

- The Win32 `create_process` call and its argument marshalling are an oracle (`CallResult`): a foreign OS call.
- The `STARTUPINFO`/`STARTUPINFOEX` layouts and the char/wchar_t selectors are platform data layout. Only the default `creation_flags` is kept. Hooks cannot write `startup_info` or `proc_info` in this model.
- The exit-status cell is a `shared_ptr<atomic<int>>` in the source. Here it is an integer that holds STILL_ACTIVE; the sharing, the atomics and the waiter are concurrency.
- `has_error_handler` (defined in traits.hpp, which is not part of this model) is a `bool`. `boost::fusion::for_each` over a heterogeneous tuple is a loop over a `seq`.
- `child`/`child_handle` ownership and the closing of handles when the unused child is destroyed: child.hpp is not part of this model.
- Concrete components are not modelled; a component is any script of executor accesses.
- `create_process`'s `int` result is only its success flag; a hook cannot change `err_code`.
