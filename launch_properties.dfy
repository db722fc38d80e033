/**
 * What a whole launch attempt guarantees: setup comes first and runs on every
 * component, the native call happens at most once and only after a clean
 * setup, a child is returned only after a successful call and clean success
 * hooks, every failure runs `on_error` on every component, and the error
 * policy decides between an empty child and a thrown `system_error`.
 */
module LaunchProperties {
  import opened Wrappers
  import opened LaunchTypes
  import opened LaunchSemantics
  import opened HookProperties

  predicate ErrorHooksThrowFree(cs: seq<Component>, hasErrorHandler: bool) {
    forall i :: 0 <= i < |cs| ==> HookThrowFree(cs[i].onError, hasErrorHandler)
  }

  predicate ErrorHooksKeepEc(cs: seq<Component>, hasErrorHandler: bool) {
    forall i :: 0 <= i < |cs| ==> HookKeepsEc(cs[i].onError, hasErrorHandler)
  }

  predicate SuccessHooksThrowFree(cs: seq<Component>, hasErrorHandler: bool) {
    forall i :: 0 <= i < |cs| ==> HookThrowFree(cs[i].onSuccess, hasErrorHandler)
  }

  predicate SuccessHooksKeepEc(cs: seq<Component>, hasErrorHandler: bool) {
    forall i :: 0 <= i < |cs| ==> HookKeepsEc(cs[i].onSuccess, hasErrorHandler)
  }

  /** The child holds a process. */
  predicate ReturnsProcess(o: Outcome) {
    o.Returned? && o.child.Running?
  }

  /** `on_success` on components 0 to n - 1, in order, each finding `ec` equal to `code`. */
  function Successes(n: nat, code: ErrorCode): (t: seq<Event>)
    ensures |t| == n && forall i :: 0 <= i < n ==> t[i] == OnSuccess(i, code)
  {
    seq(n, i requires 0 <= i => OnSuccess(i, code))
  }

  /**
   * The launch-time failure path runs `on_error` with the one error value on
   * components 0, 1, ... in order, on all of them unless a hook throws; once
   * they all ran, the executor throws `system_error(lastError)` without an
   * error handler, and with one returns an empty child and leaves `ec` as the
   * hooks left it. It never returns a process.
   */
  lemma LaunchFailureEffect(f: Fields, pi: ProcessInformation, lastError: ErrorCode,
                            cs: seq<Component>, hasErrorHandler: bool)
    ensures var r := LaunchFailure(f, pi, lastError, cs, hasErrorHandler);
            var e := ForEach(ErrorVisitor(Copy(lastError)), f, cs, hasErrorHandler);
            && |r.trace| <= |cs|
            && r.trace == Errors(|r.trace|, lastError)
            && r.procInfo == pi
            && !ReturnsProcess(r.outcome)
            && (ErrorHooksThrowFree(cs, hasErrorHandler) ==> e.exc.None?)
            && (e.exc.None? ==> |r.trace| == |cs| && r.f == e.f)
            && (e.exc.None? && !hasErrorHandler ==> r.outcome == Thrown(SystemError(lastError, None)))
            && (e.exc.None? && hasErrorHandler ==> r.outcome == Returned(EmptyChild))
            && (ErrorHooksKeepEc(cs, hasErrorHandler) ==> r.f.ec == f.ec)
  {
    var v := ErrorVisitor(Copy(lastError));
    var r := LaunchFailure(f, pi, lastError, cs, hasErrorHandler);
    VisitEvents(v, f, cs, hasErrorHandler, |cs|);
    assert r.trace == Errors(|r.trace|, lastError);
    if ErrorHooksThrowFree(cs, hasErrorHandler) {
      VisitPrefixRuns(v, f, cs, hasErrorHandler, |cs|);
    }
    if ErrorHooksKeepEc(cs, hasErrorHandler) {
      VisitLeavesEc(v, f, cs, hasErrorHandler, |cs|);
    }
  }

  /**
   * From the native call on: the call is the first event, made with the
   * request setup left; what follows are `on_success` and `on_error` events
   * only. The process information is what the call wrote, whether or not
   * it succeeded.
   */
  lemma SpawnEvents(f: Fields, exitStatus: int, cs: seq<Component>,
                    hasErrorHandler: bool, call: CallResult)
    ensures var r := Spawn(f, exitStatus, cs, hasErrorHandler, call);
            && |r.trace| > 0 && r.trace[0] == CreateProcess(f.req)
            && (forall j :: 0 < j < |r.trace| ==> r.trace[j].OnSuccess? || r.trace[j].OnError?)
            && r.procInfo == call.info
  {
    var r := Spawn(f, exitStatus, cs, hasErrorHandler, call);
    if !call.succeeded {
      LaunchFailureEffect(f, call.info, LastError(call.lastError), cs, hasErrorHandler);
    } else {
      var p := ForEach(SuccessVisitor, f.(ec := Clear), cs, hasErrorHandler);
      VisitEvents(SuccessVisitor, f.(ec := Clear), cs, hasErrorHandler, |cs|);
      if p.exc.None? && IsSet(p.f.ec) {
        var e := LaunchFailure(p.f, call.info, p.f.ec, cs, hasErrorHandler);
        LaunchFailureEffect(p.f, call.info, p.f.ec, cs, hasErrorHandler);
        assert r.trace == [CreateProcess(f.req)] + p.trace + e.trace;
        forall j | 0 < j < |r.trace| ensures r.trace[j].OnSuccess? || r.trace[j].OnError? {
          if j <= |p.trace| {
            assert r.trace[j] == p.trace[j - 1];
          } else {
            assert r.trace[j] == e.trace[j - 1 - |p.trace|];
          }
        }
      }
    }
  }

  /**
   * `on_setup` runs first, once on each component in sequence order, on all
   * of them unless one throws (and then the launch ends with that
   * exception); no `on_setup` runs afterwards. The native call is made at
   * most once, only after every `on_setup` and only if `ec` is then clear,
   * with the request the setup hooks left.
   */
  lemma SetupComesFirst(f: Fields, pi: ProcessInformation, exitStatus: int, cs: seq<Component>,
                        hasErrorHandler: bool, call: CallResult)
    ensures var r := Launch(f, pi, exitStatus, cs, hasErrorHandler, call);
            var s := ForEach(SetupVisitor, f, cs, hasErrorHandler);
            && |s.trace| <= |r.trace|
            && r.trace[..|s.trace|] == Setups(|s.trace|)
            && (forall j :: |s.trace| <= j < |r.trace| ==> !r.trace[j].OnSetup?)
            && (s.exc.None? ==> |s.trace| == |cs|)
            && (s.exc.Some? ==> r.trace == Setups(|s.trace|) && r.outcome == Thrown(s.exc.value))
            && (forall j :: 0 <= j < |r.trace| && r.trace[j].CreateProcess? ==>
                  j == |cs| && r.trace[j] == CreateProcess(s.f.req) && s.exc.None? && !IsSet(s.f.ec))
  {
    var r := Launch(f, pi, exitStatus, cs, hasErrorHandler, call);
    var s := ForEach(SetupVisitor, f, cs, hasErrorHandler);
    SetupPassEvents(f, cs, hasErrorHandler);
    VisitEvents(SetupVisitor, f, cs, hasErrorHandler, |cs|);
    if s.exc.None? {
      if IsSet(s.f.ec) {
        var e := ForEach(ErrorVisitor(BoundToEc), s.f, cs, hasErrorHandler);
        VisitEvents(ErrorVisitor(BoundToEc), s.f, cs, hasErrorHandler, |cs|);
        assert r.trace == s.trace + e.trace;
        forall j | |s.trace| <= j < |r.trace|
          ensures !r.trace[j].OnSetup? && !r.trace[j].CreateProcess?
        {
          assert r.trace[j] == e.trace[j - |s.trace|];
        }
      } else {
        var t := Spawn(s.f, exitStatus, cs, hasErrorHandler, call);
        SpawnEvents(s.f, exitStatus, cs, hasErrorHandler, call);
        assert r.trace == s.trace + t.trace;
        forall j | |s.trace| <= j < |r.trace|
          ensures !r.trace[j].OnSetup?
          ensures r.trace[j].CreateProcess? ==> j == |cs| && r.trace[j] == CreateProcess(s.f.req)
        {
          assert r.trace[j] == t.trace[j - |s.trace|];
        }
      }
    }
  }

  /**
   * A setup error (`ec` set once every `on_setup` ran): `on_error` runs on
   * the components in order, each receiving the executor's `ec` as it is
   * when that hook is called; the native call is never made, no
   * `on_success` runs and the process information is untouched. Unless an
   * error hook throws, every component gets its `on_error` and an empty
   * child is returned in either policy. If no error hook writes `ec`, every
   * one of them receives the setup error itself.
   */
  lemma SetupErrorPath(f: Fields, pi: ProcessInformation, exitStatus: int, cs: seq<Component>,
                       hasErrorHandler: bool, call: CallResult)
    requires var s := ForEach(SetupVisitor, f, cs, hasErrorHandler); s.exc.None? && IsSet(s.f.ec)
    ensures var r := Launch(f, pi, exitStatus, cs, hasErrorHandler, call);
            var s := ForEach(SetupVisitor, f, cs, hasErrorHandler);
            && r.procInfo == pi
            && |cs| <= |r.trace| <= 2 * |cs|
            && (forall j :: 0 <= j < |r.trace| ==> !r.trace[j].CreateProcess? && !r.trace[j].OnSuccess?)
            && (forall j :: |cs| <= j < |r.trace| ==> r.trace[j].OnError? && r.trace[j].index == j - |cs|)
            && !ReturnsProcess(r.outcome)
            && (ErrorHooksThrowFree(cs, hasErrorHandler) ==> r.outcome == Returned(EmptyChild) && |r.trace| == 2 * |cs|)
            && (ErrorHooksKeepEc(cs, hasErrorHandler) ==>
                  r.trace[|cs|..] == Errors(|r.trace| - |cs|, s.f.ec) && r.f.ec == s.f.ec)
  {
    var r := Launch(f, pi, exitStatus, cs, hasErrorHandler, call);
    var s := ForEach(SetupVisitor, f, cs, hasErrorHandler);
    var v := ErrorVisitor(BoundToEc);
    var e := ForEach(v, s.f, cs, hasErrorHandler);
    SetupPassEvents(f, cs, hasErrorHandler);
    VisitEvents(v, s.f, cs, hasErrorHandler, |cs|);
    assert r.trace == s.trace + e.trace;
    assert r.trace[|cs|..] == e.trace;
    forall j | 0 <= j < |r.trace|
      ensures !r.trace[j].CreateProcess? && !r.trace[j].OnSuccess?
      ensures j >= |cs| ==> r.trace[j].OnError? && r.trace[j].index == j - |cs|
    {
      if j >= |cs| {
        assert r.trace[j] == e.trace[j - |cs|];
      } else {
        assert r.trace[j] == s.trace[j];
      }
    }
    if ErrorHooksThrowFree(cs, hasErrorHandler) {
      VisitPrefixRuns(v, s.f, cs, hasErrorHandler, |cs|);
    }
    if ErrorHooksKeepEc(cs, hasErrorHandler) {
      VisitLeavesEc(v, s.f, cs, hasErrorHandler, |cs|);
      assert e.trace == Errors(|e.trace|, s.f.ec);
    }
  }

  /**
   * After a clean setup the launch is Spawn on the fields setup left,
   * preceded by one `on_setup` per component.
   */
  lemma CleanSetupSpawns(f: Fields, pi: ProcessInformation, exitStatus: int, cs: seq<Component>,
                         hasErrorHandler: bool, call: CallResult)
    requires var s := ForEach(SetupVisitor, f, cs, hasErrorHandler); s.exc.None? && !IsSet(s.f.ec)
    ensures var r := Launch(f, pi, exitStatus, cs, hasErrorHandler, call);
            var s := ForEach(SetupVisitor, f, cs, hasErrorHandler);
            var t := Spawn(s.f, exitStatus, cs, hasErrorHandler, call);
            && r.trace == Setups(|cs|) + t.trace
            && r.f == t.f && r.procInfo == t.procInfo && r.outcome == t.outcome
  {
    SetupPassEvents(f, cs, hasErrorHandler);
  }

  /**
   * A successful native call: the process information is what the call
   * wrote, `ec` is cleared before the first `on_success`, and `on_success`
   * runs on the components in order right after the call. If no success
   * hook writes `ec`, every one finds it clear, and if none throws either,
   * no `on_error` runs and the child built from the call's process
   * information and the exit-status cell is returned.
   */
  lemma SuccessPath(f: Fields, exitStatus: int, cs: seq<Component>,
                    hasErrorHandler: bool, call: CallResult)
    requires call.succeeded
    ensures var r := Spawn(f, exitStatus, cs, hasErrorHandler, call);
            var p := ForEach(SuccessVisitor, f.(ec := Clear), cs, hasErrorHandler);
            && r.procInfo == call.info
            && 1 + |p.trace| <= |r.trace|
            && (var succ := r.trace[1..1 + |p.trace|];
                forall i :: 0 <= i < |succ| ==> succ[i].OnSuccess? && succ[i].index == i)
            && (|cs| > 0 ==> 1 < |r.trace| && r.trace[1] == OnSuccess(0, Clear))
            && (SuccessHooksKeepEc(cs, hasErrorHandler) ==>
                  r.trace == [CreateProcess(f.req)] + Successes(|r.trace| - 1, Clear))
            && (SuccessHooksKeepEc(cs, hasErrorHandler) && SuccessHooksThrowFree(cs, hasErrorHandler) ==>
                  r.trace == [CreateProcess(f.req)] + Successes(|cs|, Clear)
                  && r.outcome == Returned(Running(call.info, exitStatus)))
  {
    var r := Spawn(f, exitStatus, cs, hasErrorHandler, call);
    var f1 := f.(ec := Clear);
    var p := ForEach(SuccessVisitor, f1, cs, hasErrorHandler);
    VisitEvents(SuccessVisitor, f1, cs, hasErrorHandler, |cs|);
    assert r.trace[..1 + |p.trace|] == [CreateProcess(f.req)] + p.trace;
    assert r.trace[1..1 + |p.trace|] == p.trace;
    if |cs| > 0 {
      VisitPrefixOne(SuccessVisitor, f1, cs, hasErrorHandler);
    }
    if SuccessHooksKeepEc(cs, hasErrorHandler) {
      VisitLeavesEc(SuccessVisitor, f1, cs, hasErrorHandler, |cs|);
      assert r.trace == [CreateProcess(f.req)] + p.trace;
      assert p.trace == Successes(|p.trace|, Clear);
      if SuccessHooksThrowFree(cs, hasErrorHandler) {
        VisitPrefixRuns(SuccessVisitor, f1, cs, hasErrorHandler, |cs|);
      }
    }
  }

  /**
   * A failed native call: the process information is what the call wrote, no
   * `on_success` runs, and `on_error` runs on the components in order with
   * the thread's last error, on all of them unless one throws. Then, without
   * an error handler `system_error(last error)` is thrown; with one an empty
   * child is returned and, if no error hook writes `ec`, `ec` stays as setup
   * left it: the executor does not store the error itself.
   */
  lemma CallFailurePath(f: Fields, exitStatus: int, cs: seq<Component>,
                        hasErrorHandler: bool, call: CallResult)
    requires !call.succeeded
    ensures var r := Spawn(f, exitStatus, cs, hasErrorHandler, call);
            var last := LastError(call.lastError);
            var e := ForEach(ErrorVisitor(Copy(last)), f, cs, hasErrorHandler);
            && r.procInfo == call.info
            && 1 <= |r.trace| <= 1 + |cs|
            && r.trace == [CreateProcess(f.req)] + Errors(|r.trace| - 1, last)
            && (ErrorHooksThrowFree(cs, hasErrorHandler) ==> |r.trace| == 1 + |cs| && e.exc.None?)
            && (e.exc.None? && !hasErrorHandler ==> r.outcome == Thrown(SystemError(last, None)))
            && (e.exc.None? && hasErrorHandler ==> r.outcome == Returned(EmptyChild))
            && (ErrorHooksKeepEc(cs, hasErrorHandler) ==> r.f.ec == f.ec)
  {
    LaunchFailureEffect(f, call.info, LastError(call.lastError), cs, hasErrorHandler);
  }

  /**
   * A successful native call after which a success hook set `ec`: every
   * `on_success` ran, then `on_error` runs on the components in order with
   * (a copy of) that `ec`, and the policy decides as for a failed call.
   * Both kinds of hooks run in this one attempt.
   */
  lemma SuccessHookFailurePath(f: Fields, exitStatus: int, cs: seq<Component>,
                               hasErrorHandler: bool, call: CallResult)
    requires call.succeeded
    requires var p := ForEach(SuccessVisitor, f.(ec := Clear), cs, hasErrorHandler);
             p.exc.None? && IsSet(p.f.ec)
    ensures var r := Spawn(f, exitStatus, cs, hasErrorHandler, call);
            var p := ForEach(SuccessVisitor, f.(ec := Clear), cs, hasErrorHandler);
            var e := ForEach(ErrorVisitor(Copy(p.f.ec)), p.f, cs, hasErrorHandler);
            && |p.trace| == |cs|
            && 1 + |cs| <= |r.trace| <= 1 + 2 * |cs|
            && r.trace == [CreateProcess(f.req)] + p.trace + Errors(|r.trace| - 1 - |cs|, p.f.ec)
            && r.procInfo == call.info
            && !ReturnsProcess(r.outcome)
            && (ErrorHooksThrowFree(cs, hasErrorHandler) ==> |r.trace| == 1 + 2 * |cs| && e.exc.None?)
            && (e.exc.None? && !hasErrorHandler ==> r.outcome == Thrown(SystemError(p.f.ec, None)))
            && (e.exc.None? && hasErrorHandler ==> r.outcome == Returned(EmptyChild))
  {
    var p := ForEach(SuccessVisitor, f.(ec := Clear), cs, hasErrorHandler);
    VisitEvents(SuccessVisitor, f.(ec := Clear), cs, hasErrorHandler, |cs|);
    LaunchFailureEffect(p.f, call.info, p.f.ec, cs, hasErrorHandler);
  }

  /**
   * The child holding the process is returned exactly when setup threw
   * nothing and left `ec` clear, the native call succeeded, and the success
   * hooks threw nothing and left `ec` clear; it is then built from the
   * call's process information and the exit-status cell, and no `on_error`
   * ran. Every other path returns an empty child or throws.
   */
  lemma ChildReturnedIff(f: Fields, pi: ProcessInformation, exitStatus: int, cs: seq<Component>,
                         hasErrorHandler: bool, call: CallResult)
    ensures var r := Launch(f, pi, exitStatus, cs, hasErrorHandler, call);
            var s := ForEach(SetupVisitor, f, cs, hasErrorHandler);
            var p := ForEach(SuccessVisitor, s.f.(ec := Clear), cs, hasErrorHandler);
            && (ReturnsProcess(r.outcome) <==>
                  s.exc.None? && !IsSet(s.f.ec) && call.succeeded && p.exc.None? && !IsSet(p.f.ec))
            && (ReturnsProcess(r.outcome) ==>
                  r.outcome.child == Running(call.info, exitStatus)
                  && forall j :: 0 <= j < |r.trace| ==> !r.trace[j].OnError?)
  {
    var r := Launch(f, pi, exitStatus, cs, hasErrorHandler, call);
    var s := ForEach(SetupVisitor, f, cs, hasErrorHandler);
    if s.exc.None? && !IsSet(s.f.ec) {
      CleanSetupSpawns(f, pi, exitStatus, cs, hasErrorHandler, call);
      var t := Spawn(s.f, exitStatus, cs, hasErrorHandler, call);
      if call.succeeded {
        var p := ForEach(SuccessVisitor, s.f.(ec := Clear), cs, hasErrorHandler);
        if p.exc.None? && IsSet(p.f.ec) {
          LaunchFailureEffect(p.f, call.info, p.f.ec, cs, hasErrorHandler);
        } else if p.exc.None? {
          VisitEvents(SuccessVisitor, s.f.(ec := Clear), cs, hasErrorHandler, |cs|);
          SetupPassEvents(f, cs, hasErrorHandler);
          assert r.trace == Setups(|cs|) + [CreateProcess(s.f.req)] + p.trace;
          forall j | 0 <= j < |r.trace| ensures !r.trace[j].OnError? {
            if j > |cs| {
              assert r.trace[j] == p.trace[j - |cs| - 1];
            }
          }
        }
      } else {
        LaunchFailureEffect(s.f, call.info, LastError(call.lastError), cs, hasErrorHandler);
      }
    }
  }

  /** No hook of any component throws. */
  predicate HooksThrowFree(cs: seq<Component>, hasErrorHandler: bool) {
    forall i :: 0 <= i < |cs| ==>
      HookThrowFree(cs[i].onSetup, hasErrorHandler)
      && HookThrowFree(cs[i].onError, hasErrorHandler)
      && HookThrowFree(cs[i].onSuccess, hasErrorHandler)
  }

  /** Some `on_error` or `on_success` was called on component `i` after setup. */
  predicate Answered(t: seq<Event>, n: nat, i: nat) {
    exists j :: n <= j < |t| && (t[j].OnError? || t[j].OnSuccess?) && t[j].index == i
  }

  /**
   * From the native call on, when no error or success hook throws: every
   * component is offered `on_error` or `on_success`; with an error handler
   * nothing is thrown, and without one only `system_error(code)`.
   */
  lemma SpawnAnswersAll(f: Fields, exitStatus: int, cs: seq<Component>,
                        hasErrorHandler: bool, call: CallResult)
    requires ErrorHooksThrowFree(cs, hasErrorHandler) && SuccessHooksThrowFree(cs, hasErrorHandler)
    ensures var t := Spawn(f, exitStatus, cs, hasErrorHandler, call);
            && (forall i :: 0 <= i < |cs| ==> Answered(t.trace, 1, i))
            && (hasErrorHandler ==> t.outcome.Returned?)
            && (t.outcome.Thrown? ==> !hasErrorHandler && t.outcome.exc.SystemError? && t.outcome.exc.message.None?)
  {
    var t := Spawn(f, exitStatus, cs, hasErrorHandler, call);
    if call.succeeded {
      var p := ForEach(SuccessVisitor, f.(ec := Clear), cs, hasErrorHandler);
      VisitPrefixRuns(SuccessVisitor, f.(ec := Clear), cs, hasErrorHandler, |cs|);
      VisitEvents(SuccessVisitor, f.(ec := Clear), cs, hasErrorHandler, |cs|);
      if IsSet(p.f.ec) {
        SuccessHookFailurePath(f, exitStatus, cs, hasErrorHandler, call);
      }
      assert t.trace[..1 + |cs|] == [CreateProcess(f.req)] + p.trace;
      forall i | 0 <= i < |cs| ensures Answered(t.trace, 1, i) {
        assert t.trace[1 + i] == p.trace[i];
        assert IsVisitEvent(SuccessVisitor, p.trace[i], i);
      }
    } else {
      CallFailurePath(f, exitStatus, cs, hasErrorHandler, call);
      forall i | 0 <= i < |cs| ensures Answered(t.trace, 1, i) {
        assert t.trace[1 + i].OnError? && t.trace[1 + i].index == i;
      }
    }
  }

  /** Answered events after a clean setup are those of Spawn, shifted past the `on_setup` events. */
  lemma CleanSetupAnswered(f: Fields, pi: ProcessInformation, exitStatus: int, cs: seq<Component>,
                           hasErrorHandler: bool, call: CallResult)
    requires var s := ForEach(SetupVisitor, f, cs, hasErrorHandler); s.exc.None? && !IsSet(s.f.ec)
    requires ErrorHooksThrowFree(cs, hasErrorHandler) && SuccessHooksThrowFree(cs, hasErrorHandler)
    ensures var r := Launch(f, pi, exitStatus, cs, hasErrorHandler, call);
            var s := ForEach(SetupVisitor, f, cs, hasErrorHandler);
            && |cs| < |r.trace| && r.trace[|cs|] == CreateProcess(s.f.req)
            && (forall i :: 0 <= i < |cs| ==> Answered(r.trace, |cs|, i))
            && (hasErrorHandler ==> r.outcome.Returned?)
            && (r.outcome.Thrown? ==> !hasErrorHandler && r.outcome.exc.SystemError? && r.outcome.exc.message.None?)
  {
    var s := ForEach(SetupVisitor, f, cs, hasErrorHandler);
    var t := Spawn(s.f, exitStatus, cs, hasErrorHandler, call);
    var r := Launch(f, pi, exitStatus, cs, hasErrorHandler, call);
    CleanSetupSpawns(f, pi, exitStatus, cs, hasErrorHandler, call);
    SpawnAnswersAll(s.f, exitStatus, cs, hasErrorHandler, call);
    SpawnEvents(s.f, exitStatus, cs, hasErrorHandler, call);
    assert r.trace[|cs|] == t.trace[0];
    forall i | 0 <= i < |cs| ensures Answered(r.trace, |cs|, i) {
      assert Answered(t.trace, 1, i);
      var j :| 1 <= j < |t.trace| && (t.trace[j].OnError? || t.trace[j].OnSuccess?) && t.trace[j].index == i;
      assert r.trace[|cs| + j] == t.trace[j];
    }
  }

  /**
   * When no hook throws, every component that ran `on_setup` is afterwards
   * offered `on_error` or `on_success`; with an error handler the launch
   * never throws, and without one the only exception is the executor's own
   * `system_error(code)`, thrown after the native call failed or a success
   * hook set `ec`.
   */
  lemma EveryComponentAnswered(f: Fields, pi: ProcessInformation, exitStatus: int, cs: seq<Component>,
                               hasErrorHandler: bool, call: CallResult)
    requires HooksThrowFree(cs, hasErrorHandler)
    ensures var r := Launch(f, pi, exitStatus, cs, hasErrorHandler, call);
            && |cs| <= |r.trace| && r.trace[..|cs|] == Setups(|cs|)
            && (forall i :: 0 <= i < |cs| ==> Answered(r.trace, |cs|, i))
            && (hasErrorHandler ==> r.outcome.Returned?)
            && (r.outcome.Thrown? ==>
                  !hasErrorHandler && r.outcome.exc.SystemError? && r.outcome.exc.message.None?
                  && |cs| < |r.trace| && r.trace[|cs|] == CreateProcess(ForEach(SetupVisitor, f, cs, hasErrorHandler).f.req))
  {
    var r := Launch(f, pi, exitStatus, cs, hasErrorHandler, call);
    var s := ForEach(SetupVisitor, f, cs, hasErrorHandler);
    VisitPrefixRuns(SetupVisitor, f, cs, hasErrorHandler, |cs|);
    SetupComesFirst(f, pi, exitStatus, cs, hasErrorHandler, call);
    if IsSet(s.f.ec) {
      SetupErrorPath(f, pi, exitStatus, cs, hasErrorHandler, call);
      forall i | 0 <= i < |cs| ensures Answered(r.trace, |cs|, i) {
        assert r.trace[|cs| + i].OnError? && r.trace[|cs| + i].index == i;
      }
    } else {
      CleanSetupAnswered(f, pi, exitStatus, cs, hasErrorHandler, call);
    }
  }

  /**
   * Without an error handler, a component whose `on_setup` reports an error
   * through `handle_error`, after accesses that do not throw, makes the
   * launch throw `system_error(code, msg)` from inside that hook: the later
   * setup hooks, every `on_error` and the native call are skipped.
   */
  lemma SetupReportThrows(f: Fields, pi: ProcessInformation, exitStatus: int, cs: seq<Component>,
                          call: CallResult, j: nat, k: nat, code: ErrorCode, msg: Option<string>)
    requires j < |cs| && k < |cs[j].onSetup| && cs[j].onSetup[k] == HandleError(code, msg)
    requires forall i :: 0 <= i < k ==> !StepThrows(cs[j].onSetup[i], false)
    requires forall i :: 0 <= i < j ==> HookThrowFree(cs[i].onSetup, false)
    ensures var r := Launch(f, pi, exitStatus, cs, false, call);
            && r.outcome == Thrown(SystemError(code, Some(MessageOf(msg))))
            && r.trace == Setups(j + 1)
            && r.procInfo == pi
  {
    ReportedErrorEndsPass(SetupVisitor, f, cs, j, k, code, msg);
    SetupComesFirst(f, pi, exitStatus, cs, false, call);
  }
}
