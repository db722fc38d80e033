/**
 * Properties of one hook and of one `for_each` pass: which events a pass
 * produces and in what order, when a pass runs to the end, and when it
 * leaves `ec` alone.
 */
module HookProperties {
  import opened Wrappers
  import opened LaunchTypes
  import opened LaunchSemantics

  /** A step that throws: a component's own exception, or `handle_error` without an error handler. */
  predicate StepThrows(s: Step, hasErrorHandler: bool) {
    s.Raise? || (s.HandleError? && !hasErrorHandler)
  }

  /** A step that writes `ec`: a direct write, or `handle_error` with an error handler. */
  predicate StepWritesEc(s: Step, hasErrorHandler: bool) {
    s.SetEc? || (s.HandleError? && hasErrorHandler)
  }

  predicate HookThrowFree(h: Hook, hasErrorHandler: bool) {
    forall i :: 0 <= i < |h| ==> !StepThrows(h[i], hasErrorHandler)
  }

  predicate HookKeepsEc(h: Hook, hasErrorHandler: bool) {
    forall i :: 0 <= i < |h| ==> !StepWritesEc(h[i], hasErrorHandler)
  }

  /** No hook visitor `v` calls throws. */
  predicate VisitorThrowFree(v: Visitor, cs: seq<Component>, hasErrorHandler: bool) {
    forall i :: 0 <= i < |cs| ==> HookThrowFree(HookOf(v, cs[i]), hasErrorHandler)
  }

  /** No hook visitor `v` calls writes `ec`. */
  predicate VisitorKeepsEc(v: Visitor, cs: seq<Component>, hasErrorHandler: bool) {
    forall i :: 0 <= i < |cs| ==> HookKeepsEc(HookOf(v, cs[i]), hasErrorHandler)
  }

  /** Event `e` is visitor `v`'s call on component `i`. */
  predicate IsVisitEvent(v: Visitor, e: Event, i: nat) {
    match v
    case SetupVisitor => e == OnSetup(i)
    case ErrorVisitor(BoundToEc) => e.OnError? && e.index == i
    case ErrorVisitor(Copy(code)) => e == OnError(i, code)
    case SuccessVisitor => e.OnSuccess? && e.index == i
  }

  /** `on_setup` on components 0 to n - 1, in order. */
  function Setups(n: nat): (t: seq<Event>)
    ensures |t| == n && forall i :: 0 <= i < n ==> t[i] == OnSetup(i)
  {
    seq(n, i requires 0 <= i => OnSetup(i))
  }

  /** `on_error` on components 0 to n - 1, in order, each with `code`. */
  function Errors(n: nat, code: ErrorCode): (t: seq<Event>)
    ensures |t| == n && forall i :: 0 <= i < n ==> t[i] == OnError(i, code)
  {
    seq(n, i requires 0 <= i => OnError(i, code))
  }

  /** A hook whose first `n` steps never throw gets past them without an exception. */
  lemma {:induction false} HookRunsToEnd(f: Fields, h: Hook, hasErrorHandler: bool, n: nat)
    requires n <= |h| && forall i :: 0 <= i < n ==> !StepThrows(h[i], hasErrorHandler)
    ensures HookEffect(f, h, hasErrorHandler, n).exc.None?
    decreases n
  {
    if n > 0 {
      HookRunsToEnd(f, h, hasErrorHandler, n - 1);
    }
  }

  /** A hook whose steps never write `ec` leaves it as it was. */
  lemma {:induction false} HookLeavesEc(f: Fields, h: Hook, hasErrorHandler: bool, n: nat)
    requires n <= |h| && HookKeepsEc(h, hasErrorHandler)
    ensures HookEffect(f, h, hasErrorHandler, n).f.ec == f.ec
    decreases n
  {
    if n > 0 {
      HookLeavesEc(f, h, hasErrorHandler, n - 1);
    }
  }

  /**
   * A pass over the first `n` components calls the visitor on components
   * 0, 1, ... in order, each once; it reaches all `n` unless a hook throws,
   * and then the throwing hook's call is the last event.
   */
  lemma {:induction false} VisitEvents(v: Visitor, f: Fields, cs: seq<Component>, hasErrorHandler: bool, n: nat)
    requires n <= |cs|
    ensures var p := VisitEffect(v, f, cs, hasErrorHandler, n);
            && |p.trace| <= n
            && (p.exc.None? ==> |p.trace| == n)
            && (p.exc.Some? ==> |p.trace| > 0)
            && forall i :: 0 <= i < |p.trace| ==> IsVisitEvent(v, p.trace[i], i)
    decreases n
  {
    if n > 0 {
      VisitEvents(v, f, cs, hasErrorHandler, n - 1);
    }
  }

  /** The setup pass is `on_setup` on a prefix of the components, on all of them unless a hook throws. */
  lemma SetupPassEvents(f: Fields, cs: seq<Component>, hasErrorHandler: bool)
    ensures var s := ForEach(SetupVisitor, f, cs, hasErrorHandler);
            && s.trace == Setups(|s.trace|)
            && (s.exc.None? ==> s.trace == Setups(|cs|))
  {
    var s := ForEach(SetupVisitor, f, cs, hasErrorHandler);
    VisitEvents(SetupVisitor, f, cs, hasErrorHandler, |cs|);
    assert s.trace == Setups(|s.trace|);
  }

  /**
   * A pass whose hooks never write `ec` leaves `ec` as it found it, and
   * every hook observes that same value: an error visitor bound to `ec`
   * passes the setup error to every component, a success visitor finds the
   * same `ec` on entry to every hook.
   */
  lemma {:induction false} VisitLeavesEc(v: Visitor, f: Fields, cs: seq<Component>, hasErrorHandler: bool, n: nat)
    requires n <= |cs| && VisitorKeepsEc(v, cs, hasErrorHandler)
    ensures var p := VisitEffect(v, f, cs, hasErrorHandler, n);
            && p.f.ec == f.ec
            && forall i :: 0 <= i < |p.trace| ==> p.trace[i] == EventOf(v, i, f)
    decreases n
  {
    if n > 0 {
      VisitLeavesEc(v, f, cs, hasErrorHandler, n - 1);
      var p := VisitEffect(v, f, cs, hasErrorHandler, n - 1);
      HookLeavesEc(p.f, HookOf(v, cs[n - 1]), hasErrorHandler, |HookOf(v, cs[n - 1])|);
      assert EventOf(v, n - 1, p.f) == EventOf(v, n - 1, f) by {
        match v
        case ErrorVisitor(BoundToEc) =>
        case SuccessVisitor =>
        case _ =>
      }
      var r := VisitEffect(v, f, cs, hasErrorHandler, n);
      if p.exc.None? {
        VisitEvents(v, f, cs, hasErrorHandler, n - 1);
        assert r.trace == p.trace + [EventOf(v, n - 1, f)];
        forall i | 0 <= i < |r.trace| ensures r.trace[i] == EventOf(v, i, f) {
          if i < n - 1 {
            assert r.trace[i] == p.trace[i];
          }
        }
      }
    }
  }

  /**
   * Without an error handler, a hook that reports an error through
   * `handle_error` as its `k`-th access, after accesses that do not throw,
   * cuts the pass short: the exception is `system_error(code, msg)` and no
   * later component is visited.
   */
  lemma ReportedErrorEndsPass(v: Visitor, f: Fields, cs: seq<Component>, j: nat, k: nat,
                              code: ErrorCode, msg: Option<string>)
    requires j < |cs| && k < |HookOf(v, cs[j])| && HookOf(v, cs[j])[k] == HandleError(code, msg)
    requires forall i :: 0 <= i < k ==> !StepThrows(HookOf(v, cs[j])[i], false)
    requires forall i :: 0 <= i < j ==> HookThrowFree(HookOf(v, cs[i]), false)
    ensures var p := ForEach(v, f, cs, false);
            && p.exc == Some(SystemError(code, Some(MessageOf(msg))))
            && |p.trace| == j + 1
  {
    var h := HookOf(v, cs[j]);
    VisitPrefixRuns(v, f, cs, false, j);
    var q := VisitEffect(v, f, cs, false, j);
    HookRunsToEnd(q.f, h, false, k);
    HookEffectStops(q.f, h, false, k + 1, |h|);
    VisitEffectStops(v, f, cs, false, j + 1, |cs|);
  }

  /** A pass over components whose hooks never throw reaches its `n`-th component. */
  lemma {:induction false} VisitPrefixRuns(v: Visitor, f: Fields, cs: seq<Component>, hasErrorHandler: bool, n: nat)
    requires n <= |cs|
    requires forall i :: 0 <= i < n ==> HookThrowFree(HookOf(v, cs[i]), hasErrorHandler)
    ensures VisitEffect(v, f, cs, hasErrorHandler, n).exc.None?
    ensures |VisitEffect(v, f, cs, hasErrorHandler, n).trace| == n
    decreases n
  {
    if n > 0 {
      VisitPrefixRuns(v, f, cs, hasErrorHandler, n - 1);
      var p := VisitEffect(v, f, cs, hasErrorHandler, n - 1);
      HookRunsToEnd(p.f, HookOf(v, cs[n - 1]), hasErrorHandler, |HookOf(v, cs[n - 1])|);
    }
  }

  /** A pass over a non-empty sequence starts with the visitor's call on component 0, on the fields it started from. */
  lemma {:induction false} VisitPrefixOne(v: Visitor, f: Fields, cs: seq<Component>, hasErrorHandler: bool)
    requires |cs| > 0
    ensures var p := ForEach(v, f, cs, hasErrorHandler);
            |p.trace| > 0 && p.trace[0] == EventOf(v, 0, f)
  {
    VisitFirstEvent(v, f, cs, hasErrorHandler, |cs|);
  }

  lemma {:induction false} VisitFirstEvent(v: Visitor, f: Fields, cs: seq<Component>, hasErrorHandler: bool, n: nat)
    requires 0 < n <= |cs|
    ensures var p := VisitEffect(v, f, cs, hasErrorHandler, n);
            |p.trace| > 0 && p.trace[0] == EventOf(v, 0, f)
    decreases n
  {
    if n > 1 {
      VisitFirstEvent(v, f, cs, hasErrorHandler, n - 1);
    }
  }

  /** A pass whose hooks are all no-ops changes nothing and calls the visitor on every component. */
  lemma {:induction false} NoOpPass(v: Visitor, f: Fields, cs: seq<Component>, hasErrorHandler: bool, n: nat)
    requires n <= |cs| && forall i :: 0 <= i < |cs| ==> HookOf(v, cs[i]) == []
    ensures var p := VisitEffect(v, f, cs, hasErrorHandler, n);
            && p.f == f && p.exc.None? && |p.trace| == n
            && forall i :: 0 <= i < n ==> p.trace[i] == EventOf(v, i, f)
    decreases n
  {
    if n > 0 {
      NoOpPass(v, f, cs, hasErrorHandler, n - 1);
    }
  }
}
