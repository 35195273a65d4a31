/**
 * `executeOnBeforeRenderHooks`: the isomorphic `onBeforeRender()` hook may
 * call the two capabilities `skipOnBeforeRenderServerHooks()` and
 * `runOnBeforeRenderServerHooks()`, which share two flags.
 */
module BeforeRender {
  import opened Wrappers
  import opened Errors
  import opened JsValues

  /** What a hook adds to `pageContext` (an object merged into it). */
  type Addendum = JsValue

  datatype CapabilityCall = CallSkip | CallRun

  /** The isomorphic hook: the capability calls it makes, in order, and then
      what it returns or throws. An error raised by a capability leaves the
      hook, which is assumed not to catch it. */
  datatype IsomorphicHook = IsomorphicHook(calls: seq<CapabilityCall>, ending: Completion<Addendum>)

  /** What `executeOnBeforeRenderHooks` meets for one page. `serverHooks` is
      what running the server hooks yields; `serverHooksCheck` stands for
      `assertUsageServerHooksCalled`, given whether the server hooks ran. */
  datatype BeforeRenderSetup = BeforeRenderSetup(
    isomorphicHook: IsomorphicHook,
    serverHooks: Completion<Addendum>,
    serverHooksCheck: bool -> bool)

  const SKIP_AFTER_RUN: string := "cannot call `skipOnBeforeRenderServerHooks()` after `runOnBeforeRenderServerHooks()`"
  const RUN_AFTER_SKIP: string := "cannot call `runOnBeforeRenderServerHooks()` after `skipOnBeforeRenderServerHooks()`"
  const RUN_TWICE: string := "cannot call `runOnBeforeRenderServerHooks()` a second time"
  const SERVER_HOOKS_CHECK: string := "server `onBeforeRender()` hooks not called as required"

  /** The closure flags `serverHooksCalled` and `skipServerHooks`. */
  datatype Flags = Flags(serverHooksCalled: bool, skipServerHooks: bool)

  /** One capability call on the flags. */
  function Step(flags: Flags, call: CapabilityCall, serverHooks: Completion<Addendum>): (r: Outcome<Flags>)
  {
    match call
    case CallSkip =>
      if flags.serverHooksCalled then Raises(NewError(UsageError(SKIP_AFTER_RUN)))
      else Returns(flags.(skipServerHooks := true))
    case CallRun =>
      if flags.skipServerHooks then Raises(NewError(UsageError(RUN_AFTER_SKIP)))
      else if flags.serverHooksCalled then Raises(NewError(UsageError(RUN_TWICE)))
      else if serverHooks.Threw? then Raises(Rethrow(serverHooks.thrown))
      else Returns(flags.(serverHooksCalled := true))
  }

  /** The calls in order from fresh flags; the first error stops them. */
  function RunCalls(calls: seq<CapabilityCall>, serverHooks: Completion<Addendum>): Outcome<Flags> {
    if calls == [] then Returns(Flags(false, false))
    else
      match RunCalls(calls[..|calls| - 1], serverHooks)
      case Raises(e) => Raises(e)
      case Returns(flags) => Step(flags, calls[|calls| - 1], serverHooks)
  }

  /** The protocol: no `run` after `skip`, no `skip` after `run`, no second `run`. */
  predicate ProtocolRespected(calls: seq<CapabilityCall>) {
    (forall i, j :: 0 <= i < j < |calls| && calls[i] == CallSkip ==> calls[j] != CallRun) &&
    (forall i, j :: 0 <= i < j < |calls| && calls[i] == CallRun ==> calls[j] != CallSkip) &&
    (forall i, j :: 0 <= i < j < |calls| && calls[i] == CallRun ==> calls[j] != CallRun)
  }

  /** Appending a call keeps the protocol exactly when the earlier calls
      kept it and the new call is allowed after them. */
  lemma RespectedSnoc(pre: seq<CapabilityCall>, last: CapabilityCall)
    ensures ProtocolRespected(pre + [last]) <==>
      ProtocolRespected(pre) &&
      (last == CallSkip ==> CallRun !in pre) &&
      (last == CallRun ==> CallRun !in pre && CallSkip !in pre)
  {
    var calls := pre + [last];
    assert forall i :: 0 <= i < |pre| ==> calls[i] == pre[i];
    assert calls[|pre|] == last;
  }

  /** The calls go through exactly when they respect the protocol (with
      server hooks that do not throw); the flags then record which
      capabilities were used. Calling `skip` twice is allowed. */
  lemma {:induction false} ProtocolErrors(calls: seq<CapabilityCall>, serverHooks: Completion<Addendum>)
    requires serverHooks.Normal?
    ensures RunCalls(calls, serverHooks).Returns? <==> ProtocolRespected(calls)
    ensures RunCalls(calls, serverHooks).Returns? ==>
      RunCalls(calls, serverHooks).value == Flags(CallRun in calls, CallSkip in calls)
  {
    if calls != [] {
      var n := |calls|;
      var pre := calls[..n - 1];
      var last := calls[n - 1];
      ProtocolErrors(pre, serverHooks);
      assert calls == pre + [last];
      RespectedSnoc(pre, last);
    }
  }

  /** `executeOnBeforeRenderHooks(pageContext)` as a value: nothing when the
      prerender hook already provided `pageContext`; the isomorphic hook with
      the capabilities when one exists and this is not a data request; else
      the server hooks directly. */
  function OnBeforeRenderSpec(alreadyProvided: bool, isPageContextRequest: bool, isomorphicHooksExist: bool, setup: BeforeRenderSetup)
    : (r: Outcome<Option<Addendum>>)
    ensures alreadyProvided ==> r == Returns(None)
    ensures !alreadyProvided && (!isomorphicHooksExist || isPageContextRequest) ==>
      r == match setup.serverHooks
           case Normal(a) => Returns(Some(a))
           case Threw(t) => Raises(Rethrow(t))
  {
    if alreadyProvided then Returns(None)
    else if isomorphicHooksExist && !isPageContextRequest then
      match RunCalls(setup.isomorphicHook.calls, setup.serverHooks)
      case Raises(e) => Raises(e)
      case Returns(flags) =>
        match setup.isomorphicHook.ending
        case Threw(t) => Raises(Rethrow(t))
        case Normal(addendum) =>
          if !setup.serverHooksCheck(flags.serverHooksCalled) then Raises(NewError(UsageError(SERVER_HOOKS_CHECK)))
          else Returns(Some(addendum))
    else
      match setup.serverHooks
      case Normal(a) => Returns(Some(a))
      case Threw(t) => Raises(Rethrow(t))
  }

  /** With an isomorphic hook that breaks the protocol, the request fails
      with the capability's usage error. */
  lemma ProtocolViolationFails(setup: BeforeRenderSetup)
    requires setup.serverHooks.Normal?
    requires !ProtocolRespected(setup.isomorphicHook.calls)
    ensures var r := OnBeforeRenderSpec(false, false, true, setup);
      r.Raises? && r.error in {NewError(UsageError(SKIP_AFTER_RUN)), NewError(UsageError(RUN_AFTER_SKIP)), NewError(UsageError(RUN_TWICE))}
  {
    ProtocolErrors(setup.isomorphicHook.calls, setup.serverHooks);
    CapabilityErrorsAreUsageErrors(setup.isomorphicHook.calls, setup.serverHooks);
  }

  /** With server hooks that do not throw, every failure of the calls is one of the three usage errors. */
  lemma {:induction false} CapabilityErrorsAreUsageErrors(calls: seq<CapabilityCall>, serverHooks: Completion<Addendum>)
    requires serverHooks.Normal?
    ensures RunCalls(calls, serverHooks).Raises? ==>
      RunCalls(calls, serverHooks).error in {NewError(UsageError(SKIP_AFTER_RUN)), NewError(UsageError(RUN_AFTER_SKIP)), NewError(UsageError(RUN_TWICE))}
  {
    if calls != [] {
      CapabilityErrorsAreUsageErrors(calls[..|calls| - 1], serverHooks);
    }
  }

  /** The two capabilities over the shared flags. */
  class Capabilities {
    var serverHooksCalled: bool
    var skipServerHooks: bool

    constructor ()
      ensures !serverHooksCalled && !skipServerHooks
    {
      serverHooksCalled := false;
      skipServerHooks := false;
    }

    function State(): Flags
      reads this
    {
      Flags(serverHooksCalled, skipServerHooks)
    }

    /** `skipOnBeforeRenderServerHooks()` */
    method Skip() returns (r: Outcome<()>)
      modifies this
      ensures old(serverHooksCalled) ==> r == Raises(NewError(UsageError(SKIP_AFTER_RUN))) && State() == old(State())
      ensures !old(serverHooksCalled) ==> r == Returns(()) && State() == old(State()).(skipServerHooks := true)
    {
      if serverHooksCalled {
        return Raises(NewError(UsageError(SKIP_AFTER_RUN)));
      }
      skipServerHooks := true;
      r := Returns(());
    }

    /** `runOnBeforeRenderServerHooks()`: the server hooks' result. */
    method Run(serverHooks: Completion<Addendum>) returns (r: Outcome<Addendum>)
      modifies this
      ensures old(skipServerHooks) ==> r == Raises(NewError(UsageError(RUN_AFTER_SKIP))) && State() == old(State())
      ensures !old(skipServerHooks) && old(serverHooksCalled) ==>
        r == Raises(NewError(UsageError(RUN_TWICE))) && State() == old(State())
      ensures !old(skipServerHooks) && !old(serverHooksCalled) ==>
        State() == old(State()).(serverHooksCalled := true) &&
        r == match serverHooks
             case Normal(a) => Returns(a)
             case Threw(t) => Raises(Rethrow(t))
    {
      if skipServerHooks {
        return Raises(NewError(UsageError(RUN_AFTER_SKIP)));
      }
      if serverHooksCalled {
        return Raises(NewError(UsageError(RUN_TWICE)));
      }
      serverHooksCalled := true;
      r := match serverHooks
           case Normal(a) => Returns(a)
           case Threw(t) => Raises(Rethrow(t));
    }
  }

  /** A failure on a prefix of the calls is the failure of all of them. */
  lemma {:induction false} FailureSticks(calls: seq<CapabilityCall>, k: nat, serverHooks: Completion<Addendum>)
    requires k <= |calls| && RunCalls(calls[..k], serverHooks).Raises?
    ensures RunCalls(calls, serverHooks) == RunCalls(calls[..k], serverHooks)
    decreases |calls| - k
  {
    if k < |calls| {
      assert calls[..k + 1][..k] == calls[..k];
      FailureSticks(calls, k + 1, serverHooks);
    } else {
      assert calls[..k] == calls;
    }
  }

  /** `executeOnBeforeRenderHooks(pageContext)`: the isomorphic hook's
      capability calls go to a fresh pair of flags. */
  method ExecuteOnBeforeRenderHooks(alreadyProvided: bool, isPageContextRequest: bool, isomorphicHooksExist: bool,
                                    setup: BeforeRenderSetup)
    returns (r: Outcome<Option<Addendum>>)
    ensures r == OnBeforeRenderSpec(alreadyProvided, isPageContextRequest, isomorphicHooksExist, setup)
  {
    if alreadyProvided {
      return Returns(None);
    }
    var caps := new Capabilities();
    if isomorphicHooksExist && !isPageContextRequest {
      var calls := setup.isomorphicHook.calls;
      for i := 0 to |calls|
        invariant RunCalls(calls[..i], setup.serverHooks) == Returns(caps.State())
      {
        assert calls[..i + 1][..i] == calls[..i];
        var step: Outcome<()>;
        if calls[i] == CallSkip {
          step := caps.Skip();
        } else {
          var ran := caps.Run(setup.serverHooks);
          step := if ran.Raises? then Raises(ran.error) else Returns(());
        }
        if step.Raises? {
          FailureSticks(calls, i + 1, setup.serverHooks);
          return Raises(step.error);
        }
      }
      assert calls[..|calls|] == calls;
      match setup.isomorphicHook.ending
      case Threw(t) =>
        return Raises(Rethrow(t));
      case Normal(addendum) =>
        if !setup.serverHooksCheck(caps.serverHooksCalled) {
          return Raises(NewError(UsageError(SERVER_HOOKS_CHECK)));
        }
        return Returns(Some(addendum));
    } else {
      var ran := caps.Run(setup.serverHooks);
      r := if ran.Raises? then Raises(ran.error) else Returns(Some(ran.value));
    }
  }
}
