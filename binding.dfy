/**
 * The staged initialiser that obtains the JVMTI environment: get the JavaVM,
 * get the JVMTI environment from it, ask for every potential capability,
 * add them, install the class-file-load callback and enable its event.
 * Each JNI/JVMTI call is a foreign call; its answers are an input here.
 */
module Binding {
  import opened Wrappers
  import opened Jni
  import opened Jvmti

  /** The calls the initialiser makes, in the order it makes them. */
  datatype InitCall =
    | GetJavaVM
    | GetEnv
    | GetPotentialCapabilities
    | AddCapabilities
    | SetEventCallbacks
    | SetEventNotificationMode

  const InitSequence: seq<InitCall> :=
    [GetJavaVM, GetEnv, GetPotentialCapabilities, AddCapabilities, SetEventCallbacks, SetEventNotificationMode]

  /**
   * What the runtime answers to each call: the status and the pointer that
   * GetJavaVM and GetEnv write (None for null), and the status of the two
   * capability calls. The two event calls' statuses are ignored by the agent.
   */
  datatype InitAnswers = InitAnswers(
    javaVmStatus: int, javaVm: Option<Handle>,
    envStatus: int, env: Option<Handle>,
    potentialStatus: int, addStatus: int)

  /** Whether the initialiser carries on after making call c. */
  predicate StagePasses(rt: InitAnswers, c: InitCall) {
    match c
    case GetJavaVM => rt.javaVmStatus == JNI_OK && rt.javaVm.Some?
    case GetEnv => rt.envStatus == JNI_OK && rt.env.Some?
    case GetPotentialCapabilities => rt.potentialStatus == JVMTI_ERROR_NONE
    case AddCapabilities => rt.addStatus == JVMTI_ERROR_NONE
    case SetEventCallbacks => true
    case SetEventNotificationMode => true
  }

  /** The outcome of one call of the initialiser: its result, the calls it made, the stored JVMTI handle. */
  datatype InitOutcome = InitOutcome(ok: bool, calls: seq<InitCall>, env: Option<Handle>)

  /**
   * One call of the initialiser from a stored handle. With a handle present
   * it succeeds with no calls at all. Otherwise it makes the calls of
   * InitSequence in order, stops at the first one that fails and then
   * reports false, and reports true only when every stage passed. GetEnv
   * writes the global handle whatever its status, so whatever pointer it
   * produced stays stored even when GetEnv or a later stage fails.
   */
  function Initialize(stored: Option<Handle>, rt: InitAnswers): (r: InitOutcome)
    ensures stored.Some? ==> r == InitOutcome(true, [], stored)
    ensures stored.None? ==> 0 < |r.calls| <= |InitSequence| && r.calls == InitSequence[..|r.calls|]
    ensures stored.None? ==> forall j :: 0 <= j < |r.calls| - 1 ==> StagePasses(rt, r.calls[j])
    ensures stored.None? ==> (r.ok <==> r.calls == InitSequence && StagePasses(rt, r.calls[|r.calls| - 1]))
    ensures stored.None? && !r.ok ==> !StagePasses(rt, r.calls[|r.calls| - 1])
    ensures stored.None? ==> r.env == (if 2 <= |r.calls| then rt.env else None)  // GetEnv is the second call
  {
    if stored.Some? then InitOutcome(true, [], stored)
    else if !StagePasses(rt, GetJavaVM) then InitOutcome(false, [GetJavaVM], None)
    else if !StagePasses(rt, GetEnv) then InitOutcome(false, InitSequence[..2], rt.env)
    else if !StagePasses(rt, GetPotentialCapabilities) then InitOutcome(false, InitSequence[..3], rt.env)
    else if !StagePasses(rt, AddCapabilities) then InitOutcome(false, InitSequence[..4], rt.env)
    else InitOutcome(true, InitSequence, rt.env)
  }

  /** Once a handle is stored, every later call succeeds at once, whatever the runtime would answer. */
  lemma InitializeIsSticky(stored: Option<Handle>, rt: InitAnswers, later: InitAnswers)
    requires Initialize(stored, rt).env.Some?
    ensures Initialize(Initialize(stored, rt).env, later) == InitOutcome(true, [], Initialize(stored, rt).env)
  {
  }

  /**
   * A failure after GetEnv has produced a pointer (a capability call
   * failing, or GetEnv reporting an error yet writing a pointer) returns
   * false without having installed the callback, and still makes every
   * later call return true at once, so the callback is never installed.
   */
  lemma LateFailureStillInitializes(rt: InitAnswers, later: InitAnswers)
    requires StagePasses(rt, GetJavaVM) && rt.env.Some?
    requires !StagePasses(rt, GetEnv) || !StagePasses(rt, GetPotentialCapabilities) || !StagePasses(rt, AddCapabilities)
    ensures !Initialize(None, rt).ok
    ensures SetEventCallbacks !in Initialize(None, rt).calls
    ensures Initialize(Initialize(None, rt).env, later).ok
    ensures Initialize(Initialize(None, rt).env, later).calls == []
  {
  }

  /** A failure before GetEnv leaves no handle, so the next call runs every stage again. */
  lemma EarlyFailureRetries(rt: InitAnswers, later: InitAnswers)
    requires !StagePasses(rt, GetJavaVM)
    ensures Initialize(None, rt) == InitOutcome(false, [GetJavaVM], None)
    ensures Initialize(Initialize(None, rt).env, later) == Initialize(None, later)
  {
  }
}
