/**
 * The native side of org.example.Native: the process-wide state of the
 * agent and its four operations, the class-file-load hook the runtime
 * calls, the lazy JVMTI initialiser, and the two batch entry points.
 */
module Native {
  import opened Wrappers
  import opened Jni
  import opened Binding
  import opened PatchBatch
  import ClassNames

  /**
   * The agent's global state: the patch registry (classBytecodeMap), the
   * JVMTI environment (global_jvm_ti, None for null), and whether
   * SetEventCallbacks and SetEventNotificationMode have been called for the
   * class-file-load hook (their statuses are never read).
   */
  class Agent {
    var registry: map<string, JBytes>
    var jvmTi: Option<Handle>
    var hookInstalled: bool

    /** The state at load time: an empty registry and no JVMTI environment. */
    constructor ()
      ensures registry == map[] && jvmTi == None && !hookInstalled
    {
      registry, jvmTi, hookInstalled := map[], None, false;
    }

    /**
     * classFileLoadHook: the runtime offers the internal name of a class it
     * is about to load. On a hit the agent answers with a copy of the stored
     * patch and its length; on a miss with a null buffer and length 0, which
     * leaves the runtime's own bytes in place. The registry is only read.
     */
    method ClassFileLoadHook(name: string) returns (newClassData: Option<seq<bv8>>, newClassDataLen: int)
      ensures name in registry ==> newClassData == Some(registry[name]) && newClassDataLen == |registry[name]|
      ensures name !in registry ==> newClassData == None && newClassDataLen == 0
    {
      if name in registry {
        var data := registry[name];
        newClassData := Some(data);
        newClassDataLen := ToJint(|data|);
      } else {
        newClassData := None;
        newClassDataLen := 0;
      }
    }

    /**
     * ensureJvmTi: returns at once when an environment is stored; otherwise
     * makes the initialisation calls in order and stops at the first that
     * fails. GetEnv writes the global pointer before its result is checked.
     */
    method EnsureJvmTi(rt: InitAnswers) returns (ok: bool, calls: seq<InitCall>)
      modifies this
      ensures ok == Initialize(old(jvmTi), rt).ok
      ensures calls == Initialize(old(jvmTi), rt).calls
      ensures jvmTi == Initialize(old(jvmTi), rt).env
      ensures hookInstalled == (old(hookInstalled) || (old(jvmTi).None? && ok))
      ensures registry == old(registry)
    {
      if jvmTi.Some? {
        return true, [];
      }
      calls := [GetJavaVM];
      if rt.javaVmStatus != JNI_OK || rt.javaVm.None? {
        return false, calls;
      }
      calls := calls + [GetEnv];
      jvmTi := rt.env;
      if rt.envStatus != JNI_OK || jvmTi.None? {
        return false, calls;
      }
      calls := calls + [GetPotentialCapabilities];
      if rt.potentialStatus != Jvmti.JVMTI_ERROR_NONE {
        return false, calls;
      }
      calls := calls + [AddCapabilities];
      if rt.addStatus != Jvmti.JVMTI_ERROR_NONE {
        return false, calls;
      }
      calls := calls + [SetEventCallbacks, SetEventNotificationMode];
      hookInstalled := true;
      ok := true;
    }

    /**
     * retransformClass: when no environment is stored yet, one is obtained
     * and the hook installed without checking any status (env is the
     * pointer GetEnv writes). A batch whose lengths differ is rejected
     * before the registry is touched. Otherwise the registry is cleared and
     * refilled from the batch, and the collected class references are what
     * the single RetransformClasses call receives (Some(list)).
     */
    method RetransformClass(classes: seq<Option<ClassObject>>, arrays: seq<Option<ByteArray>>, env: Handle)
      returns (retransformed: Option<seq<Handle>>)
      modifies this
      ensures jvmTi == if old(jvmTi).Some? then old(jvmTi) else Some(env)
      ensures hookInstalled == (old(hookInstalled) || old(jvmTi).None?)
      ensures |classes| != |arrays| ==> registry == old(registry) && retransformed == None
      ensures |classes| == |arrays| ==> registry == BatchPatches(classes, arrays)
      ensures |classes| == |arrays| ==> retransformed == Some(TargetsUpTo(classes, arrays, |classes|))
    {
      if jvmTi.None? {
        jvmTi := Some(env);
        hookInstalled := true;
      }
      if |classes| != |arrays| {
        return None;
      }
      registry := map[];
      var toRetransform;
      registry, toRetransform := InsertBatch(registry, classes, arrays);
      assert map[] + BatchPatches(classes, arrays) == BatchPatches(classes, arrays);
      retransformed := Some(toRetransform);
    }

    /**
     * A patch registered by retransformClass is what the load hook serves:
     * after a batch in which pair i is the last registrable pair with its
     * class's key, loading that class yields exactly pair i's bytes.
     */
    method RetransformThenLoad(classes: seq<Option<ClassObject>>, arrays: seq<Option<ByteArray>>, env: Handle, i: int)
      returns (served: Option<seq<bv8>>, servedLen: int)
      modifies this
      requires |classes| == |arrays| && 0 <= i < |classes| && classes[i].Some?
      requires LastWriter(classes, arrays, |classes|, i, PatchKey(classes[i].value))
      ensures served == Some(arrays[i].value.contents) && servedLen == |arrays[i].value.contents|
    {
      var _ := RetransformClass(classes, arrays, env);
      PatchesLastWriterWins(classes, arrays, |classes|, i, PatchKey(classes[i].value));
      served, servedLen := ClassFileLoadHook(PatchKey(classes[i].value));
    }

    /**
     * redefineClass: runs ensureJvmTi first and gives up when it fails, then
     * rejects a batch whose lengths differ. Otherwise it submits one
     * definition record per index in a single RedefineClasses call
     * (Some(records)) and afterwards, whatever that call returns, releases
     * the byte buffer of exactly the indices it holds a pointer for, each
     * once, in index order. The registry is never read or written.
     */
    method RedefineClass(classes: seq<Option<ClassObject>>, arrays: seq<Option<ByteArray>>, rt: InitAnswers)
      returns (submitted: Option<seq<ClassDefinition>>, released: seq<nat>)
      modifies this
      ensures registry == old(registry)
      ensures jvmTi == Initialize(old(jvmTi), rt).env
      ensures hookInstalled == (old(hookInstalled) || (old(jvmTi).None? && Initialize(old(jvmTi), rt).ok))
      ensures submitted.Some? <==> Initialize(old(jvmTi), rt).ok && |classes| == |arrays|
      ensures submitted.Some? ==> |submitted.value| == |classes|
      ensures submitted.Some? ==> forall i :: 0 <= i < |classes| ==>
        submitted.value[i] == if Pinned(classes[i], arrays[i])
          then ClassDefinition(Some(classes[i].value.ref), |arrays[i].value.contents|, Some(arrays[i].value.contents))
          else EmptyDefinition
      ensures forall i :: i in released <==> submitted.Some? && 0 <= i < |classes| && Pinned(classes[i], arrays[i])
      ensures forall j, l :: 0 <= j < l < |released| ==> released[j] < released[l]
    {
      var ok, _ := EnsureJvmTi(rt);
      if !ok {
        return None, [];
      }
      if |classes| != |arrays| {
        return None, [];
      }
      var defs, pinned := BuildDefinitions(classes, arrays);
      submitted := Some(defs);
      released := ReleasePinned(pinned);
    }
  }
}
