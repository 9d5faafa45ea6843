# JNILibrary native patch engine, modelled in Dafny

JNILibrary's native side (`org_example_Native.cpp`) replaces class bytecode in
a running Java virtual machine through JVMTI, the JVM Tool Interface. It keeps
a registry that maps internal class names (`org/example/Foo`) to replacement
bytes, plus one process-wide JVMTI environment. It offers four operations:

- `classFileLoadHook` is called by the runtime whenever a class is loaded or
  retransformed. On a hit it returns a copy of the registered bytes (a miss
  returns nothing).
- `ensureJvmTi` obtains the environment, requests capabilities, and installs
  the hook. It returns at once whenever an environment is already stored.
  So after a failure at or after GetEnv that left a pointer behind, it
  reports success forever without ever installing the hook. A GetJavaVM
  failure stores nothing, and the next call starts over.
- `retransformClass` clears the registry and refills it from a batch of
  (class, bytes) pairs. Each class name is first converted from dotted to
  internal form. It then makes one RetransformClasses call. As written, the
  list it passes holds `GetObjectClass` of each element, which is
  `java.lang.Class` every time, and never the registered classes (see
  "## Findings"). The model retransforms the registered classes.
- `redefineClass` builds one class-definition record per pair, submits them
  all in one call, and afterwards releases exactly the byte buffers it pinned.

It also has `getErrorName`, which maps a JVMTI error code to its symbolic name.

The model has these modules:

| module | file | contents |
|---|---|---|
| `Wrappers` | `wrappers.dfy` | `Option`, used for nullable pointers |
| `Jni` | `jni.dfy` | handles, the `jint` range, the truncating `jint` cast |
| `Jvmti` | `jvmti.dfy` | the error codes (JDK `jvmti.h` values) and `ErrorName` |
| `ClassNames` | `class_names.dfy` | dot-to-slash conversion of class names |
| `Binding` | `binding.dfy` | the `ensureJvmTi` call sequence, as a function of what the runtime answers |
| `PatchBatch` | `patch_batch.dfy` | the batch bookkeeping loops of the two entry points, each specified by a function, with lemmas about those functions |
| `Native` | `native.dfy` | class `Agent` holding the global state; one method per native entry point and one for the hook |

The collaborators are modelled as data:

- The JVM's replies to the initialisation calls are an `InitAnswers` value.
- A Java `Class` object is a `ClassObject`. It carries its class reference
  (`ref`) and the result of `getName()` (`displayName`). `GetObjectClass`
  returns the same handle for every `Class` object, that of
  `java.lang.Class`. The as-written version takes it as a parameter.
- A Java `byte[]` is a `ByteArray`. It carries its contents, and whether
  `GetByteArrayElements` returns a pointer for it (`pinnable`).
- A null Java reference is `None`.

## Model

| member | source | states |
|---|---|---|
| Jni.ToJint | org_example_Native.cpp:100 | the `static_cast<jint>` of a size lands in the jint range, agrees with the size modulo 2^32, and equals the size whenever the size fits |
| Jvmti.ErrorName | org_example_Native.cpp:14-76 | error code 0 (JVMTI_ERROR_NONE) is named "JVMTI_ERROR_NONE" |
| Jvmti.UnknownErrorName | org_example_Native.cpp:75 | every code outside the 52 listed cases, 73 included, falls to the default name "Unknown JVMTI error" |
| Jvmti.ErrorNamesDistinct | org_example_Native.cpp:16-74 | two different listed codes always get different names, so a logged name identifies its code |
| Jvmti.KnownErrorIsNamed | org_example_Native.cpp:16-74 | every code that has its own case gets a name other than the default, so IsKnownError is exactly the set of codes with their own name |
| ClassNames.InternalName | org_example_Native.cpp:186-187 | the converted name has the same length as the input; every '.' becomes '/'; every other character is kept in place; no '.' remains |
| ClassNames.InternalNameOfInternal | org_example_Native.cpp:187 | a name with no '.' is left unchanged |
| ClassNames.InternalNameIdempotent | org_example_Native.cpp:187 | converting twice gives the same result as converting once |
| ClassNames.InternalNameConcat | org_example_Native.cpp:187 | the conversion distributes over concatenation, since each character is converted independently |
| ClassNames.SameKeyIff | org_example_Native.cpp:186-194 | two names map to the same registry key if and only if they have equal length and, at each position, hold the same character or both hold a separator ('.' or '/') |
| ClassNames.DottedAndSlashedShareKey | org_example_Native.cpp:187 | `pkg.Cls` and `pkg/Cls` map to the same key, which is the converted package followed by `/Cls` |
| Binding.Initialize | org_example_Native.cpp:110-143 | with an environment stored, it succeeds at once and makes no call. Otherwise the calls made are a non-empty prefix of the six-call sequence, and every call before the last one passed. It succeeds exactly when all six calls were made and the last passed; on failure, the last call made is the one that failed. The stored environment is the one GetEnv wrote, when GetEnv ran, and none otherwise |
| Binding.InitializeIsSticky | org_example_Native.cpp:111 | after one success, every later call succeeds with no runtime call and keeps the same environment |
| Binding.LateFailureStillInitializes | org_example_Native.cpp:119-135 | a failure at or after GetEnv returns false before SetEventCallbacks runs, yet leaves a non-null environment stored. Every later call then reports success at once, making no call, so the hook is never installed |
| Binding.EarlyFailureRetries | org_example_Native.cpp:113-117 | a GetJavaVM failure leaves nothing stored, so the next call starts over |
| PatchBatch.PatchesKeys | org_example_Native.cpp:174-194 | a key is in the registry built from the first n pairs if and only if some pair with a non-null class and a non-null byte array has that converted name |
| PatchBatch.PatchesLastWriterWins | org_example_Native.cpp:194 | for a key that several pairs share, the registry holds the bytes of the last such pair |
| PatchBatch.PatchesHaveLastWriter | org_example_Native.cpp:194 | every stored entry comes from the last registrable pair with that key, so the registry holds nothing else |
| PatchBatch.DottedNameNeverRegistered | org_example_Native.cpp:186-187 | no name containing '.' is ever a registry key, so a lookup by a dotted name always misses |
| PatchBatch.RegistrableUpTo | org_example_Native.cpp:174-179 | the indices kept by the loop are strictly increasing and below n, and they are exactly the indices whose class and byte array are both non-null |
| PatchBatch.TargetsUpTo | org_example_Native.cpp:172-201 | the intended retransform list: one target per kept pair, in index order, and each target is that pair's class reference |
| PatchBatch.RegisteredClassIsRetransformed | org_example_Native.cpp:172-207 | in the intended list, every class whose bytes are registered is among the classes passed to RetransformClasses |
| PatchBatch.TargetsAsWritten | org_example_Native.cpp:176-201 | the list as written: one entry per kept pair, and every entry is the `java.lang.Class` handle that `GetObjectClass` returns for a `Class` object |
| PatchBatch.AsWrittenSkipsRegisteredClass | org_example_Native.cpp:176-207 | as written, a class whose bytes are registered is missing from the RetransformClasses list, unless it is `java.lang.Class` itself |
| PatchBatch.InsertBatch | org_example_Native.cpp:174-205 | the loop leaves the registry equal to the old registry overwritten by the batch's patches. It collects exactly the intended target list |
| PatchBatch.BuildDefinitions | org_example_Native.cpp:229-260 | one definition per index. A pinned pair gets {its class reference, its byte count, its bytes}; any other pair gets {null, 0, null}. The class, byte count and bytes are null/0 together, and `pinned[i]` is set exactly when index i is pinned |
| PatchBatch.ReleasePinned | org_example_Native.cpp:271-274 | exactly the pinned indices are released, each once, in increasing order |
| Native.Agent.constructor | org_example_Native.cpp:10-12 | the process starts with an empty registry and no JVMTI environment |
| Native.Agent.ClassFileLoadHook | org_example_Native.cpp:79-108 | on a hit, returns the registered bytes and their length; on a miss, returns a null buffer and length 0. The registry is left untouched |
| Native.Agent.EnsureJvmTi | org_example_Native.cpp:110-143 | outcome, calls made and stored environment are those of Binding.Initialize. The hook is installed only when initialisation runs to the end. The registry is untouched |
| Native.Agent.RetransformClass | org_example_Native.cpp:145-213 | the lazy-init block runs only when no environment is stored. It then stores the environment and installs the hook; otherwise the stored environment and the hook flag are kept as they were. With mismatched lengths, the registry is left unchanged and nothing is retransformed. Otherwise the registry becomes exactly the batch's patches (earlier entries are dropped), and the target list is the one submitted to RetransformClasses |
| Native.Agent.RetransformThenLoad | org_example_Native.cpp:94-101 | after a retransform batch, loading the class of the last registrable pair with a given key returns exactly that pair's bytes and their length |
| Native.Agent.RedefineClass | org_example_Native.cpp:216-279 | records are submitted if and only if ensureJvmTi succeeds and the lengths match; the submitted records are those of BuildDefinitions. The released buffers are exactly the pinned indices, in increasing order, and are released only when records were submitted. The registry is untouched |

## Left out

- Printing (`printf`), and the runtime statuses of `RetransformClasses`,
  `RedefineClasses` and `IsModifiableClass`: they only choose which log line
  is printed. The statuses of `SetEventCallbacks` and
  `SetEventNotificationMode` are never read (lines 139-140 and 159-160), so
  the hook flag only records that both calls were made.
  The calls themselves are represented by the values the methods return
  (`Some(targets)`, `Some(records)`).
- `mapMutex` and concurrent callers: each operation is modelled as one
  atomic step on `Agent`.
- `malloc`/`memcpy` in the hook, and the JNI calls that fetch array elements
  or class names (`GetObjectArrayElement`, `CallObjectMethod`,
  `GetStringUTFChars`): these are folded into the `ClassObject` and
  `ByteArray` values. Allocation failure of `malloc` is not modelled.
- `DeleteLocalRef` and `ReleaseStringUTFChars` are not modelled, since they
  have no effect on the registry or the submitted data. As a result, the
  model does not show that, as written, line 203 deletes the local reference
  it has just pushed onto the retransform list.
- Native.Agent.RetransformClass: line 176 calls `GetObjectClass` before the
  null check on line 179, which is undefined for a null element. The model
  simply skips such a pair.
- Native.Agent.RetransformClass: line 192 does not check the result of
  `GetByteArrayElements`. The model always copies the array's contents.
- Native.Agent.RetransformClass: the lazy-init block (lines 151-161) checks
  no status. The model takes the environment `GetEnv` writes as a parameter
  and treats it as non-null.
- Native.Agent.ClassFileLoadHook: the parameters the hook ignores
  (`class_being_redefined`, `loader`, `protection_domain`, the original class
  bytes) are left out. So is a null `name`, which the runtime passes for some
  hidden classes.
- Native.Agent.RedefineClass: the method returns the submitted records and
  the released indices as two separate outputs. Its contract therefore does
  not state that every release happens after the RedefineClasses call.
- Class names are Dafny strings of Unicode scalar values, but the source
  compares modified-UTF-8 byte strings (lines 94 and 185-187). The
  conversion is unaffected, because '.' never occurs inside a multi-byte
  sequence. A Java name holding an unpaired surrogate cannot be
  represented.
- Jni.JBytes: a `byte[]` is bounded by the largest jint; the JVM's own limits
  are slightly lower and are not modelled.
- The load hook looks up the name the runtime passes exactly as given and
  does not convert it. Only `retransformClass` converts names (line 187).

## Findings

| source | as written | input that shows it | evidently intended | confidence | as-written member | corrected member |
|---|---|---|---|---|---|---|
| org_example_Native.cpp:176 | `klass = GetObjectClass(classObj)` is pushed onto the RetransformClasses list (line 201). `classObj` is a `java.lang.Class` object, as the `Class.getName` call at lines 181-183 requires, so `klass` is `java.lang.Class` | a batch with one pair (class `org.example.Foo`, its bytes): the patch is stored under `org/example/Foo`, but RetransformClasses receives `[java.lang.Class]`, so the hook is never asked for `org/example/Foo` | push `classObj` itself, the class whose bytes were registered | high, not executed | PatchBatch.AsWrittenSkipsRegisteredClass | PatchBatch.RegisteredClassIsRetransformed |
