/**
 * The bookkeeping of the two batch entry points, retransformClass and
 * redefineClass, over already-decoded JNI inputs. A batch is two parallel
 * sequences: class objects and byte arrays, either of which may be null.
 */
module PatchBatch {
  import opened Wrappers
  import opened Jni
  import ClassNames

  /**
   * A java.lang.Class element of the batch: the class reference itself and
   * the name Class.getName returns for it. Since every element is a Class
   * object, GetObjectClass answers the same handle, that of java.lang.Class,
   * for all of them; TargetsAsWritten takes that handle as a parameter.
   */
  datatype ClassObject = ClassObject(ref: Handle, displayName: string)

  /**
   * A byte[] element of the batch: its contents, and whether
   * GetByteArrayElements hands out a non-null pointer for it.
   */
  datatype ByteArray = ByteArray(contents: JBytes, pinnable: bool)

  /** A jvmtiClassDefinition record: klass, class_byte_count, class_bytes (None for null). */
  datatype ClassDefinition = ClassDefinition(klass: Option<Handle>, classByteCount: int, classBytes: Option<seq<bv8>>)

  /** The record {nullptr, 0, nullptr} given to an element that cannot be redefined. */
  const EmptyDefinition: ClassDefinition := ClassDefinition(None, 0, None)

  // ---------------------------------------------------------------- retransform

  /** A pair that retransformClass registers: neither element is null. */
  predicate Registrable(c: Option<ClassObject>, a: Option<ByteArray>) {
    c.Some? && a.Some?
  }

  /** The registry key of a class: its display name in internal form. */
  function PatchKey(c: ClassObject): string {
    ClassNames.InternalName(c.displayName)
  }

  /**
   * The registry the first n pairs of a batch leave when inserted into an
   * empty map: walking the pairs in index order, each registrable pair
   * stores its bytes under its key, overwriting whatever an earlier pair
   * stored there.
   */
  function PatchesUpTo(classes: seq<Option<ClassObject>>, arrays: seq<Option<ByteArray>>, n: nat): map<string, JBytes>
    requires |classes| == |arrays| && n <= |classes|
  {
    if n == 0 then map[]
    else
      var earlier := PatchesUpTo(classes, arrays, n - 1);
      if Registrable(classes[n - 1], arrays[n - 1]) then earlier[PatchKey(classes[n - 1].value) := arrays[n - 1].value.contents]
      else earlier
  }

  /** The registry a whole batch leaves. */
  function BatchPatches(classes: seq<Option<ClassObject>>, arrays: seq<Option<ByteArray>>): map<string, JBytes>
    requires |classes| == |arrays|
  {
    PatchesUpTo(classes, arrays, |classes|)
  }

  /** Index i is the last registrable pair among the first n whose key is k. */
  ghost predicate LastWriter(classes: seq<Option<ClassObject>>, arrays: seq<Option<ByteArray>>, n: nat, i: int, k: string)
    requires |classes| == |arrays| && n <= |classes|
  {
    && 0 <= i < n
    && Registrable(classes[i], arrays[i])
    && PatchKey(classes[i].value) == k
    && forall j :: i < j < n && Registrable(classes[j], arrays[j]) ==> PatchKey(classes[j].value) != k
  }

  /** The keys stored by the first n pairs are exactly the keys of the registrable ones among them. */
  lemma {:induction false} PatchesKeys(classes: seq<Option<ClassObject>>, arrays: seq<Option<ByteArray>>, n: nat, k: string)
    requires |classes| == |arrays| && n <= |classes|
    ensures k in PatchesUpTo(classes, arrays, n) <==>
      exists i :: 0 <= i < n && Registrable(classes[i], arrays[i]) && PatchKey(classes[i].value) == k
  {
    if n > 0 {
      PatchesKeys(classes, arrays, n - 1, k);
    }
  }

  /** Last writer wins: the bytes stored under a key are those of the last registrable pair with that key. */
  lemma {:induction false} PatchesLastWriterWins(classes: seq<Option<ClassObject>>, arrays: seq<Option<ByteArray>>, n: nat, i: int, k: string)
    requires |classes| == |arrays| && n <= |classes|
    requires LastWriter(classes, arrays, n, i, k)
    ensures k in PatchesUpTo(classes, arrays, n) && PatchesUpTo(classes, arrays, n)[k] == arrays[i].value.contents
  {
    if i < n - 1 {
      PatchesLastWriterWins(classes, arrays, n - 1, i, k);
    }
  }

  /** Every stored key has a last writer, so with PatchesLastWriterWins the registry is fully determined. */
  lemma {:induction false} PatchesHaveLastWriter(classes: seq<Option<ClassObject>>, arrays: seq<Option<ByteArray>>, n: nat, k: string)
    requires |classes| == |arrays| && n <= |classes|
    requires k in PatchesUpTo(classes, arrays, n)
    ensures exists i :: LastWriter(classes, arrays, n, i, k) && PatchesUpTo(classes, arrays, n)[k] == arrays[i].value.contents
  {
    if Registrable(classes[n - 1], arrays[n - 1]) && PatchKey(classes[n - 1].value) == k {
      assert LastWriter(classes, arrays, n, n - 1, k);
    } else {
      PatchesHaveLastWriter(classes, arrays, n - 1, k);
      var i :| LastWriter(classes, arrays, n - 1, i, k) && PatchesUpTo(classes, arrays, n - 1)[k] == arrays[i].value.contents;
      assert LastWriter(classes, arrays, n, i, k);
    }
  }

  /**
   * Registry keys are always in internal form. The load hook looks the name
   * up as the runtime hands it over, so a name still written with dots can
   * never hit, while the slashed form of a registered class can.
   */
  lemma DottedNameNeverRegistered(classes: seq<Option<ClassObject>>, arrays: seq<Option<ByteArray>>, name: string)
    requires |classes| == |arrays|
    requires '.' in name
    ensures name !in BatchPatches(classes, arrays)
  {
    PatchesKeys(classes, arrays, |classes|, name);
  }

  /** The indices of the registrable pairs among the first n, in increasing order. */
  function RegistrableUpTo(classes: seq<Option<ClassObject>>, arrays: seq<Option<ByteArray>>, n: nat): (idx: seq<nat>)
    requires |classes| == |arrays| && n <= |classes|
    ensures forall j, l :: 0 <= j < l < |idx| ==> idx[j] < idx[l]
    ensures forall j :: 0 <= j < |idx| ==> idx[j] < n && Registrable(classes[idx[j]], arrays[idx[j]])
    ensures forall i :: 0 <= i < n && Registrable(classes[i], arrays[i]) ==> i in idx
  {
    if n == 0 then []
    else
      var earlier := RegistrableUpTo(classes, arrays, n - 1);
      if Registrable(classes[n - 1], arrays[n - 1]) then earlier + [n - 1] else earlier
  }

  /**
   * The class references retransformClass is meant to hand to
   * RetransformClasses for the first n pairs: the class of each
   * registrable pair, in index order.
   */
  function TargetsUpTo(classes: seq<Option<ClassObject>>, arrays: seq<Option<ByteArray>>, n: nat): (targets: seq<Handle>)
    requires |classes| == |arrays| && n <= |classes|
    ensures |targets| == |RegistrableUpTo(classes, arrays, n)|
    ensures forall j :: 0 <= j < |targets| ==> targets[j] == classes[RegistrableUpTo(classes, arrays, n)[j]].value.ref
  {
    if n == 0 then []
    else
      var earlier := TargetsUpTo(classes, arrays, n - 1);
      if Registrable(classes[n - 1], arrays[n - 1]) then earlier + [classes[n - 1].value.ref] else earlier
  }

  /** Every registered class is among the intended retransform targets. */
  lemma RegisteredClassIsRetransformed(classes: seq<Option<ClassObject>>, arrays: seq<Option<ByteArray>>, i: int)
    requires |classes| == |arrays| && 0 <= i < |classes|
    requires Registrable(classes[i], arrays[i])
    ensures PatchKey(classes[i].value) in BatchPatches(classes, arrays)
    ensures classes[i].value.ref in TargetsUpTo(classes, arrays, |classes|)
  {
    PatchesKeys(classes, arrays, |classes|, PatchKey(classes[i].value));
    var idx := RegistrableUpTo(classes, arrays, |classes|);
    var j :| 0 <= j < |idx| && idx[j] == i;
    assert TargetsUpTo(classes, arrays, |classes|)[j] == classes[i].value.ref;
  }

  /**
   * The list the retransform loop builds as written: for each registrable
   * pair it pushes GetObjectClass of the element, which for a Class object
   * is always classOfClass, the handle of java.lang.Class.
   */
  function TargetsAsWritten(classes: seq<Option<ClassObject>>, arrays: seq<Option<ByteArray>>, n: nat, classOfClass: Handle): (targets: seq<Handle>)
    requires |classes| == |arrays| && n <= |classes|
    ensures |targets| == |RegistrableUpTo(classes, arrays, n)|
    ensures forall t :: t in targets ==> t == classOfClass
  {
    if n == 0 then []
    else
      var earlier := TargetsAsWritten(classes, arrays, n - 1, classOfClass);
      if Registrable(classes[n - 1], arrays[n - 1]) then earlier + [classOfClass] else earlier
  }

  /**
   * As written, a class whose bytes are registered is not retransformed
   * (unless it is java.lang.Class itself): its patch is stored, but the
   * RetransformClasses list never names it, so the hook is not asked for it.
   */
  lemma AsWrittenSkipsRegisteredClass(classes: seq<Option<ClassObject>>, arrays: seq<Option<ByteArray>>, i: int, classOfClass: Handle)
    requires |classes| == |arrays| && 0 <= i < |classes|
    requires Registrable(classes[i], arrays[i]) && classes[i].value.ref != classOfClass
    ensures PatchKey(classes[i].value) in BatchPatches(classes, arrays)
    ensures classes[i].value.ref !in TargetsAsWritten(classes, arrays, |classes|, classOfClass)
  {
    PatchesKeys(classes, arrays, |classes|, PatchKey(classes[i].value));
  }

  /** Storing into a union stores into its right-hand side. */
  lemma UnionThenStore(base: map<string, JBytes>, m: map<string, JBytes>, k: string, v: JBytes)
    ensures (base + m)[k := v] == base + m[k := v]
  {
  }

  /**
   * The loop of retransformClass over a batch whose two lengths agree:
   * starting from registry, each registrable pair stores its bytes under
   * its key and has its class reference appended to the list for
   * RetransformClasses (the intended list, see TargetsAsWritten); a pair
   * with a null element is skipped.
   */
  method InsertBatch(registry: map<string, JBytes>, classes: seq<Option<ClassObject>>, arrays: seq<Option<ByteArray>>)
    returns (updated: map<string, JBytes>, toRetransform: seq<Handle>)
    requires |classes| == |arrays|
    ensures updated == registry + BatchPatches(classes, arrays)
    ensures toRetransform == TargetsUpTo(classes, arrays, |classes|)
  {
    updated, toRetransform := registry, [];
    var i := 0;
    while i < |classes|
      invariant 0 <= i <= |classes|
      invariant updated == registry + PatchesUpTo(classes, arrays, i)
      invariant toRetransform == TargetsUpTo(classes, arrays, i)
    {
      if classes[i].None? || arrays[i].None? {
        assert TargetsUpTo(classes, arrays, i + 1) == TargetsUpTo(classes, arrays, i);
        i := i + 1;
        continue;
      }
      var key := ClassNames.InternalName(classes[i].value.displayName);
      UnionThenStore(registry, PatchesUpTo(classes, arrays, i), key, arrays[i].value.contents);
      updated := updated[key := arrays[i].value.contents];
      toRetransform := toRetransform + [classes[i].value.ref];
      assert TargetsUpTo(classes, arrays, i + 1) == toRetransform;
      i := i + 1;
    }
  }

  // ---------------------------------------------------------------- redefine

  /** A pair whose bytes redefineClass obtained: neither element is null and the fetched pointer is non-null. */
  predicate Pinned(c: Option<ClassObject>, a: Option<ByteArray>) {
    c.Some? && a.Some? && a.value.pinnable
  }

  /**
   * The first loop of redefineClass: exactly one definition record per
   * index, and whether a byte pointer is held for it. A pinned pair gets
   * {class, length, bytes}; every other pair gets the empty record.
   */
  method BuildDefinitions(classes: seq<Option<ClassObject>>, arrays: seq<Option<ByteArray>>)
    returns (defs: seq<ClassDefinition>, pinned: seq<bool>)
    requires |classes| == |arrays|
    ensures |defs| == |classes| && |pinned| == |classes|
    ensures forall i :: 0 <= i < |classes| ==> (pinned[i] <==> Pinned(classes[i], arrays[i]))
    ensures forall i :: 0 <= i < |classes| && Pinned(classes[i], arrays[i]) ==>
      defs[i] == ClassDefinition(Some(classes[i].value.ref), |arrays[i].value.contents|, Some(arrays[i].value.contents))
    ensures forall i :: 0 <= i < |classes| && !Pinned(classes[i], arrays[i]) ==> defs[i] == EmptyDefinition
    ensures forall i :: 0 <= i < |defs| ==>
      && (defs[i].klass.Some? <==> pinned[i])
      && (defs[i].classBytes.Some? <==> pinned[i])
      && defs[i].classByteCount == (if pinned[i] then |defs[i].classBytes.value| else 0)
  {
    defs, pinned := [], [];
    var i := 0;
    while i < |classes|
      invariant 0 <= i <= |classes|
      invariant |defs| == i && |pinned| == i
      invariant forall j :: 0 <= j < i ==> (pinned[j] <==> Pinned(classes[j], arrays[j]))
      invariant forall j :: 0 <= j < i && Pinned(classes[j], arrays[j]) ==>
        defs[j] == ClassDefinition(Some(classes[j].value.ref), |arrays[j].value.contents|, Some(arrays[j].value.contents))
      invariant forall j :: 0 <= j < i && !Pinned(classes[j], arrays[j]) ==> defs[j] == EmptyDefinition
    {
      if classes[i].None? || arrays[i].None? {
        defs, pinned := defs + [EmptyDefinition], pinned + [false];
        i := i + 1;
        continue;
      }
      var len := |arrays[i].value.contents|;
      if !arrays[i].value.pinnable {
        defs, pinned := defs + [EmptyDefinition], pinned + [false];
        i := i + 1;
        continue;
      }
      defs := defs + [ClassDefinition(Some(classes[i].value.ref), len, Some(arrays[i].value.contents))];
      pinned := pinned + [true];
      i := i + 1;
    }
  }

  /**
   * The release loop of redefineClass: walks every index once, in order,
   * and releases the byte buffer of exactly the indices holding a pointer.
   */
  method ReleasePinned(pinned: seq<bool>) returns (released: seq<nat>)
    ensures forall j, l :: 0 <= j < l < |released| ==> released[j] < released[l]
    ensures forall i :: i in released <==> 0 <= i < |pinned| && pinned[i]
  {
    released := [];
    var i := 0;
    while i < |pinned|
      invariant 0 <= i <= |pinned|
      invariant forall j, l :: 0 <= j < l < |released| ==> released[j] < released[l]
      invariant forall j :: 0 <= j < |released| ==> released[j] < i
      invariant forall x :: x in released <==> 0 <= x < i && pinned[x]
    {
      if pinned[i] {
        released := released + [i];
      }
      i := i + 1;
    }
  }
}
