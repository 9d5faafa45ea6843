/**
 * The few JNI facts the agent's bookkeeping depends on: opaque references,
 * the status of a successful JNI call, the largest Java array, and the
 * narrowing of a C++ size to a 32-bit jint.
 */
module Jni {

  /** An opaque JNI/JVMTI reference (jclass, jobject, JavaVM*, jvmtiEnv*). The agent only stores and forwards it. */
  type Handle = nat

  /** JNI_OK: the status of a successful JNI invocation-interface call. */
  const JNI_OK: int := 0

  /** The largest jint, and so the largest length a Java array can have. */
  const JINT_MAX: int := 0x7fff_ffff

  /** The contents of a Java byte[]: bytes passed through uninterpreted, at most JINT_MAX of them. */
  type JBytes = s: seq<bv8> | |s| <= JINT_MAX

  /**
   * static_cast<jint> of a size: the value modulo 2^32, read as a signed
   * two's-complement 32-bit integer. Sizes that fit in a jint are kept.
   */
  function ToJint(n: nat): (r: int)
    ensures -0x8000_0000 <= r <= JINT_MAX
    ensures (n - r) % 0x1_0000_0000 == 0
    ensures n <= JINT_MAX ==> r == n
  {
    var low := n % 0x1_0000_0000;
    if low <= JINT_MAX then low else low - 0x1_0000_0000
  }
}
