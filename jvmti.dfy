/** The runtime's instrumentation status codes (jvmtiError) and their diagnostic names. */
module Jvmti {

  /** JVMTI_ERROR_NONE: the status every successful instrumentation call returns. */
  const JVMTI_ERROR_NONE: int := 0

  /** The name given to any status outside the listed domain. */
  const UNKNOWN_ERROR: string := "Unknown JVMTI error"

  /**
   * The jvmtiError values, numbered as in the JDK's jvmti.h, that have a case
   * of their own. JVMTI_ERROR_UNSUPPORTED_OPERATION (73) is not among them.
   */
  predicate IsKnownError(err: int) {
    err in {0, 10, 11, 12, 13, 14, 15, 20, 21, 22, 23, 24, 25, 26, 31, 32, 34, 35, 40, 41, 50, 51, 52, 60, 61, 62, 63, 64, 65, 66, 67, 68, 69, 70, 71, 72, 79, 80, 98, 99, 100, 101, 102, 103, 104, 106, 110, 111, 112, 113, 115, 116}
  }

  /**
   * Diagnostic name of a status code, total over int: each listed code
   * yields the spelling of its own enumerator, and any other value,
   * including codes the agent predates, the catch-all name (the last two
   * facts are UnknownErrorName and KnownErrorIsNamed).
   */
  function ErrorName(err: int): (name: string)
    ensures err == JVMTI_ERROR_NONE ==> name == "JVMTI_ERROR_NONE"
  {
    match err
      case 0 => "JVMTI_ERROR_NONE"
      case 10 => "JVMTI_ERROR_INVALID_THREAD"
      case 11 => "JVMTI_ERROR_INVALID_THREAD_GROUP"
      case 12 => "JVMTI_ERROR_INVALID_PRIORITY"
      case 13 => "JVMTI_ERROR_THREAD_NOT_SUSPENDED"
      case 14 => "JVMTI_ERROR_THREAD_SUSPENDED"
      case 15 => "JVMTI_ERROR_THREAD_NOT_ALIVE"
      case 20 => "JVMTI_ERROR_INVALID_OBJECT"
      case 21 => "JVMTI_ERROR_INVALID_CLASS"
      case 22 => "JVMTI_ERROR_CLASS_NOT_PREPARED"
      case 23 => "JVMTI_ERROR_INVALID_METHODID"
      case 24 => "JVMTI_ERROR_INVALID_LOCATION"
      case 25 => "JVMTI_ERROR_INVALID_FIELDID"
      case 26 => "JVMTI_ERROR_INVALID_MODULE"
      case 31 => "JVMTI_ERROR_NO_MORE_FRAMES"
      case 32 => "JVMTI_ERROR_OPAQUE_FRAME"
      case 34 => "JVMTI_ERROR_TYPE_MISMATCH"
      case 35 => "JVMTI_ERROR_INVALID_SLOT"
      case 40 => "JVMTI_ERROR_DUPLICATE"
      case 41 => "JVMTI_ERROR_NOT_FOUND"
      case 50 => "JVMTI_ERROR_INVALID_MONITOR"
      case 51 => "JVMTI_ERROR_NOT_MONITOR_OWNER"
      case 52 => "JVMTI_ERROR_INTERRUPT"
      case 60 => "JVMTI_ERROR_INVALID_CLASS_FORMAT"
      case 61 => "JVMTI_ERROR_CIRCULAR_CLASS_DEFINITION"
      case 62 => "JVMTI_ERROR_FAILS_VERIFICATION"
      case 63 => "JVMTI_ERROR_UNSUPPORTED_REDEFINITION_METHOD_ADDED"
      case 64 => "JVMTI_ERROR_UNSUPPORTED_REDEFINITION_SCHEMA_CHANGED"
      case 65 => "JVMTI_ERROR_INVALID_TYPESTATE"
      case 66 => "JVMTI_ERROR_UNSUPPORTED_REDEFINITION_HIERARCHY_CHANGED"
      case 67 => "JVMTI_ERROR_UNSUPPORTED_REDEFINITION_METHOD_DELETED"
      case 68 => "JVMTI_ERROR_UNSUPPORTED_VERSION"
      case 69 => "JVMTI_ERROR_NAMES_DONT_MATCH"
      case 70 => "JVMTI_ERROR_UNSUPPORTED_REDEFINITION_CLASS_MODIFIERS_CHANGED"
      case 71 => "JVMTI_ERROR_UNSUPPORTED_REDEFINITION_METHOD_MODIFIERS_CHANGED"
      case 72 => "JVMTI_ERROR_UNSUPPORTED_REDEFINITION_CLASS_ATTRIBUTE_CHANGED"
      case 79 => "JVMTI_ERROR_UNMODIFIABLE_CLASS"
      case 80 => "JVMTI_ERROR_UNMODIFIABLE_MODULE"
      case 98 => "JVMTI_ERROR_NOT_AVAILABLE"
      case 99 => "JVMTI_ERROR_MUST_POSSESS_CAPABILITY"
      case 100 => "JVMTI_ERROR_NULL_POINTER"
      case 101 => "JVMTI_ERROR_ABSENT_INFORMATION"
      case 102 => "JVMTI_ERROR_INVALID_EVENT_TYPE"
      case 103 => "JVMTI_ERROR_ILLEGAL_ARGUMENT"
      case 104 => "JVMTI_ERROR_NATIVE_METHOD"
      case 106 => "JVMTI_ERROR_CLASS_LOADER_UNSUPPORTED"
      case 110 => "JVMTI_ERROR_OUT_OF_MEMORY"
      case 111 => "JVMTI_ERROR_ACCESS_DENIED"
      case 112 => "JVMTI_ERROR_WRONG_PHASE"
      case 113 => "JVMTI_ERROR_INTERNAL"
      case 115 => "JVMTI_ERROR_UNATTACHED_THREAD"
      case 116 => "JVMTI_ERROR_INVALID_ENVIRONMENT"
      case _ => UNKNOWN_ERROR
  }

  /** Every code outside the list, including codes the agent predates, gets the catch-all name. */
  lemma UnknownErrorName(err: int)
    requires !IsKnownError(err)
    ensures ErrorName(err) == UNKNOWN_ERROR
  {
  }

  /**
   * No listed code is reported as unknown, so the catch-all name is given
   * exactly to the codes outside the list.
   */
  lemma KnownErrorIsNamed(err: int)
    requires IsKnownError(err)
    ensures ErrorName(err) != UNKNOWN_ERROR
  {
    // One lemma per band of codes keeps each proof of string disequality small.
    if err <= 25 {
      BandIsNamed0(err);
    } else if err <= 62 {
      BandIsNamed1(err);
    } else if err <= 98 {
      BandIsNamed2(err);
    } else {
      BandIsNamed3(err);
    }
  }

  lemma BandIsNamed0(err: int)
    requires IsKnownError(err) && err <= 25
    ensures ErrorName(err) != UNKNOWN_ERROR
  {
  }

  lemma BandIsNamed1(err: int)
    requires IsKnownError(err) && 25 < err && err <= 62
    ensures ErrorName(err) != UNKNOWN_ERROR
  {
  }

  lemma BandIsNamed2(err: int)
    requires IsKnownError(err) && 62 < err && err <= 98
    ensures ErrorName(err) != UNKNOWN_ERROR
  {
  }

  lemma BandIsNamed3(err: int)
    requires IsKnownError(err) && 98 < err
    ensures ErrorName(err) != UNKNOWN_ERROR
  {
  }

  /**
   * The 52 listed codes get pairwise different names, so a name printed in
   * a log line identifies its status code. The proof splits the codes into
   * thirteen bands of four consecutive codes and compares band by band.
   */
  lemma ErrorNamesDistinct(a: int, b: int)
    requires IsKnownError(a) && IsKnownError(b) && a != b
    ensures ErrorName(a) != ErrorName(b)
  {
    if a < b {
      OrderedNamesDistinct(a, b);
    } else {
      OrderedNamesDistinct(b, a);
    }
  }

  lemma OrderedNamesDistinct(a: int, b: int)
    requires IsKnownError(a) && IsKnownError(b) && a < b
    ensures ErrorName(a) != ErrorName(b)
  {
    if a <= 12 {
      BandNamesDistinct0(a, b);
    } else if a <= 20 {
      BandNamesDistinct1(a, b);
    } else if a <= 24 {
      BandNamesDistinct2(a, b);
    } else if a <= 32 {
      BandNamesDistinct3(a, b);
    } else if a <= 41 {
      BandNamesDistinct4(a, b);
    } else if a <= 60 {
      BandNamesDistinct5(a, b);
    } else if a <= 64 {
      BandNamesDistinct6(a, b);
    } else if a <= 68 {
      BandNamesDistinct7(a, b);
    } else if a <= 72 {
      BandNamesDistinct8(a, b);
    } else if a <= 99 {
      BandNamesDistinct9(a, b);
    } else if a <= 103 {
      BandNamesDistinct10(a, b);
    } else if a <= 111 {
      BandNamesDistinct11(a, b);
    } else {
      BandNamesDistinct12(a, b);
    }
  }

  lemma BandNamesDistinct0(a: int, b: int)
    requires a in {0, 10, 11, 12} && IsKnownError(b) && a < b
    ensures ErrorName(a) != ErrorName(b)
  {
    if b <= 12 {
      PairNamesDistinct0x0(a, b);
    } else if b <= 20 {
      PairNamesDistinct0x1(a, b);
    } else if b <= 24 {
      PairNamesDistinct0x2(a, b);
    } else if b <= 32 {
      PairNamesDistinct0x3(a, b);
    } else if b <= 41 {
      PairNamesDistinct0x4(a, b);
    } else if b <= 60 {
      PairNamesDistinct0x5(a, b);
    } else if b <= 64 {
      PairNamesDistinct0x6(a, b);
    } else if b <= 68 {
      PairNamesDistinct0x7(a, b);
    } else if b <= 72 {
      PairNamesDistinct0x8(a, b);
    } else if b <= 99 {
      PairNamesDistinct0x9(a, b);
    } else if b <= 103 {
      PairNamesDistinct0x10(a, b);
    } else if b <= 111 {
      PairNamesDistinct0x11(a, b);
    } else {
      PairNamesDistinct0x12(a, b);
    }
  }

  lemma BandNamesDistinct1(a: int, b: int)
    requires a in {13, 14, 15, 20} && IsKnownError(b) && a < b
    ensures ErrorName(a) != ErrorName(b)
  {
    if b <= 20 {
      PairNamesDistinct1x1(a, b);
    } else if b <= 24 {
      PairNamesDistinct1x2(a, b);
    } else if b <= 32 {
      PairNamesDistinct1x3(a, b);
    } else if b <= 41 {
      PairNamesDistinct1x4(a, b);
    } else if b <= 60 {
      PairNamesDistinct1x5(a, b);
    } else if b <= 64 {
      PairNamesDistinct1x6(a, b);
    } else if b <= 68 {
      PairNamesDistinct1x7(a, b);
    } else if b <= 72 {
      PairNamesDistinct1x8(a, b);
    } else if b <= 99 {
      PairNamesDistinct1x9(a, b);
    } else if b <= 103 {
      PairNamesDistinct1x10(a, b);
    } else if b <= 111 {
      PairNamesDistinct1x11(a, b);
    } else {
      PairNamesDistinct1x12(a, b);
    }
  }

  lemma BandNamesDistinct2(a: int, b: int)
    requires a in {21, 22, 23, 24} && IsKnownError(b) && a < b
    ensures ErrorName(a) != ErrorName(b)
  {
    if b <= 24 {
      PairNamesDistinct2x2(a, b);
    } else if b <= 32 {
      PairNamesDistinct2x3(a, b);
    } else if b <= 41 {
      PairNamesDistinct2x4(a, b);
    } else if b <= 60 {
      PairNamesDistinct2x5(a, b);
    } else if b <= 64 {
      PairNamesDistinct2x6(a, b);
    } else if b <= 68 {
      PairNamesDistinct2x7(a, b);
    } else if b <= 72 {
      PairNamesDistinct2x8(a, b);
    } else if b <= 99 {
      PairNamesDistinct2x9(a, b);
    } else if b <= 103 {
      PairNamesDistinct2x10(a, b);
    } else if b <= 111 {
      PairNamesDistinct2x11(a, b);
    } else {
      PairNamesDistinct2x12(a, b);
    }
  }

  lemma BandNamesDistinct3(a: int, b: int)
    requires a in {25, 26, 31, 32} && IsKnownError(b) && a < b
    ensures ErrorName(a) != ErrorName(b)
  {
    if b <= 32 {
      PairNamesDistinct3x3(a, b);
    } else if b <= 41 {
      PairNamesDistinct3x4(a, b);
    } else if b <= 60 {
      PairNamesDistinct3x5(a, b);
    } else if b <= 64 {
      PairNamesDistinct3x6(a, b);
    } else if b <= 68 {
      PairNamesDistinct3x7(a, b);
    } else if b <= 72 {
      PairNamesDistinct3x8(a, b);
    } else if b <= 99 {
      PairNamesDistinct3x9(a, b);
    } else if b <= 103 {
      PairNamesDistinct3x10(a, b);
    } else if b <= 111 {
      PairNamesDistinct3x11(a, b);
    } else {
      PairNamesDistinct3x12(a, b);
    }
  }

  lemma BandNamesDistinct4(a: int, b: int)
    requires a in {34, 35, 40, 41} && IsKnownError(b) && a < b
    ensures ErrorName(a) != ErrorName(b)
  {
    if b <= 41 {
      PairNamesDistinct4x4(a, b);
    } else if b <= 60 {
      PairNamesDistinct4x5(a, b);
    } else if b <= 64 {
      PairNamesDistinct4x6(a, b);
    } else if b <= 68 {
      PairNamesDistinct4x7(a, b);
    } else if b <= 72 {
      PairNamesDistinct4x8(a, b);
    } else if b <= 99 {
      PairNamesDistinct4x9(a, b);
    } else if b <= 103 {
      PairNamesDistinct4x10(a, b);
    } else if b <= 111 {
      PairNamesDistinct4x11(a, b);
    } else {
      PairNamesDistinct4x12(a, b);
    }
  }

  lemma BandNamesDistinct5(a: int, b: int)
    requires a in {50, 51, 52, 60} && IsKnownError(b) && a < b
    ensures ErrorName(a) != ErrorName(b)
  {
    if b <= 60 {
      PairNamesDistinct5x5(a, b);
    } else if b <= 64 {
      PairNamesDistinct5x6(a, b);
    } else if b <= 68 {
      PairNamesDistinct5x7(a, b);
    } else if b <= 72 {
      PairNamesDistinct5x8(a, b);
    } else if b <= 99 {
      PairNamesDistinct5x9(a, b);
    } else if b <= 103 {
      PairNamesDistinct5x10(a, b);
    } else if b <= 111 {
      PairNamesDistinct5x11(a, b);
    } else {
      PairNamesDistinct5x12(a, b);
    }
  }

  lemma BandNamesDistinct6(a: int, b: int)
    requires a in {61, 62, 63, 64} && IsKnownError(b) && a < b
    ensures ErrorName(a) != ErrorName(b)
  {
    if b <= 64 {
      PairNamesDistinct6x6(a, b);
    } else if b <= 68 {
      PairNamesDistinct6x7(a, b);
    } else if b <= 72 {
      PairNamesDistinct6x8(a, b);
    } else if b <= 99 {
      PairNamesDistinct6x9(a, b);
    } else if b <= 103 {
      PairNamesDistinct6x10(a, b);
    } else if b <= 111 {
      PairNamesDistinct6x11(a, b);
    } else {
      PairNamesDistinct6x12(a, b);
    }
  }

  lemma BandNamesDistinct7(a: int, b: int)
    requires a in {65, 66, 67, 68} && IsKnownError(b) && a < b
    ensures ErrorName(a) != ErrorName(b)
  {
    if b <= 68 {
      PairNamesDistinct7x7(a, b);
    } else if b <= 72 {
      PairNamesDistinct7x8(a, b);
    } else if b <= 99 {
      PairNamesDistinct7x9(a, b);
    } else if b <= 103 {
      PairNamesDistinct7x10(a, b);
    } else if b <= 111 {
      PairNamesDistinct7x11(a, b);
    } else {
      PairNamesDistinct7x12(a, b);
    }
  }

  lemma BandNamesDistinct8(a: int, b: int)
    requires a in {69, 70, 71, 72} && IsKnownError(b) && a < b
    ensures ErrorName(a) != ErrorName(b)
  {
    if b <= 72 {
      PairNamesDistinct8x8(a, b);
    } else if b <= 99 {
      PairNamesDistinct8x9(a, b);
    } else if b <= 103 {
      PairNamesDistinct8x10(a, b);
    } else if b <= 111 {
      PairNamesDistinct8x11(a, b);
    } else {
      PairNamesDistinct8x12(a, b);
    }
  }

  lemma BandNamesDistinct9(a: int, b: int)
    requires a in {79, 80, 98, 99} && IsKnownError(b) && a < b
    ensures ErrorName(a) != ErrorName(b)
  {
    if b <= 99 {
      PairNamesDistinct9x9(a, b);
    } else if b <= 103 {
      PairNamesDistinct9x10(a, b);
    } else if b <= 111 {
      PairNamesDistinct9x11(a, b);
    } else {
      PairNamesDistinct9x12(a, b);
    }
  }

  lemma BandNamesDistinct10(a: int, b: int)
    requires a in {100, 101, 102, 103} && IsKnownError(b) && a < b
    ensures ErrorName(a) != ErrorName(b)
  {
    if b <= 103 {
      PairNamesDistinct10x10(a, b);
    } else if b <= 111 {
      PairNamesDistinct10x11(a, b);
    } else {
      PairNamesDistinct10x12(a, b);
    }
  }

  lemma BandNamesDistinct11(a: int, b: int)
    requires a in {104, 106, 110, 111} && IsKnownError(b) && a < b
    ensures ErrorName(a) != ErrorName(b)
  {
    if b <= 111 {
      PairNamesDistinct11x11(a, b);
    } else {
      PairNamesDistinct11x12(a, b);
    }
  }

  lemma BandNamesDistinct12(a: int, b: int)
    requires a in {112, 113, 115, 116} && IsKnownError(b) && a < b
    ensures ErrorName(a) != ErrorName(b)
  {
    PairNamesDistinct12x12(a, b);
  }

  lemma PairNamesDistinct0x0(a: int, b: int)
    requires a in {0, 10, 11, 12} && b in {0, 10, 11, 12} && a != b
    ensures ErrorName(a) != ErrorName(b)
  {
  }

  lemma PairNamesDistinct0x1(a: int, b: int)
    requires a in {0, 10, 11, 12} && b in {13, 14, 15, 20} && a != b
    ensures ErrorName(a) != ErrorName(b)
  {
  }

  lemma PairNamesDistinct0x2(a: int, b: int)
    requires a in {0, 10, 11, 12} && b in {21, 22, 23, 24} && a != b
    ensures ErrorName(a) != ErrorName(b)
  {
  }

  lemma PairNamesDistinct0x3(a: int, b: int)
    requires a in {0, 10, 11, 12} && b in {25, 26, 31, 32} && a != b
    ensures ErrorName(a) != ErrorName(b)
  {
  }

  lemma PairNamesDistinct0x4(a: int, b: int)
    requires a in {0, 10, 11, 12} && b in {34, 35, 40, 41} && a != b
    ensures ErrorName(a) != ErrorName(b)
  {
  }

  lemma PairNamesDistinct0x5(a: int, b: int)
    requires a in {0, 10, 11, 12} && b in {50, 51, 52, 60} && a != b
    ensures ErrorName(a) != ErrorName(b)
  {
  }

  lemma PairNamesDistinct0x6(a: int, b: int)
    requires a in {0, 10, 11, 12} && b in {61, 62, 63, 64} && a != b
    ensures ErrorName(a) != ErrorName(b)
  {
  }

  lemma PairNamesDistinct0x7(a: int, b: int)
    requires a in {0, 10, 11, 12} && b in {65, 66, 67, 68} && a != b
    ensures ErrorName(a) != ErrorName(b)
  {
  }

  lemma PairNamesDistinct0x8(a: int, b: int)
    requires a in {0, 10, 11, 12} && b in {69, 70, 71, 72} && a != b
    ensures ErrorName(a) != ErrorName(b)
  {
  }

  lemma PairNamesDistinct0x9(a: int, b: int)
    requires a in {0, 10, 11, 12} && b in {79, 80, 98, 99} && a != b
    ensures ErrorName(a) != ErrorName(b)
  {
  }

  lemma PairNamesDistinct0x10(a: int, b: int)
    requires a in {0, 10, 11, 12} && b in {100, 101, 102, 103} && a != b
    ensures ErrorName(a) != ErrorName(b)
  {
  }

  lemma PairNamesDistinct0x11(a: int, b: int)
    requires a in {0, 10, 11, 12} && b in {104, 106, 110, 111} && a != b
    ensures ErrorName(a) != ErrorName(b)
  {
  }

  lemma PairNamesDistinct0x12(a: int, b: int)
    requires a in {0, 10, 11, 12} && b in {112, 113, 115, 116} && a != b
    ensures ErrorName(a) != ErrorName(b)
  {
  }

  lemma PairNamesDistinct1x1(a: int, b: int)
    requires a in {13, 14, 15, 20} && b in {13, 14, 15, 20} && a != b
    ensures ErrorName(a) != ErrorName(b)
  {
  }

  lemma PairNamesDistinct1x2(a: int, b: int)
    requires a in {13, 14, 15, 20} && b in {21, 22, 23, 24} && a != b
    ensures ErrorName(a) != ErrorName(b)
  {
  }

  lemma PairNamesDistinct1x3(a: int, b: int)
    requires a in {13, 14, 15, 20} && b in {25, 26, 31, 32} && a != b
    ensures ErrorName(a) != ErrorName(b)
  {
  }

  lemma PairNamesDistinct1x4(a: int, b: int)
    requires a in {13, 14, 15, 20} && b in {34, 35, 40, 41} && a != b
    ensures ErrorName(a) != ErrorName(b)
  {
  }

  lemma PairNamesDistinct1x5(a: int, b: int)
    requires a in {13, 14, 15, 20} && b in {50, 51, 52, 60} && a != b
    ensures ErrorName(a) != ErrorName(b)
  {
  }

  lemma PairNamesDistinct1x6(a: int, b: int)
    requires a in {13, 14, 15, 20} && b in {61, 62, 63, 64} && a != b
    ensures ErrorName(a) != ErrorName(b)
  {
  }

  lemma PairNamesDistinct1x7(a: int, b: int)
    requires a in {13, 14, 15, 20} && b in {65, 66, 67, 68} && a != b
    ensures ErrorName(a) != ErrorName(b)
  {
  }

  lemma PairNamesDistinct1x8(a: int, b: int)
    requires a in {13, 14, 15, 20} && b in {69, 70, 71, 72} && a != b
    ensures ErrorName(a) != ErrorName(b)
  {
  }

  lemma PairNamesDistinct1x9(a: int, b: int)
    requires a in {13, 14, 15, 20} && b in {79, 80, 98, 99} && a != b
    ensures ErrorName(a) != ErrorName(b)
  {
  }

  lemma PairNamesDistinct1x10(a: int, b: int)
    requires a in {13, 14, 15, 20} && b in {100, 101, 102, 103} && a != b
    ensures ErrorName(a) != ErrorName(b)
  {
  }

  lemma PairNamesDistinct1x11(a: int, b: int)
    requires a in {13, 14, 15, 20} && b in {104, 106, 110, 111} && a != b
    ensures ErrorName(a) != ErrorName(b)
  {
  }

  lemma PairNamesDistinct1x12(a: int, b: int)
    requires a in {13, 14, 15, 20} && b in {112, 113, 115, 116} && a != b
    ensures ErrorName(a) != ErrorName(b)
  {
  }

  lemma PairNamesDistinct2x2(a: int, b: int)
    requires a in {21, 22, 23, 24} && b in {21, 22, 23, 24} && a != b
    ensures ErrorName(a) != ErrorName(b)
  {
  }

  lemma PairNamesDistinct2x3(a: int, b: int)
    requires a in {21, 22, 23, 24} && b in {25, 26, 31, 32} && a != b
    ensures ErrorName(a) != ErrorName(b)
  {
  }

  lemma PairNamesDistinct2x4(a: int, b: int)
    requires a in {21, 22, 23, 24} && b in {34, 35, 40, 41} && a != b
    ensures ErrorName(a) != ErrorName(b)
  {
  }

  lemma PairNamesDistinct2x5(a: int, b: int)
    requires a in {21, 22, 23, 24} && b in {50, 51, 52, 60} && a != b
    ensures ErrorName(a) != ErrorName(b)
  {
  }

  lemma PairNamesDistinct2x6(a: int, b: int)
    requires a in {21, 22, 23, 24} && b in {61, 62, 63, 64} && a != b
    ensures ErrorName(a) != ErrorName(b)
  {
  }

  lemma PairNamesDistinct2x7(a: int, b: int)
    requires a in {21, 22, 23, 24} && b in {65, 66, 67, 68} && a != b
    ensures ErrorName(a) != ErrorName(b)
  {
  }

  lemma PairNamesDistinct2x8(a: int, b: int)
    requires a in {21, 22, 23, 24} && b in {69, 70, 71, 72} && a != b
    ensures ErrorName(a) != ErrorName(b)
  {
  }

  lemma PairNamesDistinct2x9(a: int, b: int)
    requires a in {21, 22, 23, 24} && b in {79, 80, 98, 99} && a != b
    ensures ErrorName(a) != ErrorName(b)
  {
  }

  lemma PairNamesDistinct2x10(a: int, b: int)
    requires a in {21, 22, 23, 24} && b in {100, 101, 102, 103} && a != b
    ensures ErrorName(a) != ErrorName(b)
  {
  }

  lemma PairNamesDistinct2x11(a: int, b: int)
    requires a in {21, 22, 23, 24} && b in {104, 106, 110, 111} && a != b
    ensures ErrorName(a) != ErrorName(b)
  {
  }

  lemma PairNamesDistinct2x12(a: int, b: int)
    requires a in {21, 22, 23, 24} && b in {112, 113, 115, 116} && a != b
    ensures ErrorName(a) != ErrorName(b)
  {
  }

  lemma PairNamesDistinct3x3(a: int, b: int)
    requires a in {25, 26, 31, 32} && b in {25, 26, 31, 32} && a != b
    ensures ErrorName(a) != ErrorName(b)
  {
  }

  lemma PairNamesDistinct3x4(a: int, b: int)
    requires a in {25, 26, 31, 32} && b in {34, 35, 40, 41} && a != b
    ensures ErrorName(a) != ErrorName(b)
  {
  }

  lemma PairNamesDistinct3x5(a: int, b: int)
    requires a in {25, 26, 31, 32} && b in {50, 51, 52, 60} && a != b
    ensures ErrorName(a) != ErrorName(b)
  {
  }

  lemma PairNamesDistinct3x6(a: int, b: int)
    requires a in {25, 26, 31, 32} && b in {61, 62, 63, 64} && a != b
    ensures ErrorName(a) != ErrorName(b)
  {
  }

  lemma PairNamesDistinct3x7(a: int, b: int)
    requires a in {25, 26, 31, 32} && b in {65, 66, 67, 68} && a != b
    ensures ErrorName(a) != ErrorName(b)
  {
  }

  lemma PairNamesDistinct3x8(a: int, b: int)
    requires a in {25, 26, 31, 32} && b in {69, 70, 71, 72} && a != b
    ensures ErrorName(a) != ErrorName(b)
  {
  }

  lemma PairNamesDistinct3x9(a: int, b: int)
    requires a in {25, 26, 31, 32} && b in {79, 80, 98, 99} && a != b
    ensures ErrorName(a) != ErrorName(b)
  {
  }

  lemma PairNamesDistinct3x10(a: int, b: int)
    requires a in {25, 26, 31, 32} && b in {100, 101, 102, 103} && a != b
    ensures ErrorName(a) != ErrorName(b)
  {
  }

  lemma PairNamesDistinct3x11(a: int, b: int)
    requires a in {25, 26, 31, 32} && b in {104, 106, 110, 111} && a != b
    ensures ErrorName(a) != ErrorName(b)
  {
  }

  lemma PairNamesDistinct3x12(a: int, b: int)
    requires a in {25, 26, 31, 32} && b in {112, 113, 115, 116} && a != b
    ensures ErrorName(a) != ErrorName(b)
  {
  }

  lemma PairNamesDistinct4x4(a: int, b: int)
    requires a in {34, 35, 40, 41} && b in {34, 35, 40, 41} && a != b
    ensures ErrorName(a) != ErrorName(b)
  {
  }

  lemma PairNamesDistinct4x5(a: int, b: int)
    requires a in {34, 35, 40, 41} && b in {50, 51, 52, 60} && a != b
    ensures ErrorName(a) != ErrorName(b)
  {
  }

  lemma PairNamesDistinct4x6(a: int, b: int)
    requires a in {34, 35, 40, 41} && b in {61, 62, 63, 64} && a != b
    ensures ErrorName(a) != ErrorName(b)
  {
  }

  lemma PairNamesDistinct4x7(a: int, b: int)
    requires a in {34, 35, 40, 41} && b in {65, 66, 67, 68} && a != b
    ensures ErrorName(a) != ErrorName(b)
  {
  }

  lemma PairNamesDistinct4x8(a: int, b: int)
    requires a in {34, 35, 40, 41} && b in {69, 70, 71, 72} && a != b
    ensures ErrorName(a) != ErrorName(b)
  {
  }

  lemma PairNamesDistinct4x9(a: int, b: int)
    requires a in {34, 35, 40, 41} && b in {79, 80, 98, 99} && a != b
    ensures ErrorName(a) != ErrorName(b)
  {
  }

  lemma PairNamesDistinct4x10(a: int, b: int)
    requires a in {34, 35, 40, 41} && b in {100, 101, 102, 103} && a != b
    ensures ErrorName(a) != ErrorName(b)
  {
  }

  lemma PairNamesDistinct4x11(a: int, b: int)
    requires a in {34, 35, 40, 41} && b in {104, 106, 110, 111} && a != b
    ensures ErrorName(a) != ErrorName(b)
  {
  }

  lemma PairNamesDistinct4x12(a: int, b: int)
    requires a in {34, 35, 40, 41} && b in {112, 113, 115, 116} && a != b
    ensures ErrorName(a) != ErrorName(b)
  {
  }

  lemma PairNamesDistinct5x5(a: int, b: int)
    requires a in {50, 51, 52, 60} && b in {50, 51, 52, 60} && a != b
    ensures ErrorName(a) != ErrorName(b)
  {
  }

  lemma PairNamesDistinct5x6(a: int, b: int)
    requires a in {50, 51, 52, 60} && b in {61, 62, 63, 64} && a != b
    ensures ErrorName(a) != ErrorName(b)
  {
  }

  lemma PairNamesDistinct5x7(a: int, b: int)
    requires a in {50, 51, 52, 60} && b in {65, 66, 67, 68} && a != b
    ensures ErrorName(a) != ErrorName(b)
  {
  }

  lemma PairNamesDistinct5x8(a: int, b: int)
    requires a in {50, 51, 52, 60} && b in {69, 70, 71, 72} && a != b
    ensures ErrorName(a) != ErrorName(b)
  {
  }

  lemma PairNamesDistinct5x9(a: int, b: int)
    requires a in {50, 51, 52, 60} && b in {79, 80, 98, 99} && a != b
    ensures ErrorName(a) != ErrorName(b)
  {
  }

  lemma PairNamesDistinct5x10(a: int, b: int)
    requires a in {50, 51, 52, 60} && b in {100, 101, 102, 103} && a != b
    ensures ErrorName(a) != ErrorName(b)
  {
  }

  lemma PairNamesDistinct5x11(a: int, b: int)
    requires a in {50, 51, 52, 60} && b in {104, 106, 110, 111} && a != b
    ensures ErrorName(a) != ErrorName(b)
  {
  }

  lemma PairNamesDistinct5x12(a: int, b: int)
    requires a in {50, 51, 52, 60} && b in {112, 113, 115, 116} && a != b
    ensures ErrorName(a) != ErrorName(b)
  {
  }

  lemma PairNamesDistinct6x6(a: int, b: int)
    requires a in {61, 62, 63, 64} && b in {61, 62, 63, 64} && a != b
    ensures ErrorName(a) != ErrorName(b)
  {
  }

  lemma PairNamesDistinct6x7(a: int, b: int)
    requires a in {61, 62, 63, 64} && b in {65, 66, 67, 68} && a != b
    ensures ErrorName(a) != ErrorName(b)
  {
  }

  lemma PairNamesDistinct6x8(a: int, b: int)
    requires a in {61, 62, 63, 64} && b in {69, 70, 71, 72} && a != b
    ensures ErrorName(a) != ErrorName(b)
  {
  }

  lemma PairNamesDistinct6x9(a: int, b: int)
    requires a in {61, 62, 63, 64} && b in {79, 80, 98, 99} && a != b
    ensures ErrorName(a) != ErrorName(b)
  {
  }

  lemma PairNamesDistinct6x10(a: int, b: int)
    requires a in {61, 62, 63, 64} && b in {100, 101, 102, 103} && a != b
    ensures ErrorName(a) != ErrorName(b)
  {
  }

  lemma PairNamesDistinct6x11(a: int, b: int)
    requires a in {61, 62, 63, 64} && b in {104, 106, 110, 111} && a != b
    ensures ErrorName(a) != ErrorName(b)
  {
  }

  lemma PairNamesDistinct6x12(a: int, b: int)
    requires a in {61, 62, 63, 64} && b in {112, 113, 115, 116} && a != b
    ensures ErrorName(a) != ErrorName(b)
  {
  }

  lemma PairNamesDistinct7x7(a: int, b: int)
    requires a in {65, 66, 67, 68} && b in {65, 66, 67, 68} && a != b
    ensures ErrorName(a) != ErrorName(b)
  {
  }

  lemma PairNamesDistinct7x8(a: int, b: int)
    requires a in {65, 66, 67, 68} && b in {69, 70, 71, 72} && a != b
    ensures ErrorName(a) != ErrorName(b)
  {
  }

  lemma PairNamesDistinct7x9(a: int, b: int)
    requires a in {65, 66, 67, 68} && b in {79, 80, 98, 99} && a != b
    ensures ErrorName(a) != ErrorName(b)
  {
  }

  lemma PairNamesDistinct7x10(a: int, b: int)
    requires a in {65, 66, 67, 68} && b in {100, 101, 102, 103} && a != b
    ensures ErrorName(a) != ErrorName(b)
  {
  }

  lemma PairNamesDistinct7x11(a: int, b: int)
    requires a in {65, 66, 67, 68} && b in {104, 106, 110, 111} && a != b
    ensures ErrorName(a) != ErrorName(b)
  {
  }

  lemma PairNamesDistinct7x12(a: int, b: int)
    requires a in {65, 66, 67, 68} && b in {112, 113, 115, 116} && a != b
    ensures ErrorName(a) != ErrorName(b)
  {
  }

  lemma PairNamesDistinct8x8(a: int, b: int)
    requires a in {69, 70, 71, 72} && b in {69, 70, 71, 72} && a != b
    ensures ErrorName(a) != ErrorName(b)
  {
  }

  lemma PairNamesDistinct8x9(a: int, b: int)
    requires a in {69, 70, 71, 72} && b in {79, 80, 98, 99} && a != b
    ensures ErrorName(a) != ErrorName(b)
  {
  }

  lemma PairNamesDistinct8x10(a: int, b: int)
    requires a in {69, 70, 71, 72} && b in {100, 101, 102, 103} && a != b
    ensures ErrorName(a) != ErrorName(b)
  {
  }

  lemma PairNamesDistinct8x11(a: int, b: int)
    requires a in {69, 70, 71, 72} && b in {104, 106, 110, 111} && a != b
    ensures ErrorName(a) != ErrorName(b)
  {
  }

  lemma PairNamesDistinct8x12(a: int, b: int)
    requires a in {69, 70, 71, 72} && b in {112, 113, 115, 116} && a != b
    ensures ErrorName(a) != ErrorName(b)
  {
  }

  lemma PairNamesDistinct9x9(a: int, b: int)
    requires a in {79, 80, 98, 99} && b in {79, 80, 98, 99} && a != b
    ensures ErrorName(a) != ErrorName(b)
  {
  }

  lemma PairNamesDistinct9x10(a: int, b: int)
    requires a in {79, 80, 98, 99} && b in {100, 101, 102, 103} && a != b
    ensures ErrorName(a) != ErrorName(b)
  {
  }

  lemma PairNamesDistinct9x11(a: int, b: int)
    requires a in {79, 80, 98, 99} && b in {104, 106, 110, 111} && a != b
    ensures ErrorName(a) != ErrorName(b)
  {
  }

  lemma PairNamesDistinct9x12(a: int, b: int)
    requires a in {79, 80, 98, 99} && b in {112, 113, 115, 116} && a != b
    ensures ErrorName(a) != ErrorName(b)
  {
  }

  lemma PairNamesDistinct10x10(a: int, b: int)
    requires a in {100, 101, 102, 103} && b in {100, 101, 102, 103} && a != b
    ensures ErrorName(a) != ErrorName(b)
  {
  }

  lemma PairNamesDistinct10x11(a: int, b: int)
    requires a in {100, 101, 102, 103} && b in {104, 106, 110, 111} && a != b
    ensures ErrorName(a) != ErrorName(b)
  {
  }

  lemma PairNamesDistinct10x12(a: int, b: int)
    requires a in {100, 101, 102, 103} && b in {112, 113, 115, 116} && a != b
    ensures ErrorName(a) != ErrorName(b)
  {
  }

  lemma PairNamesDistinct11x11(a: int, b: int)
    requires a in {104, 106, 110, 111} && b in {104, 106, 110, 111} && a != b
    ensures ErrorName(a) != ErrorName(b)
  {
  }

  lemma PairNamesDistinct11x12(a: int, b: int)
    requires a in {104, 106, 110, 111} && b in {112, 113, 115, 116} && a != b
    ensures ErrorName(a) != ErrorName(b)
  {
  }

  lemma PairNamesDistinct12x12(a: int, b: int)
    requires a in {112, 113, 115, 116} && b in {112, 113, 115, 116} && a != b
    ensures ErrorName(a) != ErrorName(b)
  {
  }
}
