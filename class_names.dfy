/**
 * Class names. The host language displays a class as "org.example.Foo"; the
 * runtime, and so the patch registry, keys classes by the internal form
 * "org/example/Foo".
 */
module ClassNames {

  /** One character of the internal form: a '.' becomes '/', anything else is kept. */
  function InternalChar(c: char): (d: char)
    ensures d != '.'
    ensures c != '.' ==> d == c
  {
    if c == '.' then '/' else c
  }

  /** The two package separators: '.' in the display form, '/' in the internal form. */
  predicate IsSeparator(c: char) {
    c == '.' || c == '/'
  }

  /** Two characters that give the same character of an internal name. */
  predicate SameSeparatorClass(c: char, d: char) {
    c == d || (IsSeparator(c) && IsSeparator(d))
  }

  /**
   * The registry key of a displayed class name: every '.' replaced by '/',
   * every other character and the length unchanged.
   */
  function InternalName(s: string): (r: string)
    ensures |r| == |s|
    ensures forall i :: 0 <= i < |s| ==> r[i] == InternalChar(s[i])
    ensures '.' !in r
  {
    if s == [] then [] else [InternalChar(s[0])] + InternalName(s[1..])
  }

  /** A name already in internal form is its own key. */
  lemma InternalNameOfInternal(s: string)
    requires '.' !in s
    ensures InternalName(s) == s
  {
  }

  /** Normalising twice is normalising once. */
  lemma InternalNameIdempotent(s: string)
    ensures InternalName(InternalName(s)) == InternalName(s)
  {
    InternalNameOfInternal(InternalName(s));
  }

  /** Two characters normalise alike exactly when they are equal or both separators. */
  lemma InternalCharAlike(c: char, d: char)
    ensures InternalChar(c) == InternalChar(d) <==> SameSeparatorClass(c, d)
  {
  }

  /**
   * Two displayed names give the same registry key exactly when they have
   * the same length and differ only by '.' against '/'.
   */
  lemma SameKeyIff(a: string, b: string)
    ensures InternalName(a) == InternalName(b) <==>
      |a| == |b| && forall i :: 0 <= i < |a| ==> SameSeparatorClass(a[i], b[i])
  {
    var ka, kb := InternalName(a), InternalName(b);
    if ka == kb {
      forall i | 0 <= i < |a| ensures SameSeparatorClass(a[i], b[i]) {
        assert ka[i] == kb[i];
        InternalCharAlike(a[i], b[i]);
      }
    }
    if |a| == |b| && forall i :: 0 <= i < |a| ==> SameSeparatorClass(a[i], b[i]) {
      forall i | 0 <= i < |a| ensures ka[i] == kb[i] {
        InternalCharAlike(a[i], b[i]);
      }
      assert ka == kb;
    }
  }

  /** Normalising a concatenation normalises each part. */
  lemma {:induction false} InternalNameConcat(x: string, y: string)
    ensures InternalName(x + y) == InternalName(x) + InternalName(y)
  {
    if x != [] {
      calc {
        InternalName(x + y);
        { assert (x + y)[0] == x[0]; assert (x + y)[1..] == x[1..] + y; }
        [InternalChar(x[0])] + InternalName(x[1..] + y);
        { InternalNameConcat(x[1..], y); }
        [InternalChar(x[0])] + InternalName(x[1..]) + InternalName(y);
      }
    } else {
      assert x + y == y;
    }
  }

  /**
   * Writing the last separator as '.' or as '/' gives the same key: with
   * pkg = "org.example" and cls = "Foo", "org.example.Foo" and
   * "org/example/Foo" both have the key "org/example/Foo".
   */
  lemma DottedAndSlashedShareKey(pkg: string, cls: string)
    requires '.' !in cls
    ensures InternalName(pkg + "." + cls) == InternalName(pkg + "/" + cls) == InternalName(pkg) + "/" + cls
  {
    InternalNameConcat(pkg + ".", cls);
    InternalNameConcat(pkg, ".");
    InternalNameConcat(pkg + "/", cls);
    InternalNameConcat(pkg, "/");
    InternalNameOfInternal(cls);
    assert InternalName(".") == "/" == InternalName("/");
  }
}
