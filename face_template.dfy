/** `FaceTemplateDlib`: an immutable template of version V16 whose equality and hash go by
    content. `FloatArray.contentEquals` and `contentHashCode` are those of
    `java.util.Arrays` for `float[]`, which compare and hash `Float.floatToIntBits` of
    each element: bit patterns, with every NaN collapsed to one canonical pattern. */
module FaceTemplates {

  /** A Kotlin `Float`, by its IEEE-754 single-precision bit pattern. */
  type FloatBits = bv32

  /** The pattern `floatToIntBits` gives every NaN. */
  const CanonicalNaN: bv32 := 0x7fc0_0000

  /** All exponent bits set and a non-zero fraction. */
  predicate IsNaN(f: FloatBits) {
    f & 0x7f80_0000 == 0x7f80_0000 && f & 0x007f_ffff != 0
  }

  /** `Float.floatToIntBits`. */
  function FloatToIntBits(f: FloatBits): (b: bv32)
    ensures IsNaN(f) ==> b == CanonicalNaN
    ensures !IsNaN(f) ==> b == f
    ensures IsNaN(b) == IsNaN(f)
  {
    if IsNaN(f) then CanonicalNaN else f
  }

  /** `FaceTemplateVersionV16`, the one version the engine produces. */
  datatype Version = V16

  /** A template: its version and its data. */
  datatype Template = Template(version: Version, data: seq<FloatBits>)

  /** The `FaceTemplateDlib(data)` constructor: the version is fixed. */
  function MakeDlibTemplate(data: seq<FloatBits>): (t: Template)
    ensures t.version == V16 && t.data == data
  {
    Template(V16, data)
  }

  /** Whatever `equals` may be handed: null, a `FaceTemplateDlib`, or an object of another
      class (possibly another `FaceTemplate` with the same data). */
  datatype AnyObject = Null | DlibTemplate(template: Template) | OtherObject(data: seq<FloatBits>)

  /** `a.contentEquals(b)` on `FloatArray`s. */
  predicate ContentEquals(a: seq<FloatBits>, b: seq<FloatBits>) {
    |a| == |b| && forall i :: 0 <= i < |a| ==> FloatToIntBits(a[i]) == FloatToIntBits(b[i])
  }

  /** `this.equals(other)`: `other is FaceTemplateDlib && other.data.contentEquals(data)`. */
  predicate Equals(this_: Template, other: AnyObject): (eq: bool)
    ensures eq ==> other.DlibTemplate? && |other.template.data| == |this_.data|
  {
    other.DlibTemplate? && ContentEquals(other.template.data, this_.data)
  }

  /** `FloatArray.contentHashCode()`: starts at 1 and folds `31 * h + floatToIntBits(e)`
      in 32-bit wrap-around `Int` arithmetic. */
  function ContentHashCode(s: seq<FloatBits>): bv32
    decreases |s|
  {
    if s == [] then 1 else HashStep(ContentHashCode(s[..|s| - 1]), s[|s| - 1])
  }

  function HashStep(h: bv32, e: FloatBits): bv32 {
    Combine(h, FloatToIntBits(e))
  }

  /** `hashCode()`: `31 * version.hashCode() + data.contentHashCode()`, wrapping. The
      version object's own hash is not part of this model, so it is a parameter. */
  function HashCode(t: Template, versionHash: Version -> bv32): bv32 {
    Combine(versionHash(t.version), ContentHashCode(t.data))
  }

  /** `31 * x + y` on `Int`s, wrapping. */
  function Combine(x: bv32, y: bv32): bv32 {
    31 * x + y
  }

  lemma EqualsReflexive(t: Template)
    ensures Equals(t, DlibTemplate(t))
  {
  }

  lemma EqualsSymmetric(a: Template, b: Template)
    ensures Equals(a, DlibTemplate(b)) <==> Equals(b, DlibTemplate(a))
  {
  }

  lemma EqualsTransitive(a: Template, b: Template, c: Template)
    requires Equals(a, DlibTemplate(b)) && Equals(b, DlibTemplate(c))
    ensures Equals(a, DlibTemplate(c))
  {
  }

  /** Null and objects of other classes are never equal, whatever data they hold. */
  lemma EqualsOnlyDlibTemplates(t: Template, other: AnyObject)
    requires !other.DlibTemplate?
    ensures !Equals(t, other)
  {
  }

  /** Equality goes by content, not identity: two templates built from equal data are
      equal. */
  lemma EqualsByContent(a: seq<FloatBits>, b: seq<FloatBits>)
    requires a == b
    ensures Equals(MakeDlibTemplate(a), DlibTemplate(MakeDlibTemplate(b)))
  {
  }

  lemma DifferentLengthsUnequal(a: Template, b: Template)
    requires |a.data| != |b.data|
    ensures !Equals(a, DlibTemplate(b))
  {
  }

  /** One differing element that is not a NaN makes two templates unequal. */
  lemma DifferentElementUnequal(a: Template, b: Template, i: int)
    requires 0 <= i < |a.data| && i < |b.data|
    requires a.data[i] != b.data[i] && !(IsNaN(a.data[i]) && IsNaN(b.data[i]))
    ensures !Equals(a, DlibTemplate(b))
  {
    assert FloatToIntBits(a.data[i]) != FloatToIntBits(b.data[i]);
  }

  /** Bit patterns, not values: +0.0 and -0.0 are equal floats but unequal templates,
      while NaNs with different payloads compare equal. */
  lemma BitSemanticsOfEquality()
    ensures !Equals(MakeDlibTemplate([0x0000_0000]), DlibTemplate(MakeDlibTemplate([0x8000_0000])))
    ensures Equals(MakeDlibTemplate([0x7fc0_0000]), DlibTemplate(MakeDlibTemplate([0xffc0_0001])))
  {
    var zero, minusZero := MakeDlibTemplate([0x0000_0000]), MakeDlibTemplate([0x8000_0000]);
    assert !IsNaN(zero.data[0]) && !IsNaN(minusZero.data[0]);
    assert FloatToIntBits(zero.data[0]) != FloatToIntBits(minusZero.data[0]);
  }

  /** Equal contents hash equally. */
  lemma {:induction false} ContentHashCodeRespectsEquals(a: seq<FloatBits>, b: seq<FloatBits>)
    requires ContentEquals(a, b)
    ensures ContentHashCode(a) == ContentHashCode(b)
    decreases |a|
  {
    if a != [] {
      var n := |a| - 1;
      assert ContentEquals(a[..n], b[..n]) by {
        forall i | 0 <= i < n
          ensures FloatToIntBits(a[..n][i]) == FloatToIntBits(b[..n][i])
        {
          assert a[..n][i] == a[i] && b[..n][i] == b[i];
        }
      }
      ContentHashCodeRespectsEquals(a[..n], b[..n]);
      assert FloatToIntBits(a[n]) == FloatToIntBits(b[n]);
    }
  }

  /** Equal templates have equal hash codes: the version is always V16 and the contents
      hash equally. */
  lemma HashCodeRespectsEquals(a: Template, b: Template, versionHash: Version -> bv32)
    requires Equals(a, DlibTemplate(b))
    ensures HashCode(a, versionHash) == HashCode(b, versionHash)
  {
    ContentHashCodeRespectsEquals(b.data, a.data);
    assert a.version == V16 == b.version;
  }
}
