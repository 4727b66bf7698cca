/**
 * The state-changing side of the generated Patch code: `apply` and `<<` update the fields of a
 * struct in place, and the Status impl's `is_empty` is an early-return scan over the entries.
 */
module PatchStruct {
  import opened Wrappers
  import opened Patching
  import PatchLaws

  /** The cargo features that switch on `<<` between patches (`merge` and `op`). */
  datatype Features = Features(merge: bool, op: bool)

  /** A value of a struct that derives Patch; `apply` assigns its fields one at a time. */
  class Instance {
    const ty: Ty
    var values: seq<Value>

    ghost predicate Valid()
      reads this
    {
      ty.Struct? && WellFormed(ty) && ValueOf(ty, Record(values))
    }

    /** The struct as a value of the model. */
    function Current(): Value
      reads this
    {
      Record(values)
    }

    constructor (ty: Ty, v: Value)
      requires ty.Struct? && WellFormed(ty) && ValueOf(ty, v)
      ensures Valid() && this.ty == ty && Current() == v
    {
      this.ty := ty;
      values := v.fields;
    }

    /**
     * The generated `apply`: first every renamed field with a `Some` entry is patched by its
     * own `apply`, then every original field with a `Some` entry is overwritten.
     */
    method Apply(patch: PatchValue)
      requires Valid() && PatchOf(ty, patch)
      modifies this
      ensures Valid()
      ensures Current() == Patching.Apply(ty, old(Current()), patch)
    {
      var fs := ty.fields;
      ghost var before := values;
      var i := 0;
      while i < |fs|
        invariant 0 <= i <= |fs| && |values| == |fs|
        invariant forall j | 0 <= j < |fs| ::
          values[j] == if j < i && IsRetyped(fs[j]) then ApplyField(fs[j], before[j], patch.entries[j]) else before[j]
      {
        if IsRetyped(fs[i]) && patch.entries[i].Some? {
          assert FieldWellFormed(fs[i]) && FieldValueOf(fs[i], before[i]) && PayloadOf(fs[i], patch.entries[i].value);
          values := values[i := Patching.Apply(fs[i].kind.ty, values[i], patch.entries[i].value)];
        }
        i := i + 1;
      }
      i := 0;
      while i < |fs|
        invariant 0 <= i <= |fs| && |values| == |fs|
        invariant forall j | 0 <= j < |fs| ::
          values[j] == if j < i || IsRetyped(fs[j]) then ApplyField(fs[j], before[j], patch.entries[j]) else before[j]
      {
        if !IsRetyped(fs[i]) && patch.entries[i].Some? {
          assert PayloadOf(fs[i], patch.entries[i].value);
          values := values[i := patch.entries[i].value.v];
        }
        i := i + 1;
      }
      assert Current().fields == Patching.Apply(ty, old(Current()), patch).fields;
    }

    /** `self << patch` (feature `op`): apply the patch and hand back the same struct. */
    method Shl(patch: PatchValue)
      requires Valid() && PatchOf(ty, patch)
      modifies this
      ensures Valid()
      ensures Current() == Patching.Apply(ty, old(Current()), patch)
    {
      Apply(patch);
    }
  }

  /** A value of `Option<T>` whose patch is `Option<P>`: the std adapter updates it in place. */
  class OptionalSlot {
    const ty: Ty
    var value: Value

    ghost predicate Valid()
      reads this
    {
      ty.Optional? && WellFormed(ty) && ValueOf(ty, value)
    }

    constructor (ty: Ty, v: Value)
      requires ty.Optional? && WellFormed(ty) && ValueOf(ty, v)
      ensures Valid() && this.ty == ty && value == v
    {
      this.ty := ty;
      value := v;
    }

    /**
     * `Patch<Option<P>>::apply`: a present patch is applied to the present value in place or,
     * when the value is `None`, converted with `From`; an absent patch clears the value.
     */
    method Apply(patch: PatchValue)
      requires Valid() && PatchOf(ty, patch)
      modifies this
      ensures Valid() && value == Patching.Apply(ty, old(value), patch)
    {
      if patch.o.Some? {
        if value.Just? {
          value := Just(Patching.Apply(ty.inner, value.v, patch.o.value));
        } else {
          value := Just(Patching.Apply(ty.inner, ty.base, patch.o.value));
        }
      } else {
        value := Nothing;
      }
    }
  }

  /** The generated `is_empty` (feature `status`): `false` at the first `Some` entry, else `true`. */
  method IsEmptyPatch(patch: PatchValue) returns (empty: bool)
    requires patch.StructPatch?
    ensures empty <==> forall i | 0 <= i < |patch.entries| :: patch.entries[i] == None
  {
    var i := 0;
    while i < |patch.entries|
      invariant 0 <= i <= |patch.entries|
      invariant forall j | 0 <= j < i :: patch.entries[j] == None
    {
      if patch.entries[i].Some? {
        return false;
      }
      i := i + 1;
    }
    return true;
  }

  /**
   * `patch << patch` exists only when both `op` and `merge` are enabled, and then it is merge;
   * with `op` alone the patch struct has no `<<`.
   */
  function ShlPatch(features: Features, ty: Ty, p1: PatchValue, p2: PatchValue): (r: Option<PatchValue>)
    requires DerivedOnly(ty) && PatchOf(ty, p1) && PatchOf(ty, p2)
    ensures r.Some? <==> features.op && features.merge
    ensures r.Some? ==> PatchOf(ty, r.value)
  {
    if features.op && features.merge then Some(Merge(ty, p1, p2)) else None
  }

  /** Applying `p1 << p2` is applying `p1` and then `p2`. */
  lemma ShlPatchLaw(features: Features, ty: Ty, v: Value, p1: PatchValue, p2: PatchValue)
    requires features.op && features.merge
    requires WellFormed(ty) && DerivedOnly(ty) && ValueOf(ty, v) && PatchOf(ty, p1) && PatchOf(ty, p2)
    ensures Patching.Apply(ty, v, ShlPatch(features, ty, p1, p2).value) == Patching.Apply(ty, Patching.Apply(ty, v, p1), p2)
  {
    PatchLaws.MergeLaw(ty, v, p1, p2);
  }
}
