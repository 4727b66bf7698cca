/**
 * The laws that the Patch, PatchStatus and Merge traits state in their doc comments, proved for
 * every type the generator and the adapter impls produce, plus the laws of the generated `+`.
 */
module PatchLaws {
  import opened Wrappers
  import opened Patching

  // ---------------------------------------------------------------------------
  // into_patch: "a patch that when applied turns any struct of the same type into Self"
  // ---------------------------------------------------------------------------

  lemma {:induction false} IntoPatchLaw(ty: Ty, v: Value, w: Value)
    requires WellFormed(ty) && ValueOf(ty, v) && ValueOf(ty, w)
    ensures Apply(ty, w, IntoPatch(ty, v)) == v
    decreases ty, 0
  {
    match ty
    case Struct(fs) =>
      var r := Apply(ty, w, IntoPatch(ty, v));
      forall i | 0 <= i < |fs| ensures r.fields[i] == v.fields[i] {
        IntoPatchFieldLaw(fs[i], v.fields[i], w.fields[i]);
      }
      assert r.fields == v.fields;
    case Boxed(t) =>
      IntoPatchLaw(t, v, w);
    case Optional(t, base) =>
      if v.Just? {
        if w.Just? { IntoPatchLaw(t, v.v, w.v); } else { IntoPatchLaw(t, v.v, base); }
      }
  }

  lemma {:induction false} IntoPatchFieldLaw(f: Field, v: Value, w: Value)
    requires FieldWellFormed(f) && FieldValueOf(f, v) && FieldValueOf(f, w)
    ensures ApplyField(f, w, Some(IntoPatchField(f, v))) == v
    decreases f, 1
  {
    match f.kind
    case Original =>
    case Retyped(t) => IntoPatchLaw(t, v, w);
  }

  /** into_patch of a derived struct sets every entry. */
  lemma IntoPatchIsFull(fs: seq<Field>, v: Value)
    requires ValueOf(Struct(fs), v)
    ensures forall i | 0 <= i < |fs| :: IntoPatch(Struct(fs), v).entries[i].Some?
    ensures |fs| > 0 ==> !IsEmpty(IntoPatch(Struct(fs), v).entries)
  {
    if |fs| > 0 {
      assert IntoPatch(Struct(fs), v).entries[0].Some?;
    }
  }

  // ---------------------------------------------------------------------------
  // into_patch_by_diff: "a patch that when applied turns previous_struct into Self"
  // ---------------------------------------------------------------------------

  lemma {:induction false} DiffLaw(ty: Ty, current: Value, previous: Value)
    requires WellFormed(ty) && ValueOf(ty, current) && ValueOf(ty, previous)
    ensures Apply(ty, previous, Diff(ty, current, previous)) == current
    decreases ty, 0
  {
    match ty
    case Struct(fs) =>
      var r := Apply(ty, previous, Diff(ty, current, previous));
      forall i | 0 <= i < |fs| ensures r.fields[i] == current.fields[i] {
        DiffFieldLaw(fs[i], current.fields[i], previous.fields[i]);
      }
      assert r.fields == current.fields;
    case Boxed(t) =>
      DiffLaw(t, current, previous);
    case Optional(t, base) =>
      if current.Just? && previous.Just? {
        DiffLaw(t, current.v, previous.v);
      } else if current.Just? {
        IntoPatchLaw(t, current.v, base);
      }
  }

  lemma {:induction false} DiffFieldLaw(f: Field, current: Value, previous: Value)
    requires FieldWellFormed(f) && FieldValueOf(f, current) && FieldValueOf(f, previous)
    ensures ApplyField(f, previous, DiffField(f, current, previous)) == current
    decreases f, 1
  {
    if current != previous {
      match f.kind
      case Original =>
      case Retyped(t) => DiffLaw(t, current, previous);
    }
  }

  /** A derived struct's diff is empty exactly when nothing changed. */
  lemma DiffEmptyIffEqual(fs: seq<Field>, current: Value, previous: Value)
    requires ValueOf(Struct(fs), current) && ValueOf(Struct(fs), previous)
    ensures IsEmpty(Diff(Struct(fs), current, previous).entries) <==> current == previous
  {
    var d := Diff(Struct(fs), current, previous);
    if IsEmpty(d.entries) {
      forall i | 0 <= i < |fs| ensures current.fields[i] == previous.fields[i] {
        assert d.entries[i].None?;
      }
      assert current.fields == previous.fields;
    }
  }

  // ---------------------------------------------------------------------------
  // new_empty_patch and is_empty
  // ---------------------------------------------------------------------------

  /** A patch struct with no entry set changes nothing; in particular new_empty_patch() does not. */
  lemma EmptyApplyIsIdentity(fs: seq<Field>, v: Value, p: PatchValue)
    requires WellFormed(Struct(fs)) && ValueOf(Struct(fs), v) && PatchOf(Struct(fs), p)
    requires IsEmpty(p.entries)
    ensures Apply(Struct(fs), v, p) == v
  {
    var r := Apply(Struct(fs), v, p);
    forall i | 0 <= i < |fs| ensures r.fields[i] == v.fields[i] {
      assert p.entries[i].None?;
      assert r.fields[i] == ApplyField(fs[i], v.fields[i], p.entries[i]);
    }
    assert r.fields == v.fields;
  }

  lemma NewEmptyPatchLaw(fs: seq<Field>, v: Value)
    requires WellFormed(Struct(fs)) && ValueOf(Struct(fs), v)
    ensures IsEmpty(EmptyPatch(Struct(fs)).entries)
    ensures Apply(Struct(fs), v, EmptyPatch(Struct(fs))) == v
  {
    EmptyApplyIsIdentity(fs, v, EmptyPatch(Struct(fs)));
  }

  /** A boxed empty patch is as harmless as the unboxed one. */
  lemma BoxedEmptyPatchLaw(fs: seq<Field>, v: Value)
    requires WellFormed(Struct(fs)) && ValueOf(Struct(fs), v)
    ensures Apply(Boxed(Struct(fs)), v, EmptyPatch(Boxed(Struct(fs)))) == v
  {
    NewEmptyPatchLaw(fs, v);
  }

  /**
   * The `Option` adapter's new_empty_patch is `Some(T::new_empty_patch())`, not `None`: applied to
   * `None` it produces `Some(From(empty))`, here the `From` base value itself.
   */
  lemma OptionEmptyPatchFillsNone(fs: seq<Field>, base: Value)
    requires WellFormed(Optional(Struct(fs), base))
    ensures EmptyPatch(Optional(Struct(fs), base)).o.Some?
    ensures Apply(Optional(Struct(fs), base), Nothing, EmptyPatch(Optional(Struct(fs), base))) == Just(base)
  {
    NewEmptyPatchLaw(fs, base);
  }

  // ---------------------------------------------------------------------------
  // The Option<P> adapter through a derived field of type Option<Option<P>>
  // ---------------------------------------------------------------------------

  /** Absent leaves the field alone, `Some(None)` (JSON `null`) clears it, `Some(Some(p))` patches it. */
  lemma NullableFieldThreeWay(f: Field, t: Ty, base: Value, v: Value, q: PatchValue)
    requires f.kind == Retyped(Optional(t, base))
    requires WellFormed(t) && ValueOf(t, base) && ValueOf(Optional(t, base), v) && PatchOf(t, q)
    ensures ApplyField(f, v, None) == v
    ensures ApplyField(f, v, Some(OptionPatch(None))) == Nothing
    ensures v.Just? ==> ApplyField(f, v, Some(OptionPatch(Some(q)))) == Just(Apply(t, v.v, q))
    ensures v.Nothing? ==> ApplyField(f, v, Some(OptionPatch(Some(q)))) == Just(Apply(t, base, q))
  {
  }

  // ---------------------------------------------------------------------------
  // merge: "merge-then-apply equals apply-then-apply"
  // ---------------------------------------------------------------------------

  lemma {:induction false} MergeLaw(ty: Ty, v: Value, p1: PatchValue, p2: PatchValue)
    requires WellFormed(ty) && DerivedOnly(ty) && ValueOf(ty, v) && PatchOf(ty, p1) && PatchOf(ty, p2)
    ensures Apply(ty, Apply(ty, v, p1), p2) == Apply(ty, v, Merge(ty, p1, p2))
    decreases ty, 0
  {
    var fs := ty.fields;
    var lhs := Apply(ty, Apply(ty, v, p1), p2);
    var rhs := Apply(ty, v, Merge(ty, p1, p2));
    forall i | 0 <= i < |fs| ensures lhs.fields[i] == rhs.fields[i] {
      MergeFieldLaw(fs[i], v.fields[i], p1.entries[i], p2.entries[i]);
    }
    assert lhs.fields == rhs.fields;
  }

  lemma {:induction false} MergeFieldLaw(f: Field, v: Value, e1: Option<PatchValue>, e2: Option<PatchValue>)
    requires FieldWellFormed(f) && (f.kind.Retyped? ==> DerivedOnly(f.kind.ty))
    requires FieldValueOf(f, v) && EntryOf(f, e1) && EntryOf(f, e2)
    ensures ApplyField(f, ApplyField(f, v, e1), e2) == ApplyField(f, v, MergeEntry(f, e1, e2))
    decreases f, 1
  {
    match f.kind
    case Original =>
    case Retyped(t) =>
      if e1.Some? && e2.Some? {
        assert PayloadOf(f, e1.value) && PayloadOf(f, e2.value);
        MergeLaw(t, v, e1.value, e2.value);
      }
  }

  /** Merging is associative, so folding a list of patches with merge does not depend on grouping. */
  lemma {:induction false} MergeAssociative(ty: Ty, a: PatchValue, b: PatchValue, c: PatchValue)
    requires DerivedOnly(ty) && PatchOf(ty, a) && PatchOf(ty, b) && PatchOf(ty, c)
    ensures Merge(ty, Merge(ty, a, b), c) == Merge(ty, a, Merge(ty, b, c))
    decreases ty, 0
  {
    var fs := ty.fields;
    var lhs := Merge(ty, Merge(ty, a, b), c);
    var rhs := Merge(ty, a, Merge(ty, b, c));
    forall i | 0 <= i < |fs| ensures lhs.entries[i] == rhs.entries[i] {
      MergeEntryAssociative(fs[i], a.entries[i], b.entries[i], c.entries[i]);
    }
    assert lhs.entries == rhs.entries;
  }

  lemma {:induction false} MergeEntryAssociative(f: Field, a: Option<PatchValue>, b: Option<PatchValue>, c: Option<PatchValue>)
    requires (f.kind.Retyped? ==> DerivedOnly(f.kind.ty)) && EntryOf(f, a) && EntryOf(f, b) && EntryOf(f, c)
    ensures MergeEntry(f, MergeEntry(f, a, b), c) == MergeEntry(f, a, MergeEntry(f, b, c))
    decreases f, 1
  {
    match f.kind
    case Original =>
    case Retyped(t) =>
      if a.Some? && b.Some? && c.Some? {
        assert PayloadOf(f, a.value) && PayloadOf(f, b.value) && PayloadOf(f, c.value);
        MergeAssociative(t, a.value, b.value, c.value);
      }
  }

  /** The empty patch is a unit of merge on both sides. */
  lemma MergeEmptyUnit(ty: Ty, p: PatchValue)
    requires DerivedOnly(ty) && PatchOf(ty, p)
    ensures Merge(ty, p, EmptyPatch(ty)) == p
    ensures Merge(ty, EmptyPatch(ty), p) == p
  {
    var fs := ty.fields;
    var e := EmptyPatch(ty);
    assert Merge(ty, p, e).entries == p.entries;
    assert Merge(ty, e, p).entries == p.entries;
  }

  /** Merge is last-write-wins on original fields, hence not commutative. */
  lemma MergeNotCommutative()
    ensures var ty := Struct([Field("field", Original, Disable)]);
            var p1 := StructPatch([Some(Whole(Atom(1)))]);
            var p2 := StructPatch([Some(Whole(Atom(2)))]);
            PatchOf(ty, p1) && PatchOf(ty, p2) && DerivedOnly(ty) &&
            Merge(ty, p1, p2) == p2 && Merge(ty, p2, p1) == p1 && Merge(ty, p1, p2) != Merge(ty, p2, p1)
  {
    var ty := Struct([Field("field", Original, Disable)]);
    var p1 := StructPatch([Some(Whole(Atom(1)))]);
    var p2 := StructPatch([Some(Whole(Atom(2)))]);
    assert Merge(ty, p1, p2).entries == p2.entries;
    assert Merge(ty, p2, p1).entries == p1.entries;
  }

  // ---------------------------------------------------------------------------
  // The generated `+` on patches
  // ---------------------------------------------------------------------------

  /** No field is set on both sides. */
  predicate Disjoint(p1: PatchValue, p2: PatchValue)
    requires p1.StructPatch? && p2.StructPatch? && |p1.entries| == |p2.entries|
  {
    forall i | 0 <= i < |p1.entries| :: p1.entries[i].None? || p2.entries[i].None?
  }

  /** `+` succeeds with `entries` when every field's arm succeeds with the matching entry. */
  lemma AddImplOk(ty: Ty, positional: bool, p1: PatchValue, p2: PatchValue, combine: Combinator,
                  entries: seq<Option<PatchValue>>)
    requires AddCompiles(ty, positional) && PatchOf(ty, p1) && PatchOf(ty, p2) && |entries| == |ty.fields|
    requires forall i | 0 <= i < |entries| :: AddResults(ty, positional, p1, p2, combine)[i] == Ok(entries[i])
    ensures AddImpl(ty, positional, p1, p2, combine) == Ok(StructPatch(entries))
  {
    var rs := AddResults(ty, positional, p1, p2, combine);
    assert forall i | 0 <= i < |rs| :: !rs[i].Err?;
    var r := AddImpl(ty, positional, p1, p2, combine);
    assert r.value.entries == entries;
  }

  /** A value present on one side only wins, so the empty patch is a unit of `+` on both sides. */
  lemma AddEmptyUnit(ty: Ty, positional: bool, p: PatchValue, combine: Combinator)
    requires AddCompiles(ty, positional) && PatchOf(ty, p)
    ensures AddImpl(ty, positional, p, EmptyPatch(ty), combine) == Ok(p)
    ensures AddImpl(ty, positional, EmptyPatch(ty), p, combine) == Ok(p)
  {
    var e := EmptyPatch(ty);
    AddImplOk(ty, positional, p, e, combine, p.entries);
    AddImplOk(ty, positional, e, p, combine, p.entries);
  }

  /**
   * Where the model defines merge, it defines `+` too, whichever way its handles are paired.
   * In the source `+` additionally needs a user `impl Add<&P> for P` below every `addable`
   * renamed field, which the model takes to be the nested generated `+`.
   */
  lemma {:induction false} DerivedOnlyAddCompiles(ty: Ty, positional: bool)
    requires DerivedOnly(ty)
    ensures AddCompiles(ty, positional)
    decreases ty
  {
    forall i | 0 <= i < |ty.fields| && ty.fields[i].kind.Retyped?
      ensures AddCompiles(ty.fields[i].kind.ty, positional)
    {
      DerivedOnlyAddCompiles(ty.fields[i].kind.ty, positional);
    }
  }

  /** When no field is set on both sides, `+` never panics and equals merge. */
  lemma AddDisjointIsMerge(ty: Ty, positional: bool, p1: PatchValue, p2: PatchValue, combine: Combinator)
    requires DerivedOnly(ty) && PatchOf(ty, p1) && PatchOf(ty, p2) && Disjoint(p1, p2)
    ensures AddCompiles(ty, positional)
    ensures AddImpl(ty, positional, p1, p2, combine) == Ok(Merge(ty, p1, p2))
  {
    DerivedOnlyAddCompiles(ty, positional);
    var fs := ty.fields;
    var m := Merge(ty, p1, p2).entries;
    forall i | 0 <= i < |fs|
      ensures AddResults(ty, positional, p1, p2, combine)[i] == Ok(m[i])
    {
      assert m[i] == MergeEntry(fs[i], p1.entries[i], p2.entries[i]);
    }
    AddImplOk(ty, positional, p1, p2, combine, m);
  }

  /** Hence applying the sum of two disjoint patches is applying one after the other. */
  lemma AddDisjointApply(ty: Ty, v: Value, p1: PatchValue, p2: PatchValue, combine: Combinator)
    requires WellFormed(ty) && DerivedOnly(ty) && ValueOf(ty, v) && PatchOf(ty, p1) && PatchOf(ty, p2)
    requires Disjoint(p1, p2)
    ensures AddCompiles(ty, false)
    ensures Add(ty, p1, p2, combine) == Ok(Merge(ty, p1, p2))
    ensures Apply(ty, v, Merge(ty, p1, p2)) == Apply(ty, Apply(ty, v, p1), p2)
  {
    AddDisjointIsMerge(ty, false, p1, p2, combine);
    MergeLaw(ty, v, p1, p2);
  }

  /**
   * `+` on a struct with an `Option<AddressPatch>` field and no `addable`: it compiles although
   * merge does not, takes each value present on one side, and panics when both sides set the
   * optional field.
   */
  lemma AddOptionalField()
    ensures var address := Struct([Field("country", Original, Disable)]);
            var ty := Struct([Field("name", Original, Disable),
                              Field("address", Retyped(Optional(address, Record([Atom(0)]))), Disable)]);
            var p1 := StructPatch([Some(Whole(Atom(1))), None]);
            var p2 := StructPatch([None, Some(OptionPatch(Some(StructPatch([Some(Whole(Atom(7)))]))))]);
            var combine: Combinator := (g, a, b) => a;
            !DerivedOnly(ty) && AddCompiles(ty, false) && AddCompiles(ty, true) &&
            Add(ty, p1, p2, combine) == Ok(StructPatch([p1.entries[0], p2.entries[1]])) &&
            Add(ty, p2, p2, combine) == Err(ConflictPatches)
  {
    var address := Struct([Field("country", Original, Disable)]);
    var ty := Struct([Field("name", Original, Disable),
                      Field("address", Retyped(Optional(address, Record([Atom(0)]))), Disable)]);
    var p1 := StructPatch([Some(Whole(Atom(1))), None]);
    var p2 := StructPatch([None, Some(OptionPatch(Some(StructPatch([Some(Whole(Atom(7)))]))))]);
    var combine: Combinator := (g, a, b) => a;
    assert !DerivedOnly(ty.fields[1].kind.ty);
    assert ty.fields[..1] == [ty.fields[0]];
    assert GroupRank(ty.fields, 1) == 0;
    AddImplOk(ty, false, p1, p2, combine, [p1.entries[0], p2.entries[1]]);
    assert AddResults(ty, false, p2, p2, combine)[1] == Err(ConflictPatches);
  }

  /**
   * An original field set on both sides: `a + &b` for `addable`, `f(a, b)` (self's value first)
   * for `add = f`, and a panic otherwise, even when the two values are equal.
   */
  lemma AddBothPresent(ty: Ty, p1: PatchValue, p2: PatchValue, combine: Combinator, i: nat, a: int, b: int)
    requires AddCompiles(ty, false) && PatchOf(ty, p1) && PatchOf(ty, p2)
    requires i < |ty.fields| && ty.fields[i].kind.Original?
    requires p1.entries[i] == Some(Whole(Atom(a))) && p2.entries[i] == Some(Whole(Atom(b)))
    ensures ty.fields[i].add.Disable? ==> Add(ty, p1, p2, combine) == Err(ConflictPatches)
    ensures ty.fields[i].add.AddTrait? && Add(ty, p1, p2, combine).Ok? ==>
      Add(ty, p1, p2, combine).value.entries[i] == Some(Whole(Atom(a + b)))
    ensures ty.fields[i].add.AddFn? && Add(ty, p1, p2, combine).Ok? ==>
      Add(ty, p1, p2, combine).value.entries[i] == Some(combine(ty.fields[i].add.f, Whole(Atom(a)), Whole(Atom(b))))
  {
    var rs := AddResults(ty, false, p1, p2, combine);
    assert rs[i] == AddEntry(ty.fields[i], ty.fields[i].add, false, p1.entries[i], p2.entries[i], combine);
  }

  /** A struct whose fields, at every level, are all retyped or all original. */
  predicate Uniform(ty: Ty)
    decreases ty
  {
    ty.Struct? &&
    (forall i, j | 0 <= i < |ty.fields| && 0 <= j < |ty.fields| :: IsRetyped(ty.fields[i]) == IsRetyped(ty.fields[j])) &&
    forall i | 0 <= i < |ty.fields| :: ty.fields[i].kind.Retyped? ==> Uniform(ty.fields[i].kind.ty)
  }

  lemma {:induction false} CountKindAll(fs: seq<Field>, retyped: bool)
    requires forall j | 0 <= j < |fs| :: IsRetyped(fs[j]) == retyped
    ensures CountKind(fs, retyped) == |fs|
  {
    if fs != [] {
      CountKindAll(fs[..|fs| - 1], retyped);
    }
  }

  /** Without a mix of retyped and original fields the positional pairing is the right one. */
  lemma {:induction false} UniformAddAsWritten(ty: Ty, p1: PatchValue, p2: PatchValue, combine: Combinator)
    requires AddCompiles(ty, true) && AddCompiles(ty, false) && Uniform(ty) && PatchOf(ty, p1) && PatchOf(ty, p2)
    ensures AddAsWritten(ty, p1, p2, combine) == Add(ty, p1, p2, combine)
    decreases ty, 0
  {
    var fs := ty.fields;
    forall i | 0 <= i < |fs|
      ensures AddEntry(fs[i], Handle(fs, i, true), true, p1.entries[i], p2.entries[i], combine)
           == AddEntry(fs[i], Handle(fs, i, false), false, p1.entries[i], p2.entries[i], combine)
    {
      CountKindAll(fs[..i], IsRetyped(fs[i]));
      UniformAddEntry(fs[i], Handle(fs, i, false), p1.entries[i], p2.entries[i], combine);
    }
    assert AddResults(ty, true, p1, p2, combine) == AddResults(ty, false, p1, p2, combine);
  }

  lemma {:induction false} UniformAddEntry(f: Field, h: Addable, e1: Option<PatchValue>, e2: Option<PatchValue>, combine: Combinator)
    requires f.kind.Retyped? ==> Uniform(f.kind.ty)
    requires f.kind.Retyped? && h.AddTrait? ==> AddCompiles(f.kind.ty, true) && AddCompiles(f.kind.ty, false)
    requires EntryOf(f, e1) && EntryOf(f, e2)
    ensures AddEntry(f, h, true, e1, e2, combine) == AddEntry(f, h, false, e1, e2, combine)
    decreases f, 1
  {
    if e1.Some? && e2.Some? && h.AddTrait? && f.kind.Retyped? {
      assert PayloadOf(f, e1.value) && PayloadOf(f, e2.value);
      UniformAddAsWritten(f.kind.ty, e1.value, e2.value, combine);
    }
  }

  /**
   * A renamed field `b` without `addable` declared before an `addable` original field `n`: as
   * written, `n` is handed `b`'s handle and adding two patches that both set `n` panics, where
   * the declared attributes ask for the sum.
   */
  lemma PositionalPairingCounterexample()
    ensures var inner := Struct([Field("c", Original, Disable)]);
            var ty := Struct([Field("b", Retyped(inner), Disable), Field("n", Original, AddTrait)]);
            var p1 := StructPatch([None, Some(Whole(Atom(1)))]);
            var p2 := StructPatch([None, Some(Whole(Atom(2)))]);
            var combine: Combinator := (g, a, b) => a;
            AddAsWritten(ty, p1, p2, combine) == Err(ConflictPatches) &&
            Add(ty, p1, p2, combine) == Ok(StructPatch([None, Some(Whole(Atom(3)))]))
  {
    var inner := Struct([Field("c", Original, Disable)]);
    var ty := Struct([Field("b", Retyped(inner), Disable), Field("n", Original, AddTrait)]);
    var p1 := StructPatch([None, Some(Whole(Atom(1)))]);
    var p2 := StructPatch([None, Some(Whole(Atom(2)))]);
    var combine: Combinator := (g, a, b) => a;
    assert ty.fields[..1] == [ty.fields[0]];
    assert GroupRank(ty.fields, 1) == 0;
    assert AddResults(ty, true, p1, p2, combine)[1] == Err(ConflictPatches);
    AddImplOk(ty, false, p1, p2, combine, [None, Some(Whole(Atom(3)))]);
  }
}
