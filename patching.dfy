/**
 * Runtime behaviour of the code that `#[derive(Patch)]` emits, together with the two
 * adapter impls for `Box<P>` and `Option<P>`.
 *
 * A type that implements the Patch trait is described by a `Ty`: a struct that derives
 * Patch (its fields in declaration order, skipped fields already removed), a value whose
 * patch is boxed, or an optional value.  Values and patches are untyped trees; the
 * predicates `ValueOf` and `PatchOf` say which trees belong to which `Ty`, the way the
 * Rust type checker does for the generated code.
 *
 * All these functions are mutually recursive through retyped (nested) fields, which is
 * why the adapters live in the same module as the derived code.
 */
module Patching {
  import opened Wrappers

  /** How `+` combines two present values of a field. */
  datatype Addable = Disable | AddTrait | AddFn(f: string)

  /** A field of a struct that derives Patch. */
  datatype Field = Field(name: string, kind: Kind, add: Addable)

  /** An original field is wrapped in `Option<T>`; a retyped field holds `Option<P>` for its own patch type. */
  datatype Kind = Original | Retyped(ty: Ty)

  datatype Ty =
    | Struct(fields: seq<Field>)
    | Boxed(inner: Ty)
    /** `Option<T>`; `base` is the value the user's `From<P> for T` applies a patch to. */
    | Optional(inner: Ty, base: Value)

  /** Values of the source structs.  Values of original fields are opaque and compared by equality. */
  datatype Value = Atom(n: int) | Record(fields: seq<Value>) | Nothing | Just(v: Value)

  /** Patch values: a whole replacement value, a generated patch struct, a boxed patch, an optional patch. */
  datatype PatchValue =
    | Whole(v: Value)
    | StructPatch(entries: seq<Option<PatchValue>>)
    | BoxPatch(p: PatchValue)
    | OptionPatch(o: Option<PatchValue>)

  predicate IsRetyped(f: Field) { f.kind.Retyped? }

  // ---------------------------------------------------------------------------
  // Typing
  // ---------------------------------------------------------------------------

  /** `ty` is a type Rust would accept: every `From` base value has the inner type. */
  predicate WellFormed(ty: Ty)
    decreases ty, 0
  {
    match ty
    case Struct(fs) => forall i | 0 <= i < |fs| :: FieldWellFormed(fs[i])
    case Boxed(t) => WellFormed(t)
    case Optional(t, base) => WellFormed(t) && ValueOf(t, base)
  }

  predicate FieldWellFormed(f: Field)
    decreases f, 1
  {
    match f.kind
    case Original => true
    case Retyped(t) => WellFormed(t)
  }

  predicate ValueOf(ty: Ty, v: Value)
    decreases ty, 0
  {
    match ty
    case Struct(fs) =>
      v.Record? && |v.fields| == |fs| && forall i | 0 <= i < |fs| :: FieldValueOf(fs[i], v.fields[i])
    case Boxed(t) => ValueOf(t, v)
    case Optional(t, _) => v.Nothing? || (v.Just? && ValueOf(t, v.v))
  }

  predicate FieldValueOf(f: Field, v: Value)
    decreases f, 1
  {
    match f.kind
    case Original => v.Atom?
    case Retyped(t) => ValueOf(t, v)
  }

  predicate PatchOf(ty: Ty, p: PatchValue)
    decreases ty, 0
  {
    match ty
    case Struct(fs) =>
      p.StructPatch? && |p.entries| == |fs| && forall i | 0 <= i < |fs| :: EntryOf(fs[i], p.entries[i])
    case Boxed(t) => p.BoxPatch? && PatchOf(t, p.p)
    case Optional(t, _) => p.OptionPatch? && (p.o.Some? ==> PatchOf(t, p.o.value))
  }

  /** A patch struct's entry for field `f`: `Option<T>` or, for a retyped field, `Option<P>`. */
  predicate EntryOf(f: Field, e: Option<PatchValue>)
    decreases f, 1
  {
    e.Some? ==> PayloadOf(f, e.value)
  }

  predicate PayloadOf(f: Field, q: PatchValue)
    decreases f, 0
  {
    match f.kind
    case Original => q.Whole? && q.v.Atom?
    case Retyped(t) => PatchOf(t, q)
  }

  // ---------------------------------------------------------------------------
  // Patch::apply
  // ---------------------------------------------------------------------------

  /** `value.apply(patch)` for any type of the model. */
  function Apply(ty: Ty, v: Value, p: PatchValue): (r: Value)
    requires WellFormed(ty) && ValueOf(ty, v) && PatchOf(ty, p)
    ensures ValueOf(ty, r)
    decreases ty, 0
  {
    match ty
    case Struct(fs) =>
      Record(seq(|fs|, i requires 0 <= i < |fs| => ApplyField(fs[i], v.fields[i], p.entries[i])))
    case Boxed(t) =>
      Apply(t, v, p.p)
    case Optional(t, base) =>
      match p.o
      case Some(q) => if v.Just? then Just(Apply(t, v.v, q)) else Just(Apply(t, base, q))
      case None => Nothing
  }

  /** One `if let Some(v) = patch.f { ... }` block of the generated apply. */
  function ApplyField(f: Field, v: Value, e: Option<PatchValue>): (r: Value)
    requires FieldWellFormed(f) && FieldValueOf(f, v) && EntryOf(f, e)
    ensures FieldValueOf(f, r)
    decreases f, 1
  {
    match e
    case None => v
    case Some(q) =>
      assert PayloadOf(f, q);
      match f.kind
      case Original => q.v
      case Retyped(t) => Apply(t, v, q)
  }

  // ---------------------------------------------------------------------------
  // Patch::into_patch
  // ---------------------------------------------------------------------------

  function IntoPatch(ty: Ty, v: Value): (p: PatchValue)
    requires ValueOf(ty, v)
    ensures PatchOf(ty, p)
    decreases ty, 0
  {
    match ty
    case Struct(fs) =>
      StructPatch(seq(|fs|, i requires 0 <= i < |fs| => Some(IntoPatchField(fs[i], v.fields[i]))))
    case Boxed(t) => BoxPatch(IntoPatch(t, v))
    case Optional(t, _) => OptionPatch(if v.Just? then Some(IntoPatch(t, v.v)) else None)
  }

  function IntoPatchField(f: Field, v: Value): (q: PatchValue)
    requires FieldValueOf(f, v)
    ensures PayloadOf(f, q)
    decreases f, 1
  {
    match f.kind
    case Original => Whole(v)
    case Retyped(t) => IntoPatch(t, v)
  }

  // ---------------------------------------------------------------------------
  // Patch::into_patch_by_diff
  // ---------------------------------------------------------------------------

  /** `current.into_patch_by_diff(previous)`. */
  function Diff(ty: Ty, current: Value, previous: Value): (p: PatchValue)
    requires ValueOf(ty, current) && ValueOf(ty, previous)
    ensures PatchOf(ty, p)
    decreases ty, 0
  {
    match ty
    case Struct(fs) =>
      StructPatch(seq(|fs|, i requires 0 <= i < |fs| =>
        DiffField(fs[i], current.fields[i], previous.fields[i])))
    case Boxed(t) => BoxPatch(Diff(t, current, previous))
    case Optional(t, _) =>
      if current.Just? && previous.Just? then OptionPatch(Some(Diff(t, current.v, previous.v)))
      else if current.Just? then OptionPatch(Some(IntoPatch(t, current.v)))
      else OptionPatch(None)
  }

  function DiffField(f: Field, current: Value, previous: Value): (e: Option<PatchValue>)
    requires FieldValueOf(f, current) && FieldValueOf(f, previous)
    ensures EntryOf(f, e)
    ensures e.None? <==> current == previous
    decreases f, 1
  {
    if current == previous then None
    else match f.kind
      case Original => Some(Whole(current))
      case Retyped(t) => Some(Diff(t, current, previous))
  }

  // ---------------------------------------------------------------------------
  // Patch::new_empty_patch and the Status impl
  // ---------------------------------------------------------------------------

  function EmptyPatch(ty: Ty): (p: PatchValue)
    ensures PatchOf(ty, p)
    decreases ty
  {
    match ty
    case Struct(fs) => StructPatch(seq(|fs|, i => None))
    case Boxed(t) => BoxPatch(EmptyPatch(t))
    case Optional(t, _) => OptionPatch(Some(EmptyPatch(t)))
  }

  /** The generated `is_empty` of a patch struct: no entry is `Some`. */
  predicate IsEmpty(entries: seq<Option<PatchValue>>)
  {
    forall i | 0 <= i < |entries| :: entries[i].None?
  }

  // ---------------------------------------------------------------------------
  // Merge::merge
  // ---------------------------------------------------------------------------

  /**
   * The generated merge calls `a.merge(b)` on the patches of every retyped field, so it only
   * compiles when every retyped field is itself a struct deriving Patch (no Merge impl exists
   * for `Box<P>` or `Option<P>`).
   */
  predicate DerivedOnly(ty: Ty)
    decreases ty
  {
    ty.Struct? &&
    forall i | 0 <= i < |ty.fields| :: ty.fields[i].kind.Retyped? ==> DerivedOnly(ty.fields[i].kind.ty)
  }

  function Merge(ty: Ty, p1: PatchValue, p2: PatchValue): (p: PatchValue)
    requires DerivedOnly(ty) && PatchOf(ty, p1) && PatchOf(ty, p2)
    ensures PatchOf(ty, p)
    decreases ty, 0
  {
    var fs := ty.fields;
    StructPatch(seq(|fs|, i requires 0 <= i < |fs| => MergeEntry(fs[i], p1.entries[i], p2.entries[i])))
  }

  function MergeEntry(f: Field, e1: Option<PatchValue>, e2: Option<PatchValue>): (e: Option<PatchValue>)
    requires (f.kind.Retyped? ==> DerivedOnly(f.kind.ty)) && EntryOf(f, e1) && EntryOf(f, e2)
    ensures EntryOf(f, e)
    ensures e.None? <==> e1.None? && e2.None?
    decreases f, 1
  {
    match f.kind
    case Original => e2.Or(e1)
    case Retyped(t) =>
      match (e1, e2)
      case (Some(a), Some(b)) =>
        assert PayloadOf(f, a) && PayloadOf(f, b);
        Some(Merge(t, a, b))
      case (Some(a), None) => Some(a)
      case (None, Some(b)) => Some(b)
      case (None, None) => None
  }

  // ---------------------------------------------------------------------------
  // core::ops::Add for the patch struct (feature `op`)
  // ---------------------------------------------------------------------------

  /** The only way `+` fails: the `panic!` asking for `#[patch(addable)]`. */
  datatype AddPanic = ConflictPatches

  /** A user combinator named by `#[patch(add = f)]`, called as `f(a, b)` with self's value first. */
  type Combinator = (string, PatchValue, PatchValue) -> PatchValue

  /** Number of fields of `fs` that are retyped when `retyped` holds and original otherwise. */
  function CountKind(fs: seq<Field>, retyped: bool): (n: nat)
    ensures n <= |fs|
  {
    if fs == [] then 0
    else CountKind(fs[..|fs| - 1], retyped) + (if IsRetyped(fs[|fs| - 1]) == retyped then 1 else 0)
  }

  /** Position of field `i` within its group (renamed fields, or original fields). */
  function GroupRank(fs: seq<Field>, i: nat): (k: nat)
    requires i < |fs|
    ensures k <= i
  {
    CountKind(fs[..i], IsRetyped(fs[i]))
  }

  /**
   * The addable handle spliced into field `i`'s match arm.  As written (`positional`), the
   * handles are built over all fields but spliced into the separate repetitions for renamed and
   * for original fields, and quote pairs repetitions by position: the k-th field of a group gets
   * the handle of the k-th field of the struct.  Otherwise each field gets its own.
   */
  function Handle(fs: seq<Field>, i: nat, positional: bool): Addable
    requires i < |fs|
  {
    if positional then fs[GroupRank(fs, i)].add else fs[i].add
  }

  /**
   * Where the model defines the generated `+` for `ty`. Only a retyped field whose spliced
   * handle is `addable` evaluates `a + &b` on its nested patches. That needs a user-written
   * `impl Add<&P> for P` (the derive emits only `Add<Self>`), which the model takes to be the
   * nested generated `+`, so it asks for a derived patch struct there. A `panic!` or `f(a, b)`
   * handle needs no nested `+`, for a `Box<P>` or `Option<P>` field as well.
   */
  predicate AddCompiles(ty: Ty, positional: bool)
    decreases ty
  {
    ty.Struct? &&
    forall i | 0 <= i < |ty.fields| ::
      ty.fields[i].kind.Retyped? && Handle(ty.fields, i, positional).AddTrait? ==>
        AddCompiles(ty.fields[i].kind.ty, positional)
  }

  /** `p1 + p2`, with self = `p1` and rhs = `p2`: a panic in any field is a panic of the whole. */
  function AddImpl(ty: Ty, positional: bool, p1: PatchValue, p2: PatchValue, combine: Combinator)
    : (r: Result<PatchValue, AddPanic>)
    requires AddCompiles(ty, positional) && PatchOf(ty, p1) && PatchOf(ty, p2)
    ensures r.Ok? ==> r.value.StructPatch? && |r.value.entries| == |ty.fields|
    decreases ty, 2
  {
    var results := AddResults(ty, positional, p1, p2, combine);
    if exists i | 0 <= i < |results| :: results[i].Err? then Err(ConflictPatches)
    else Ok(StructPatch(seq(|results|, i requires 0 <= i < |results| => results[i].value)))
  }

  /** The outcome of every field's arm, in field order. */
  function AddResults(ty: Ty, positional: bool, p1: PatchValue, p2: PatchValue, combine: Combinator)
    : (rs: seq<Result<Option<PatchValue>, AddPanic>>)
    requires AddCompiles(ty, positional) && PatchOf(ty, p1) && PatchOf(ty, p2)
    ensures |rs| == |ty.fields|
    decreases ty, 1
  {
    var fs := ty.fields;
    seq(|fs|, i requires 0 <= i < |fs| =>
      AddEntry(fs[i], Handle(fs, i, positional), positional, p1.entries[i], p2.entries[i], combine))
  }

  /** One field's `match (self.f, rhs.f) { ... }` arm, with the handle `h` spliced in. */
  function AddEntry(f: Field, h: Addable, positional: bool, e1: Option<PatchValue>, e2: Option<PatchValue>,
                    combine: Combinator): (r: Result<Option<PatchValue>, AddPanic>)
    requires (f.kind.Retyped? && h.AddTrait? ==> AddCompiles(f.kind.ty, positional)) && EntryOf(f, e1) && EntryOf(f, e2)
    decreases f, 1
  {
    match (e1, e2)
    case (Some(a), Some(b)) =>
      assert PayloadOf(f, a) && PayloadOf(f, b);
      (match h
       case AddTrait =>
         (match f.kind
          case Original => Ok(Some(Whole(Atom(a.v.n + b.v.n))))
          case Retyped(t) =>
            var sum := AddImpl(t, positional, a, b, combine);
            if sum.Err? then Err(sum.error) else Ok(Some(sum.value)))
       case AddFn(g) => Ok(Some(combine(g, a, b)))
       case Disable => Err(ConflictPatches))
    case (Some(a), None) => Ok(Some(a))
    case (None, Some(b)) => Ok(Some(b))
    case (None, None) => Ok(None)
  }

  /** `+` exactly as the generator emits it, with handles paired by position. */
  function AddAsWritten(ty: Ty, p1: PatchValue, p2: PatchValue, combine: Combinator): Result<PatchValue, AddPanic>
    requires AddCompiles(ty, true) && PatchOf(ty, p1) && PatchOf(ty, p2)
  {
    AddImpl(ty, true, p1, p2, combine)
  }

  /** `+` with every field combined by its own `addable` / `add` setting. */
  function Add(ty: Ty, p1: PatchValue, p2: PatchValue, combine: Combinator): Result<PatchValue, AddPanic>
    requires AddCompiles(ty, false) && PatchOf(ty, p1) && PatchOf(ty, p2)
  {
    AddImpl(ty, false, p1, p2, combine)
  }
}
