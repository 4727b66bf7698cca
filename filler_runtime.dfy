/**
 * The code the Filler derive generates. A filler field is optional, extendable (a collection)
 * or a native value with a chosen empty value. `apply` fills only the struct's empty fields,
 * `+` combines two fillers and panics on a conflict the fields do not allow, and `is_empty`
 * scans the fields with early returns.
 *
 * The fields are kept in the generated code's three groups, each in declaration order:
 * native values, extendables and options.
 */
module FillerRuntime {
  import opened Wrappers
  import FillerParse
  import Meta

  /** The filler fields of a struct, or of its filler struct, grouped by category. */
  datatype Group<T> = Group(natives: seq<T>, extendables: seq<seq<T>>, options: seq<Option<T>>)

  /** What the generated code fixes per field: the empty value of each native field, and `addable`. */
  datatype Layout<T> = Layout(sentinels: seq<T>, nativeAddable: seq<bool>, extendableAddable: seq<bool>,
                              optionAddable: seq<bool>)

  predicate Fits<T>(l: Layout<T>, g: Group<T>)
  {
    |g.natives| == |l.sentinels| == |l.nativeAddable|
    && |g.extendables| == |l.extendableAddable|
    && |g.options| == |l.optionAddable|
  }

  /** The groups of a parsed filler, in the order the generated code lists each of them. */
  function LayoutOf(fields: seq<FillerParse.FieldDecl>): (l: Layout<Meta.Lit>)
    ensures |l.sentinels| == |l.nativeAddable| && |l.sentinels| + |l.extendableAddable| + |l.optionAddable| == |fields|
    decreases |fields|
  {
    if fields == [] then Layout([], [], [], [])
    else
      var l := LayoutOf(fields[..|fields| - 1]);
      var f := fields[|fields| - 1];
      match f.fty
      case NativeValue(lit) => l.(sentinels := l.sentinels + [lit], nativeAddable := l.nativeAddable + [f.addable])
      case Extendable(_) => l.(extendableAddable := l.extendableAddable + [f.addable])
      case OptionFill => l.(optionAddable := l.optionAddable + [f.addable])
  }

  predicate IsNative(t: FillerParse.FillerType) { t.NativeValue? }

  predicate IsExtendable(t: FillerParse.FillerType) { t.Extendable? }

  predicate IsOption(t: FillerParse.FillerType) { t.OptionFill? }

  /** The fields of one category, in declaration order, as `fields.iter().filter(...)` yields them. */
  function Select(fields: seq<FillerParse.FieldDecl>, p: FillerParse.FillerType -> bool): (r: seq<FillerParse.FieldDecl>)
    ensures |r| <= |fields|
    ensures forall f :: f in r <==> f in fields && p(f.fty)
    decreases |fields|
  {
    if fields == [] then []
    else
      var f := fields[|fields| - 1];
      assert fields == fields[..|fields| - 1] + [f];
      Select(fields[..|fields| - 1], p) + (if p(f.fty) then [f] else [])
  }

  /**
   * The generated code's groups are the filler's fields filtered by category, in declaration
   * order: the natives with their `empty_value` literals as sentinels, then the extendables and
   * the options, each with its own `addable`.
   */
  lemma {:induction false} LayoutOfGroups(fields: seq<FillerParse.FieldDecl>)
    ensures var l := LayoutOf(fields);
      var ns := Select(fields, IsNative);
      var es := Select(fields, IsExtendable);
      var os := Select(fields, IsOption);
      |l.sentinels| == |ns| && |l.extendableAddable| == |es| && |l.optionAddable| == |os|
      && (forall i | 0 <= i < |ns| :: l.sentinels[i] == ns[i].fty.empty && l.nativeAddable[i] == ns[i].addable)
      && (forall i | 0 <= i < |es| :: l.extendableAddable[i] == es[i].addable)
      && (forall i | 0 <= i < |os| :: l.optionAddable[i] == os[i].addable)
    decreases |fields|
  {
    if fields != [] {
      LayoutOfGroups(fields[..|fields| - 1]);
    }
  }

  // ---------------------------------------------------------------------------
  // Specification
  // ---------------------------------------------------------------------------

  /** Every field of a filler is empty: `None`, an empty collection, or the empty value. */
  predicate IsEmptyGroup<T(==)>(l: Layout<T>, g: Group<T>)
    requires Fits(l, g)
  {
    (forall i | 0 <= i < |g.options| :: g.options[i].None?)
    && (forall i | 0 <= i < |g.extendables| :: g.extendables[i] == [])
    && (forall i | 0 <= i < |g.natives| :: g.natives[i] == l.sentinels[i])
  }

  /** `new_empty_filler`. */
  function EmptyFiller<T(==)>(l: Layout<T>): (g: Group<T>)
    requires |l.sentinels| == |l.nativeAddable|
    ensures Fits(l, g) && IsEmptyGroup(l, g)
  {
    Group(l.sentinels, seq(|l.extendableAddable|, _ => []), seq(|l.optionAddable|, _ => None))
  }

  function FillNative<T(==)>(empty: T, current: T, given: T): T
  {
    if current == empty then given else current
  }

  function FillExtendable<T>(current: seq<T>, given: seq<T>): seq<T>
  {
    if current == [] then current + given else current
  }

  function FillOption<T>(current: Option<T>, given: Option<T>): Option<T>
  {
    if given.Some? && current.None? then given else current
  }

  /** The struct after `apply(filler)`: each empty field takes the filler's value. */
  function Fill<T(==)>(l: Layout<T>, v: Group<T>, f: Group<T>): (r: Group<T>)
    requires Fits(l, v) && Fits(l, f)
    ensures Fits(l, r)
  {
    Group(seq(|v.natives|, i requires 0 <= i < |v.natives| => FillNative(l.sentinels[i], v.natives[i], f.natives[i])),
          seq(|v.extendables|, i requires 0 <= i < |v.extendables| => FillExtendable(v.extendables[i], f.extendables[i])),
          seq(|v.options|, i requires 0 <= i < |v.options| => FillOption(v.options[i], f.options[i])))
  }

  /** One native field under `+`; `None` is the panic. */
  function AddNative<T(==)>(empty: T, addable: bool, plus: (T, T) -> T, a: T, b: T): Option<T>
  {
    if a == empty then Some(b)
    else if addable then Some(plus(a, b))
    else if b != empty then None
    else Some(a)
  }

  /** One extendable field under `+`; `None` is the panic. */
  function AddExtendable<T>(addable: bool, a: seq<T>, b: seq<T>): Option<seq<T>>
  {
    if a == [] then Some(b)
    else if addable then Some(a + b)
    else if b != [] then None
    else Some(a)
  }

  /** One optional field under `+`: the right-hand value goes first in the sum; `None` is the panic. */
  function AddOption<T>(addable: bool, plus: (T, T) -> T, a: Option<T>, b: Option<T>): Option<Option<T>>
  {
    if a.Some? then
      if b.Some? then (if addable then Some(Some(plus(b.value, a.value))) else None)
      else Some(a)
    else Some(b)
  }

  /** `a + b` on fillers: `None` when some field panics. */
  function Sum<T(==)>(l: Layout<T>, plus: (T, T) -> T, a: Group<T>, b: Group<T>): (r: Option<Group<T>>)
    requires Fits(l, a) && Fits(l, b)
    ensures r.Some? ==> Fits(l, r.value)
  {
    if (forall i | 0 <= i < |a.natives| :: AddNative(l.sentinels[i], l.nativeAddable[i], plus, a.natives[i], b.natives[i]).Some?)
       && (forall i | 0 <= i < |a.extendables| :: AddExtendable(l.extendableAddable[i], a.extendables[i], b.extendables[i]).Some?)
       && (forall i | 0 <= i < |a.options| :: AddOption(l.optionAddable[i], plus, a.options[i], b.options[i]).Some?)
    then
      Some(Group(
        seq(|a.natives|, i requires 0 <= i < |a.natives| && AddNative(l.sentinels[i], l.nativeAddable[i], plus, a.natives[i], b.natives[i]).Some?
          => AddNative(l.sentinels[i], l.nativeAddable[i], plus, a.natives[i], b.natives[i]).value),
        seq(|a.extendables|, i requires 0 <= i < |a.extendables| && AddExtendable(l.extendableAddable[i], a.extendables[i], b.extendables[i]).Some?
          => AddExtendable(l.extendableAddable[i], a.extendables[i], b.extendables[i]).value),
        seq(|a.options|, i requires 0 <= i < |a.options| && AddOption(l.optionAddable[i], plus, a.options[i], b.options[i]).Some?
          => AddOption(l.optionAddable[i], plus, a.options[i], b.options[i]).value)))
    else None
  }

  /** Every native field of `a + b` combined without a panic, giving `natives`. */
  predicate NativesDone<T(==)>(l: Layout<T>, plus: (T, T) -> T, a: Group<T>, b: Group<T>, natives: seq<T>)
    requires Fits(l, a) && Fits(l, b)
  {
    |natives| == |a.natives|
    && forall j | 0 <= j < |natives| ::
         AddNative(l.sentinels[j], l.nativeAddable[j], plus, a.natives[j], b.natives[j]) == Some(natives[j])
  }

  /** Every extendable field of `a + b` combined without a panic, giving `extendables`. */
  predicate ExtendablesDone<T(==)>(l: Layout<T>, a: Group<T>, b: Group<T>, extendables: seq<seq<T>>)
    requires Fits(l, a) && Fits(l, b)
  {
    |extendables| == |a.extendables|
    && forall j | 0 <= j < |extendables| ::
         AddExtendable(l.extendableAddable[j], a.extendables[j], b.extendables[j]) == Some(extendables[j])
  }

  // ---------------------------------------------------------------------------
  // The generated impls
  // ---------------------------------------------------------------------------

  /** A struct that derives Filler (its filler fields only). */
  class Filled<T(==)> {
    const layout: Layout<T>
    var natives: seq<T>
    var extendables: seq<seq<T>>
    var options: seq<Option<T>>

    ghost predicate Valid()
      reads this
    {
      Fits(layout, Current())
    }

    function Current(): Group<T>
      reads this
    {
      Group(natives, extendables, options)
    }

    constructor (layout: Layout<T>, g: Group<T>)
      requires Fits(layout, g)
      ensures Valid() && this.layout == layout && Current() == g
    {
      this.layout := layout;
      natives := g.natives;
      extendables := g.extendables;
      options := g.options;
    }

    /** `Filler::apply`: natives, then extendables, then options, each filled only where empty. */
    method Apply(filler: Group<T>)
      requires Valid() && Fits(layout, filler)
      modifies this
      ensures Valid() && Current() == Fill(layout, old(Current()), filler)
    {
      ghost var before := Current();
      var i := 0;
      while i < |natives|
        invariant 0 <= i <= |natives| == |before.natives|
        invariant extendables == before.extendables && options == before.options
        invariant forall j | 0 <= j < |natives| ::
          natives[j] == if j < i then FillNative(layout.sentinels[j], before.natives[j], filler.natives[j]) else before.natives[j]
      {
        if natives[i] == layout.sentinels[i] {
          natives := natives[i := filler.natives[i]];
        }
        i := i + 1;
      }
      i := 0;
      while i < |extendables|
        invariant 0 <= i <= |extendables| == |before.extendables|
        invariant natives == Fill(layout, before, filler).natives && options == before.options
        invariant forall j | 0 <= j < |extendables| ::
          extendables[j] == if j < i then FillExtendable(before.extendables[j], filler.extendables[j]) else before.extendables[j]
      {
        if extendables[i] == [] {
          extendables := extendables[i := extendables[i] + filler.extendables[i]];
        }
        i := i + 1;
      }
      i := 0;
      while i < |options|
        invariant 0 <= i <= |options| == |before.options|
        invariant natives == Fill(layout, before, filler).natives && extendables == Fill(layout, before, filler).extendables
        invariant forall j | 0 <= j < |options| ::
          options[j] == if j < i then FillOption(before.options[j], filler.options[j]) else before.options[j]
      {
        if filler.options[i].Some? && options[i].None? {
          options := options[i := filler.options[i]];
        }
        i := i + 1;
      }
      assert natives == Fill(layout, before, filler).natives;
      assert extendables == Fill(layout, before, filler).extendables;
      assert options == Fill(layout, before, filler).options;
    }

    /** `self << filler` (feature `op`): apply the filler and hand back the same struct. */
    method Shl(filler: Group<T>)
      requires Valid() && Fits(layout, filler)
      modifies this
      ensures Valid() && Current() == Fill(layout, old(Current()), filler)
    {
      Apply(filler);
    }
  }

  /** The generated filler struct. */
  class FillerStruct<T(==)> {
    const layout: Layout<T>
    var natives: seq<T>
    var extendables: seq<seq<T>>
    var options: seq<Option<T>>

    ghost predicate Valid()
      reads this
    {
      Fits(layout, Current())
    }

    function Current(): Group<T>
      reads this
    {
      Group(natives, extendables, options)
    }

    /** `new_empty_filler`. */
    constructor Empty(layout: Layout<T>)
      requires |layout.sentinels| == |layout.nativeAddable|
      ensures Valid() && this.layout == layout && Current() == EmptyFiller(layout)
    {
      this.layout := layout;
      natives := layout.sentinels;
      extendables := seq(|layout.extendableAddable|, _ => []);
      options := seq(|layout.optionAddable|, _ => None);
    }

    /** `Status::is_empty` (feature `status`): options, then extendables, then natives, returning at the first filled one. */
    method IsEmpty() returns (empty: bool)
      requires Valid()
      ensures empty <==> IsEmptyGroup(layout, Current())
    {
      var i := 0;
      while i < |options|
        invariant 0 <= i <= |options|
        invariant forall j | 0 <= j < i :: options[j].None?
      {
        if options[i].Some? {
          return false;
        }
        i := i + 1;
      }
      i := 0;
      while i < |extendables|
        invariant 0 <= i <= |extendables|
        invariant forall j | 0 <= j < i :: extendables[j] == []
      {
        if extendables[i] != [] {
          return false;
        }
        i := i + 1;
      }
      i := 0;
      while i < |natives|
        invariant 0 <= i <= |natives|
        invariant forall j | 0 <= j < i :: natives[j] == layout.sentinels[j]
      {
        if natives[i] != layout.sentinels[i] {
          return false;
        }
        i := i + 1;
      }
      return true;
    }

    /**
     * `self + rhs` (feature `op`): natives, then extendables, then options are combined in
     * place; `ok` is false when a field panics.
     */
    method Add(rhs: Group<T>, plus: (T, T) -> T) returns (ok: bool)
      requires Valid() && Fits(layout, rhs)
      modifies this
      ensures ok <==> Sum(layout, plus, old(Current()), rhs).Some?
      ensures ok ==> Valid() && Current() == Sum(layout, plus, old(Current()), rhs).value
    {
      ghost var before := Current();
      var i := 0;
      while i < |natives|
        invariant 0 <= i <= |natives| == |before.natives|
        invariant extendables == before.extendables && options == before.options
        invariant forall j | 0 <= j < i :: AddNative(layout.sentinels[j], layout.nativeAddable[j], plus, before.natives[j], rhs.natives[j]).Some?
        invariant forall j | 0 <= j < |natives| ::
          natives[j] == if j < i then AddNative(layout.sentinels[j], layout.nativeAddable[j], plus, before.natives[j], rhs.natives[j]).value
                        else before.natives[j]
      {
        if natives[i] == layout.sentinels[i] {
          natives := natives[i := rhs.natives[i]];
        } else if layout.nativeAddable[i] {
          natives := natives[i := plus(natives[i], rhs.natives[i])];
        } else if rhs.natives[i] != layout.sentinels[i] {
          return false;
        }
        i := i + 1;
      }
      i := 0;
      while i < |extendables|
        invariant 0 <= i <= |extendables| == |before.extendables|
        invariant NativesDone(layout, plus, before, rhs, natives) && options == before.options
        invariant forall j | 0 <= j < i :: AddExtendable(layout.extendableAddable[j], before.extendables[j], rhs.extendables[j]).Some?
        invariant forall j | 0 <= j < |extendables| ::
          extendables[j] == if j < i then AddExtendable(layout.extendableAddable[j], before.extendables[j], rhs.extendables[j]).value
                            else before.extendables[j]
      {
        if extendables[i] == [] {
          extendables := extendables[i := rhs.extendables[i]];
        } else if layout.extendableAddable[i] {
          extendables := extendables[i := extendables[i] + rhs.extendables[i]];
        } else if rhs.extendables[i] != [] {
          return false;
        }
        i := i + 1;
      }
      i := 0;
      while i < |options|
        invariant 0 <= i <= |options| == |before.options|
        invariant NativesDone(layout, plus, before, rhs, natives) && ExtendablesDone(layout, before, rhs, extendables)
        invariant forall j | 0 <= j < i :: AddOption(layout.optionAddable[j], plus, before.options[j], rhs.options[j]).Some?
        invariant forall j | 0 <= j < |options| ::
          options[j] == if j < i then AddOption(layout.optionAddable[j], plus, before.options[j], rhs.options[j]).value
                        else before.options[j]
      {
        if options[i].Some? {
          if rhs.options[i].Some? {
            if layout.optionAddable[i] {
              options := options[i := Some(plus(rhs.options[i].value, options[i].value))];
            } else {
              return false;
            }
          }
        } else {
          options := options[i := rhs.options[i]];
        }
        i := i + 1;
      }
      assert options == Sum(layout, plus, before, rhs).value.options;
      return true;
    }
  }
}
