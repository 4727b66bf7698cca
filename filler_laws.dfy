/** Laws of the Filler derive's generated `apply`, `new_empty_filler`, `is_empty` and `+`. */
module FillerLaws {
  import opened Wrappers
  import opened FillerRuntime

  /** The empty filler is the only filler whose fields are all empty. */
  lemma EmptyFillerUnique<T>(l: Layout<T>, g: Group<T>)
    requires Fits(l, g)
    ensures IsEmptyGroup(l, g) <==> g == EmptyFiller(l)
  {
    if IsEmptyGroup(l, g) {
      var e := EmptyFiller(l);
      assert g.natives == e.natives;
      assert g.extendables == e.extendables;
      assert g.options == e.options;
    }
  }

  /** Applying the empty filler changes nothing. */
  lemma FillEmptyIdentity<T>(l: Layout<T>, v: Group<T>)
    requires Fits(l, v)
    ensures Fill(l, v, EmptyFiller(l)) == v
  {
    var r := Fill(l, v, EmptyFiller(l));
    assert r.natives == v.natives;
    assert forall i | 0 <= i < |v.extendables| :: r.extendables[i] == v.extendables[i];
    assert r.extendables == v.extendables;
    assert r.options == v.options;
  }

  /** A struct whose filler fields are all empty takes every value of the filler. */
  lemma FillIntoEmpty<T>(l: Layout<T>, f: Group<T>)
    requires Fits(l, f)
    ensures Fill(l, EmptyFiller(l), f) == f
  {
    var r := Fill(l, EmptyFiller(l), f);
    assert r.natives == f.natives;
    assert forall i | 0 <= i < |f.extendables| :: r.extendables[i] == [] + f.extendables[i] == f.extendables[i];
    assert r.extendables == f.extendables;
    assert r.options == f.options;
  }

  /** After `apply`, a field is empty exactly when it was empty in both the struct and the filler. */
  lemma FillEmptyIff<T>(l: Layout<T>, v: Group<T>, f: Group<T>)
    requires Fits(l, v) && Fits(l, f)
    ensures IsEmptyGroup(l, Fill(l, v, f)) <==> IsEmptyGroup(l, v) && IsEmptyGroup(l, f)
  {
    var r := Fill(l, v, f);
    if IsEmptyGroup(l, r) {
      forall i | 0 <= i < |v.extendables|
        ensures v.extendables[i] == [] && f.extendables[i] == []
      {
        assert r.extendables[i] == [];
      }
      forall i | 0 <= i < |v.options|
        ensures v.options[i].None? && f.options[i].None?
      {
        assert r.options[i].None?;
      }
      forall i | 0 <= i < |v.natives|
        ensures v.natives[i] == l.sentinels[i] && f.natives[i] == l.sentinels[i]
      {
        assert r.natives[i] == l.sentinels[i];
      }
    }
  }

  /**
   * Applying `f1` and then `f2` is applying `f1` with its own empty fields filled from `f2`:
   * the first filler to give a field its value wins.
   */
  lemma FillAssociative<T>(l: Layout<T>, v: Group<T>, f1: Group<T>, f2: Group<T>)
    requires Fits(l, v) && Fits(l, f1) && Fits(l, f2)
    ensures Fill(l, Fill(l, v, f1), f2) == Fill(l, v, Fill(l, f1, f2))
  {
    var a := Fill(l, Fill(l, v, f1), f2);
    var b := Fill(l, v, Fill(l, f1, f2));
    assert a.natives == b.natives;
    forall i | 0 <= i < |v.extendables|
      ensures a.extendables[i] == b.extendables[i]
    {
      assert [] + f1.extendables[i] == f1.extendables[i];
      assert [] + f2.extendables[i] == f2.extendables[i];
    }
    assert a.extendables == b.extendables;
    assert a.options == b.options;
  }

  /**
   * `apply` never changes a filled field, and fills every empty one from the filler; so once
   * a filler has given a field its value, a later filler cannot override it.
   */
  lemma FillKeepsFilled<T>(l: Layout<T>, v: Group<T>, f: Group<T>)
    requires Fits(l, v) && Fits(l, f)
    ensures var r := Fill(l, v, f);
      (forall i | 0 <= i < |v.natives| ::
         r.natives[i] == if v.natives[i] == l.sentinels[i] then f.natives[i] else v.natives[i])
      && (forall i | 0 <= i < |v.extendables| ::
            r.extendables[i] == if v.extendables[i] == [] then f.extendables[i] else v.extendables[i])
      && (forall i | 0 <= i < |v.options| ::
            r.options[i] == if v.options[i].None? then f.options[i] else v.options[i])
  {
    var r := Fill(l, v, f);
    forall i | 0 <= i < |v.extendables|
      ensures r.extendables[i] == if v.extendables[i] == [] then f.extendables[i] else v.extendables[i]
    {
      assert [] + f.extendables[i] == f.extendables[i];
    }
  }

  /** Applying the same filler twice is applying it once. */
  lemma FillIdempotent<T>(l: Layout<T>, v: Group<T>, f: Group<T>)
    requires Fits(l, v) && Fits(l, f)
    ensures Fill(l, Fill(l, v, f), f) == Fill(l, v, f)
  {
    FillAssociative(l, v, f, f);
    var ff := Fill(l, f, f);
    assert ff.natives == f.natives;
    assert forall i | 0 <= i < |f.extendables| :: [] + f.extendables[i] == f.extendables[i];
    assert ff.extendables == f.extendables;
    assert ff.options == f.options;
  }

  /** The empty filler on the left of `+` yields the right-hand filler. */
  lemma SumEmptyLeft<T>(l: Layout<T>, plus: (T, T) -> T, f: Group<T>)
    requires Fits(l, f)
    ensures Sum(l, plus, EmptyFiller(l), f) == Some(f)
  {
    var e := EmptyFiller(l);
    assert forall i | 0 <= i < |e.extendables| :: e.extendables[i] == [];
    assert forall i | 0 <= i < |e.options| :: e.options[i] == None;
    var r := Sum(l, plus, e, f).value;
    assert r.natives == f.natives;
    assert r.extendables == f.extendables;
    assert r.options == f.options;
  }

  /**
   * The empty filler on the right of `+` yields the left-hand filler, provided that adding
   * the empty value to an addable native field changes nothing.
   */
  lemma SumEmptyRight<T>(l: Layout<T>, plus: (T, T) -> T, f: Group<T>)
    requires Fits(l, f)
    requires forall i, x | 0 <= i < |l.sentinels| && l.nativeAddable[i] :: plus(x, l.sentinels[i]) == x
    ensures Sum(l, plus, f, EmptyFiller(l)) == Some(f)
  {
    var e := EmptyFiller(l);
    assert forall i | 0 <= i < |e.extendables| :: e.extendables[i] == [];
    assert forall i | 0 <= i < |e.options| :: e.options[i] == None;
    assert forall i | 0 <= i < |f.extendables| :: f.extendables[i] + e.extendables[i] == f.extendables[i];
    var r := Sum(l, plus, f, e).value;
    assert r.natives == f.natives;
    assert r.extendables == f.extendables;
    assert r.options == f.options;
  }

  predicate NothingAddable<T>(l: Layout<T>)
  {
    (forall i | 0 <= i < |l.nativeAddable| :: !l.nativeAddable[i])
    && (forall i | 0 <= i < |l.extendableAddable| :: !l.extendableAddable[i])
    && (forall i | 0 <= i < |l.optionAddable| :: !l.optionAddable[i])
  }

  /** Some field is filled in both fillers. */
  predicate Overlap<T(==)>(l: Layout<T>, a: Group<T>, b: Group<T>)
    requires Fits(l, a) && Fits(l, b)
  {
    (exists i | 0 <= i < |a.natives| :: a.natives[i] != l.sentinels[i] && b.natives[i] != l.sentinels[i])
    || (exists i | 0 <= i < |a.extendables| :: a.extendables[i] != [] && b.extendables[i] != [])
    || (exists i | 0 <= i < |a.options| :: a.options[i].Some? && b.options[i].Some?)
  }

  /**
   * Without `addable`, `a + b` panics exactly when some field is filled in both fillers, and
   * otherwise it is `a` filled from `b`.
   */
  lemma SumWithoutAddable<T>(l: Layout<T>, plus: (T, T) -> T, a: Group<T>, b: Group<T>)
    requires Fits(l, a) && Fits(l, b) && NothingAddable(l)
    ensures Sum(l, plus, a, b).None? <==> Overlap(l, a, b)
    ensures Sum(l, plus, a, b).Some? ==> Sum(l, plus, a, b).value == Fill(l, a, b)
  {
    if Overlap(l, a, b) {
      if i :| 0 <= i < |a.natives| && a.natives[i] != l.sentinels[i] && b.natives[i] != l.sentinels[i] {
        assert AddNative(l.sentinels[i], l.nativeAddable[i], plus, a.natives[i], b.natives[i]).None?;
      } else if i :| 0 <= i < |a.extendables| && a.extendables[i] != [] && b.extendables[i] != [] {
        assert AddExtendable(l.extendableAddable[i], a.extendables[i], b.extendables[i]).None?;
      } else {
        var i :| 0 <= i < |a.options| && a.options[i].Some? && b.options[i].Some?;
        assert AddOption(l.optionAddable[i], plus, a.options[i], b.options[i]).None?;
      }
    } else {
      var r := Sum(l, plus, a, b).value;
      var f := Fill(l, a, b);
      assert r.natives == f.natives;
      assert forall i | 0 <= i < |a.extendables| :: r.extendables[i] == f.extendables[i];
      assert r.extendables == f.extendables;
      assert r.options == f.options;
    }
  }

  /**
   * Without `addable`, applying `f1 + f2` (when it does not panic) is applying `f1` and then
   * `f2`.
   */
  lemma ShlSumIsShlShl<T>(l: Layout<T>, plus: (T, T) -> T, v: Group<T>, f1: Group<T>, f2: Group<T>)
    requires Fits(l, v) && Fits(l, f1) && Fits(l, f2) && NothingAddable(l)
    requires Sum(l, plus, f1, f2).Some?
    ensures Fill(l, v, Sum(l, plus, f1, f2).value) == Fill(l, Fill(l, v, f1), f2)
  {
    SumWithoutAddable(l, plus, f1, f2);
    FillAssociative(l, v, f1, f2);
  }

  /** Addable fields never panic under `+`. */
  lemma SumAllAddable<T>(l: Layout<T>, plus: (T, T) -> T, a: Group<T>, b: Group<T>)
    requires Fits(l, a) && Fits(l, b)
    requires (forall i | 0 <= i < |l.nativeAddable| :: l.nativeAddable[i])
    requires (forall i | 0 <= i < |l.extendableAddable| :: l.extendableAddable[i])
    requires (forall i | 0 <= i < |l.optionAddable| :: l.optionAddable[i])
    ensures Sum(l, plus, a, b).Some?
  {
    assert forall i | 0 <= i < |a.natives| :: AddNative(l.sentinels[i], l.nativeAddable[i], plus, a.natives[i], b.natives[i]).Some?;
    assert forall i | 0 <= i < |a.extendables| :: AddExtendable(l.extendableAddable[i], a.extendables[i], b.extendables[i]).Some?;
    assert forall i | 0 <= i < |a.options| :: AddOption(l.optionAddable[i], plus, a.options[i], b.options[i]).Some?;
  }

  function Concat(x: string, y: string): string { x + y }

  /**
   * The two collection-like sums run in opposite directions: an addable extendable field
   * keeps the left filler's items first, while an addable optional field puts the right
   * filler's value first (`Some(a + &b)` with `a` from the right-hand side).
   */
  lemma SumOrder()
    ensures var l := Layout([], [], [true], [true]);
      Sum(l, Concat, Group([], [["a"]], [Some("a")]), Group([], [["b"]], [Some("b")]))
        == Some(Group([], [["a", "b"]], [Some("ba")]))
  {
    var l := Layout([], [], [true], [true]);
    var a := Group([], [["a"]], [Some("a")]);
    var b := Group([], [["b"]], [Some("b")]);
    assert ["a"] + ["b"] == ["a", "b"];
    assert ["a"] != [];
    assert AddExtendable(true, ["a"], ["b"]) == Some(["a", "b"]);
    assert Concat("b", "a") == "ba";
    assert AddOption(true, Concat, Some("a"), Some("b")) == Some(Some("ba"));
    var r := Sum(l, Concat, a, b).value;
    assert r.extendables == [["a", "b"]];
    assert r.options == [Some("ba")];
  }
}
