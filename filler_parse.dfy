/**
 * `Filler::from_ast`, `Field::from_ast`, `filler_type` and `none_option_filler_type` of the
 * Filler derive, in both of its versions: the older one without `addable`, and the newer one
 * whose `addable` key needs the `op` feature.
 */
module FillerParse {
  import opened Wrappers
  import opened Meta

  datatype PathArgs = NoArgs | Angle(count: nat) | ParenArgs

  datatype Segment = Segment(ident: string, args: PathArgs)

  /** A field's type: a path such as `Vec<u8>` (never without a segment), or any other type. */
  datatype Type = PathType(first: Segment, rest: seq<Segment>) | OtherType

  /** How a filler field is emptied and filled. */
  datatype FillerType = OptionFill | Extendable(collection: string) | NativeValue(empty: Lit)

  /** `Legacy` is the derive without `addable`; `WithOp(op)` the one whose `addable` needs feature `op`. */
  datatype Variant = Legacy | WithOp(op: bool)

  datatype SourceField = SourceField(ident: Option<string>, ty: Type, attrs: seq<Attribute>)

  datatype Data = StructData(fields: seq<SourceField>) | EnumData | UnionData

  datatype DeriveInput = DeriveInput(ident: string, data: Data, attrs: seq<Attribute>)

  datatype FieldDecl = FieldDecl(ident: Option<string>, ty: Type, attributes: seq<Tokens>, fty: FillerType,
                                 addable: bool)

  datatype FillerDecl = FillerDecl(structName: string, name: string, attributes: seq<Tokens>, fields: seq<FieldDecl>)

  // ---------------------------------------------------------------------------
  // filler_type and none_option_filler_type
  // ---------------------------------------------------------------------------

  /** The collections recognised by their first path segment alone. */
  const Collections: seq<string> := ["VecDeque", "LinkedList", "HashMap", "BTreeMap", "HashSet", "BTreeSet", "BinaryHeap"]

  /**
   * `filler_type`: the category a field's type puts it in without any attribute.
   * `Option<T>` is an optional field, `Vec<T>` and the other listed collections with exactly
   * one angle-bracketed argument are extendable, and no type is a native value. Only `Vec`
   * must be a one-segment path; the others are recognised by their first segment.
   */
  function ClassifyType(ty: Type): (r: Option<FillerType>)
    ensures r == Some(OptionFill) <==> ty.PathType? && ty.rest == [] && ty.first == Segment("Option", Angle(1))
    ensures forall c :: r == Some(Extendable(c)) <==>
      ty.PathType? && ty.first == Segment(c, Angle(1)) && c != "Option"
      && ((ty.rest == [] && c == "Vec") || c in Collections)
    ensures r.Some? ==> !r.value.NativeValue?
  {
    if !ty.PathType? then None
    else
      var s0 := ty.first;
      if ty.rest == [] && s0.ident == "Option" then
        (if s0.args == Angle(1) then Some(OptionFill) else None)
      else if (ty.rest == [] && s0.ident == "Vec") || s0.ident in Collections then
        (if s0.args == Angle(1) then Some(Extendable(s0.ident)) else None)
      else None
  }

  /** `none_option_filler_type`: the first segment of a path type; panics on any other type. */
  function CollectionOf(ty: Type): (r: Result<string, ParseError>)
    ensures r.Ok? <==> ty.PathType?
    ensures r.Ok? ==> r.value == ty.first.ident
    ensures r.Err? ==> r.error == ExtendableNeedsPathType
  {
    if ty.PathType? then Ok(ty.first.ident) else Err(ExtendableNeedsPathType)
  }

  /** Two type arguments are not recognised: `HashMap<K, V>` needs `#[filler(extendable)]`. */
  lemma TwoArgumentMapUnclassified(rest: seq<Segment>)
    ensures ClassifyType(PathType(Segment("HashMap", Angle(2)), rest)) == None
    ensures ClassifyType(PathType(Segment("HashMap", Angle(1)), rest)) == Some(Extendable("HashMap"))
  {
    assert "HashMap" in Collections;
  }

  // ---------------------------------------------------------------------------
  // Field attributes
  // ---------------------------------------------------------------------------

  datatype FieldState = FieldState(fty: Option<FillerType>, attributes: seq<Tokens>, addable: bool)

  function Flag<S>(m: NestedMeta, st: S): Result<S, ParseError>
  {
    if m.arg.Bare? then Ok(st) else Err(UnexpectedArgs(m.key))
  }

  /** The handler `Field::from_ast` passes to `parse_nested_meta` for a field of type `ty`. */
  function FieldItem(variant: Variant, ty: Type, st: FieldState, m: NestedMeta): Result<FieldState, ParseError>
  {
    if m.key == "attribute" then
      if m.arg.Paren? then Ok(st.(attributes := st.attributes + [m.arg.tokens])) else Err(ExpectedParens("attribute"))
    else if m.key == "extendable" then
      if st.fty.Some? then Err(AlreadyFillerField)
      else
        var c := CollectionOf(ty);
        if c.Err? then Err(c.error) else Flag(m, st.(fty := Some(Extendable(c.value))))
    else if m.key == "empty_value" then
      if st.fty.Some? then Err(AlreadyFillerField)
      else
        var lit := LitOf("empty_value", m.arg);
        if lit.Err? then Err(lit.error) else Ok(st.(fty := Some(NativeValue(lit.value))))
    else if m.key == "addable" && variant.WithOp? then
      if variant.op then Flag(m, st.(addable := true)) else Err(NeedsOpFeature("addable"))
    else Err(UnknownFieldAttribute(m.key))
  }

  function FieldItemFor(variant: Variant, ty: Type): (FieldState, NestedMeta) -> Result<FieldState, ParseError>
  {
    (st, m) => FieldItem(variant, ty, st, m)
  }

  function InitialState(ty: Type): FieldState
  {
    FieldState(ClassifyType(ty), [], false)
  }

  /** `Field::from_ast`: a field in no category is left out of the filler (`Ok(None)`). */
  function ParseField(variant: Variant, f: SourceField): Result<Option<FieldDecl>, ParseError>
  {
    var st := FoldAttrs(InitialState(f.ty), f.attrs, "filler", FieldItemFor(variant, f.ty), Never);
    if st.Err? then Err(st.error)
    else if st.value.fty.None? then Ok(None)
    else Ok(Some(FieldDecl(f.ident, f.ty, st.value.attributes, st.value.fty.value, st.value.addable)))
  }

  function FieldStep(variant: Variant, acc: seq<FieldDecl>, f: SourceField): Result<seq<FieldDecl>, ParseError>
  {
    var r := ParseField(variant, f);
    if r.Err? then Err(r.error) else if r.value.None? then Ok(acc) else Ok(acc + [r.value.value])
  }

  function FieldStepFor(variant: Variant): (seq<FieldDecl>, SourceField) -> Result<seq<FieldDecl>, ParseError>
  {
    (acc, f) => FieldStep(variant, acc, f)
  }

  // ---------------------------------------------------------------------------
  // Container attributes and Filler::from_ast
  // ---------------------------------------------------------------------------

  function ContainerItem(st: seq<Tokens>, m: NestedMeta): Result<seq<Tokens>, ParseError>
  {
    if m.key == "attribute" then
      if m.arg.Paren? then Ok(st + [m.arg.tokens]) else Err(ExpectedParens("attribute"))
    else Err(UnknownContainerAttribute(m.key))
  }

  function ContainerAttrsSpec(attrs: seq<Attribute>): Result<seq<Tokens>, ParseError>
  {
    FoldAttrs([], attrs, "filler", ContainerItem, Never)
  }

  function ParseFiller(variant: Variant, input: DeriveInput): (r: Result<FillerDecl, ParseError>)
    ensures !input.data.StructData? ==> r == Err(NotAStruct)
  {
    if !input.data.StructData? then Err(NotAStruct)
    else
      var c := ContainerAttrsSpec(input.attrs);
      if c.Err? then Err(c.error)
      else
        var fs := Fold([], input.data.fields, FieldStepFor(variant));
        if fs.Err? then Err(fs.error)
        else
          var name := input.ident + "Filler";
          if !IsIdent(name) then Err(NotAnIdentifier(name))
          else Ok(FillerDecl(input.ident, name, c.value, fs.value))
  }

  // ---------------------------------------------------------------------------
  // The loops
  // ---------------------------------------------------------------------------

  /** The attribute loop of `Filler::from_ast`. */
  method ContainerAttrs(attrs: seq<Attribute>) returns (r: Result<seq<Tokens>, ParseError>)
    ensures r == ContainerAttrsSpec(attrs)
  {
    var attributes: seq<Tokens> := [];
    var k := 0;
    while k < |attrs|
      invariant k <= |attrs|
      invariant FoldAttrs([], attrs[..k], "filler", ContainerItem, Never) == Ok(attributes)
    {
      var attr := attrs[k];
      if attr.path != ["filler"] || attr.body == List([]) {
        AttrPassed([], attrs, k, "filler", ContainerItem, Never, attributes);
        k := k + 1;
        continue;
      }
      if !attr.body.List? {
        AttrNotList([], attrs, k, "filler", ContainerItem, Never, attributes);
        return Err(ExpectedParenthesizedList);
      }
      var items := attr.body.items;
      ghost var s0 := attributes;
      var j := 0;
      while j < |items|
        invariant j <= |items|
        invariant Fold(s0, items[..j], ContainerItem) == Ok(attributes)
      {
        FoldSnoc(s0, items, j, ContainerItem);
        var m := items[j];
        if m.key == "attribute" && m.arg.Paren? {
          attributes := attributes + [m.arg.tokens];
        } else {
          var e := if m.key == "attribute" then ExpectedParens("attribute") else UnknownContainerAttribute(m.key);
          ItemError([], attrs, k, "filler", ContainerItem, Never, s0, j, e);
          return Err(e);
        }
        j := j + 1;
      }
      ItemsDone([], attrs, k, "filler", ContainerItem, Never, s0, attributes);
      k := k + 1;
    }
    assert attrs[..k] == attrs;
    return Ok(attributes);
  }

  /** `Field::from_ast`. */
  method FieldFromAst(variant: Variant, f: SourceField) returns (r: Result<Option<FieldDecl>, ParseError>)
    ensures r == ParseField(variant, f)
  {
    var ty := f.ty;
    var attrs := f.attrs;
    var fty := ClassifyType(ty);
    var attributes: seq<Tokens> := [];
    var addable := false;
    var item := FieldItemFor(variant, ty);
    var k := 0;
    while k < |attrs|
      invariant k <= |attrs|
      invariant FoldAttrs(InitialState(ty), attrs[..k], "filler", item, Never) == Ok(FieldState(fty, attributes, addable))
    {
      var attr := attrs[k];
      if attr.path != ["filler"] || attr.body == List([]) {
        AttrPassed(InitialState(ty), attrs, k, "filler", item, Never, FieldState(fty, attributes, addable));
        k := k + 1;
        continue;
      }
      if !attr.body.List? {
        AttrNotList(InitialState(ty), attrs, k, "filler", item, Never, FieldState(fty, attributes, addable));
        return Err(ExpectedParenthesizedList);
      }
      var items := attr.body.items;
      ghost var s0 := FieldState(fty, attributes, addable);
      var j := 0;
      while j < |items|
        invariant j <= |items|
        invariant Fold(s0, items[..j], item) == Ok(FieldState(fty, attributes, addable))
      {
        FoldSnoc(s0, items, j, item);
        var m := items[j];
        var e: Option<ParseError> := None;
        if m.key == "attribute" {
          if m.arg.Paren? {
            attributes := attributes + [m.arg.tokens];
          } else {
            e := Some(ExpectedParens("attribute"));
          }
        } else if m.key == "extendable" {
          if fty.Some? {
            e := Some(AlreadyFillerField);
          } else if !ty.PathType? {
            e := Some(ExtendableNeedsPathType);
          } else {
            fty := Some(Extendable(ty.first.ident));
            if !m.arg.Bare? { e := Some(UnexpectedArgs(m.key)); }
          }
        } else if m.key == "empty_value" {
          if fty.Some? {
            e := Some(AlreadyFillerField);
          } else {
            var lit := GetLit("empty_value", m.arg);
            if lit.Err? {
              e := Some(lit.error);
            } else {
              fty := Some(NativeValue(lit.value));
            }
          }
        } else if m.key == "addable" && variant.WithOp? {
          if variant.op {
            addable := true;
            if !m.arg.Bare? { e := Some(UnexpectedArgs(m.key)); }
          } else {
            e := Some(NeedsOpFeature("addable"));
          }
        } else {
          e := Some(UnknownFieldAttribute(m.key));
        }
        if e.Some? {
          ItemError(InitialState(ty), attrs, k, "filler", item, Never, s0, j, e.value);
          return Err(e.value);
        }
        j := j + 1;
      }
      ItemsDone(InitialState(ty), attrs, k, "filler", item, Never, s0, FieldState(fty, attributes, addable));
      k := k + 1;
    }
    assert attrs[..k] == attrs;
    if fty.None? {
      return Ok(None);
    }
    return Ok(Some(FieldDecl(f.ident, ty, attributes, fty.value, addable)));
  }

  /** `Filler::from_ast`. */
  method FromAst(variant: Variant, input: DeriveInput) returns (r: Result<FillerDecl, ParseError>)
    ensures r == ParseFiller(variant, input)
  {
    if !input.data.StructData? {
      return Err(NotAStruct);
    }
    var c := ContainerAttrs(input.attrs);
    if c.Err? {
      return Err(c.error);
    }
    var original := input.data.fields;
    var fields: seq<FieldDecl> := [];
    var i := 0;
    while i < |original|
      invariant i <= |original|
      invariant Fold([], original[..i], FieldStepFor(variant)) == Ok(fields)
    {
      FoldSnoc([], original, i, FieldStepFor(variant));
      var f := FieldFromAst(variant, original[i]);
      if f.Err? {
        FoldErrSticky([], original, i + 1, FieldStepFor(variant));
        return Err(f.error);
      }
      if f.value.Some? {
        fields := fields + [f.value.value];
      }
      i := i + 1;
    }
    assert original[..i] == original;
    var name := input.ident + "Filler";
    if !IsIdent(name) {
      return Err(NotAnIdentifier(name));
    }
    return Ok(FillerDecl(input.ident, name, c.value, fields));
  }

  // ---------------------------------------------------------------------------
  // What the parser accepts and produces
  // ---------------------------------------------------------------------------

  lemma {:induction false} ContainerItemsLaw(st: seq<Tokens>, items: seq<NestedMeta>, s: seq<Tokens>)
    requires Fold(st, items, ContainerItem) == Ok(s)
    ensures forall i | 0 <= i < |items| :: items[i].key == "attribute"
    ensures s == st + ForwardedTokens(items)
    decreases |items|
  {
    if items != [] {
      var init := items[..|items| - 1];
      ContainerItemsLaw(st, init, Fold(st, init, ContainerItem).value);
    }
  }

  /**
   * A parsed container: `attribute(...)` is its only key, each of them is forwarded in order,
   * and the filler struct is always named `{Name}Filler`.
   */
  lemma ParseFillerContainerLaw(variant: Variant, input: DeriveInput)
    requires ParseFiller(variant, input).Ok?
    ensures var items := ListItems(input.attrs, "filler");
      var d := ParseFiller(variant, input).value;
      input.data.StructData? && d.structName == input.ident
      && (forall i | 0 <= i < |items| :: items[i].key == "attribute")
      && d.name == input.ident + "Filler" && IsIdent(d.name)
      && d.attributes == ForwardedTokens(items)
  {
    FoldAttrsFlat([], input.attrs, "filler", ContainerItem);
    ContainerItemsLaw([], ListItems(input.attrs, "filler"), ContainerAttrsSpec(input.attrs).value);
  }

  predicate KnownFieldKey(variant: Variant, key: string)
  {
    key == "attribute" || key == "extendable" || key == "empty_value" || (variant == WithOp(true) && key == "addable")
  }

  function Category(st: FieldState): nat
  {
    if st.fty.Some? then 1 else 0
  }

  /** One item of a field attribute: what it may be and what it changes. */
  lemma FieldItemStep(variant: Variant, ty: Type, st: FieldState, m: NestedMeta, s: FieldState)
    requires FieldItem(variant, ty, st, m) == Ok(s)
    ensures KnownFieldKey(variant, m.key)
    ensures s.attributes == st.attributes + (if m.key == "attribute" && m.arg.Paren? then [m.arg.tokens] else [])
    ensures m.key == "extendable" ==> st.fty.None? && ty.PathType? && s.fty == Some(Extendable(ty.first.ident))
    ensures m.key == "empty_value" ==> st.fty.None? && m.arg.Assign? && Unwrapped(m.arg.value).LitExpr?
                                        && s.fty == Some(NativeValue(Unwrapped(m.arg.value).lit))
    ensures m.key != "extendable" && m.key != "empty_value" ==> s.fty == st.fty
    ensures s.addable == (st.addable || m.key == "addable")
  {
  }

  /** The literal of the last `empty_value = lit` item of a field, if any. */
  function EmptyValueGiven(items: seq<NestedMeta>): Option<Lit>
    decreases |items|
  {
    if items == [] then None
    else
      var m := items[|items| - 1];
      if m.key == "empty_value" && m.arg.Assign? && Unwrapped(m.arg.value).LitExpr?
      then Some(Unwrapped(m.arg.value).lit)
      else EmptyValueGiven(items[..|items| - 1])
  }

  lemma {:induction false} FieldItemsLaw(variant: Variant, ty: Type, st: FieldState, items: seq<NestedMeta>, s: FieldState)
    requires Fold(st, items, FieldItemFor(variant, ty)) == Ok(s)
    ensures forall i | 0 <= i < |items| :: KnownFieldKey(variant, items[i].key)
    ensures HasKey(items, "addable") ==> variant == WithOp(true)
    ensures s.attributes == st.attributes + ForwardedTokens(items)
    ensures Category(st) + CountKey(items, "extendable") + CountKey(items, "empty_value") == Category(s)
    ensures HasKey(items, "extendable") ==> ty.PathType? && s.fty == Some(Extendable(ty.first.ident))
    ensures forall i | 0 <= i < |items| && items[i].key == "empty_value" ::
              items[i].arg.Assign? && Unwrapped(items[i].arg.value).LitExpr?
    ensures HasKey(items, "empty_value") ==> EmptyValueGiven(items).Some? && s.fty == Some(NativeValue(EmptyValueGiven(items).value))
    ensures !HasKey(items, "extendable") && !HasKey(items, "empty_value") ==> s.fty == st.fty
    ensures s.addable == (st.addable || HasKey(items, "addable"))
    decreases |items|
  {
    if items != [] {
      var init := items[..|items| - 1];
      var m := items[|items| - 1];
      var mid := Fold(st, init, FieldItemFor(variant, ty)).value;
      FieldItemsLaw(variant, ty, st, init, mid);
      assert FieldItem(variant, ty, mid, m) == Ok(s);
      FieldItemStep(variant, ty, mid, m, s);
    }
  }

  /** A field ends up in the filler when its type classifies it or it names a category. */
  predicate InFiller(f: SourceField)
  {
    var items := ListItems(f.attrs, "filler");
    ClassifyType(f.ty).Some? || HasKey(items, "extendable") || HasKey(items, "empty_value")
  }

  /**
   * A parsed field: kept exactly when its type or one attribute puts it in a category, and
   * then in exactly one (a second category is an error); the type's category stands unless an
   * attribute names one; `addable` is set exactly by its key; `attribute(...)` blocks are
   * forwarded in order; only known keys occur.
   */
  lemma ParseFieldLaw(variant: Variant, f: SourceField)
    requires ParseField(variant, f).Ok?
    ensures var items := ListItems(f.attrs, "filler");
      var r := ParseField(variant, f).value;
      (r.Some? <==> InFiller(f))
      && (if ClassifyType(f.ty).Some? then 1 else 0) + CountKey(items, "extendable") + CountKey(items, "empty_value") <= 1
      && (forall i | 0 <= i < |items| :: KnownFieldKey(variant, items[i].key))
      && (r.Some? ==>
            r.value.ident == f.ident && r.value.ty == f.ty
            && r.value.attributes == ForwardedTokens(items)
            && r.value.addable == HasKey(items, "addable")
            && (ClassifyType(f.ty).Some? ==> r.value.fty == ClassifyType(f.ty).value)
            && (HasKey(items, "extendable") ==> f.ty.PathType? && r.value.fty == Extendable(f.ty.first.ident))
            && (HasKey(items, "empty_value") ==>
                  EmptyValueGiven(items).Some? && r.value.fty == NativeValue(EmptyValueGiven(items).value))
            && (r.value.fty.NativeValue? ==> HasKey(items, "empty_value")))
  {
    var item := FieldItemFor(variant, f.ty);
    FoldAttrsFlat(InitialState(f.ty), f.attrs, "filler", item);
    var items := ListItems(f.attrs, "filler");
    FieldItemsLaw(variant, f.ty, InitialState(f.ty), items, Fold(InitialState(f.ty), items, item).value);
  }

  /** A field whose type already has a category cannot also be marked `extendable` or `empty_value`. */
  lemma SecondCategoryRejected(variant: Variant, f: SourceField)
    requires ClassifyType(f.ty).Some?
    requires HasKey(ListItems(f.attrs, "filler"), "extendable") || HasKey(ListItems(f.attrs, "filler"), "empty_value")
    ensures ParseField(variant, f).Err?
  {
    if ParseField(variant, f).Ok? {
      ParseFieldLaw(variant, f);
    }
  }

  /** `addable` is an unknown key for the older derive and needs `op` for the newer one. */
  lemma AddableRejected(variant: Variant, f: SourceField)
    requires variant != WithOp(true)
    requires HasKey(ListItems(f.attrs, "filler"), "addable")
    ensures ParseField(variant, f).Err?
  {
    if ParseField(variant, f).Ok? {
      var item := FieldItemFor(variant, f.ty);
      var items := ListItems(f.attrs, "filler");
      FoldAttrsFlat(InitialState(f.ty), f.attrs, "filler", item);
      FieldItemsLaw(variant, f.ty, InitialState(f.ty), items, Fold(InitialState(f.ty), items, item).value);
    }
  }

  /** `empty_value` given anything but a literal (`empty_value = x`, or no `= ...`) is rejected. */
  lemma NonLiteralEmptyValueRejected(variant: Variant, f: SourceField, i: nat)
    requires i < |ListItems(f.attrs, "filler")| && ListItems(f.attrs, "filler")[i].key == "empty_value"
    requires !ListItems(f.attrs, "filler")[i].arg.Assign? || !Unwrapped(ListItems(f.attrs, "filler")[i].arg.value).LitExpr?
    ensures ParseField(variant, f).Err?
  {
    if ParseField(variant, f).Ok? {
      var item := FieldItemFor(variant, f.ty);
      var items := ListItems(f.attrs, "filler");
      FoldAttrsFlat(InitialState(f.ty), f.attrs, "filler", item);
      FieldItemsLaw(variant, f.ty, InitialState(f.ty), items, Fold(InitialState(f.ty), items, item).value);
    }
  }

  /** The fields that end up in the filler, in declaration order. */
  function Kept(fs: seq<SourceField>): seq<SourceField>
    decreases |fs|
  {
    if fs == [] then []
    else Kept(fs[..|fs| - 1]) + (if InFiller(fs[|fs| - 1]) then [fs[|fs| - 1]] else [])
  }

  lemma {:induction false} FieldsLaw(variant: Variant, fs: seq<SourceField>)
    requires Fold([], fs, FieldStepFor(variant)).Ok?
    ensures var ds := Fold([], fs, FieldStepFor(variant)).value;
      |ds| == |Kept(fs)| && forall i | 0 <= i < |ds| :: ParseField(variant, Kept(fs)[i]) == Ok(Some(ds[i]))
    decreases |fs|
  {
    if fs != [] {
      var init := fs[..|fs| - 1];
      FieldsLaw(variant, init);
      ParseFieldLaw(variant, fs[|fs| - 1]);
    }
  }

  /**
   * The filler has one field per field that its type or an attribute puts in a category, in
   * source order: each is that field as parsed, with its own name and type, its type's
   * category unless an attribute names one, the empty value its `empty_value` literal gives,
   * and `addable` exactly when it says so.
   */
  lemma ParseFillerFieldsLaw(variant: Variant, input: DeriveInput)
    requires ParseFiller(variant, input).Ok?
    ensures input.data.StructData?
    ensures var d := ParseFiller(variant, input).value;
      var kept := Kept(input.data.fields);
      |d.fields| == |kept|
      && forall i | 0 <= i < |kept| ::
           var items := ListItems(kept[i].attrs, "filler");
           ParseField(variant, kept[i]) == Ok(Some(d.fields[i]))
           && d.fields[i].ident == kept[i].ident && d.fields[i].ty == kept[i].ty
           && d.fields[i].attributes == ForwardedTokens(items)
           && d.fields[i].addable == HasKey(items, "addable")
           && (ClassifyType(kept[i].ty).Some? ==> d.fields[i].fty == ClassifyType(kept[i].ty).value)
           && (HasKey(items, "extendable") ==> kept[i].ty.PathType? && d.fields[i].fty == Extendable(kept[i].ty.first.ident))
           && (HasKey(items, "empty_value") ==>
                 EmptyValueGiven(items).Some? && d.fields[i].fty == NativeValue(EmptyValueGiven(items).value))
           && (d.fields[i].fty.NativeValue? ==> HasKey(items, "empty_value"))
  {
    var d := ParseFiller(variant, input).value;
    var kept := Kept(input.data.fields);
    FieldsLaw(variant, input.data.fields);
    forall i | 0 <= i < |kept|
      ensures var items := ListItems(kept[i].attrs, "filler");
           ParseField(variant, kept[i]) == Ok(Some(d.fields[i]))
           && d.fields[i].ident == kept[i].ident && d.fields[i].ty == kept[i].ty
           && d.fields[i].attributes == ForwardedTokens(items)
           && d.fields[i].addable == HasKey(items, "addable")
           && (ClassifyType(kept[i].ty).Some? ==> d.fields[i].fty == ClassifyType(kept[i].ty).value)
           && (HasKey(items, "extendable") ==> kept[i].ty.PathType? && d.fields[i].fty == Extendable(kept[i].ty.first.ident))
           && (HasKey(items, "empty_value") ==>
                 EmptyValueGiven(items).Some? && d.fields[i].fty == NativeValue(EmptyValueGiven(items).value))
           && (d.fields[i].fty.NativeValue? ==> HasKey(items, "empty_value"))
    {
      ParseFieldLaw(variant, kept[i]);
    }
  }
}
