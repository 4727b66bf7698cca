/**
 * `Patch::from_ast` and `Field::from_ast` of the Patch derive: the container attributes
 * `#[patch(name = "...", attribute(...))]` and the field attributes
 * `#[patch(skip, name = "...", attribute(...), addable, add = f)]`.
 */
module PatchParse {
  import opened Wrappers
  import opened Meta
  import Patching

  datatype SourceField = SourceField(ident: Option<string>, ty: string, attrs: seq<Attribute>)

  datatype Data = StructData(fields: seq<SourceField>) | EnumData | UnionData

  datatype DeriveInput = DeriveInput(ident: string, data: Data, attrs: seq<Attribute>)

  /** A field of the patch struct: `ty` is the companion patch type when `retyped`. */
  datatype FieldDecl = FieldDecl(ident: Option<string>, ty: string, attributes: seq<Tokens>, retyped: bool,
                                 addable: Patching.Addable)

  datatype PatchDecl = PatchDecl(structName: string, name: string, attributes: seq<Tokens>, fields: seq<FieldDecl>)

  // ---------------------------------------------------------------------------
  // Container attributes
  // ---------------------------------------------------------------------------

  datatype ContainerState = ContainerState(name: Option<string>, attributes: seq<Tokens>)

  const NoContainerAttrs := ContainerState(None, [])

  /** The handler `from_ast` passes to `parse_nested_meta` for the container. */
  function ContainerItem(st: ContainerState, m: NestedMeta): Result<ContainerState, ParseError>
  {
    if m.key == "name" then
      var lit := LitStrOf("name", m.arg);
      if lit.Err? then Err(lit.error)
      else if st.name.Some? then Err(NameDefinedTwice)
      else if !IsIdent(TrimSpace(lit.value)) then Err(NotAnIdentifier(lit.value))
      else Ok(st.(name := Some(TrimSpace(lit.value))))
    else if m.key == "attribute" then
      if m.arg.Paren? then Ok(st.(attributes := st.attributes + [m.arg.tokens])) else Err(ExpectedParens("attribute"))
    else Err(UnknownContainerAttribute(m.key))
  }

  function ContainerAttrsSpec(attrs: seq<Attribute>): Result<ContainerState, ParseError>
  {
    FoldAttrs(NoContainerAttrs, attrs, "patch", ContainerItem, Never)
  }

  // ---------------------------------------------------------------------------
  // Field attributes
  // ---------------------------------------------------------------------------

  datatype FieldState = FieldState(attributes: seq<Tokens>, fieldType: Option<string>, skip: bool,
                                   addable: Patching.Addable)

  const NoFieldAttrs := FieldState([], None, false, Patching.Disable)

  /** A key that takes no argument: anything after it is an error of `parse_nested_meta`. */
  function Flag<S>(m: NestedMeta, st: S): Result<S, ParseError>
  {
    if m.arg.Bare? then Ok(st) else Err(UnexpectedArgs(m.key))
  }

  /** The handler `Field::from_ast` passes to `parse_nested_meta`; `op` is the cargo feature. */
  function FieldItem(op: bool, st: FieldState, m: NestedMeta): Result<FieldState, ParseError>
  {
    if m.key == "skip" then Flag(m, st.(skip := true))
    else if m.key == "attribute" then
      if m.arg.Paren? then Ok(st.(attributes := st.attributes + [m.arg.tokens])) else Err(ExpectedParens("attribute"))
    else if m.key == "name" then
      if !m.arg.Assign? then Err(ExpectedEq("name"))
      else if Unwrapped(m.arg.value).LitExpr? && Unwrapped(m.arg.value).lit.StrLit? then
        Ok(st.(fieldType := Some(Unwrapped(m.arg.value).lit.value)))
      else Err(ExpectedStringLiteral)
    else if m.key == "addable" then
      if op then Flag(m, st.(addable := Patching.AddTrait)) else Err(NeedsOpFeature("addable"))
    else if m.key == "add" then
      if !op then Err(NeedsOpFeature("add"))
      else if !m.arg.Assign? then Err(ExpectedEq("add"))
      else if Unwrapped(m.arg.value).PathExpr? && |Unwrapped(m.arg.value).segments| == 1 then
        Ok(st.(addable := Patching.AddFn(Unwrapped(m.arg.value).segments[0])))
      else Err(ExpectedIdent("add"))
    else Err(UnknownFieldAttribute(m.key))
  }

  function FieldItemFor(op: bool): (FieldState, NestedMeta) -> Result<FieldState, ParseError>
  {
    (st, m) => FieldItem(op, st, m)
  }

  /** After each attribute, a field marked `skip` is dropped without reading further attributes. */
  function Skipped(st: FieldState): bool { st.skip }

  function ParseField(op: bool, f: SourceField): (r: Result<Option<FieldDecl>, ParseError>)
  {
    var st := FoldAttrs(NoFieldAttrs, f.attrs, "patch", FieldItemFor(op), Skipped);
    if st.Err? then Err(st.error)
    else if st.value.skip then Ok(None)
    else
      var s := st.value;
      Ok(Some(FieldDecl(f.ident, if s.fieldType.Some? then s.fieldType.value else f.ty, s.attributes,
                        s.fieldType.Some?, s.addable)))
  }

  /** One turn of the field loop of `from_ast`: keep the parsed field unless it was skipped. */
  function FieldStep(op: bool, acc: seq<FieldDecl>, f: SourceField): Result<seq<FieldDecl>, ParseError>
  {
    var r := ParseField(op, f);
    if r.Err? then Err(r.error) else if r.value.None? then Ok(acc) else Ok(acc + [r.value.value])
  }

  function FieldStepFor(op: bool): (seq<FieldDecl>, SourceField) -> Result<seq<FieldDecl>, ParseError>
  {
    (acc, f) => FieldStep(op, acc, f)
  }

  // ---------------------------------------------------------------------------
  // Patch::from_ast
  // ---------------------------------------------------------------------------

  function ParsePatch(op: bool, input: DeriveInput): (r: Result<PatchDecl, ParseError>)
    ensures !input.data.StructData? ==> r == Err(NotAStruct)
  {
    if !input.data.StructData? then Err(NotAStruct)
    else
      var c := ContainerAttrsSpec(input.attrs);
      if c.Err? then Err(c.error)
      else
        var fs := Fold([], input.data.fields, FieldStepFor(op));
        if fs.Err? then Err(fs.error)
        else
          var default := input.ident + "Patch";
          if !IsIdent(default) then Err(NotAnIdentifier(default))
          else
            var name := if c.value.name.Some? then c.value.name.value else default;
            Ok(PatchDecl(input.ident, name, c.value.attributes, fs.value))
  }

  // ---------------------------------------------------------------------------
  // The loops
  // ---------------------------------------------------------------------------

  /** The closure the attribute loop of `Patch::from_ast` passes to `parse_nested_meta`. */
  method ContainerItemAt(st: ContainerState, m: NestedMeta) returns (r: Result<ContainerState, ParseError>)
    ensures r == ContainerItem(st, m)
  {
    if m.key == "name" {
      var lit := GetLitStr("name", m.arg);
      if lit.Err? {
        return Err(lit.error);
      } else if st.name.Some? {
        return Err(NameDefinedTwice);
      }
      var name := TrimSpace(lit.value);
      if !IsIdent(name) {
        return Err(NotAnIdentifier(lit.value));
      }
      return Ok(st.(name := Some(name)));
    } else if m.key == "attribute" {
      if m.arg.Paren? {
        return Ok(st.(attributes := st.attributes + [m.arg.tokens]));
      }
      return Err(ExpectedParens("attribute"));
    }
    return Err(UnknownContainerAttribute(m.key));
  }

  /** The attribute loop of `Patch::from_ast`. */
  method ContainerAttrs(attrs: seq<Attribute>) returns (r: Result<ContainerState, ParseError>)
    ensures r == ContainerAttrsSpec(attrs)
  {
    var name: Option<string> := None;
    var attributes: seq<Tokens> := [];
    var k := 0;
    while k < |attrs|
      invariant k <= |attrs|
      invariant FoldAttrs(NoContainerAttrs, attrs[..k], "patch", ContainerItem, Never) == Ok(ContainerState(name, attributes))
    {
      var attr := attrs[k];
      if attr.path != ["patch"] || attr.body == List([]) {
        AttrPassed(NoContainerAttrs, attrs, k, "patch", ContainerItem, Never, ContainerState(name, attributes));
        k := k + 1;
        continue;
      }
      if !attr.body.List? {
        AttrNotList(NoContainerAttrs, attrs, k, "patch", ContainerItem, Never, ContainerState(name, attributes));
        return Err(ExpectedParenthesizedList);
      }
      var items := attr.body.items;
      ghost var s0 := ContainerState(name, attributes);
      var j := 0;
      while j < |items|
        invariant j <= |items|
        invariant Fold(s0, items[..j], ContainerItem) == Ok(ContainerState(name, attributes))
      {
        FoldSnoc(s0, items, j, ContainerItem);
        var step := ContainerItemAt(ContainerState(name, attributes), items[j]);
        if step.Err? {
          ItemError(NoContainerAttrs, attrs, k, "patch", ContainerItem, Never, s0, j, step.error);
          return Err(step.error);
        }
        name, attributes := step.value.name, step.value.attributes;
        j := j + 1;
      }
      ItemsDone(NoContainerAttrs, attrs, k, "patch", ContainerItem, Never, s0, ContainerState(name, attributes));
      k := k + 1;
    }
    assert attrs[..k] == attrs;
    return Ok(ContainerState(name, attributes));
  }

  /** `Field::from_ast`: `Ok(None)` for a skipped field. */
  method FieldFromAst(op: bool, f: SourceField) returns (r: Result<Option<FieldDecl>, ParseError>)
    ensures r == ParseField(op, f)
  {
    var attrs := f.attrs;
    var attributes: seq<Tokens> := [];
    var fieldType: Option<string> := None;
    var skip := false;
    var addable: Patching.Addable := Patching.Disable;
    var item := FieldItemFor(op);
    var k := 0;
    while k < |attrs|
      invariant k <= |attrs|
      invariant FoldAttrs(NoFieldAttrs, attrs[..k], "patch", item, Skipped) == Ok(FieldState(attributes, fieldType, false, addable))
      invariant !skip
    {
      var attr := attrs[k];
      if attr.path != ["patch"] || attr.body == List([]) {
        AttrPassed(NoFieldAttrs, attrs, k, "patch", item, Skipped, FieldState(attributes, fieldType, false, addable));
        k := k + 1;
        continue;
      }
      if !attr.body.List? {
        AttrNotList(NoFieldAttrs, attrs, k, "patch", item, Skipped, FieldState(attributes, fieldType, false, addable));
        return Err(ExpectedParenthesizedList);
      }
      var items := attr.body.items;
      ghost var s0 := FieldState(attributes, fieldType, false, addable);
      var j := 0;
      while j < |items|
        invariant j <= |items|
        invariant Fold(s0, items[..j], item) == Ok(FieldState(attributes, fieldType, skip, addable))
      {
        FoldSnoc(s0, items, j, item);
        var m := items[j];
        var e: Option<ParseError> := None;
        if m.key == "skip" {
          skip := true;
          if !m.arg.Bare? { e := Some(UnexpectedArgs(m.key)); }
        } else if m.key == "attribute" {
          if m.arg.Paren? {
            attributes := attributes + [m.arg.tokens];
          } else {
            e := Some(ExpectedParens("attribute"));
          }
        } else if m.key == "name" {
          if !m.arg.Assign? {
            e := Some(ExpectedEq("name"));
          } else {
            var value := StripGroups(m.arg.value);
            if value.LitExpr? && value.lit.StrLit? {
              fieldType := Some(value.lit.value);
            } else {
              e := Some(ExpectedStringLiteral);
            }
          }
        } else if m.key == "addable" {
          if op {
            addable := Patching.AddTrait;
            if !m.arg.Bare? { e := Some(UnexpectedArgs(m.key)); }
          } else {
            e := Some(NeedsOpFeature("addable"));
          }
        } else if m.key == "add" {
          if !op {
            e := Some(NeedsOpFeature("add"));
          } else if !m.arg.Assign? {
            e := Some(ExpectedEq("add"));
          } else {
            var value := StripGroups(m.arg.value);
            if value.PathExpr? && |value.segments| == 1 {
              addable := Patching.AddFn(value.segments[0]);
            } else {
              e := Some(ExpectedIdent("add"));
            }
          }
        } else {
          e := Some(UnknownFieldAttribute(m.key));
        }
        if e.Some? {
          ItemError(NoFieldAttrs, attrs, k, "patch", item, Skipped, s0, j, e.value);
          return Err(e.value);
        }
        j := j + 1;
      }
      ItemsDone(NoFieldAttrs, attrs, k, "patch", item, Skipped, s0, FieldState(attributes, fieldType, skip, addable));
      if skip {
        FoldAttrsSticky(NoFieldAttrs, attrs, k + 1, "patch", item, Skipped);
        return Ok(None);
      }
      k := k + 1;
    }
    assert attrs[..k] == attrs;
    var ty := if fieldType.Some? then fieldType.value else f.ty;
    return Ok(Some(FieldDecl(f.ident, ty, attributes, fieldType.Some?, addable)));
  }

  /** `Patch::from_ast`. */
  method FromAst(op: bool, input: DeriveInput) returns (r: Result<PatchDecl, ParseError>)
    ensures r == ParsePatch(op, input)
  {
    if !input.data.StructData? {
      return Err(NotAStruct);
    }
    var c := ContainerAttrs(input.attrs);
    if c.Err? {
      return Err(c.error);
    }
    var original := input.data.fields;
    var fields: seq<FieldDecl> := [];
    var i := 0;
    while i < |original|
      invariant i <= |original|
      invariant Fold([], original[..i], FieldStepFor(op)) == Ok(fields)
    {
      FoldSnoc([], original, i, FieldStepFor(op));
      var f := FieldFromAst(op, original[i]);
      if f.Err? {
        FoldErrSticky([], original, i + 1, FieldStepFor(op));
        return Err(f.error);
      }
      if f.value.Some? {
        fields := fields + [f.value.value];
      }
      i := i + 1;
    }
    assert original[..i] == original;
    var default := input.ident + "Patch";
    if !IsIdent(default) {
      return Err(NotAnIdentifier(default));
    }
    var name := if c.value.name.Some? then c.value.name.value else default;
    return Ok(PatchDecl(input.ident, name, c.value.attributes, fields));
  }

  // ---------------------------------------------------------------------------
  // What the parser accepts and produces
  // ---------------------------------------------------------------------------

  /** The trimmed string of the last `name` item whose value is a suffix-free string literal. */
  function NameGiven(items: seq<NestedMeta>): Option<string>
    decreases |items|
  {
    if items == [] then None
    else
      var m := items[|items| - 1];
      if m.key == "name" && LitStrOf("name", m.arg).Ok? then Some(TrimSpace(LitStrOf("name", m.arg).value))
      else NameGiven(items[..|items| - 1])
  }

  lemma {:induction false} ContainerItemsLaw(st: ContainerState, items: seq<NestedMeta>, s: ContainerState)
    requires Fold(st, items, ContainerItem) == Ok(s)
    ensures forall i | 0 <= i < |items| :: items[i].key == "name" || items[i].key == "attribute"
    ensures s.attributes == st.attributes + ForwardedTokens(items)
    ensures CountKey(items, "name") + (if st.name.Some? then 1 else 0) == (if s.name.Some? then 1 else 0)
    ensures s.name == if HasKey(items, "name") then NameGiven(items) else st.name
    ensures s.name.Some? && HasKey(items, "name") ==> IsIdent(s.name.value)
    decreases |items|
  {
    if items != [] {
      var init := items[..|items| - 1];
      ContainerItemsLaw(st, init, Fold(st, init, ContainerItem).value);
    }
  }

  /**
   * A parsed container: only `name` and `attribute` keys, `name` at most once, the patch
   * struct named by it or else `{Name}Patch`, and every `attribute(...)` forwarded in order.
   */
  lemma ParsePatchContainerLaw(op: bool, input: DeriveInput)
    requires ParsePatch(op, input).Ok?
    ensures var items := ListItems(input.attrs, "patch");
      var d := ParsePatch(op, input).value;
      input.data.StructData? && d.structName == input.ident
      && (forall i | 0 <= i < |items| :: items[i].key == "name" || items[i].key == "attribute")
      && CountKey(items, "name") <= 1
      && (HasKey(items, "name") ==> Some(d.name) == NameGiven(items))
      && (!HasKey(items, "name") ==> d.name == input.ident + "Patch")
      && IsIdent(d.name)
      && d.attributes == ForwardedTokens(items)
  {
    FoldAttrsFlat(NoContainerAttrs, input.attrs, "patch", ContainerItem);
    ContainerItemsLaw(NoContainerAttrs, ListItems(input.attrs, "patch"), ContainerAttrsSpec(input.attrs).value);
  }

  /** `#[patch(name = "A")]` given twice on a struct is rejected. */
  lemma NameTwiceRejected(op: bool, input: DeriveInput)
    requires CountKey(ListItems(input.attrs, "patch"), "name") >= 2
    ensures ParsePatch(op, input).Err?
  {
    if ParsePatch(op, input).Ok? {
      ParsePatchContainerLaw(op, input);
    }
  }

  /** A container key other than `name` and `attribute` is rejected. */
  lemma UnknownContainerKeyRejected(op: bool, input: DeriveInput, i: nat)
    requires i < |ListItems(input.attrs, "patch")|
    requires ListItems(input.attrs, "patch")[i].key != "name" && ListItems(input.attrs, "patch")[i].key != "attribute"
    ensures ParsePatch(op, input).Err?
  {
    if ParsePatch(op, input).Ok? {
      ParsePatchContainerLaw(op, input);
    }
  }

  predicate KnownFieldKey(op: bool, key: string)
  {
    key == "skip" || key == "attribute" || key == "name" || (op && (key == "addable" || key == "add"))
  }

  /** The type written by the last `name = "T"` item of a field, if any. */
  function TypeGiven(items: seq<NestedMeta>): Option<string>
    decreases |items|
  {
    if items == [] then None
    else
      var m := items[|items| - 1];
      if m.key == "name" && m.arg.Assign? && Unwrapped(m.arg.value).LitExpr? && Unwrapped(m.arg.value).lit.StrLit?
      then Some(Unwrapped(m.arg.value).lit.value)
      else TypeGiven(items[..|items| - 1])
  }

  /** The handle chosen by the last `addable` or `add = f` item of a field, if any. */
  function HandleGiven(items: seq<NestedMeta>): Option<Patching.Addable>
    decreases |items|
  {
    if items == [] then None
    else
      var m := items[|items| - 1];
      if m.key == "addable" then Some(Patching.AddTrait)
      else if m.key == "add" && m.arg.Assign? && Unwrapped(m.arg.value).PathExpr?
              && |Unwrapped(m.arg.value).segments| == 1
      then Some(Patching.AddFn(Unwrapped(m.arg.value).segments[0]))
      else HandleGiven(items[..|items| - 1])
  }

  lemma {:induction false} FieldItemsLaw(op: bool, st: FieldState, items: seq<NestedMeta>, s: FieldState)
    requires Fold(st, items, FieldItemFor(op)) == Ok(s)
    ensures forall i | 0 <= i < |items| :: KnownFieldKey(op, items[i].key)
    ensures s.attributes == st.attributes + ForwardedTokens(items)
    ensures s.skip == (st.skip || HasKey(items, "skip"))
    ensures s.fieldType == if HasKey(items, "name") then TypeGiven(items) else st.fieldType
    ensures s.fieldType.Some? == (st.fieldType.Some? || HasKey(items, "name"))
    ensures s.addable == if HandleGiven(items).Some? then HandleGiven(items).value else st.addable
    ensures !op ==> HandleGiven(items).None?
    decreases |items|
  {
    if items != [] {
      var init := items[..|items| - 1];
      FieldItemsLaw(op, st, init, Fold(st, init, FieldItemFor(op)).value);
    }
  }

  /**
   * A parsed field: dropped exactly when some `#[patch(...)]` of it says `skip`; otherwise it
   * keeps its name, is retyped exactly when it has a `name` key (keeping its own type
   * otherwise), forwards its `attribute(...)` blocks in order, uses only known keys, and
   * without the `op` feature never combines under `+`.
   */
  lemma ParseFieldLaw(op: bool, f: SourceField)
    requires ParseField(op, f).Ok?
    ensures var items := ListItems(f.attrs, "patch");
      var r := ParseField(op, f).value;
      (r.None? <==> HasKey(items, "skip"))
      && (r.Some? ==>
            r.value.ident == f.ident
            && r.value.retyped == HasKey(items, "name")
            && (r.value.retyped ==> Some(r.value.ty) == TypeGiven(items))
            && (!r.value.retyped ==> r.value.ty == f.ty)
            && r.value.attributes == ForwardedTokens(items)
            && r.value.addable == (if HandleGiven(items).Some? then HandleGiven(items).value else Patching.Disable)
            && (!op ==> r.value.addable == Patching.Disable)
            && forall i | 0 <= i < |items| :: KnownFieldKey(op, items[i].key))
  {
    var k := FoldAttrsProcessed(NoFieldAttrs, f.attrs, "patch", FieldItemFor(op), Skipped);
    var pre := ListItems(f.attrs[..k], "patch");
    FieldItemsLaw(op, NoFieldAttrs, pre, Fold(NoFieldAttrs, pre, FieldItemFor(op)).value);
    if k < |f.attrs| {
      HasKeyPrefix(f.attrs, k, "patch", "skip");
    } else {
      assert f.attrs[..k] == f.attrs;
    }
  }

  /** The fields that no `#[patch(skip)]` removes, in declaration order. */
  function Kept(fs: seq<SourceField>): seq<SourceField>
    decreases |fs|
  {
    if fs == [] then []
    else
      var f := fs[|fs| - 1];
      Kept(fs[..|fs| - 1]) + (if HasKey(ListItems(f.attrs, "patch"), "skip") then [] else [f])
  }

  lemma {:induction false} FieldsLaw(op: bool, fs: seq<SourceField>)
    requires Fold([], fs, FieldStepFor(op)).Ok?
    ensures var ds := Fold([], fs, FieldStepFor(op)).value;
      |ds| == |Kept(fs)| && forall i | 0 <= i < |ds| :: ParseField(op, Kept(fs)[i]) == Ok(Some(ds[i]))
    decreases |fs|
  {
    if fs != [] {
      var init := fs[..|fs| - 1];
      FieldsLaw(op, init);
      ParseFieldLaw(op, fs[|fs| - 1]);
    }
  }

  /**
   * The patch struct has one field per field not marked `skip`, in source order; each keeps
   * its name, is retyped exactly when it carries `name = "..."` and then has the type of the
   * last one, and combines under `+` as its last `addable` or `add = f` says.
   */
  lemma ParsePatchFieldsLaw(op: bool, input: DeriveInput)
    requires ParsePatch(op, input).Ok?
    ensures input.data.StructData?
    ensures var d := ParsePatch(op, input).value;
      var kept := Kept(input.data.fields);
      |d.fields| == |kept|
      && forall i | 0 <= i < |kept| ::
           var items := ListItems(kept[i].attrs, "patch");
           ParseField(op, kept[i]) == Ok(Some(d.fields[i]))
           && d.fields[i].ident == kept[i].ident
           && d.fields[i].retyped == HasKey(items, "name")
           && (d.fields[i].retyped ==> Some(d.fields[i].ty) == TypeGiven(items))
           && (!d.fields[i].retyped ==> d.fields[i].ty == kept[i].ty)
           && d.fields[i].addable == (if HandleGiven(items).Some? then HandleGiven(items).value else Patching.Disable)
           && (!op ==> d.fields[i].addable == Patching.Disable)
  {
    var d := ParsePatch(op, input).value;
    var kept := Kept(input.data.fields);
    FieldsLaw(op, input.data.fields);
    forall i | 0 <= i < |kept|
      ensures var items := ListItems(kept[i].attrs, "patch");
           ParseField(op, kept[i]) == Ok(Some(d.fields[i]))
           && d.fields[i].ident == kept[i].ident
           && d.fields[i].retyped == HasKey(items, "name")
           && (d.fields[i].retyped ==> Some(d.fields[i].ty) == TypeGiven(items))
           && (!d.fields[i].retyped ==> d.fields[i].ty == kept[i].ty)
           && d.fields[i].addable == (if HandleGiven(items).Some? then HandleGiven(items).value else Patching.Disable)
           && (!op ==> d.fields[i].addable == Patching.Disable)
    {
      ParseFieldLaw(op, kept[i]);
    }
  }

  /** `addable` or `add` on a field is rejected without the `op` feature. */
  lemma AddableNeedsOp(f: SourceField, i: nat)
    requires i < |ListItems(f.attrs, "patch")| && !HasKey(ListItems(f.attrs, "patch"), "skip")
    requires ListItems(f.attrs, "patch")[i].key in {"addable", "add"}
    ensures ParseField(false, f).Err?
  {
    if ParseField(false, f).Ok? {
      ParseFieldLaw(false, f);
    }
  }

  // The parser's unit test, on the model.

  const ExampleTokens: Tokens := ["derive(Debug, PartialEq, Clone, Serialize, Deserialize)"]

  function ExampleContainerItems(): seq<NestedMeta>
  {
    [NestedMeta("name", Assign(LitExpr(StrLit("MyPatch", "")))), NestedMeta("attribute", Paren(ExampleTokens))]
  }

  function ExampleAttrs(): seq<Attribute>
  {
    [Attribute(["derive"], List([NestedMeta("Patch", Bare)])), Attribute(["patch"], List(ExampleContainerItems()))]
  }

  function ExampleField1(): SourceField
  {
    SourceField(Some("field1"), "SubItem", [Attribute(["patch"], List([NestedMeta("name", Assign(LitExpr(StrLit("SubItemPatch", ""))))]))])
  }

  function ExampleField2(): SourceField
  {
    SourceField(Some("field2"), "Option<String>", [Attribute(["patch"], List([NestedMeta("skip", Bare)]))])
  }

  /** The name's string is parsed as tokens, so whitespace around it is dropped: `name = " MyPatch "` gives `MyPatch`. */
  lemma PaddedNameAccepted()
    ensures ContainerItem(NoContainerAttrs, NestedMeta("name", Assign(LitExpr(StrLit(" MyPatch ", "")))))
            == Ok(ContainerState(Some("MyPatch"), []))
  {
    var arg := Assign(LitExpr(StrLit(" MyPatch ", "")));
    assert Unwrapped(arg.value) == LitExpr(StrLit(" MyPatch ", ""));
    assert LitStrOf("name", arg) == Ok(" MyPatch ");
    PaddedMyPatch();
    IdentTrimmed("MyPatch");
  }

  lemma PaddedMyPatch()
    ensures TrimSpace(" MyPatch ") == "MyPatch" && IsIdent("MyPatch")
  {
    assert " MyPatch "[..|" MyPatch "| - 1] == " MyPatch";
    assert TrimEndSpace(" MyPatch ") == " MyPatch";
    assert IsSpace(" MyPatch"[0]) && " MyPatch"[1..] == "MyPatch";
    assert !IsSpace("MyPatch"[0]) && TrimStartSpace("MyPatch") == "MyPatch";
    assert IsIdent("MyPatch");
  }

  lemma ExampleContainer()
    ensures ContainerAttrsSpec(ExampleAttrs()) == Ok(ContainerState(Some("MyPatch"), [ExampleTokens]))
  {
    var items := ExampleContainerItems();
    var attrs := ExampleAttrs();
    assert items[..1] == [items[0]] && [items[0]][..0] == [];
    assert IsIdent("MyPatch");
    IdentTrimmed("MyPatch");
    assert Unwrapped(LitExpr(StrLit("MyPatch", ""))) == LitExpr(StrLit("MyPatch", ""));
    assert LitStrOf("name", items[0].arg) == Ok("MyPatch");
    var st1 := ContainerState(Some("MyPatch"), []);
    assert ContainerItem(NoContainerAttrs, items[0]) == Ok(st1);
    assert Fold(NoContainerAttrs, items[..1], ContainerItem) == Ok(st1);
    assert items[1].key != "name" && [] + [ExampleTokens] == [ExampleTokens];
    assert ContainerItem(st1, items[1]) == Ok(ContainerState(Some("MyPatch"), [ExampleTokens]));
    assert Fold(NoContainerAttrs, items, ContainerItem) == Ok(ContainerState(Some("MyPatch"), [ExampleTokens]));
    assert attrs[..1] == [attrs[0]] && [attrs[0]][..0] == [];
    assert "derive"[0] != "patch"[0] && ["derive"] != ["patch"];
    assert FoldAttrs(NoContainerAttrs, attrs[..1], "patch", ContainerItem, Never) == Ok(NoContainerAttrs);
  }

  lemma ExampleFields(op: bool)
    ensures ParseField(op, ExampleField1()) == Ok(Some(FieldDecl(Some("field1"), "SubItemPatch", [], true, Patching.Disable)))
    ensures ParseField(op, ExampleField2()) == Ok(None)
  {
    var m1 := NestedMeta("name", Assign(LitExpr(StrLit("SubItemPatch", ""))));
    var f1 := ExampleField1();
    assert [m1][..0] == [] && f1.attrs[..0] == [];
    assert Unwrapped(LitExpr(StrLit("SubItemPatch", ""))) == LitExpr(StrLit("SubItemPatch", ""));
    var fst := FieldState([], Some("SubItemPatch"), false, Patching.Disable);
    assert FieldItem(op, NoFieldAttrs, m1) == Ok(fst);
    assert Fold(NoFieldAttrs, [m1], FieldItemFor(op)) == Ok(fst);
    assert FoldAttrs(NoFieldAttrs, f1.attrs, "patch", FieldItemFor(op), Skipped) == Ok(fst);
    var m2 := NestedMeta("skip", Bare);
    var f2 := ExampleField2();
    assert [m2][..0] == [] && f2.attrs[..0] == [];
  }

  lemma ExampleFieldsFold(op: bool)
    ensures Fold([], [ExampleField1(), ExampleField2()], FieldStepFor(op))
      == Ok([FieldDecl(Some("field1"), "SubItemPatch", [], true, Patching.Disable)])
  {
    ExampleFields(op);
    var fs := [ExampleField1(), ExampleField2()];
    var decl := FieldDecl(Some("field1"), "SubItemPatch", [], true, Patching.Disable);
    assert fs[..1] == [fs[0]] && [fs[0]][..0] == [];
    assert fs[0] == ExampleField1() && fs[1] == ExampleField2() && [] + [decl] == [decl];
    assert FieldStep(op, [], fs[0]) == Ok([decl]);
    assert Fold([], fs[..1], FieldStepFor(op)) == Ok([decl]);
    assert FieldStep(op, [decl], fs[1]) == Ok([decl]);
  }

  /**
   * The parser's unit test: a container renamed to `MyPatch` with one forwarded attribute, a
   * field retyped to `SubItemPatch`, and a skipped field left out.
   */
  lemma ParsePatchExample(op: bool)
    ensures ParsePatch(op, DeriveInput("Item", StructData([ExampleField1(), ExampleField2()]), ExampleAttrs()))
      == Ok(PatchDecl("Item", "MyPatch", [ExampleTokens], [FieldDecl(Some("field1"), "SubItemPatch", [], true, Patching.Disable)]))
  {
    ExampleContainer();
    ExampleFieldsFold(op);
    assert IsIdent("Item" + "Patch");
  }
}
