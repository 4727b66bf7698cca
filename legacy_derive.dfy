/**
 * The older `#[derive(Patch)]`, which reads its options from two attributes of its own,
 * `#[patch_derive(...)]` and `#[patch_name = "..."]`, given as raw token trees, and emits a
 * patch struct of `Option<T>` fields with `apply` and, with feature `status`, `is_empty`.
 */
module LegacyDerive {
  import opened Wrappers
  import opened Meta
  import Patching

  /** A token tree of an attribute as the older syn hands it over. */
  datatype TokenTree = Punct(ch: char) | Literal(text: string) | IdentTree(name: string) | GroupTree(inner: seq<TokenTree>)

  /** An attribute: its path segments and the tokens after the path. */
  datatype LegacyAttribute = LegacyAttribute(path: seq<string>, tokens: seq<TokenTree>)

  datatype NamedField = NamedField(name: string, ty: string)

  datatype Fields = Named(fields: seq<NamedField>) | Unnamed(count: nat) | Unit

  datatype Data = StructData(fields: Fields) | EnumData | UnionData

  datatype DeriveInput = DeriveInput(ident: string, data: Data, attrs: seq<LegacyAttribute>)

  /** The generated field type `Option<T>`. */
  datatype FieldType = OptionOf(inner: string)

  datatype PatchField = PatchField(name: string, ty: FieldType)

  /** `#[derive(Default)]`, or `#[derive <tokens>]` with the tokens of `patch_derive`. */
  datatype Derives = DeriveDefault | DeriveTokens(tokens: seq<TokenTree>)

  datatype PatchDecl = PatchDecl(structName: string, name: string, derives: Derives, fields: seq<PatchField>)

  // ---------------------------------------------------------------------------
  // Literal text
  // ---------------------------------------------------------------------------

  function TrimEndQuotes(s: string): (r: string)
    ensures r <= s && (|r| > 0 ==> r[|r| - 1] != '"')
    ensures forall k | |r| <= k < |s| :: s[k] == '"'
    decreases |s|
  {
    if |s| > 0 && s[|s| - 1] == '"' then TrimEndQuotes(s[..|s| - 1]) else s
  }

  function TrimStartQuotes(s: string): (r: string)
    ensures |r| <= |s| && s[|s| - |r|..] == r && (|r| > 0 ==> r[0] != '"')
    ensures forall k | 0 <= k < |s| - |r| :: s[k] == '"'
    decreases |s|
  {
    if |s| > 0 && s[0] == '"' then TrimStartQuotes(s[1..]) else s
  }

  /** `str::trim_matches('"')`: every leading and every trailing double quote removed. */
  function TrimQuotes(s: string): string
  {
    TrimStartQuotes(TrimEndQuotes(s))
  }

  /** Trimming the printed form `"name"` of a string literal gives back the name. */
  lemma TrimQuotedName(name: string)
    requires IsIdent(name)
    ensures TrimQuotes("\"" + name + "\"") == name
  {
    var q := "\"" + name + "\"";
    assert q[..|q| - 1] == "\"" + name;
    assert TrimEndQuotes(q[..|q| - 1]) == "\"" + name;
    assert TrimEndQuotes(q) == "\"" + name;
    assert ("\"" + name)[1..] == name;
    assert TrimStartQuotes(name) == name;
  }

  // ---------------------------------------------------------------------------
  // The attribute loop
  // ---------------------------------------------------------------------------

  datatype ScanState = ScanState(name: Option<string>, derive: Option<seq<TokenTree>>)

  function FirstSegment(path: seq<string>): Option<string>
  {
    if path == [] then None else Some(path[0])
  }

  /**
   * One attribute: `patch_derive` keeps its tokens; `patch_name` takes the second token when
   * it is a literal (the one after `=`) and makes an identifier of it, panicking on text that
   * is not one. With `acceptIdent` an identifier token is taken as well.
   */
  function ScanStep(acceptIdent: bool, st: ScanState, a: LegacyAttribute): Result<ScanState, ParseError>
  {
    var st1 := if FirstSegment(a.path) == Some("patch_derive") then st.(derive := Some(a.tokens)) else st;
    if FirstSegment(a.path) == Some("patch_name") && |a.tokens| > 1 && a.tokens[1].Literal? then
      var s := TrimQuotes(a.tokens[1].text);
      if IsIdent(s) then Ok(st1.(name := Some(s))) else Err(NotAnIdentifier(s))
    else if acceptIdent && FirstSegment(a.path) == Some("patch_name") && |a.tokens| > 1 && a.tokens[1].IdentTree? then
      Ok(st1.(name := Some(a.tokens[1].name)))
    else Ok(st1)
  }

  function ScanStepFor(acceptIdent: bool): (ScanState, LegacyAttribute) -> Result<ScanState, ParseError>
  {
    (st, a) => ScanStep(acceptIdent, st, a)
  }

  /** `derive_patch`; `acceptIdent` is false for the code as written. */
  function Derive(acceptIdent: bool, input: DeriveInput): Result<PatchDecl, ParseError>
  {
    var scan := Fold(ScanState(None, None), input.attrs, ScanStepFor(acceptIdent));
    if scan.Err? then Err(scan.error)
    else
      var name := if scan.value.name.Some? then scan.value.name.value else input.ident + "Patch";
      if !(input.data.StructData? && input.data.fields.Named?) then Err(NotAStruct)
      else
        var fs := input.data.fields.fields;
        var derives := if scan.value.derive.Some? then DeriveTokens(scan.value.derive.value) else DeriveDefault;
        Ok(PatchDecl(input.ident, name, derives, seq(|fs|, i requires 0 <= i < |fs| => PatchField(fs[i].name, OptionOf(fs[i].ty)))))
  }

  function DerivePatch(input: DeriveInput): Result<PatchDecl, ParseError>
  {
    Derive(false, input)
  }

  /** `derive_patch` as the macro runs it: the attribute loop, then naming and the fields. */
  method DerivePatchMethod(input: DeriveInput) returns (r: Result<PatchDecl, ParseError>)
    ensures r == DerivePatch(input)
  {
    var patchStructName: Option<string> := None;
    var patchDerive: Option<seq<TokenTree>> := None;
    var attrs := input.attrs;
    var k := 0;
    while k < |attrs|
      invariant k <= |attrs|
      invariant Fold(ScanState(None, None), attrs[..k], ScanStepFor(false)) == Ok(ScanState(patchStructName, patchDerive))
    {
      FoldSnoc(ScanState(None, None), attrs, k, ScanStepFor(false));
      var a := attrs[k];
      if FirstSegment(a.path) == Some("patch_derive") {
        patchDerive := Some(a.tokens);
      }
      if FirstSegment(a.path) == Some("patch_name") && |a.tokens| > 1 && a.tokens[1].Literal? {
        var s := TrimQuotes(a.tokens[1].text);
        if !IsIdent(s) {
          FoldErrSticky(ScanState(None, None), attrs, k + 1, ScanStepFor(false));
          return Err(NotAnIdentifier(s));
        }
        patchStructName := Some(s);
      }
      k := k + 1;
    }
    assert attrs[..k] == attrs;
    var name := if patchStructName.Some? then patchStructName.value else input.ident + "Patch";
    if !(input.data.StructData? && input.data.fields.Named?) {
      return Err(NotAStruct);
    }
    var fs := input.data.fields.fields;
    var wrapped := seq(|fs|, i requires 0 <= i < |fs| => PatchField(fs[i].name, OptionOf(fs[i].ty)));
    var derives := if patchDerive.Some? then DeriveTokens(patchDerive.value) else DeriveDefault;
    return Ok(PatchDecl(input.ident, name, derives, wrapped));
  }

  // ---------------------------------------------------------------------------
  // What the derive produces
  // ---------------------------------------------------------------------------

  predicate IsNameAttr(acceptIdent: bool, a: LegacyAttribute)
  {
    FirstSegment(a.path) == Some("patch_name") && |a.tokens| > 1
    && (a.tokens[1].Literal? || (acceptIdent && a.tokens[1].IdentTree?))
  }

  function NameText(a: LegacyAttribute): string
    requires |a.tokens| > 1 && (a.tokens[1].Literal? || a.tokens[1].IdentTree?)
  {
    if a.tokens[1].Literal? then TrimQuotes(a.tokens[1].text) else a.tokens[1].name
  }

  /** The name the last `patch_name` attribute with a usable token gives. */
  function NameGiven(acceptIdent: bool, attrs: seq<LegacyAttribute>): Option<string>
    decreases |attrs|
  {
    if attrs == [] then None
    else if IsNameAttr(acceptIdent, attrs[|attrs| - 1]) then Some(NameText(attrs[|attrs| - 1]))
    else NameGiven(acceptIdent, attrs[..|attrs| - 1])
  }

  /** The tokens of the last `patch_derive` attribute. */
  function DeriveGiven(attrs: seq<LegacyAttribute>): Option<seq<TokenTree>>
    decreases |attrs|
  {
    if attrs == [] then None
    else if FirstSegment(attrs[|attrs| - 1].path) == Some("patch_derive") then Some(attrs[|attrs| - 1].tokens)
    else DeriveGiven(attrs[..|attrs| - 1])
  }

  /** A `patch_name` literal that does not trim to an identifier. */
  predicate BadAttr(a: LegacyAttribute)
  {
    IsNameAttr(false, a) && !IsIdent(NameText(a))
  }

  /** Some `patch_name` attribute of `attrs` is a bad one. */
  predicate BadName(attrs: seq<LegacyAttribute>)
    decreases |attrs|
  {
    attrs != [] && (BadName(attrs[..|attrs| - 1]) || BadAttr(attrs[|attrs| - 1]))
  }

  lemma ScanStepLaw(acceptIdent: bool, st: ScanState, a: LegacyAttribute)
    ensures var r := ScanStep(acceptIdent, st, a);
      (r.Err? <==> BadAttr(a))
      && (r.Ok? ==>
            r.value.name == (if IsNameAttr(acceptIdent, a) then Some(NameText(a)) else st.name)
            && r.value.derive == (if FirstSegment(a.path) == Some("patch_derive") then Some(a.tokens) else st.derive))
  {
  }

  lemma {:induction false} ScanLaw(acceptIdent: bool, attrs: seq<LegacyAttribute>)
    ensures var r := Fold(ScanState(None, None), attrs, ScanStepFor(acceptIdent));
      (r.Err? <==> BadName(attrs))
      && (r.Ok? ==> r.value.name == NameGiven(acceptIdent, attrs) && r.value.derive == DeriveGiven(attrs))
    decreases |attrs|
  {
    if attrs != [] {
      var init := attrs[..|attrs| - 1];
      var a := attrs[|attrs| - 1];
      ScanLaw(acceptIdent, init);
      var r0 := Fold(ScanState(None, None), init, ScanStepFor(acceptIdent));
      if r0.Ok? {
        ScanStepLaw(acceptIdent, r0.value, a);
      }
    }
  }

  /**
   * The patch struct: named by the last `patch_name` literal with its quotes trimmed, else
   * `{Name}Patch`; deriving the tokens of the last `patch_derive`, else `Default`; and with
   * one `Option<T>` field per named field, in order. It is rejected exactly when a
   * `patch_name` literal is not an identifier or the input is not a struct with named fields.
   */
  lemma DerivePatchLaw(input: DeriveInput)
    ensures DerivePatch(input).Err? <==>
      BadName(input.attrs) || !(input.data.StructData? && input.data.fields.Named?)
    ensures DerivePatch(input).Ok? ==>
      var d := DerivePatch(input).value;
      var fs := input.data.fields.fields;
      d.structName == input.ident
      && (NameGiven(false, input.attrs).Some? ==> d.name == NameGiven(false, input.attrs).value)
      && (NameGiven(false, input.attrs).None? ==> d.name == input.ident + "Patch")
      && (DeriveGiven(input.attrs).Some? ==> d.derives == DeriveTokens(DeriveGiven(input.attrs).value))
      && (DeriveGiven(input.attrs).None? ==> d.derives == DeriveDefault)
      && |d.fields| == |fs|
      && forall i | 0 <= i < |fs| :: d.fields[i].name == fs[i].name && d.fields[i].ty == OptionOf(fs[i].ty)
  {
    ScanLaw(false, input.attrs);
  }

  /** A `patch_name` attribute whose value is an identifier instead of a string. */
  function IdentNameInput(): DeriveInput
  {
    DeriveInput("Item", StructData(Named([])),
                [LegacyAttribute(["patch_name"], [Punct('='), IdentTree("ItemOverlay")])])
  }

  /**
   * `#[patch_name=ItemOverlay]`, the form the derive's own documentation shows, is passed
   * over: the patch struct is still `ItemPatch`.
   */
  lemma IdentNameIgnored()
    ensures DerivePatch(IdentNameInput()).Ok?
    ensures DerivePatch(IdentNameInput()).value.name == "ItemPatch"
  {
    var attrs := IdentNameInput().attrs;
    assert attrs[..0] == [];
    assert Fold(ScanState(None, None), attrs, ScanStepFor(false)) == Ok(ScanState(None, None));
  }

  /** With identifier values accepted, both documented spellings name the patch struct. */
  lemma IdentNameAccepted(input: DeriveInput)
    requires input.data.StructData? && input.data.fields.Named?
    requires NameGiven(true, input.attrs).Some?
    requires !BadName(input.attrs)
    ensures Derive(true, input).Ok?
    ensures Derive(true, input).value.name == NameGiven(true, input.attrs).value
  {
    ScanLaw(true, input.attrs);
  }

  /** The documented example under both readings. */
  lemma IdentNameExample()
    ensures Derive(true, IdentNameInput()).Ok? && Derive(true, IdentNameInput()).value.name == "ItemOverlay"
  {
    var attrs := IdentNameInput().attrs;
    assert attrs[..0] == [];
    assert !BadName(attrs);
    assert NameGiven(true, attrs) == Some("ItemOverlay");
    IdentNameAccepted(IdentNameInput());
  }

  // ---------------------------------------------------------------------------
  // The generated impls
  // ---------------------------------------------------------------------------

  /** The struct after `apply(patch)`: every field with a `Some` entry takes its value. */
  function Overwrite<T>(v: seq<T>, patch: seq<Option<T>>): (r: seq<T>)
    requires |patch| == |v|
    ensures |r| == |v|
  {
    seq(|v|, i requires 0 <= i < |v| => if patch[i].Some? then patch[i].value else v[i])
  }

  /** A struct deriving the older Patch, its fields of one value type `T`. */
  class Instance<T> {
    var values: seq<T>

    constructor (v: seq<T>)
      ensures values == v
    {
      values := v;
    }

    /** The generated `apply`: `if let Some(v) = patch.f { self.f = v; }` for each field in turn. */
    method Apply(patch: seq<Option<T>>)
      requires |patch| == |values|
      modifies this
      ensures values == Overwrite(old(values), patch)
    {
      ghost var before := values;
      var i := 0;
      while i < |patch|
        invariant 0 <= i <= |patch| && |values| == |before|
        invariant forall j | 0 <= j < |values| :: values[j] == if j < i then Overwrite(before, patch)[j] else before[j]
      {
        if patch[i].Some? {
          values := values[i := patch[i].value];
        }
        i := i + 1;
      }
    }
  }

  /** The generated `is_empty`: `has_value |= f.is_some()` over every field, then `!has_value`. */
  method IsEmpty<T>(patch: seq<Option<T>>) returns (empty: bool)
    ensures empty <==> forall i | 0 <= i < |patch| :: patch[i].None?
  {
    var hasValue := false;
    var i := 0;
    while i < |patch|
      invariant 0 <= i <= |patch|
      invariant hasValue <==> exists j | 0 <= j < i :: patch[j].Some?
    {
      hasValue := hasValue || patch[i].Some?;
      i := i + 1;
    }
    return !hasValue;
  }

  /** An empty patch changes nothing. */
  lemma OverwriteEmpty<T>(v: seq<T>, patch: seq<Option<T>>)
    requires |patch| == |v| && forall i | 0 <= i < |patch| :: patch[i].None?
    ensures Overwrite(v, patch) == v
  {
    assert forall i | 0 <= i < |v| :: Overwrite(v, patch)[i] == v[i];
  }

  /** Applying `p1` then `p2` is applying the patch that takes `p2`'s entries where present, else `p1`'s. */
  lemma OverwriteTwice<T>(v: seq<T>, p1: seq<Option<T>>, p2: seq<Option<T>>)
    requires |p1| == |v| && |p2| == |v|
    ensures Overwrite(Overwrite(v, p1), p2) == Overwrite(v, seq(|v|, i requires 0 <= i < |v| => p2[i].Or(p1[i])))
  {
    var m := seq(|v|, i requires 0 <= i < |v| => p2[i].Or(p1[i]));
    assert forall i | 0 <= i < |v| :: Overwrite(Overwrite(v, p1), p2)[i] == Overwrite(v, m)[i];
  }

  /**
   * The older derive agrees with the current one: on a struct of plain fields, its `apply`
   * is the current `apply` of the matching patch struct.
   */
  lemma AgreesWithPatching(names: seq<string>, v: seq<int>, patch: seq<Option<int>>)
    requires |names| == |v| == |patch|
    ensures var ty := Patching.Struct(seq(|v|, i requires 0 <= i < |v| => Patching.Field(names[i], Patching.Original, Patching.Disable)));
      var pv := Patching.StructPatch(seq(|v|, i requires 0 <= i < |v| =>
                  if patch[i].Some? then Some(Patching.Whole(Patching.Atom(patch[i].value))) else None));
      var r := Overwrite(v, patch);
      Patching.WellFormed(ty) && Patching.PatchOf(ty, pv)
      && Patching.Apply(ty, Patching.Record(seq(|v|, i requires 0 <= i < |v| => Patching.Atom(v[i]))), pv)
         == Patching.Record(seq(|r|, i requires 0 <= i < |r| => Patching.Atom(r[i])))
  {
    var ty := Patching.Struct(seq(|v|, i requires 0 <= i < |v| => Patching.Field(names[i], Patching.Original, Patching.Disable)));
    var pv := Patching.StructPatch(seq(|v|, i requires 0 <= i < |v| =>
                if patch[i].Some? then Some(Patching.Whole(Patching.Atom(patch[i].value))) else None));
    var r := Overwrite(v, patch);
    var rec := Patching.Record(seq(|v|, i requires 0 <= i < |v| => Patching.Atom(v[i])));
    assert Patching.ValueOf(ty, rec);
    assert Patching.PatchOf(ty, pv);
    var a := Patching.Apply(ty, rec, pv);
    forall i | 0 <= i < |v|
      ensures a.fields[i] == Patching.Atom(r[i])
    {
      assert a.fields[i] == Patching.ApplyField(ty.fields[i], rec.fields[i], pv.entries[i]);
    }
    assert a.fields == seq(|r|, i requires 0 <= i < |r| => Patching.Atom(r[i]));
  }
}
