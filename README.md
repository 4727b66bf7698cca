# struct-patch, modelled in Dafny

struct-patch is a pair of Rust derive macros. `#[derive(Patch)]` turns a struct `Item` into a
companion struct `ItemPatch` whose fields are `Option`s. Applying a patch overwrites the fields
that are `Some`. A field renamed with `#[patch(name = "SubPatch")]` instead takes a nested
patch, which is applied recursively. `#[derive(Filler)]` turns a struct into an `ItemFiller`.
A filler only fills the fields of the original that are still empty: `None`, an empty
collection, or a field still equal to its `empty_value`.

This project models what the macros decide and what the code they emit does:

- `meta.dfy` (module `Meta`): the attribute syntax the parsers see. It models nested meta items
  `key`, `key = expr` and `key(tokens)`, expressions wrapped in invisible groups, and string
  and other literals. It also has `get_lit_str`/`get_lit` and a generic "fold over attribute
  items" specification, with the lemmas that move between the nested loops and one flat list
  of items.
- `patch_parse.dfy` (`PatchParse`): `Patch::from_ast` and `Field::from_ast` of the patch
  derive. Each is written as a method with the source's loops and proved equal to a fold
  specification. Laws follow about the names, the `skip`/`name`/`addable`/`add` keys, the
  errors, and the unit test at the end of the file.
- `patching.dfy` (`Patching`): the values and patches of a patchable struct. It gives the
  runtime meaning of the generated `apply`, `into_patch`, `into_patch_by_diff`,
  `new_empty_patch`, `is_empty`, `merge` and `+`. It includes the `Box` and `Option` adapters
  from `struct-patch/src/std.rs`, because a renamed field can be a nested struct, a `Box` of
  one or an `Option` of one.
- `patch_laws.dfy` (`PatchLaws`): the laws the `Patch` trait's documentation promises, and the
  laws of `merge` and `+`.
- `patch_struct.dfy` (`PatchStruct`): a struct that the generated `apply` and `<<` mutate in
  place (`Instance`), the `Option` adapter's in-place `apply` (`OptionalSlot`), the generated
  early-return `is_empty`, and `<<` between two patches.
- `filler_parse.dfy` (`FillerParse`): `filler_type`, `none_option_filler_type`,
  `Field::from_ast` and `Filler::from_ast`. It covers both filler derives: the newer one with
  `addable` under the `op` feature, and the older one without it.
- `filler_runtime.dfy` (`FillerRuntime`): a filler as three groups of fields (natives with
  their sentinel, extendable collections, options). It has the generated `apply`,
  `new_empty_filler`, `is_empty`, `<<` and `+`, with the in-place ones as methods of classes.
- `filler_laws.dfy` (`FillerLaws`): the fill-only laws, and the laws and panics of `+`.
- `legacy_derive.dfy` (`LegacyDerive`): the older derive in `struct-patch-derive/src/lib.rs`.
  It covers the `patch_name`/`patch_derive` scan, naming, `Option` wrapping of named fields,
  and the generated `apply` and accumulator-style `is_empty`.
- `wrappers.dfy` (`Wrappers`): `Option` and `Result`.

Feature flags (`status`, `merge`, `op`) are parameters: `op: bool` for the parsers, `Variant`
for the filler parser, and `Features` for `<<` between patches. A `panic!` in generated code is
an error outcome (`Err(ConflictPatches)` or `None`). Plain field values are integers, and `+`
on them is integer addition. The filler's runtime uses one value type and one `plus` for all
its fields, where the source adds natives with `Add<T>` and options with `Add<&T>` of each
field's own type; its laws hold for every `plus`. A user's `add = f` function is an abstract `Combinator`. A user's
`From<P>` impl is "apply the patch to a fixed base value", carried in the `Optional` type
descriptor.

## Model

| member | source | states |
|---|---|---|
| Meta.SuffixedIdent | struct-patch-derive/src/patch.rs:381-385 | appending an identifier suffix (`Patch`, `Filler`) to an identifier yields an identifier, so the default name always parses |
| Meta.Unwrapped | struct-patch-derive/src/patch.rs:526-529 | the expression reached after removing invisible groups is never itself a group |
| Meta.UnwrapWrap | struct-patch-derive/src/patch.rs:526-529 | removing groups from an expression wrapped in n groups gives back the expression and reports depth n |
| Meta.WrapUnwrap | struct-patch-derive/src/patch.rs:526-529 | rewrapping the stripped expression in its group depth rebuilds the original expression |
| Meta.StripGroups | struct-patch-derive/src/patch.rs:526-529 | the `while let Expr::Group` loop ends on a non-group expression that, rewrapped in the depth it removed, is the input |
| Meta.LitStrOf | struct-patch-derive/src/patch.rs:524-552 | a success is exactly an unsuffixed string literal under any number of groups; a suffixed one is `UnexpectedSuffix`; a missing `=` is `ExpectedEq` |
| Meta.GetLitStr | struct-patch-derive/src/patch.rs:524-552 | the method with the group-stripping loop computes `LitStrOf` |
| Meta.LitOf | derive/src/filler.rs:505-522 | `empty_value = lit` succeeds exactly on a literal under any number of groups and returns it; a missing `=` is `ExpectedEq` |
| Meta.GetLit | derive/src/filler.rs:505-522 | the method with the group-stripping loop computes `LitOf` (the same code is struct-patch-derive/src/filler.rs:405-422) |
| Meta.LitStrRoundTrip | struct-patch-derive/src/patch.rs:524-552 | `name = "s"`, however deeply grouped, reads back as `s` (as a string and as a literal) |
| PatchParse.ContainerAttrs | struct-patch-derive/src/patch.rs:330-371 | the loop over the container's `#[patch(...)]` attributes computes the fold specification `ContainerAttrsSpec` |
| PatchParse.ContainerItemAt | struct-patch-derive/src/patch.rs:343-368 | one container item, computing `ContainerItem`: `name` must be an unsuffixed string literal, given once, whose value without surrounding whitespace is an identifier; `attribute(...)` is forwarded; any other key is an error |
| PatchParse.FieldFromAst | struct-patch-derive/src/patch.rs:425-511 | the loop over a field's attributes, with its early exit after `skip`, computes `ParseField` |
| PatchParse.FromAst | struct-patch-derive/src/patch.rs:308-391 | `Patch::from_ast` with its field loop computes `ParsePatch` |
| PatchParse.ParsePatch | struct-patch-derive/src/patch.rs:317-324 | a non-struct input is rejected with `NotAStruct` |
| PatchParse.ContainerItemsLaw | struct-patch-derive/src/patch.rs:341-370 | after successful container items, only `name` and `attribute` occurred, `attribute` blocks were kept in order, `name` occurred at most once and set the name to its string without surrounding whitespace, and the name is an identifier |
| PatchParse.ParsePatchContainerLaw | struct-patch-derive/src/patch.rs:326-391 | a parsed patch names its source struct, carries the forwarded attributes in order, and is named by the one `name` key (whitespace around the string dropped), else `{Name}Patch`, always an identifier |
| PatchParse.PaddedNameAccepted | struct-patch-derive/src/patch.rs:345-351 | `name = " MyPatch "` names the patch struct `MyPatch`, because the string is parsed as tokens |
| Meta.TrimSpace | struct-patch-derive/src/patch.rs:351 | tokenizing the string drops only surrounding whitespace: a string that neither starts nor ends with whitespace is unchanged |
| Meta.IdentTrimmed | struct-patch-derive/src/patch.rs:351 | trimming whitespace leaves an identifier unchanged |
| PatchParse.NameTwiceRejected | struct-patch-derive/src/patch.rs:347-350 | a container `name` given twice is an error |
| PatchParse.UnknownContainerKeyRejected | struct-patch-derive/src/patch.rs:362-367 | any container key other than `name` and `attribute` is an error |
| PatchParse.FieldItemsLaw | struct-patch-derive/src/patch.rs:448-497 | after successful field items, only known keys occurred, `attribute` blocks were kept in order, `skip` is set exactly by its key, the field type is the string of the last `name = "T"` (else unchanged), the handle is `AddTrait` for a last `addable`, `AddFn(f)` for a last `add = f` (else unchanged), and without `op` neither key occurs |
| PatchParse.ParseFieldLaw | struct-patch-derive/src/patch.rs:425-511 | a field is dropped exactly when it has `skip`; a kept one keeps its name, is retyped exactly when it has `name` and then takes the type of the last `name = "T"`, keeps its type otherwise, forwards its `attribute` blocks, and combines as its last `addable` / `add = f` says (never without `op`) |
| PatchParse.FieldsLaw | struct-patch-derive/src/patch.rs:373-377 | the field loop yields one declaration per field not marked `skip`, in source order, each being that field's own parse |
| PatchParse.ParsePatchFieldsLaw | struct-patch-derive/src/patch.rs:373-377 | the patch struct's fields are exactly the parsed non-skipped source fields in order: each keeps its name, takes the type of its last `name = "T"` or keeps its own, and combines as its last `addable` / `add = f` says |
| PatchParse.AddableNeedsOp | struct-patch-derive/src/patch.rs:472-488 | `addable` or `add` on a field is an error without the `op` feature |
| PatchParse.ExampleContainer | struct-patch-derive/src/patch.rs:561-596 | the unit test's container attributes give the name `MyPatch` and one forwarded `derive(...)` block |
| PatchParse.ExampleFields | struct-patch-derive/src/patch.rs:561-596 | the unit test's `field1` becomes a retyped field of type `SubItemPatch` and `field2` (marked `skip`) is dropped |
| PatchParse.ParsePatchExample | struct-patch-derive/src/patch.rs:555-596 | the whole unit test: `Item` gives `MyPatch` with the forwarded block and only `field1` |
| Patching.Apply | struct-patch-derive/src/patch.rs:239-250 | applying a patch of a type to a value of the type gives a value of the type (the Box and Option cases are struct-patch/src/std.rs:11-13, 36-46) |
| Patching.IntoPatch | struct-patch-derive/src/patch.rs:252-261 | `into_patch` gives a patch of the value's type (Box and Option cases struct-patch/src/std.rs:15-17, 48-50) |
| Patching.DiffField | struct-patch-derive/src/patch.rs:263-282 | a field's diff entry is `None` exactly when the two field values are equal |
| Patching.EmptyPatch | struct-patch-derive/src/patch.rs:284-290 | `new_empty_patch` gives a patch of the type (Option case `Some(inner empty)`, struct-patch/src/std.rs:62-64) |
| Patching.MergeEntry | struct-patch-derive/src/patch.rs:105-116 | a merged field entry is `None` exactly when both entries are `None` |
| Patching.AddImpl | struct-patch-derive/src/patch.rs:155-231 | `+` is defined for every struct whose renamed fields need a nested `+` only where their handle is `addable` (`AddCompiles`, which takes a user `Add<&P>` impl there to be the nested generated `+`); a `+` that does not panic yields a struct patch with one entry per field |
| PatchLaws.IntoPatchLaw | struct-patch/src/traits.rs:84-85 | applying `into_patch` of `v` to any value of the same type yields `v`, through nested, boxed and optional fields |
| PatchLaws.IntoPatchFieldLaw | struct-patch-derive/src/patch.rs:252-261 | the same law for one field entry |
| PatchLaws.IntoPatchIsFull | struct-patch-derive/src/patch.rs:252-261 | every entry of `into_patch` is `Some`, so it is not empty when the struct has fields |
| PatchLaws.DiffLaw | struct-patch/src/traits.rs:87-88 | applying `into_patch_by_diff(previous)` to `previous` yields the current value, including the `Option` cases of struct-patch/src/std.rs:52-60 |
| PatchLaws.DiffFieldLaw | struct-patch-derive/src/patch.rs:263-282 | the same law for one field entry |
| PatchLaws.DiffEmptyIffEqual | struct-patch-derive/src/patch.rs:263-282 | the diff is the empty patch exactly when the two values are equal |
| PatchLaws.EmptyApplyIsIdentity | struct-patch/src/traits.rs:94-99 | applying a patch whose entries are all `None` changes nothing |
| PatchLaws.NewEmptyPatchLaw | struct-patch/src/traits.rs:90-91 | `new_empty_patch` is empty and applying it changes nothing |
| PatchLaws.BoxedEmptyPatchLaw | struct-patch/src/std.rs:6-26 | a boxed empty patch applied through the `Box` adapter changes nothing |
| PatchLaws.OptionEmptyPatchFillsNone | struct-patch/src/std.rs:36-46 | the `Option` adapter's empty patch is `Some`, so applied to `None` it yields the base built by `From`, not `None` |
| PatchLaws.NullableFieldThreeWay | struct-patch/src/std.rs:191-243 | on an optional nested field: an absent entry keeps the value, `null` clears it, and a present patch patches the inner value, or builds one from the base when it was `None` |
| PatchLaws.MergeLaw | struct-patch-derive/src/patch.rs:101-120 | applying `merge(p1, p2)` equals applying `p1` and then `p2` |
| PatchLaws.MergeFieldLaw | struct-patch-derive/src/patch.rs:105-116 | the same law for one field entry, recursing into nested patches |
| PatchLaws.MergeAssociative | struct-patch-derive/src/patch.rs:101-120 | `merge` is associative |
| PatchLaws.MergeEntryAssociative | struct-patch-derive/src/patch.rs:105-116 | entry merge is associative |
| PatchLaws.MergeEmptyUnit | struct-patch-derive/src/patch.rs:101-120 | the empty patch is a left and right unit of `merge` |
| PatchLaws.MergeNotCommutative | struct-patch-derive/src/patch.rs:114-116 | `merge` is not commutative: the other patch's plain value wins |
| PatchLaws.AddImplOk | struct-patch-derive/src/patch.rs:155-231 | `+` succeeds with exactly the per-field results when every field's result is a success |
| PatchLaws.AddEmptyUnit | struct-patch-derive/src/patch.rs:165-167 | adding the empty patch on either side returns the other patch |
| PatchLaws.AddDisjointIsMerge | struct-patch-derive/src/patch.rs:155-231 | on patches that never set the same field, `+` never panics and equals `merge` |
| PatchLaws.DerivedOnlyAddCompiles | struct-patch-derive/src/patch.rs:155-231 | every struct for which the model defines `merge` also satisfies the model's `AddCompiles`, under either pairing of handles (given the user `Add<&P>` impls that `AddCompiles` assumes) |
| PatchLaws.AddOptionalField | struct-patch/examples/option.rs:12-16 | a struct with an `Option<AddressPatch>` field supports `+` but not `merge`; `+` takes a value set on one side and panics when both sides set the optional field |
| PatchLaws.AddDisjointApply | struct-patch-derive/src/patch.rs:155-231 | for such patches, applying `p1 + p2` equals applying `p1` and then `p2` |
| PatchLaws.AddBothPresent | struct-patch-derive/src/patch.rs:124-142 | an original field set on both sides panics without `addable`, gives `a + b` with `addable`, and `f(a, b)` (self's value first) with `add = f` |
| PatchLaws.CountKindAll | struct-patch-derive/src/patch.rs:56-66 | in a struct whose fields are all renamed (or all original), that group is every field |
| PatchLaws.UniformAddAsWritten | struct-patch-derive/src/patch.rs:124-142 | without a mix of renamed and original fields, the positional pairing of handles as written gives the same `+` as the per-field one |
| PatchLaws.UniformAddEntry | struct-patch-derive/src/patch.rs:160-179 | the same for one field entry, recursing into nested patches |
| PatchLaws.PositionalPairingCounterexample | struct-patch-derive/src/patch.rs:124-142 | a renamed field before an `addable` original one: the code as written panics on two patches that both set the original field, where the declared attributes ask for their sum |
| PatchStruct.Instance.constructor | struct-patch-derive/src/patch.rs:237-238 | a struct holding a given value of its type |
| PatchStruct.Instance.Apply | struct-patch-derive/src/patch.rs:239-250 | the generated `apply` (renamed fields first, then original fields) leaves the struct equal to `Patching.Apply` of its old value |
| PatchStruct.Instance.Shl | struct-patch-derive/src/patch.rs:146-153 | `struct << patch` is `apply` |
| PatchStruct.OptionalSlot.constructor | struct-patch/src/std.rs:32-35 | an optional nested value of its type |
| PatchStruct.OptionalSlot.Apply | struct-patch/src/std.rs:36-46 | the `Option` adapter applies in place: `Some(p)` on `Some(x)` patches `x`, on `None` builds a value with `From`, and `None` clears it; the result is `Patching.Apply` of the old value |
| PatchStruct.IsEmptyPatch | struct-patch-derive/src/patch.rs:85-97 | the early-return `is_empty` answers true exactly when every entry is `None` |
| PatchStruct.ShlPatch | struct-patch-derive/src/patch.rs:196-202 | `patch << patch` exists exactly when both `op` and `merge` are enabled, and gives a patch of the type |
| PatchStruct.ShlPatchLaw | struct-patch-derive/src/patch.rs:196-202 | applying `p1 << p2` equals applying `p1` and then `p2` |
| FillerParse.ClassifyType | derive/src/filler.rs:469-495 | `Option<T>` with one argument is an optional field; `Vec` (one segment) and the listed collections with exactly one angle-bracketed argument are extendable; nothing else is classified (same as struct-patch-derive/src/filler.rs:369-395) |
| FillerParse.CollectionOf | derive/src/filler.rs:497-503 | `extendable` on a path type takes its first segment, and on any other type is an error |
| FillerParse.TwoArgumentMapUnclassified | derive/src/filler.rs:478-491 | `HashMap<K, V>` is not recognised as a collection while a one-argument `HashMap<_>` path is |
| FillerParse.ParseFiller | derive/src/filler.rs:277-284 | a non-struct input is rejected with `NotAStruct` |
| FillerParse.ContainerAttrs | derive/src/filler.rs:289-320 | the loop over the container's `#[filler(...)]` attributes computes `ContainerAttrsSpec` |
| FillerParse.FieldFromAst | derive/src/filler.rs:373-456 | the loop over a field's attributes computes `ParseField` |
| FillerParse.FromAst | derive/src/filler.rs:268-339 | `Filler::from_ast` with its field loop computes `ParseFiller` |
| FillerParse.ContainerItemsLaw | derive/src/filler.rs:300-319 | after successful container items, only `attribute` occurred and its blocks were kept in order |
| FillerParse.ParseFillerContainerLaw | derive/src/filler.rs:286-339 | a parsed filler names its source struct, is always named `{Name}Filler` with no override, and forwards the `attribute` blocks in order (struct-patch-derive/src/filler.rs:184-256) |
| FillerParse.FieldItemStep | derive/src/filler.rs:394-445 | one field item: only known keys; `extendable` and `empty_value` need an unclassified field; `extendable` makes it an extendable of its type's first segment, `empty_value = lit` a native value whose empty value is that literal; `addable` sets the flag |
| FillerParse.FieldItemsLaw | derive/src/filler.rs:383-446 | after successful field items, only known keys occurred, `addable` occurred only under `op`, every `empty_value` carried a literal, at most one category was set, an `empty_value` makes the field a native value with that literal, and `attribute` blocks and `addable` follow the keys |
| FillerParse.ParseFieldLaw | derive/src/filler.rs:373-456 | a field is kept exactly when its type or an attribute gives it a category, and then exactly one; it keeps name and type, forwards its blocks, is a native value exactly when it has `empty_value` and then with that literal as empty value, and is addable exactly when it says so |
| FillerParse.NonLiteralEmptyValueRejected | derive/src/filler.rs:412-423 | an `empty_value` that is not `= literal` makes the field, and so the derive, fail |
| FillerParse.SecondCategoryRejected | derive/src/filler.rs:404-424 | `extendable` or `empty_value` on an already classified field is an error (struct-patch-derive/src/filler.rs:318-355) |
| FillerParse.AddableRejected | derive/src/filler.rs:425-442 | `addable` without `op` is an error, and in the older derive it is an unknown key |
| FillerParse.FieldsLaw | derive/src/filler.rs:322-326 | the field loop yields one declaration per categorised field, in order, each being that field's own parse |
| FillerParse.ParseFillerFieldsLaw | derive/src/filler.rs:322-326 | the filler's fields are exactly the parsed categorised source fields in order, with their names, types, forwarded blocks, `addable`, categories and `empty_value` literals |
| FillerRuntime.LayoutOf | derive/src/filler.rs:77-127 | grouping the filler's fields into natives (with sentinels), extendables and options accounts for every field |
| FillerRuntime.LayoutOfGroups | derive/src/filler.rs:71-99 | the three groups are the filler's fields filtered by category in declaration order, the natives' sentinels their `empty_value` literals and each group's `addable` flags those of its fields |
| FillerRuntime.Select | derive/src/filler.rs:71-99 | filtering keeps exactly the fields of the category |
| FillerRuntime.EmptyFiller | derive/src/filler.rs:249-255 | `new_empty_filler` fits the layout and is empty (struct-patch-derive/src/filler.rs:166-172) |
| FillerRuntime.Fill | derive/src/filler.rs:229-247 | filling keeps the layout |
| FillerRuntime.Sum | derive/src/filler.rs:182-221 | a `+` that does not panic keeps the layout |
| FillerRuntime.Filled.constructor | derive/src/filler.rs:228 | an original struct's filler-relevant fields |
| FillerRuntime.Filled.Apply | derive/src/filler.rs:229-247 | the generated `apply`, three loops in place, leaves the struct equal to `Fill` of its old fields (struct-patch-derive/src/filler.rs:146-164) |
| FillerRuntime.Filled.Shl | derive/src/filler.rs:173-180 | `struct << filler` is `apply` |
| FillerRuntime.FillerStruct.Empty | derive/src/filler.rs:249-255 | a new filler struct holds `new_empty_filler` |
| FillerRuntime.FillerStruct.IsEmpty | derive/src/filler.rs:145-166 | the early-return `is_empty` answers true exactly when every option is `None`, every collection is empty and every native is at its sentinel (struct-patch-derive/src/filler.rs:119-140) |
| FillerRuntime.FillerStruct.Add | derive/src/filler.rs:182-221 | the in-place `+` succeeds exactly when `Sum` does, and then leaves the filler equal to `Sum` |
| FillerLaws.EmptyFillerUnique | derive/src/filler.rs:145-166 | a filler is empty exactly when it is `new_empty_filler` |
| FillerLaws.FillEmptyIdentity | derive/src/filler.rs:229-247 | filling from the empty filler changes nothing |
| FillerLaws.FillIntoEmpty | derive/src/filler.rs:229-247 | filling an all-empty struct gives the filler's values |
| FillerLaws.FillEmptyIff | derive/src/filler.rs:229-247 | the result of filling is empty exactly when both the struct and the filler were |
| FillerLaws.FillAssociative | derive/src/filler.rs:229-247 | filling from `f1` then `f2` is filling from `f1` filled by `f2` |
| FillerLaws.FillKeepsFilled | derive/src/filler.rs:229-247 | each field of the result is the filler's value where the struct's field was empty, and the struct's own value otherwise |
| FillerLaws.FillIdempotent | struct-patch/examples/filler-op.rs:53-60 | filling twice from the same filler is filling once: a second filler cannot override the first |
| FillerLaws.SumEmptyLeft | derive/src/filler.rs:186-218 | the empty filler plus `f` is `f` |
| FillerLaws.SumEmptyRight | derive/src/filler.rs:186-218 | `f` plus the empty filler is `f`, where adding the sentinel to an addable native changes nothing |
| FillerLaws.SumWithoutAddable | derive/src/filler.rs:186-218 | without `addable`, `+` panics exactly when some field is filled on both sides (even with equal values), and is otherwise filling `a` from `b` |
| FillerLaws.ShlSumIsShlShl | derive/src/filler.rs:173-221 | without `addable`, applying `f1 + f2` equals applying `f1` and then `f2` |
| FillerLaws.SumAllAddable | derive/src/filler.rs:186-218 | when every field is `addable`, `+` never panics |
| FillerLaws.SumOrder | derive/src/filler.rs:195-218 | an addable collection keeps self's items first, while an addable option gives `Some(rhs + self)` |
| LegacyDerive.TrimEndQuotes | struct-patch-derive/src/lib.rs:84-88 | trimming trailing quotes removes a suffix consisting only of `"` and leaves no trailing `"` |
| LegacyDerive.TrimStartQuotes | struct-patch-derive/src/lib.rs:84-88 | trimming leading quotes removes a prefix consisting only of `"` and leaves no leading `"` |
| LegacyDerive.TrimQuotedName | struct-patch-derive/src/lib.rs:84-88 | a quoted name without quotes of its own trims back to the name |
| LegacyDerive.DerivePatchMethod | struct-patch-derive/src/lib.rs:73-154 | the derive, with its attribute loop, computes `DerivePatch` |
| LegacyDerive.ScanStepLaw | struct-patch-derive/src/lib.rs:79-91 | one attribute: a `patch_name` literal that is not an identifier panics; otherwise `patch_name` literals set the name and `patch_derive` sets the derive tokens |
| LegacyDerive.ScanLaw | struct-patch-derive/src/lib.rs:79-91 | the attribute loop panics exactly on a bad `patch_name` literal, and otherwise the last `patch_name` literal and the last `patch_derive` win |
| LegacyDerive.DerivePatchLaw | struct-patch-derive/src/lib.rs:92-137 | rejected exactly on a bad `patch_name` or an input that is not a struct with named fields; otherwise named by the last literal else `{Name}Patch`, deriving the given tokens else `Default`, with one `Option<T>` field per named field in order |
| LegacyDerive.IdentNameIgnored | struct-patch-derive/src/lib.rs:83-90 | the documented `#[patch_name=ItemOverlay]` is passed over: the patch struct is still `ItemPatch` |
| LegacyDerive.IdentNameAccepted | struct-patch-derive/src/lib.rs:56-67 | when identifier values are accepted as the documentation shows, the last `patch_name` names the patch struct |
| LegacyDerive.IdentNameExample | struct-patch-derive/src/lib.rs:56-67 | with identifier values accepted, the documented example yields `ItemOverlay` |
| LegacyDerive.Overwrite | struct-patch-derive/src/lib.rs:140-151 | overwriting keeps the number of fields |
| LegacyDerive.Instance.constructor | struct-patch-derive/src/lib.rs:141 | a struct holding the given field values |
| LegacyDerive.Instance.Apply | struct-patch-derive/src/lib.rs:140-151 | the generated `apply` overwrites exactly the fields whose entry is `Some` (also struct-patch-derive/src/lib.rs:237-245) |
| LegacyDerive.IsEmpty | struct-patch-derive/src/lib.rs:227-235 | the `has_value \|= is_some()` accumulator returns true exactly when every entry is `None` |
| LegacyDerive.OverwriteEmpty | struct-patch-derive/src/lib.rs:227-245 | a patch with every entry `None` changes nothing |
| LegacyDerive.OverwriteTwice | struct-patch-derive/src/lib.rs:140-151 | applying `p1` then `p2` equals applying the patch that takes `p2`'s entry, else `p1`'s |
| LegacyDerive.AgreesWithPatching | struct-patch-derive/src/lib.rs:140-151 | the legacy `apply` is the newer derive's `apply` on a struct with only original fields |

## Left out

- Token plumbing (syn, quote, proc_macro2): spans, error message texts, `quote!` splicing and `TokenStream` parsing are not modelled. Attributes are an abstract datatype of meta items, and errors are an enumeration of causes.
- Token-level syntax errors inside `#[patch(...)]`/`#[filler(...)]` (an unparsable expression, or a missing parenthesis after `attribute`) are collapsed into the error kinds of `Meta.ParseError`.
- PatchParse.FieldFromAst: the string in a field's `name = "T"` is taken as the new type as it stands. syn's type grammar is not modelled, so a string that is not a type is not rejected.
- Meta.IsIdent: identifiers are ASCII letters, digits and `_` not starting with a digit. The model accepts keywords (`name = "fn"`), which syn's `Ident` parse rejects, and rejects raw (`r#type`) and Unicode identifiers, which it accepts.
- Meta.TrimSpace: a container `name = "..."` is parsed as tokens, so the model drops the whitespace around the string. Comments inside the string (`name = "/* c */ MyPatch"`), which the tokenizer also drops, are rejected by the model.
- Generics, visibility and where-clauses are not represented. They are carried verbatim by the source.
- Forwarded `attribute(...)` blocks are opaque token lists, and only their order is kept.
- `#[cfg(feature = ...)]` is modelled as parameters (`op`, `Variant`, `Features`), not as conditional compilation.
- `#[patch(nesting)]` (used by examples outside the core) is not handled by the modelled parser, which rejects it as an unknown field key, as the source does.
- Patching.Apply: plain field values are unbounded integers. Rust's integer overflow in `+` (a panic in debug builds, wrap-around in release) is not modelled.
- Patching.Apply: a user's `From<P>` impl for an optional nested field is modelled as applying the patch to a fixed base value. An arbitrary `From` is not.
- Patching.AddImpl: a user's `add = f` function is an abstract `Combinator`. `addable` on a renamed field splices `a + &b`, which needs a user-written `impl Add<&P> for P` because the derive emits only `Add<Self>`. The model assumes that impl exists on every nested patch an `addable` handle reaches and takes it to be the nested generated `+`. `AddCompiles` states where the model defines `+`, not where the source compiles. A user's `Add` impl for a `Box` or `Option` patch type is not modelled.
- PatchLaws.DerivedOnlyAddCompiles: proves only the model's `AddCompiles`. In the source, `#[patch(name = "SubPatch", addable)]` has a compiling `merge` but a `+` that compiles only once the user writes `impl Add<&SubPatch> for SubPatch`.
- Patching.Merge: a renamed field of `Box` or `Option` type has no `Merge` impl in the source, so `merge` is modelled only for structs whose renamed fields are derived structs (`DerivedOnly`).
- FillerRuntime.FillExtendable: extendable collections are sequences, and `extend` is concatenation. The set, map and heap semantics of `HashSet`, `BTreeMap`, `BinaryHeap` and the others (deduplication, key replacement, ordering) are not modelled.
- FillerRuntime.Filled: only the fields that the filler covers are represented. The original struct's other fields are never touched by the generated code and are left out.
- FillerRuntime.Sum: a panic is `None` and leaves no state. Partial updates made before a panic are not observable in the model.
- FillerParse.FieldItem: the source's "clear `empty_value`" branch is unreachable, because `get_lit` never returns `None`, so it is not modelled.
- LegacyDerive.DerivePatch: the patch-name literal is trimmed of `"` as text. Literals are kept as their source text, and escape sequences are not interpreted.
- serde deserialisation (used in the tests for `Option<Option<P>>` fields) is not modelled. Its outcomes (absent, `null`, object) are the three entry shapes of `PatchLaws.NullableFieldThreeWay`.
- The superseded `struct-patch-trait` crate (`default_patch = P::default()`) is not part of this model.

## Findings

| source | as written | input that shows it | evidently intended | confidence | as-written member | corrected member |
|---|---|---|---|---|---|---|
| struct-patch-derive/src/patch.rs:124-142, 155-231 | the `+` handles are built over all fields in declaration order but spliced into the renamed-field and original-field repetitions separately, so the k-th field of each group gets the k-th field's handle | fields `b` (renamed, no `addable`) then `n` (original, `addable`); two patches that both set only `n = 1` and `n = 2`: `n` is handed `b`'s panic handle and `+` panics | `n` uses its own `addable` handle and the sum sets `n = 3` | not executed | PatchLaws.PositionalPairingCounterexample | PatchLaws.AddBothPresent |
| struct-patch-derive/src/lib.rs:56-67, 83-90 | the documentation shows `#[patch_name=ItemOverlay]`, but the scan only accepts a literal as the second token and ignores an identifier | `#[derive(Patch)] #[patch_name=ItemOverlay] struct Item {}` generates `ItemPatch` | the patch struct is `ItemOverlay` | not executed | LegacyDerive.IdentNameIgnored | LegacyDerive.IdentNameExample |
