/**
 * The attribute syntax the derive macros read, after syn has tokenised it: an attribute is a
 * path and a body; the body of `#[patch(a, b = v, c(...))]` is a list of nested items, each a
 * key with a bare, `= value` or parenthesised argument.  Token-level syntax errors inside an
 * attribute are not represented: every list here is one syn parses into nested items.
 *
 * `parse_nested_meta` calls the derive's handler once per item, in order, and stops at the
 * first error; `Fold` and `FoldAttrs` are that behaviour, and every attribute loop of the
 * derives is proved against them.
 */
module Meta {
  import opened Wrappers

  /** Tokens carried verbatim, such as the body of `attribute(...)`. */
  type Tokens = seq<string>

  datatype Lit =
    | StrLit(value: string, suffix: string)
    | IntLit(n: int, suffix: string)
    | BoolLit(b: bool)

  /** An expression after `=`: a literal, an invisible group from a macro expansion, a path, anything else. */
  datatype Expr = LitExpr(lit: Lit) | Group(inner: Expr) | PathExpr(segments: seq<string>) | OtherExpr

  datatype Arg = Bare | Assign(value: Expr) | Paren(tokens: Tokens)

  datatype NestedMeta = NestedMeta(key: string, arg: Arg)

  /** `#[path]`, `#[path(items)]` or `#[path = value]`. */
  datatype Body = PathOnly | List(items: seq<NestedMeta>) | NameValue(value: Expr)

  datatype Attribute = Attribute(path: seq<string>, body: Body)

  /** The errors the derives return (compile errors) and the ones that abort them (panics). */
  datatype ParseError =
    | NotAStruct
    | ExpectedParenthesizedList
    | ExpectedEq(key: string)
    | ExpectedParens(key: string)
    | UnexpectedArgs(key: string)
    | UnknownContainerAttribute(key: string)
    | UnknownFieldAttribute(key: string)
    | NameDefinedTwice
    | ExpectedString(key: string)
    | UnexpectedSuffix(suffix: string)
    | ExpectedStringLiteral
    | ExpectedLit(key: string)
    | ExpectedIdent(key: string)
    | NotAnIdentifier(text: string)
    | NeedsOpFeature(key: string)
    | AlreadyFillerField
    /** The panic of `none_option_filler_type` on a type that is not a path. */
    | ExtendableNeedsPathType

  // ---------------------------------------------------------------------------
  // Identifiers
  // ---------------------------------------------------------------------------

  predicate IsIdentStart(c: char) { 'a' <= c <= 'z' || 'A' <= c <= 'Z' || c == '_' }

  predicate IsIdentContinue(c: char) { IsIdentStart(c) || '0' <= c <= '9' }

  /** An ASCII Rust identifier, the check both `Ident::new` and parsing a string as an `Ident` make. */
  predicate IsIdent(s: string)
  {
    |s| > 0 && IsIdentStart(s[0]) && forall i | 1 <= i < |s| :: IsIdentContinue(s[i])
  }

  /** Whitespace the Rust lexer skips between tokens (`Pattern_White_Space`). */
  predicate IsSpace(c: char)
  {
    c == ' ' || c == '\t' || c == '\n' || c == '\r' || c == '\U{000B}' || c == '\U{000C}'
    || c == '\U{0085}' || c == '\U{200E}' || c == '\U{200F}' || c == '\U{2028}' || c == '\U{2029}'
  }

  function TrimStartSpace(s: string): (r: string)
    ensures |r| <= |s| && s[|s| - |r|..] == r && (|r| > 0 ==> !IsSpace(r[0]))
    ensures forall k | 0 <= k < |s| - |r| :: IsSpace(s[k])
    decreases |s|
  {
    if |s| > 0 && IsSpace(s[0]) then TrimStartSpace(s[1..]) else s
  }

  function TrimEndSpace(s: string): (r: string)
    ensures r <= s && (|r| > 0 ==> !IsSpace(r[|r| - 1]))
    ensures forall k | |r| <= k < |s| :: IsSpace(s[k])
    decreases |s|
  {
    if |s| > 0 && IsSpace(s[|s| - 1]) then TrimEndSpace(s[..|s| - 1]) else s
  }

  /**
   * What parsing a string literal's value as tokens sees: the value without the whitespace
   * around it. A value that neither starts nor ends with whitespace is unchanged.
   */
  function TrimSpace(s: string): (r: string)
    ensures |s| > 0 && !IsSpace(s[0]) && !IsSpace(s[|s| - 1]) ==> r == s
  {
    TrimStartSpace(TrimEndSpace(s))
  }

  /** An identifier has no whitespace around it, so trimming leaves it as it is. */
  lemma IdentTrimmed(s: string)
    requires IsIdent(s)
    ensures TrimSpace(s) == s
  {
    assert IsIdentContinue(s[|s| - 1]);
    assert TrimEndSpace(s) == s;
    assert TrimStartSpace(s) == s;
  }

  /** The default names `{Name}Patch` and `{Name}Filler` are identifiers whenever the struct's name is. */
  lemma SuffixedIdent(name: string, suffix: string)
    requires IsIdent(name) && forall i | 0 <= i < |suffix| :: IsIdentContinue(suffix[i])
    ensures IsIdent(name + suffix)
  {
    var s := name + suffix;
    forall i | 1 <= i < |s| ensures IsIdentContinue(s[i]) {
      if i >= |name| { assert s[i] == suffix[i - |name|]; }
    }
  }

  // ---------------------------------------------------------------------------
  // Invisible groups
  // ---------------------------------------------------------------------------

  /** `n` invisible groups around `e`. */
  function Wrap(e: Expr, n: nat): Expr
  {
    if n == 0 then e else Group(Wrap(e, n - 1))
  }

  function Unwrapped(e: Expr): (r: Expr)
    ensures !r.Group?
  {
    if e.Group? then Unwrapped(e.inner) else e
  }

  function GroupDepth(e: Expr): nat
  {
    if e.Group? then 1 + GroupDepth(e.inner) else 0
  }

  /** Stripping undoes wrapping: any number of groups around a non-group is removed exactly. */
  lemma {:induction false} UnwrapWrap(e: Expr, n: nat)
    requires !e.Group?
    ensures Unwrapped(Wrap(e, n)) == e && GroupDepth(Wrap(e, n)) == n
  {
    if n > 0 {
      UnwrapWrap(e, n - 1);
    }
  }

  /** Every expression is its stripped form under as many groups as it had. */
  lemma {:induction false} WrapUnwrap(e: Expr)
    ensures Wrap(Unwrapped(e), GroupDepth(e)) == e
  {
    if e.Group? {
      WrapUnwrap(e.inner);
    }
  }

  /** `while let Expr::Group(e) = value { value = &e.expr; }` */
  method StripGroups(e: Expr) returns (v: Expr)
    ensures !v.Group? && v == Unwrapped(e) && Wrap(v, GroupDepth(e)) == e
  {
    WrapUnwrap(e);
    v := e;
    while v.Group?
      invariant Unwrapped(v) == Unwrapped(e)
      decreases v
    {
      v := v.inner;
    }
  }

  // ---------------------------------------------------------------------------
  // get_lit_str (patch.rs) and get_lit (filler.rs)
  // ---------------------------------------------------------------------------

  /** The string of `key = "..."`, invisible groups ignored; any other literal or a suffix is an error. */
  function LitStrOf(key: string, arg: Arg): (r: Result<string, ParseError>)
    ensures r.Ok? ==> arg.Assign? && Unwrapped(arg.value) == LitExpr(StrLit(r.value, ""))
    ensures arg.Assign? && Unwrapped(arg.value).LitExpr? && Unwrapped(arg.value).lit.StrLit? ==>
      r == if Unwrapped(arg.value).lit.suffix == "" then Ok(Unwrapped(arg.value).lit.value)
           else Err(UnexpectedSuffix(Unwrapped(arg.value).lit.suffix))
    ensures !arg.Assign? ==> r == Err(ExpectedEq(key))
  {
    if !arg.Assign? then Err(ExpectedEq(key))
    else
      match Unwrapped(arg.value)
      case LitExpr(StrLit(s, suffix)) => if suffix != "" then Err(UnexpectedSuffix(suffix)) else Ok(s)
      case _ => Err(ExpectedString(key))
  }

  method GetLitStr(key: string, arg: Arg) returns (r: Result<string, ParseError>)
    ensures r == LitStrOf(key, arg)
  {
    if !arg.Assign? {
      return Err(ExpectedEq(key));
    }
    var value := StripGroups(arg.value);
    if value.LitExpr? && value.lit.StrLit? {
      if value.lit.suffix != "" {
        return Err(UnexpectedSuffix(value.lit.suffix));
      }
      return Ok(value.lit.value);
    }
    return Err(ExpectedString(key));
  }

  /** The literal of `key = lit`, invisible groups ignored; anything but a literal is an error. */
  function LitOf(key: string, arg: Arg): (r: Result<Lit, ParseError>)
    ensures r.Ok? ==> arg.Assign? && Unwrapped(arg.value) == LitExpr(r.value)
    ensures arg.Assign? && Unwrapped(arg.value).LitExpr? ==> r.Ok?
    ensures !arg.Assign? ==> r == Err(ExpectedEq(key))
  {
    if !arg.Assign? then Err(ExpectedEq(key))
    else if Unwrapped(arg.value).LitExpr? then Ok(Unwrapped(arg.value).lit)
    else Err(ExpectedLit(key))
  }

  method GetLit(key: string, arg: Arg) returns (r: Result<Lit, ParseError>)
    ensures r == LitOf(key, arg)
  {
    if !arg.Assign? {
      return Err(ExpectedEq(key));
    }
    var value := StripGroups(arg.value);
    if value.LitExpr? {
      return Ok(value.lit);
    }
    return Err(ExpectedLit(key));
  }

  /** A suffix-free string literal under any number of groups reads back as its string. */
  lemma LitStrRoundTrip(key: string, s: string, n: nat)
    ensures LitStrOf(key, Assign(Wrap(LitExpr(StrLit(s, "")), n))) == Ok(s)
    ensures LitOf(key, Assign(Wrap(LitExpr(StrLit(s, "")), n))) == Ok(StrLit(s, ""))
  {
    UnwrapWrap(LitExpr(StrLit(s, "")), n);
  }

  // ---------------------------------------------------------------------------
  // parse_nested_meta
  // ---------------------------------------------------------------------------

  /** Run `step` over `xs` in order, stopping at the first error. */
  function Fold<S, X>(st: S, xs: seq<X>, step: (S, X) -> Result<S, ParseError>): Result<S, ParseError>
    decreases |xs|
  {
    if xs == [] then Ok(st)
    else
      var r := Fold(st, xs[..|xs| - 1], step);
      if r.Ok? then step(r.value, xs[|xs| - 1]) else r
  }

  /** One attribute of a loop over `attrs`: other paths are passed over, `#[path]` and `#[path = v]` are errors. */
  function AttrStep<S>(path: string, st: S, a: Attribute, item: (S, NestedMeta) -> Result<S, ParseError>)
    : Result<S, ParseError>
  {
    if a.path != [path] then Ok(st)
    else
      match a.body
      case List(items) => Fold(st, items, item)
      case _ => Err(ExpectedParenthesizedList)
  }

  /**
   * The loop over a container's or a field's attributes; once `stop` holds the remaining
   * attributes are not looked at (the `return` after `#[patch(skip)]`).
   */
  function FoldAttrs<S>(st: S, attrs: seq<Attribute>, path: string, item: (S, NestedMeta) -> Result<S, ParseError>,
                        stop: S -> bool): Result<S, ParseError>
    decreases |attrs|
  {
    if attrs == [] then Ok(st)
    else
      var r := FoldAttrs(st, attrs[..|attrs| - 1], path, item, stop);
      if r.Err? || stop(r.value) then r else AttrStep(path, r.value, attrs[|attrs| - 1], item)
  }

  function Never<S>(s: S): bool { false }

  /** The nested items of every `#[path(...)]` list, in order. */
  function ListItems(attrs: seq<Attribute>, path: string): seq<NestedMeta>
    decreases |attrs|
  {
    if attrs == [] then []
    else
      var a := attrs[|attrs| - 1];
      ListItems(attrs[..|attrs| - 1], path) + (if a.path == [path] && a.body.List? then a.body.items else [])
  }


  lemma FoldSnoc<S, X>(st: S, xs: seq<X>, k: nat, step: (S, X) -> Result<S, ParseError>)
    requires k < |xs|
    ensures var r := Fold(st, xs[..k], step);
      Fold(st, xs[..k + 1], step) == if r.Ok? then step(r.value, xs[k]) else r
  {
    assert xs[..k + 1][..k] == xs[..k];
  }

  lemma FoldAttrsSnoc<S>(st: S, attrs: seq<Attribute>, k: nat, path: string,
                         item: (S, NestedMeta) -> Result<S, ParseError>, stop: S -> bool)
    requires k < |attrs|
    ensures var r := FoldAttrs(st, attrs[..k], path, item, stop);
      FoldAttrs(st, attrs[..k + 1], path, item, stop) ==
        if r.Err? || stop(r.value) then r else AttrStep(path, r.value, attrs[k], item)
  {
    assert attrs[..k + 1][..k] == attrs[..k];
  }

  /** An error ends the loop: the whole run fails with the first error. */
  lemma {:induction false} FoldErrSticky<S, X>(st: S, xs: seq<X>, k: nat, step: (S, X) -> Result<S, ParseError>)
    requires k <= |xs| && Fold(st, xs[..k], step).Err?
    ensures Fold(st, xs, step) == Fold(st, xs[..k], step)
    decreases |xs| - k
  {
    if k < |xs| {
      FoldSnoc(st, xs, k, step);
      FoldErrSticky(st, xs, k + 1, step);
    } else {
      assert xs[..k] == xs;
    }
  }

  /** Likewise for the attribute loop, whose early stop also ends it. */
  lemma {:induction false} FoldAttrsSticky<S>(st: S, attrs: seq<Attribute>, k: nat, path: string,
                                              item: (S, NestedMeta) -> Result<S, ParseError>, stop: S -> bool)
    requires k <= |attrs|
    requires var r := FoldAttrs(st, attrs[..k], path, item, stop); r.Err? || stop(r.value)
    ensures FoldAttrs(st, attrs, path, item, stop) == FoldAttrs(st, attrs[..k], path, item, stop)
    decreases |attrs| - k
  {
    if k < |attrs| {
      FoldAttrsSnoc(st, attrs, k, path, item, stop);
      FoldAttrsSticky(st, attrs, k + 1, path, item, stop);
    } else {
      assert attrs[..k] == attrs;
    }
  }

  lemma {:induction false} FoldAppend<S, X>(st: S, xs: seq<X>, ys: seq<X>, step: (S, X) -> Result<S, ParseError>)
    ensures var r := Fold(st, xs, step);
      Fold(st, xs + ys, step) == if r.Ok? then Fold(r.value, ys, step) else r
    decreases |ys|
  {
    if ys == [] {
      assert xs + ys == xs;
    } else {
      var ys' := ys[..|ys| - 1];
      assert (xs + ys)[..|xs + ys| - 1] == xs + ys';
      FoldAppend(st, xs, ys', step);
    }
  }

  /**
   * A successful attribute loop ran the item handler over the nested items of its first `k`
   * attributes, in order; it stopped early (`k < |attrs|`) only in a state where `stop` holds.
   */
  lemma {:induction false} FoldAttrsProcessed<S>(st: S, attrs: seq<Attribute>, path: string,
                                                 item: (S, NestedMeta) -> Result<S, ParseError>, stop: S -> bool)
    returns (k: nat)
    requires FoldAttrs(st, attrs, path, item, stop).Ok?
    ensures k <= |attrs|
    ensures Fold(st, ListItems(attrs[..k], path), item) == FoldAttrs(st, attrs, path, item, stop)
    ensures k < |attrs| ==> stop(FoldAttrs(st, attrs, path, item, stop).value)
    decreases |attrs|
  {
    if attrs == [] {
      return 0;
    }
    var init := attrs[..|attrs| - 1];
    var a := attrs[|attrs| - 1];
    var r := FoldAttrs(st, init, path, item, stop);
    var k' := FoldAttrsProcessed(st, init, path, item, stop);
    assert init[..k'] == attrs[..k'];
    if stop(r.value) {
      k := k';
    } else {
      k := |attrs|;
      assert attrs[..k] == attrs;
      assert init[..k'] == init;
      var tail := if a.path == [path] && a.body.List? then a.body.items else [];
      FoldAppend(st, ListItems(init, path), tail, item);
    }
  }

  /** Without an early stop, a successful attribute loop is one run of the handler over all nested items. */
  lemma FoldAttrsFlat<S>(st: S, attrs: seq<Attribute>, path: string, item: (S, NestedMeta) -> Result<S, ParseError>)
    requires FoldAttrs(st, attrs, path, item, Never).Ok?
    ensures Fold(st, ListItems(attrs, path), item) == FoldAttrs(st, attrs, path, item, Never)
  {
    var k := FoldAttrsProcessed(st, attrs, path, item, Never);
    assert attrs[..k] == attrs;
  }

  /** The items of a prefix of the attributes are a prefix of the items. */
  lemma {:induction false} ListItemsPrefix(attrs: seq<Attribute>, k: nat, path: string)
    requires k <= |attrs|
    ensures ListItems(attrs[..k], path) <= ListItems(attrs, path)
    decreases |attrs|
  {
    if k < |attrs| {
      var init := attrs[..|attrs| - 1];
      ListItemsPrefix(init, k, path);
      assert init[..k] == attrs[..k];
    } else {
      assert attrs[..k] == attrs;
    }
  }

  /** A handler error on item `j` of attribute `k` is the result of the whole attribute loop. */
  lemma ItemError<S>(st: S, attrs: seq<Attribute>, k: nat, path: string, item: (S, NestedMeta) -> Result<S, ParseError>,
                     stop: S -> bool, s: S, j: nat, e: ParseError)
    requires k < |attrs| && FoldAttrs(st, attrs[..k], path, item, stop) == Ok(s) && !stop(s)
    requires attrs[k].path == [path] && attrs[k].body.List? && j < |attrs[k].body.items|
    requires var r := Fold(s, attrs[k].body.items[..j], item); r.Ok? && item(r.value, attrs[k].body.items[j]) == Err(e)
    ensures FoldAttrs(st, attrs, path, item, stop) == Err(e)
  {
    var items := attrs[k].body.items;
    FoldSnoc(s, items, j, item);
    FoldErrSticky(s, items, j + 1, item);
    FoldAttrsSnoc(st, attrs, k, path, item, stop);
    FoldAttrsSticky(st, attrs, k + 1, path, item, stop);
  }

  /** Finishing the items of attribute `k` finishes that attribute. */
  lemma ItemsDone<S>(st: S, attrs: seq<Attribute>, k: nat, path: string, item: (S, NestedMeta) -> Result<S, ParseError>,
                     stop: S -> bool, s: S, s': S)
    requires k < |attrs| && FoldAttrs(st, attrs[..k], path, item, stop) == Ok(s) && !stop(s)
    requires attrs[k].path == [path] && attrs[k].body.List?
    requires var items := attrs[k].body.items; Fold(s, items[..|items|], item) == Ok(s')
    ensures FoldAttrs(st, attrs[..k + 1], path, item, stop) == Ok(s')
  {
    var items := attrs[k].body.items;
    assert items[..|items|] == items;
    FoldAttrsSnoc(st, attrs, k, path, item, stop);
  }

  /** An attribute on another path, or an empty list, changes nothing. */
  lemma AttrPassed<S>(st: S, attrs: seq<Attribute>, k: nat, path: string, item: (S, NestedMeta) -> Result<S, ParseError>,
                      stop: S -> bool, s: S)
    requires k < |attrs| && FoldAttrs(st, attrs[..k], path, item, stop) == Ok(s) && !stop(s)
    requires attrs[k].path != [path] || attrs[k].body == List([])
    ensures FoldAttrs(st, attrs[..k + 1], path, item, stop) == Ok(s)
  {
    FoldAttrsSnoc(st, attrs, k, path, item, stop);
  }

  /** `#[path]` and `#[path = v]` end the attribute loop with an error. */
  lemma AttrNotList<S>(st: S, attrs: seq<Attribute>, k: nat, path: string, item: (S, NestedMeta) -> Result<S, ParseError>,
                       stop: S -> bool, s: S)
    requires k < |attrs| && FoldAttrs(st, attrs[..k], path, item, stop) == Ok(s) && !stop(s)
    requires attrs[k].path == [path] && !attrs[k].body.List?
    ensures FoldAttrs(st, attrs, path, item, stop) == Err(ExpectedParenthesizedList)
  {
    FoldAttrsSnoc(st, attrs, k, path, item, stop);
    FoldAttrsSticky(st, attrs, k + 1, path, item, stop);
  }

  /** The body of every `attribute(...)` item, in order. */
  function ForwardedTokens(items: seq<NestedMeta>): seq<Tokens>
    decreases |items|
  {
    if items == [] then []
    else
      var m := items[|items| - 1];
      ForwardedTokens(items[..|items| - 1]) + (if m.key == "attribute" && m.arg.Paren? then [m.arg.tokens] else [])
  }

  function CountKey(items: seq<NestedMeta>, key: string): nat
    decreases |items|
  {
    if items == [] then 0
    else CountKey(items[..|items| - 1], key) + (if items[|items| - 1].key == key then 1 else 0)
  }

  predicate HasKey(items: seq<NestedMeta>, key: string)
  {
    CountKey(items, key) > 0
  }

  lemma {:induction false} CountKeyAppend(xs: seq<NestedMeta>, ys: seq<NestedMeta>, key: string)
    ensures CountKey(xs + ys, key) == CountKey(xs, key) + CountKey(ys, key)
    decreases |ys|
  {
    if ys == [] {
      assert xs + ys == xs;
    } else {
      assert (xs + ys)[..|xs + ys| - 1] == xs + ys[..|ys| - 1];
      CountKeyAppend(xs, ys[..|ys| - 1], key);
    }
  }

  /** A key among the items of the first `k` attributes is among the items of all of them. */
  lemma HasKeyPrefix(attrs: seq<Attribute>, k: nat, path: string, key: string)
    requires k <= |attrs| && HasKey(ListItems(attrs[..k], path), key)
    ensures HasKey(ListItems(attrs, path), key)
  {
    ListItemsPrefix(attrs, k, path);
    var all := ListItems(attrs, path);
    var pre := ListItems(attrs[..k], path);
    assert all == pre + all[|pre|..];
    CountKeyAppend(pre, all[|pre|..], key);
  }
}
