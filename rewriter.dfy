/**
 * The property rewriter of `visitObjectExpression` (index.js, lines 48-114).
 *
 * `RewriteObject` is the specification: what the rewrite does to the ordered
 * property list of one object literal, step by step in the source's order.
 * `ObjectExpression.VisitObjectExpression` performs the same edit in place.
 */
module Rewriter {
  import opened Wrappers
  import opened Ast
  import opened PathSanitizer

  /**
   * `findIndex` on the key `name` (lines 75-77): the position of the first
   * property whose key has that name, or -1.
   */
  function KeyIndex(props: seq<Prop>, name: string): (i: int)
    ensures -1 <= i < |props|
    ensures i == -1 <==> forall j :: 0 <= j < |props| ==> props[j].keyName != Some(name)
    ensures i >= 0 ==> props[i].keyName == Some(name)
    ensures i >= 0 ==> forall j :: 0 <= j < i ==> props[j].keyName != Some(name)
  {
    if |props| == 0 then -1
    else if props[0].keyName == Some(name) then 0
    else
      var k := KeyIndex(props[1..], name);
      if k == -1 then -1 else k + 1
  }

  /** Every element is a string literal: the shape `forEach` over `styleUrls` relies on. */
  predicate AllStrLit(es: seq<Expr>) {
    forall i :: 0 <= i < |es| ==> es[i].StrLit?
  }

  /**
   * The `forEach` of lines 93-95: every element becomes `require(sanitize(url))`;
   * an element that is not a string literal makes `sanitize` throw.
   */
  function ConvertUrls(es: seq<Expr>): (r: Result<seq<Expr>, ShapeError>)
    ensures r.Ok? <==> AllStrLit(es)
    ensures r.Err? ==> r.error == StyleUrlNotString
    ensures r.Ok? ==> |r.value| == |es|
    ensures r.Ok? ==> forall i :: 0 <= i < |es| ==> r.value[i] == Require(Sanitize(es[i].value))
  {
    if es == [] then Ok([])
    else if !es[0].StrLit? then Err(StyleUrlNotString)
    else
      match ConvertUrls(es[1..])
      case Err(e) => Err(e)
      case Ok(rest) => Ok([Require(Sanitize(es[0].value))] + rest)
  }

  /**
   * The key a rewritten property ends up with (lines 84-86, 96-98): `set` writes
   * the new name unless `keepUrl`, in which case the key is kept as it was.
   */
  function RenameKey(key: Option<string>, renamed: string, keepUrl: bool): Option<string> {
    if keepUrl then key else Some(renamed)
  }

  /** The list without its element at `i` (the `replace()` with no argument of line 106). */
  function RemoveAt<T>(s: seq<T>, i: nat): (r: seq<T>)
    requires i < |s|
    ensures |r| == |s| - 1
    ensures forall j :: 0 <= j < i ==> r[j] == s[j]
    ensures forall j :: i < j < |s| ==> r[j - 1] == s[j]
  {
    s[..i] + s[i + 1..]
  }

  /**
   * Lines 79-87: the property at `tu` (when there is one) gets the value
   * `require(sanitize(url))` and, unless `keepUrl`, the key `template`.
   */
  function TemplateUrlStep(props: seq<Prop>, tu: int, keepUrl: bool): (r: Result<seq<Prop>, ShapeError>)
    requires -1 <= tu < |props|
    ensures r.Ok? ==> |r.value| == |props|
  {
    if tu < 0 then Ok(props)
    else if !props[tu].value.StrLit? then Err(TemplateUrlNotString)
    else Ok(props[tu := Prop(RenameKey(props[tu].keyName, TemplateKey, keepUrl),
                             Require(Sanitize(props[tu].value.value)))])
  }

  /**
   * Lines 89-98: the array of the property at `su` (when there is one) has its
   * elements converted, and the key becomes `styles` unless `keepUrl`.
   */
  function StyleUrlsStep(props: seq<Prop>, su: int, keepUrl: bool): (r: Result<seq<Prop>, ShapeError>)
    requires -1 <= su < |props|
    ensures r.Ok? ==> |r.value| == |props|
    ensures r.Ok? && su >= 0 ==> r.value[su].value.ArrayLit?
  {
    if su < 0 then Ok(props)
    else if !props[su].value.ArrayLit? then Err(StyleUrlsNotArray)
    else
      match ConvertUrls(props[su].value.elements)
      case Err(e) => Err(e)
      case Ok(urls) => Ok(props[su := Prop(RenameKey(props[su].keyName, StylesKey, keepUrl), ArrayLit(urls))])
  }

  /**
   * Lines 100-110, run only when `styleUrls` was found: the `styles` property at
   * `st` is dropped and its elements are appended to the array of the rewritten
   * `styleUrls` property, which sits one place earlier when `styles` came first.
   */
  function StylesStep(props: seq<Prop>, su: int, st: int): (r: Result<seq<Prop>, ShapeError>)
    requires -1 <= su < |props| && -1 <= st < |props|
    requires su >= 0 ==> su != st && props[su].value.ArrayLit?
    ensures r.Ok? ==> |r.value| == |props| - (if su >= 0 && st >= 0 then 1 else 0)
  {
    if su < 0 || st < 0 then Ok(props)
    else if !props[st].value.ArrayLit? then Err(StylesNotArray)
    else
      var merged := RemoveAt(props, st);
      var at := if st < su then su - 1 else su;
      Ok(merged[at := Prop(props[su].keyName,
                           ArrayLit(props[su].value.elements + props[st].value.elements))])
  }

  /**
   * The rewrite of one object literal's properties (lines 68-111).  An empty
   * list is returned as it is (lines 71-73); otherwise the three indices are
   * all taken before anything changes (lines 75-77) and the three steps run in
   * the source's order.
   */
  function RewriteObject(props: seq<Prop>, keepUrl: bool): (r: Result<seq<Prop>, ShapeError>)
    ensures KeyIndex(props, TemplateUrlKey) < 0 && KeyIndex(props, StyleUrlsKey) < 0 ==> r == Ok(props)
    ensures r.Ok? ==>
              |r.value| == |props| - (if KeyIndex(props, StyleUrlsKey) >= 0 && KeyIndex(props, StylesKey) >= 0 then 1 else 0)
  {
    if |props| == 0 then Ok(props)
    else
      var su := KeyIndex(props, StyleUrlsKey);
      var st := KeyIndex(props, StylesKey);
      var tu := KeyIndex(props, TemplateUrlKey);
      match TemplateUrlStep(props, tu, keepUrl)
      case Err(e) => Err(e)
      case Ok(p1) =>
        match StyleUrlsStep(p1, su, keepUrl)
        case Err(e) => Err(e)
        case Ok(p2) => StylesStep(p2, su, st)
  }

  /** An object literal node whose property list the visitor edits in place. */
  class ObjectExpression {
    var properties: seq<Prop>

    constructor (properties: seq<Prop>)
      ensures this.properties == properties
    {
      this.properties := properties;
    }

    /** Lines 80-86, in place. */
    method RewriteTemplateUrl(tu: int, keepUrl: bool) returns (failure: Option<ShapeError>)
      requires -1 <= tu < |properties|
      modifies this
      ensures failure.None? <==> TemplateUrlStep(old(properties), tu, keepUrl).Ok?
      ensures failure.None? ==> properties == TemplateUrlStep(old(properties), tu, keepUrl).value
      ensures failure.Some? ==> TemplateUrlStep(old(properties), tu, keepUrl) == Err(failure.value)
    {
      if tu >= 0 {
        var templateUrl := properties[tu].value;
        if !templateUrl.StrLit? {
          return Some(TemplateUrlNotString);
        }
        properties := properties[tu := properties[tu].(value := Require(Sanitize(templateUrl.value)))];
        if !keepUrl {
          properties := properties[tu := properties[tu].(keyName := Some(TemplateKey))];
        }
      }
      return None;
    }

    /** Lines 90-98, in place: each element slot of the array is replaced in turn. */
    method RewriteStyleUrls(su: int, keepUrl: bool) returns (failure: Option<ShapeError>)
      requires -1 <= su < |properties|
      modifies this
      ensures failure.None? <==> StyleUrlsStep(old(properties), su, keepUrl).Ok?
      ensures failure.None? ==> properties == StyleUrlsStep(old(properties), su, keepUrl).value
      ensures failure.Some? ==> StyleUrlsStep(old(properties), su, keepUrl) == Err(failure.value)
    {
      if su >= 0 {
        if !properties[su].value.ArrayLit? {
          return Some(StyleUrlsNotArray);
        }
        ghost var urls := properties[su].value.elements;
        var elements := properties[su].value.elements;
        var idx := 0;
        while idx < |elements|
          invariant 0 <= idx <= |elements| == |urls|
          invariant forall k :: 0 <= k < idx ==> urls[k].StrLit? && elements[k] == Require(Sanitize(urls[k].value))
          invariant forall k :: idx <= k < |elements| ==> elements[k] == urls[k]
        {
          if !elements[idx].StrLit? {
            return Some(StyleUrlNotString);
          }
          elements := elements[idx := Require(Sanitize(elements[idx].value))];
          idx := idx + 1;
        }
        assert elements == ConvertUrls(urls).value;
        properties := properties[su := properties[su].(value := ArrayLit(elements))];
        if !keepUrl {
          properties := properties[su := properties[su].(keyName := Some(StylesKey))];
        }
      }
      return None;
    }

    /** Lines 100-110, in place: drop `styles`, then push its elements onto the `styleUrls` array. */
    method MergeStyles(su: int, st: int) returns (failure: Option<ShapeError>)
      requires -1 <= su < |properties| && -1 <= st < |properties|
      requires su >= 0 ==> su != st && properties[su].value.ArrayLit?
      modifies this
      ensures failure.None? <==> StylesStep(old(properties), su, st).Ok?
      ensures failure.None? ==> properties == StylesStep(old(properties), su, st).value
      ensures failure.Some? ==> StylesStep(old(properties), su, st) == Err(failure.value)
    {
      if su >= 0 && st >= 0 {
        var styles := properties[st].value;
        if !styles.ArrayLit? {
          return Some(StylesNotArray);
        }
        var styleUrls := properties[su];
        properties := RemoveAt(properties, st);
        var at := if st < su then su - 1 else su;
        properties := properties[at := styleUrls.(value := ArrayLit(styleUrls.value.elements + styles.elements))];
      }
      return None;
    }

    /**
     * `visitObjectExpression` (lines 48-114) inside a decorator's arguments:
     * rewrite the properties in place, or report the TypeError the source would
     * throw.  The state on failure is not specified; the driver discards the
     * whole tree.
     */
    method VisitObjectExpression(keepUrl: bool) returns (failure: Option<ShapeError>)
      modifies this
      ensures failure.None? <==> RewriteObject(old(properties), keepUrl).Ok?
      ensures failure.None? ==> properties == RewriteObject(old(properties), keepUrl).value
      ensures failure.Some? ==> RewriteObject(old(properties), keepUrl) == Err(failure.value)
    {
      if |properties| == 0 {
        return None;
      }
      var su := KeyIndex(properties, StyleUrlsKey);
      var st := KeyIndex(properties, StylesKey);
      var tu := KeyIndex(properties, TemplateUrlKey);
      failure := RewriteTemplateUrl(tu, keepUrl);
      if failure.Some? {
        return;
      }
      failure := RewriteStyleUrls(su, keepUrl);
      if failure.Some? {
        return;
      }
      failure := MergeStyles(su, st);
    }
  }
}
