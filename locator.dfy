/**
 * The metadata locator of index.js: `visitDecorator` (lines 115-124) and the
 * traversal that ast-types runs over a decorator's arguments, handing every object
 * literal it meets to `visitObjectExpression` (lines 48-114), which returns
 * `false` so that the literal's own sub-expressions are not visited (line 113).
 * The traversal is modelled as a rebuild of the visited expressions; any
 * TypeError thrown while visiting makes the loader return the original source
 * (lines 140-145), which `Transform` states for one class's decorators.
 */
module Locator {
  import opened Wrappers
  import opened Ast
  import opened Rewriter
  import opened RewriterProperties

  /**
   * One expression met while traversing decorator arguments: an object literal is
   * rewritten and not entered, arrays and other expressions are entered, the
   * remaining leaves are left as they are.
   */
  function VisitExpr(e: Expr, keepUrl: bool): (r: Result<Expr, ShapeError>)
    ensures e.StrLit? || e.Require? ==> r == Ok(e)
    ensures e.ObjLit? ==> (r.Ok? <==> ShapesOk(e.properties))
    ensures e.ObjLit? && r.Ok? ==> r.value.ObjLit? && |r.value.properties| <= |e.properties|
    ensures e.ArrayLit? && r.Ok? ==> r.value.ArrayLit? && |r.value.elements| == |e.elements|
    ensures e.Other? && r.Ok? ==> r.value.Other? && |r.value.children| == |e.children|
    decreases e, 1
  {
    match e
    case ObjLit(props) =>
      RewriteSucceedsIff(props, keepUrl);
      (match RewriteObject(props, keepUrl)
       case Ok(ps) => Ok(ObjLit(ps))
       case Err(x) => Err(x))
    case ArrayLit(es) =>
      (match VisitList(es, keepUrl)
       case Ok(vs) => Ok(ArrayLit(vs))
       case Err(x) => Err(x))
    case Other(cs) =>
      (match VisitList(cs, keepUrl)
       case Ok(vs) => Ok(Other(vs))
       case Err(x) => Err(x))
    case StrLit(_) => Ok(e)
    case Require(_) => Ok(e)
  }

  /** The expressions of a list visited in order; the first TypeError is propagated. */
  function VisitList(es: seq<Expr>, keepUrl: bool): (r: Result<seq<Expr>, ShapeError>)
    ensures r.Ok? <==> forall i :: 0 <= i < |es| ==> VisitExpr(es[i], keepUrl).Ok?
    ensures r.Ok? ==> |r.value| == |es| && forall i :: 0 <= i < |es| ==> r.value[i] == VisitExpr(es[i], keepUrl).value
    decreases es, 0
  {
    if es == [] then Ok([])
    else
      match VisitExpr(es[0], keepUrl)
      case Err(x) => Err(x)
      case Ok(v) =>
        match VisitList(es[1..], keepUrl)
        case Err(x) => Err(x)
        case Ok(vs) => Ok([v] + vs)
  }

  /**
   * `visitDecorator` (lines 115-124): a decorator with no argument list, or an
   * empty one, is not entered; otherwise its arguments are traversed.
   */
  function VisitDecorator(d: Decorator, keepUrl: bool): (r: Result<Decorator, ShapeError>)
    ensures r.Ok? ==> r.value.arguments.Some? == d.arguments.Some?
    ensures r.Ok? && d.arguments.Some? ==> |r.value.arguments.value| == |d.arguments.value|
  {
    match d.arguments
    case None => Ok(d)
    case Some(args) =>
      if |args| == 0 then Ok(d)
      else
        match VisitList(args, keepUrl)
        case Ok(vs) => Ok(Decorator(Some(vs)))
        case Err(x) => Err(x)
  }

  /** The decorators of one class visited in order; the first TypeError is propagated. */
  function VisitDecorators(ds: seq<Decorator>, keepUrl: bool): (r: Result<seq<Decorator>, ShapeError>)
    ensures r.Ok? <==> forall i :: 0 <= i < |ds| ==> VisitDecorator(ds[i], keepUrl).Ok?
    ensures r.Ok? ==> |r.value| == |ds| && forall i :: 0 <= i < |ds| ==> r.value[i] == VisitDecorator(ds[i], keepUrl).value
  {
    if ds == [] then Ok([])
    else
      match VisitDecorator(ds[0], keepUrl)
      case Err(x) => Err(x)
      case Ok(d) =>
        match VisitDecorators(ds[1..], keepUrl)
        case Err(x) => Err(x)
        case Ok(rest) => Ok([d] + rest)
  }

  /**
   * The rewrite of one decorated class's decorators as the loader returns it,
   * all or nothing: when every decorator is visited without a TypeError, each is
   * replaced by its rewrite; when any one throws, every decorator is returned as
   * it was, even those visited before it (the `catch` of lines 142-145 returns
   * the original source).
   */
  function Transform(ds: seq<Decorator>, keepUrl: bool): (r: seq<Decorator>)
    ensures |r| == |ds|
    ensures (exists i :: 0 <= i < |ds| && VisitDecorator(ds[i], keepUrl).Err?) ==> r == ds
    ensures (forall i :: 0 <= i < |ds| ==> VisitDecorator(ds[i], keepUrl).Ok?) ==>
              forall i :: 0 <= i < |ds| ==> r[i] == VisitDecorator(ds[i], keepUrl).value
  {
    match VisitDecorators(ds, keepUrl)
    case Ok(rs) => rs
    case Err(_) => ds
  }

  /** No object literal the traversal reaches has a `templateUrl` or `styleUrls` key. */
  predicate NothingToRewrite(e: Expr) {
    match e
    case ObjLit(props) => NoUrlKeys(props)
    case ArrayLit(es) => forall i :: 0 <= i < |es| ==> NothingToRewrite(es[i])
    case Other(cs) => forall i :: 0 <= i < |cs| ==> NothingToRewrite(cs[i])
    case StrLit(_) => true
    case Require(_) => true
  }

  /** No object literal the traversal reaches has two `templateUrl` keys or two `styleUrls` keys. */
  predicate UrlKeysUnique(e: Expr) {
    match e
    case ObjLit(props) => AtMostOne(props, TemplateUrlKey) && AtMostOne(props, StyleUrlsKey)
    case ArrayLit(es) => forall i :: 0 <= i < |es| ==> UrlKeysUnique(es[i])
    case Other(cs) => forall i :: 0 <= i < |cs| ==> UrlKeysUnique(cs[i])
    case StrLit(_) => true
    case Require(_) => true
  }

  /** `NothingToRewrite` for every argument of every decorator. */
  predicate DecoratorsNothingToRewrite(ds: seq<Decorator>) {
    forall i, j :: 0 <= i < |ds| && ds[i].arguments.Some? && 0 <= j < |ds[i].arguments.value| ==>
      NothingToRewrite(ds[i].arguments.value[j])
  }

  /** `UrlKeysUnique` for every argument of every decorator. */
  predicate DecoratorsUrlKeysUnique(ds: seq<Decorator>) {
    forall i, j :: 0 <= i < |ds| && ds[i].arguments.Some? && 0 <= j < |ds[i].arguments.value| ==>
      UrlKeysUnique(ds[i].arguments.value[j])
  }

  /** A decorator without arguments, or with an empty argument list, is not examined. */
  lemma UnexaminedDecorator(d: Decorator, keepUrl: bool)
    requires d.arguments.None? || d.arguments == Some([])
    ensures VisitDecorator(d, keepUrl) == Ok(d)
  {
  }

  /** The traversal leaves an expression alone when no object literal it reaches has a URL key. */
  lemma {:induction false} VisitUntouched(e: Expr, keepUrl: bool)
    requires NothingToRewrite(e)
    ensures VisitExpr(e, keepUrl) == Ok(e)
    decreases e, 1
  {
    match e
    case ObjLit(props) =>
    case ArrayLit(es) => VisitListUntouched(es, keepUrl);
    case Other(cs) => VisitListUntouched(cs, keepUrl);
    case StrLit(_) =>
    case Require(_) =>
  }

  /** `VisitUntouched` for a list. */
  lemma {:induction false} VisitListUntouched(es: seq<Expr>, keepUrl: bool)
    requires forall i :: 0 <= i < |es| ==> NothingToRewrite(es[i])
    ensures VisitList(es, keepUrl) == Ok(es)
    decreases es, 0
  {
    forall i | 0 <= i < |es|
      ensures VisitExpr(es[i], keepUrl) == Ok(es[i])
    {
      VisitUntouched(es[i], keepUrl);
    }
    assert VisitList(es, keepUrl).value == es;
  }

  /** After a successful traversal with renaming on, no URL key is left where the traversal looks. */
  lemma {:induction false} VisitLeavesNothing(e: Expr)
    requires UrlKeysUnique(e) && VisitExpr(e, false).Ok?
    ensures NothingToRewrite(VisitExpr(e, false).value)
    decreases e, 1
  {
    match e
    case ObjLit(props) => RewriteClearsUrlKeys(props);
    case ArrayLit(es) => VisitListLeavesNothing(es);
    case Other(cs) => VisitListLeavesNothing(cs);
    case StrLit(_) =>
    case Require(_) =>
  }

  /** `VisitLeavesNothing` for a list. */
  lemma {:induction false} VisitListLeavesNothing(es: seq<Expr>)
    requires forall i :: 0 <= i < |es| ==> UrlKeysUnique(es[i])
    requires VisitList(es, false).Ok?
    ensures forall i :: 0 <= i < |es| ==> NothingToRewrite(VisitList(es, false).value[i])
    decreases es, 0
  {
    forall i | 0 <= i < |es|
      ensures NothingToRewrite(VisitList(es, false).value[i])
    {
      VisitLeavesNothing(es[i]);
    }
  }

  /** A class whose decorator arguments hold no `templateUrl` or `styleUrls` key comes out as it went in. */
  lemma TransformWithoutUrlKeys(ds: seq<Decorator>, keepUrl: bool)
    requires DecoratorsNothingToRewrite(ds)
    ensures Transform(ds, keepUrl) == ds
  {
    forall i | 0 <= i < |ds|
      ensures VisitDecorator(ds[i], keepUrl) == Ok(ds[i])
    {
      if ds[i].arguments.Some? && |ds[i].arguments.value| > 0 {
        VisitListUntouched(ds[i].arguments.value, keepUrl);
      }
    }
  }

  /**
   * With renaming on, rewriting the output again changes nothing, provided no
   * object literal the traversal reaches repeats the `templateUrl` key or the
   * `styleUrls` key (a repeated one is only rewritten on the second pass).
   */
  lemma TransformIdempotent(ds: seq<Decorator>)
    requires DecoratorsUrlKeysUnique(ds)
    ensures Transform(Transform(ds, false), false) == Transform(ds, false)
  {
    var once := VisitDecorators(ds, false);
    if once.Ok? {
      var rs := once.value;
      forall i, j | 0 <= i < |rs| && rs[i].arguments.Some? && 0 <= j < |rs[i].arguments.value|
        ensures NothingToRewrite(rs[i].arguments.value[j])
      {
        VisitListLeavesNothing(ds[i].arguments.value);
      }
      TransformWithoutUrlKeys(rs, false);
    }
  }
}
