/**
 * What the property rewrite of index.js (lines 68-111) guarantees, proved about
 * `Rewriter.RewriteObject`: when it succeeds, which properties change and how,
 * which are dropped, and that every other property keeps its value and its
 * relative order.
 */
module RewriterProperties {
  import opened Wrappers
  import opened Ast
  import opened PathSanitizer
  import opened Rewriter

  /** The position the rewrite drops: that of `styles` when `styleUrls` is present too, else -1. */
  function RemovedIndex(props: seq<Prop>): int {
    var su := KeyIndex(props, StyleUrlsKey);
    var st := KeyIndex(props, StylesKey);
    if su >= 0 && st >= 0 then st else -1
  }

  /** Where the input property at `i` sits in the rewritten list: one place earlier past a dropped `styles`. */
  function Position(props: seq<Prop>, i: int): int {
    var d := RemovedIndex(props);
    if d >= 0 && i > d then i - 1 else i
  }

  /**
   * The shapes the rewrite takes for granted: the first `templateUrl` holds a
   * string literal; the first `styleUrls` holds an array of string literals; and,
   * when `styleUrls` is there, the first `styles` holds an array.
   */
  predicate ShapesOk(props: seq<Prop>) {
    var su := KeyIndex(props, StyleUrlsKey);
    var st := KeyIndex(props, StylesKey);
    var tu := KeyIndex(props, TemplateUrlKey);
    && (tu >= 0 ==> props[tu].value.StrLit?)
    && (su >= 0 ==> props[su].value.ArrayLit? && AllStrLit(props[su].value.elements))
    && (su >= 0 && st >= 0 ==> props[st].value.ArrayLit?)
  }

  /** The elements the rewritten `styleUrls` array receives from `styles`: none when there is no `styles`. */
  function AppendedStyles(props: seq<Prop>): seq<Expr>
    requires ShapesOk(props)
  {
    var su := KeyIndex(props, StyleUrlsKey);
    var st := KeyIndex(props, StylesKey);
    if su >= 0 && st >= 0 then props[st].value.elements else []
  }

  /** The rewrite succeeds exactly when the shapes it takes for granted are there. */
  lemma RewriteSucceedsIff(props: seq<Prop>, keepUrl: bool)
    ensures RewriteObject(props, keepUrl).Ok? <==> ShapesOk(props)
  {
    if |props| > 0 {
      var su := KeyIndex(props, StyleUrlsKey);
      var st := KeyIndex(props, StylesKey);
      var tu := KeyIndex(props, TemplateUrlKey);
      var r1 := TemplateUrlStep(props, tu, keepUrl);
      if r1.Ok? && su >= 0 {
        assert r1.value[su] == props[su];
        if st >= 0 {
          var r2 := StyleUrlsStep(r1.value, su, keepUrl);
          if r2.Ok? {
            assert r2.value[st] == props[st];
          }
        }
      }
    }
  }

  /** The last step, property by property: everything but `styles` keeps its place up to the shift. */
  lemma StylesStepAt(props: seq<Prop>, su: int, st: int, i: int)
    requires 0 <= su < |props| && 0 <= st < |props| && su != st && props[su].value.ArrayLit?
    requires StylesStep(props, su, st).Ok?
    requires 0 <= i < |props| && i != st
    ensures var r := StylesStep(props, su, st).value;
            var j := if i > st then i - 1 else i;
            && |r| == |props| - 1
            && 0 <= j < |r|
            && r[j] == if i == su then Prop(props[su].keyName, ArrayLit(props[su].value.elements + props[st].value.elements))
                       else props[i]
  {
    var merged := RemoveAt(props, st);
    var j := if i > st then i - 1 else i;
    assert merged[j] == props[i];
  }

  /** The first two steps, property by property, for any two distinct positions. */
  lemma UrlStepsAt(props: seq<Prop>, keepUrl: bool, su: int, tu: int, i: int)
    requires -1 <= su < |props| && -1 <= tu < |props| && (su >= 0 ==> su != tu)
    requires TemplateUrlStep(props, tu, keepUrl).Ok?
    requires StyleUrlsStep(TemplateUrlStep(props, tu, keepUrl).value, su, keepUrl).Ok?
    requires 0 <= i < |props|
    ensures var p2 := StyleUrlsStep(TemplateUrlStep(props, tu, keepUrl).value, su, keepUrl).value;
            && |p2| == |props|
            && (tu >= 0 ==> props[tu].value.StrLit?)
            && (su >= 0 ==> props[su].value.ArrayLit? && ConvertUrls(props[su].value.elements).Ok?)
            && p2[i] == if i == tu then
                          Prop(RenameKey(props[tu].keyName, TemplateKey, keepUrl), Require(Sanitize(props[tu].value.value)))
                        else if i == su then
                          Prop(RenameKey(props[su].keyName, StylesKey, keepUrl), ArrayLit(ConvertUrls(props[su].value.elements).value))
                        else props[i]
  {
    var p1 := TemplateUrlStep(props, tu, keepUrl).value;
    assert su >= 0 ==> p1[su] == props[su];
  }

  /** The keys the rewrite looks for are distinct, so their first positions are too. */
  lemma KeyIndicesDistinct(props: seq<Prop>)
    ensures var su := KeyIndex(props, StyleUrlsKey);
            var st := KeyIndex(props, StylesKey);
            var tu := KeyIndex(props, TemplateUrlKey);
            (su >= 0 ==> su != st && su != tu) && (st >= 0 ==> st != tu)
  {
    assert StyleUrlsKey != StylesKey && StyleUrlsKey != TemplateUrlKey && StylesKey != TemplateUrlKey;
  }

  /** The value the property at `i` has after the rewrite, whether or not `styles` is merged. */
  function Rewritten(props: seq<Prop>, keepUrl: bool, i: int): Prop
    requires ShapesOk(props) && 0 <= i < |props|
  {
    var su := KeyIndex(props, StyleUrlsKey);
    var tu := KeyIndex(props, TemplateUrlKey);
    if i == tu then
      Prop(RenameKey(props[tu].keyName, TemplateKey, keepUrl), Require(Sanitize(props[tu].value.value)))
    else if i == su then
      Prop(RenameKey(props[su].keyName, StylesKey, keepUrl),
           ArrayLit(ConvertUrls(props[su].value.elements).value + AppendedStyles(props)))
    else props[i]
  }

  /** `RewriteAt` when `styles` is merged into `styleUrls`. */
  lemma RewriteAtMerged(props: seq<Prop>, keepUrl: bool, i: int)
    requires RewriteObject(props, keepUrl).Ok?
    requires RemovedIndex(props) >= 0
    requires 0 <= i < |props| && i != RemovedIndex(props)
    ensures ShapesOk(props)
    ensures var r := RewriteObject(props, keepUrl).value;
            && |r| == |props| - 1
            && 0 <= Position(props, i) < |r|
            && r[Position(props, i)] == Rewritten(props, keepUrl, i)
  {
    RewriteSucceedsIff(props, keepUrl);
    KeyIndicesDistinct(props);
    var su := KeyIndex(props, StyleUrlsKey);
    var st := KeyIndex(props, StylesKey);
    var tu := KeyIndex(props, TemplateUrlKey);
    var p2 := StyleUrlsStep(TemplateUrlStep(props, tu, keepUrl).value, su, keepUrl).value;
    assert RewriteObject(props, keepUrl) == StylesStep(p2, su, st);
    UrlStepsAt(props, keepUrl, su, tu, i);
    UrlStepsAt(props, keepUrl, su, tu, st);
    UrlStepsAt(props, keepUrl, su, tu, su);
    StylesStepAt(p2, su, st, i);
  }

  /** `RewriteAt` when nothing is merged: the list keeps its length and positions. */
  lemma RewriteAtUnmerged(props: seq<Prop>, keepUrl: bool, i: int)
    requires RewriteObject(props, keepUrl).Ok?
    requires RemovedIndex(props) < 0
    requires 0 <= i < |props|
    ensures ShapesOk(props)
    ensures var r := RewriteObject(props, keepUrl).value;
            && |r| == |props|
            && Position(props, i) == i
            && r[i] == Rewritten(props, keepUrl, i)
  {
    RewriteSucceedsIff(props, keepUrl);
    KeyIndicesDistinct(props);
    var su := KeyIndex(props, StyleUrlsKey);
    var st := KeyIndex(props, StylesKey);
    var tu := KeyIndex(props, TemplateUrlKey);
    var p2 := StyleUrlsStep(TemplateUrlStep(props, tu, keepUrl).value, su, keepUrl).value;
    assert RewriteObject(props, keepUrl) == Ok(p2);
    UrlStepsAt(props, keepUrl, su, tu, i);
    if su >= 0 {
      var urls := ConvertUrls(props[su].value.elements).value;
      assert urls + [] == urls;
    }
  }

  /**
   * Property by property: the property at `i` (unless it is the dropped `styles`)
   * ends up at `Position(props, i)`, and its value there is the rewritten one for
   * the first `templateUrl` and the first `styleUrls`, and unchanged otherwise.
   */
  lemma RewriteAt(props: seq<Prop>, keepUrl: bool, i: int)
    requires RewriteObject(props, keepUrl).Ok?
    requires 0 <= i < |props| && i != RemovedIndex(props)
    ensures ShapesOk(props)
    ensures var r := RewriteObject(props, keepUrl).value;
            && |r| == |props| - (if RemovedIndex(props) >= 0 then 1 else 0)
            && 0 <= Position(props, i) < |r|
            && r[Position(props, i)] == Rewritten(props, keepUrl, i)
  {
    if RemovedIndex(props) >= 0 {
      RewriteAtMerged(props, keepUrl, i);
    } else {
      RewriteAtUnmerged(props, keepUrl, i);
    }
  }

  /** The input position of the property at `k` of the rewritten list: the inverse of `Position`. */
  function Origin(props: seq<Prop>, k: int): int {
    var d := RemovedIndex(props);
    if d >= 0 && k >= d then k + 1 else k
  }

  /**
   * `Position` keeps the order of the kept properties and, with `Origin` as its
   * inverse, maps them one to one onto the positions of the rewritten list.
   */
  lemma PositionIsOrderedBijection(props: seq<Prop>)
    ensures var d := RemovedIndex(props);
            var n := |props| - (if d >= 0 then 1 else 0);
            && (forall i, j :: 0 <= i < j < |props| && i != d && j != d ==> Position(props, i) < Position(props, j))
            && (forall i :: 0 <= i < |props| && i != d ==> 0 <= Position(props, i) < n && Origin(props, Position(props, i)) == i)
            && (forall k :: 0 <= k < n ==> 0 <= Origin(props, k) < |props| && Origin(props, k) != d && Position(props, Origin(props, k)) == k)
  {
  }

  /**
   * Every property other than the first `templateUrl`, the first `styleUrls` and
   * a merged `styles` is left as it was, later duplicates of those keys included;
   * with `PositionIsOrderedBijection`, the kept properties also keep their
   * relative order.
   */
  lemma OthersUntouched(props: seq<Prop>, keepUrl: bool)
    requires RewriteObject(props, keepUrl).Ok?
    ensures var r := RewriteObject(props, keepUrl).value;
            var su := KeyIndex(props, StyleUrlsKey);
            var tu := KeyIndex(props, TemplateUrlKey);
            var d := RemovedIndex(props);
            && |r| == |props| - (if d >= 0 then 1 else 0)
            && forall i :: 0 <= i < |props| && i != tu && i != su && i != d ==> r[Position(props, i)] == props[i]
  {
    var r := RewriteObject(props, keepUrl).value;
    var su := KeyIndex(props, StyleUrlsKey);
    var tu := KeyIndex(props, TemplateUrlKey);
    var d := RemovedIndex(props);
    forall i | 0 <= i < |props| && i != tu && i != su && i != d
      ensures r[Position(props, i)] == props[i]
    {
      RewriteAt(props, keepUrl, i);
    }
  }

  /**
   * The first `templateUrl` property (lines 79-87) now holds
   * `require(sanitize(url))`, and its key is `template` if and only if `keepUrl`
   * is false.
   */
  lemma TemplateUrlRewritten(props: seq<Prop>, keepUrl: bool)
    requires RewriteObject(props, keepUrl).Ok?
    requires KeyIndex(props, TemplateUrlKey) >= 0
    ensures var r := RewriteObject(props, keepUrl).value;
            var tu := KeyIndex(props, TemplateUrlKey);
            && props[tu].value.StrLit?
            && 0 <= Position(props, tu) < |r|
            && r[Position(props, tu)].value == Require(Sanitize(props[tu].value.value))
            && r[Position(props, tu)].keyName == (if keepUrl then Some(TemplateUrlKey) else Some(TemplateKey))
            && (r[Position(props, tu)].keyName == Some(TemplateKey) <==> !keepUrl)
  {
    KeyIndicesDistinct(props);
    RewriteAt(props, keepUrl, KeyIndex(props, TemplateUrlKey));
  }

  /**
   * The first `styleUrls` property (lines 89-98) keeps its array's entries in
   * length and order, entry k becoming `require(sanitize(url_k))`; entries follow
   * them only when a `styles` property was merged; its key is `styles` if and
   * only if `keepUrl` is false.
   */
  lemma StyleUrlsRewritten(props: seq<Prop>, keepUrl: bool)
    requires RewriteObject(props, keepUrl).Ok?
    requires KeyIndex(props, StyleUrlsKey) >= 0
    ensures var r := RewriteObject(props, keepUrl).value;
            var su := KeyIndex(props, StyleUrlsKey);
            && props[su].value.ArrayLit? && AllStrLit(props[su].value.elements)
            && 0 <= Position(props, su) < |r|
            && var es := props[su].value.elements;
               var q := r[Position(props, su)];
               && q.keyName == (if keepUrl then Some(StyleUrlsKey) else Some(StylesKey))
               && (q.keyName == Some(StylesKey) <==> !keepUrl)
               && q.value.ArrayLit?
               && |q.value.elements| >= |es|
               && (forall k :: 0 <= k < |es| ==> q.value.elements[k] == Require(Sanitize(es[k].value)))
               && (KeyIndex(props, StylesKey) < 0 ==> |q.value.elements| == |es|)
  {
    KeyIndicesDistinct(props);
    RewriteAt(props, keepUrl, KeyIndex(props, StyleUrlsKey));
  }

  /**
   * With both `styleUrls` and `styles` present (lines 100-110), `styles` is
   * dropped, so the list is one shorter, and its entries follow the converted
   * ones, unchanged, whatever `keepUrl` is.
   */
  lemma StylesMerged(props: seq<Prop>, keepUrl: bool)
    requires RewriteObject(props, keepUrl).Ok?
    requires KeyIndex(props, StyleUrlsKey) >= 0 && KeyIndex(props, StylesKey) >= 0
    ensures var r := RewriteObject(props, keepUrl).value;
            var su := KeyIndex(props, StyleUrlsKey);
            var st := KeyIndex(props, StylesKey);
            && |r| == |props| - 1
            && RemovedIndex(props) == st
            && props[su].value.ArrayLit? && props[st].value.ArrayLit?
            && 0 <= Position(props, su) < |r|
            && var es := props[su].value.elements;
               var q := r[Position(props, su)];
               && q.value.ArrayLit?
               && |q.value.elements| == |es| + |props[st].value.elements|
               && q.value.elements[|es|..] == props[st].value.elements
  {
    KeyIndicesDistinct(props);
    RewriteAt(props, keepUrl, KeyIndex(props, StyleUrlsKey));
  }

  /** A `styles` property with no `styleUrls` beside it is left where and as it was. */
  lemma LoneStylesUntouched(props: seq<Prop>, keepUrl: bool)
    requires RewriteObject(props, keepUrl).Ok?
    requires KeyIndex(props, StyleUrlsKey) < 0 && KeyIndex(props, StylesKey) >= 0
    ensures var r := RewriteObject(props, keepUrl).value;
            var st := KeyIndex(props, StylesKey);
            |r| == |props| && r[st] == props[st]
  {
    KeyIndicesDistinct(props);
    RewriteAt(props, keepUrl, KeyIndex(props, StylesKey));
  }

  /** At most one property of the list has the key `name`. */
  predicate AtMostOne(props: seq<Prop>, name: string) {
    forall i, j :: 0 <= i < |props| && 0 <= j < |props| && props[i].keyName == Some(name) && props[j].keyName == Some(name) ==> i == j
  }

  /** No property of the list has the key `templateUrl` or `styleUrls`. */
  predicate NoUrlKeys(props: seq<Prop>) {
    forall i :: 0 <= i < |props| ==> props[i].keyName != Some(TemplateUrlKey) && props[i].keyName != Some(StyleUrlsKey)
  }

  /**
   * With renaming on and no duplicate `templateUrl` or `styleUrls` key, nothing
   * is left for a second rewrite to find.
   */
  lemma RewriteClearsUrlKeys(props: seq<Prop>)
    requires RewriteObject(props, false).Ok?
    requires AtMostOne(props, TemplateUrlKey) && AtMostOne(props, StyleUrlsKey)
    ensures NoUrlKeys(RewriteObject(props, false).value)
  {
    var r := RewriteObject(props, false).value;
    PositionIsOrderedBijection(props);
    forall k | 0 <= k < |r|
      ensures r[k].keyName != Some(TemplateUrlKey) && r[k].keyName != Some(StyleUrlsKey)
    {
      var i := Origin(props, k);
      RewriteAt(props, false, i);
      assert StylesKey != TemplateUrlKey && StylesKey != StyleUrlsKey;
      assert TemplateKey != TemplateUrlKey && TemplateKey != StyleUrlsKey;
    }
  }
}
