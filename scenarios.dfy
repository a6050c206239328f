/**
 * Worked examples of the whole rewrite on small decorator argument lists, in the
 * shapes the loader is written for.
 */
module Scenarios {
  import opened Wrappers
  import opened Ast
  import opened PathSanitizer
  import opened Rewriter
  import opened RewriterProperties
  import opened Locator

  /** `@Component({templateUrl: html, styleUrls: [css]})` */
  function ComponentMetadata(html: string, css: string): seq<Prop> {
    [Prop(Some(TemplateUrlKey), StrLit(html)),
     Prop(Some(StyleUrlsKey), ArrayLit([StrLit(css)]))]
  }

  /** A decorator whose only argument is an object literal comes out with that literal rewritten. */
  lemma TransformOneObject(props: seq<Prop>, keepUrl: bool, expected: seq<Prop>)
    requires RewriteObject(props, keepUrl) == Ok(expected)
    ensures VisitDecorator(Decorator(Some([ObjLit(props)])), keepUrl) == Ok(Decorator(Some([ObjLit(expected)])))
    ensures Transform([Decorator(Some([ObjLit(props)]))], keepUrl) == [Decorator(Some([ObjLit(expected)]))]
  {
    assert VisitExpr(ObjLit(props), keepUrl) == Ok(ObjLit(expected));
    assert VisitList([ObjLit(props)], keepUrl).value == [ObjLit(expected)];
  }

  /** One string-literal entry of `styleUrls` converted. */
  lemma ConvertSingle(url: string)
    ensures ConvertUrls([StrLit(url)]) == Ok([Require(Sanitize(url))])
  {
    var es := [StrLit(url)];
    assert es[1..] == [];
    assert ConvertUrls(es[1..]) == Ok([]);
    assert [Require(Sanitize(url))] + [] == [Require(Sanitize(url))];
  }

  /** The first two steps on `ComponentMetadata`, renaming or not. */
  lemma ComponentUrlSteps(html: string, css: string, keepUrl: bool)
    ensures var props := ComponentMetadata(html, css);
            && KeyIndex(props, StyleUrlsKey) == 1
            && KeyIndex(props, TemplateUrlKey) == 0
            && TemplateUrlStep(props, 0, keepUrl).Ok?
            && StyleUrlsStep(TemplateUrlStep(props, 0, keepUrl).value, 1, keepUrl) ==
               Ok([Prop(RenameKey(Some(TemplateUrlKey), TemplateKey, keepUrl), Require(Sanitize(html))),
                   Prop(RenameKey(Some(StyleUrlsKey), StylesKey, keepUrl), ArrayLit([Require(Sanitize(css))]))])
  {
    var props := ComponentMetadata(html, css);
    assert props[1..][0].keyName == Some(StyleUrlsKey);
    assert KeyIndex(props[1..], StyleUrlsKey) == 0;
    var x := Prop(RenameKey(Some(TemplateUrlKey), TemplateKey, keepUrl), Require(Sanitize(html)));
    assert TemplateUrlStep(props, 0, keepUrl) == Ok(props[0 := x]);
    var p1 := [x, props[1]];
    assert props[0 := x] == p1;
    ConvertSingle(css);
    var y := Prop(RenameKey(Some(StyleUrlsKey), StylesKey, keepUrl), ArrayLit([Require(Sanitize(css))]));
    assert StyleUrlsStep(p1, 1, keepUrl) == Ok(p1[1 := y]);
    assert p1[1 := y] == [x, y];
  }

  /** The rewritten `ComponentMetadata`. */
  function ComponentRewritten(html: string, css: string, keepUrl: bool): seq<Prop> {
    [Prop(RenameKey(Some(TemplateUrlKey), TemplateKey, keepUrl), Require(Sanitize(html))),
     Prop(RenameKey(Some(StyleUrlsKey), StylesKey, keepUrl), ArrayLit([Require(Sanitize(css))]))]
  }

  /** The whole rewrite of `ComponentMetadata`, renaming or not. */
  lemma ComponentRewrite(html: string, css: string, keepUrl: bool)
    ensures RewriteObject(ComponentMetadata(html, css), keepUrl) == Ok(ComponentRewritten(html, css, keepUrl))
  {
    var props := ComponentMetadata(html, css);
    ComponentUrlSteps(html, css, keepUrl);
    assert KeyIndex(props[1..][1..], StylesKey) == -1;
    assert KeyIndex(props, StylesKey) == -1;
  }

  /** `@Component({templateUrl: html, styleUrls: [css]})` with renaming on: `template` and `styles` hold requires. */
  lemma RenamingExample(html: string, css: string)
    ensures Transform([Decorator(Some([ObjLit(ComponentMetadata(html, css))]))], false) ==
            [Decorator(Some([ObjLit([
              Prop(Some(TemplateKey), Require(Sanitize(html))),
              Prop(Some(StylesKey), ArrayLit([Require(Sanitize(css))]))])]))]
  {
    ComponentRewrite(html, css, false);
    TransformOneObject(ComponentMetadata(html, css), false, ComponentRewritten(html, css, false));
  }

  /** With `keepUrl` the keys stay `templateUrl` and `styleUrls` while the values still become requires. */
  lemma KeepUrlExample(html: string, css: string)
    ensures Transform([Decorator(Some([ObjLit(ComponentMetadata(html, css))]))], true) ==
            [Decorator(Some([ObjLit([
              Prop(Some(TemplateUrlKey), Require(Sanitize(html))),
              Prop(Some(StyleUrlsKey), ArrayLit([Require(Sanitize(css))]))])]))]
  {
    ComponentRewrite(html, css, true);
    TransformOneObject(ComponentMetadata(html, css), true, ComponentRewritten(html, css, true));
  }

  /**
   * `@Injectable() @Component({...})`: of two decorators only the one whose
   * arguments hold the metadata object changes.
   */
  lemma TwoDecoratorsExample(html: string, css: string)
    ensures var ds := [Decorator(Some([])), Decorator(Some([ObjLit(ComponentMetadata(html, css))]))];
            Transform(ds, false) == [ds[0], Decorator(Some([ObjLit(ComponentRewritten(html, css, false))]))]
  {
    var ds := [Decorator(Some([])), Decorator(Some([ObjLit(ComponentMetadata(html, css))]))];
    ComponentRewrite(html, css, false);
    TransformOneObject(ComponentMetadata(html, css), false, ComponentRewritten(html, css, false));
    UnexaminedDecorator(ds[0], false);
  }

  /** A string-literal key `'templateUrl'` has no `name`, so the property is not matched. */
  lemma QuotedKeyExample(html: string, keepUrl: bool)
    ensures var ds := [Decorator(Some([ObjLit([Prop(None, StrLit(html))])]))];
            Transform(ds, keepUrl) == ds
  {
    TransformWithoutUrlKeys([Decorator(Some([ObjLit([Prop(None, StrLit(html))])]))], keepUrl);
  }

  /** An object literal nested inside the metadata object is not entered. */
  lemma NestedObjectExample(html: string, css: string, keepUrl: bool)
    ensures var ds := [Decorator(Some([ObjLit([Prop(Some("host"), ObjLit(ComponentMetadata(html, css)))])]))];
            Transform(ds, keepUrl) == ds
  {
    assert "host" != TemplateUrlKey && "host" != StyleUrlsKey;
    TransformWithoutUrlKeys([Decorator(Some([ObjLit([Prop(Some("host"), ObjLit(ComponentMetadata(html, css)))])]))], keepUrl);
  }

  /** An object literal inside an array argument is reached and rewritten. */
  lemma ArrayArgumentExample(html: string, css: string, keepUrl: bool)
    ensures Transform([Decorator(Some([ArrayLit([ObjLit(ComponentMetadata(html, css))])]))], keepUrl) ==
            [Decorator(Some([ArrayLit([ObjLit(ComponentRewritten(html, css, keepUrl))])]))]
  {
    ComponentRewrite(html, css, keepUrl);
    var inner := [ObjLit(ComponentMetadata(html, css))];
    assert VisitList(inner, keepUrl).value == [ObjLit(ComponentRewritten(html, css, keepUrl))];
    var args := [ArrayLit(inner)];
    assert VisitList(args, keepUrl).value == [ArrayLit([ObjLit(ComponentRewritten(html, css, keepUrl))])];
  }

  /**
   * A `templateUrl` that is not a string literal makes the rewrite throw, and
   * every decorator of the class is returned as it was, the well-formed one too.
   */
  lemma MalformedExample(html: string, css: string, keepUrl: bool)
    ensures var ds := [Decorator(Some([ObjLit(ComponentMetadata(html, css))])),
                       Decorator(Some([ObjLit([Prop(Some(TemplateUrlKey), Other([]))])]))];
            Transform(ds, keepUrl) == ds
  {
    var ds := [Decorator(Some([ObjLit(ComponentMetadata(html, css))])),
               Decorator(Some([ObjLit([Prop(Some(TemplateUrlKey), Other([]))])]))];
    var bad := [Prop(Some(TemplateUrlKey), Other([]))];
    assert KeyIndex(bad, TemplateUrlKey) == 0;
    assert RewriteObject(bad, keepUrl).Err?;
    assert VisitList([ObjLit(bad)], keepUrl).Err?;
    assert VisitDecorator(ds[1], keepUrl).Err?;
  }

  /**
   * `@Component({templateUrl: html, styleUrls: [css], styles: [style]})`: the
   * `styles` entry follows the converted `styleUrls` entry in one `styles`
   * array, and no second `styles` property is left.
   */
  lemma MergeExample(html: string, css: string, style: Expr)
    ensures Transform([Decorator(Some([ObjLit(ComponentMetadata(html, css) + [Prop(Some(StylesKey), ArrayLit([style]))])]))], false) ==
            [Decorator(Some([ObjLit([
              Prop(Some(TemplateKey), Require(Sanitize(html))),
              Prop(Some(StylesKey), ArrayLit([Require(Sanitize(css)), style]))])]))]
  {
    var props := ComponentMetadata(html, css) + [Prop(Some(StylesKey), ArrayLit([style]))];
    assert props[1..][0].keyName == Some(StyleUrlsKey);
    assert KeyIndex(props[1..], StyleUrlsKey) == 0;
    assert KeyIndex(props, StyleUrlsKey) == 1;
    assert KeyIndex(props, TemplateUrlKey) == 0;
    assert props[1..][1..][0].keyName == Some(StylesKey);
    assert KeyIndex(props[1..][1..], StylesKey) == 0;
    assert KeyIndex(props[1..], StylesKey) == 1;
    assert KeyIndex(props, StylesKey) == 2;
    var x := Prop(Some(TemplateKey), Require(Sanitize(html)));
    assert TemplateUrlStep(props, 0, false) == Ok(props[0 := x]);
    var p1 := [x, props[1], props[2]];
    assert props[0 := x] == p1;
    ConvertSingle(css);
    var y := Prop(Some(StylesKey), ArrayLit([Require(Sanitize(css))]));
    assert StyleUrlsStep(p1, 1, false) == Ok(p1[1 := y]);
    var p2 := [x, y, props[2]];
    assert p1[1 := y] == p2;
    assert RemoveAt(p2, 2) == [x, y];
    var z := Prop(Some(StylesKey), ArrayLit([Require(Sanitize(css))] + [style]));
    assert StylesStep(p2, 1, 2) == Ok([x, y][1 := z]);
    assert [x, y][1 := z] == [x, z];
    assert [Require(Sanitize(css))] + [style] == [Require(Sanitize(css)), style];
    assert RewriteObject(props, false) == StylesStep(p2, 1, 2);
    TransformOneObject(props, false, [
      Prop(Some(TemplateKey), Require(Sanitize(html))),
      Prop(Some(StylesKey), ArrayLit([Require(Sanitize(css)), style]))]);
  }

  /**
   * Why idempotence needs unique URL keys: of two `templateUrl` properties only
   * the first is found by `findIndex`, so the second is rewritten only by a
   * second pass.
   */
  lemma DuplicateTemplateUrlExample(a: string, b: string)
    ensures var ds := [Decorator(Some([ObjLit([Prop(Some(TemplateUrlKey), StrLit(a)),
                                               Prop(Some(TemplateUrlKey), StrLit(b))])]))];
            && !DecoratorsUrlKeysUnique(ds)
            && Transform(Transform(ds, false), false) != Transform(ds, false)
  {
    var p0 := [Prop(Some(TemplateUrlKey), StrLit(a)), Prop(Some(TemplateUrlKey), StrLit(b))];
    var x := Prop(Some(TemplateKey), Require(Sanitize(a)));
    var y := Prop(Some(TemplateKey), Require(Sanitize(b)));
    var p1 := [x, p0[1]];
    var p2 := [x, y];
    var ds := [Decorator(Some([ObjLit(p0)]))];

    assert p0[0].keyName == p0[1].keyName == Some(TemplateUrlKey);
    assert !DecoratorsUrlKeysUnique(ds) by {
      assert ds[0].arguments.value[0] == ObjLit(p0);
      assert !AtMostOne(p0, TemplateUrlKey);
    }

    assert KeyIndex(p0, TemplateUrlKey) == 0;
    assert KeyIndex(p0[1..], StyleUrlsKey) == -1;
    assert KeyIndex(p0, StyleUrlsKey) == -1;
    assert p0[0 := x] == p1;
    assert RewriteObject(p0, false) == Ok(p1);
    TransformOneObject(p0, false, p1);

    assert p1[1..] == [p0[1]];
    assert KeyIndex(p1[1..], TemplateUrlKey) == 0;
    assert KeyIndex(p1, TemplateUrlKey) == 1;
    assert KeyIndex(p1[1..], StyleUrlsKey) == -1;
    assert KeyIndex(p1, StyleUrlsKey) == -1;
    assert p1[1 := y] == p2;
    assert RewriteObject(p1, false) == Ok(p2);
    TransformOneObject(p1, false, p2);

    assert p1[1] != p2[1];
  }
}
