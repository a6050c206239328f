/**
 * The small part of the parsed syntax tree that the metadata rewrite of index.js
 * looks at.  The parser and printer are external; only the node kinds the rewrite
 * inspects or produces are distinguished.
 */
module Ast {
  import opened Wrappers

  /**
   * Expression nodes.  The rewrite reads a literal through its `value` field, so
   * `StrLit` stands for every node whose `value` is a string: a string literal,
   * and also a literal such as the BigInt `10n`, whose `value` is the text "10".
   */
  datatype Expr =
    | StrLit(value: string)            // a node with a string `value`
    | ArrayLit(elements: seq<Expr>)    // an array literal
    | Require(path: string)            // the emitted call `require('<path>')`
    | ObjLit(properties: seq<Prop>)    // an object literal
    | Other(children: seq<Expr>)       // any other expression, with the sub-expressions a traversal visits

  /**
   * A property of an object literal.  `keyName` is the `name` of its key node:
   * `Some` for an identifier key, `None` for a key that has no `name` (a
   * string-literal key such as 'templateUrl', a numeric key, a spread).
   */
  datatype Prop = Prop(keyName: Option<string>, value: Expr)

  /** A decorator; `arguments` is absent when its node has no argument list. */
  datatype Decorator = Decorator(arguments: Option<seq<Expr>>)

  /**
   * The TypeError the rewrite throws when a property it rewrites does not have
   * the shape the code takes for granted.
   */
  datatype ShapeError =
    | TemplateUrlNotString   // `sanitize(undefined)` or `replace` on a non-string (line 81-82)
    | StyleUrlsNotArray      // `undefined.forEach` (line 93)
    | StyleUrlNotString      // an element whose `value` is not a string (lines 93-94)
    | StylesNotArray         // `push(...undefined)` (line 109)

  const TemplateUrlKey := "templateUrl"
  const TemplateKey := "template"
  const StyleUrlsKey := "styleUrls"
  const StylesKey := "styles"
}
