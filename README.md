# angular2-template-loader: the metadata rewrite, in Dafny

This project models the core of angular2-template-loader, a webpack loader for
Angular 2 components. The loader rewrites the object literal passed to a class
decorator such as `@Component({...})`:

- `templateUrl: 'x.html'` becomes `template: require('./x.html')` (the path is sanitized, see below);
- every entry of `styleUrls: [...]` becomes `require(<sanitized path>)`, and the key becomes `styles`;
- a `styles` array that already sits beside `styleUrls` is merged into it.

With the option `keepUrl` the keys keep their names and only the values change.
The referenced path goes through `sanitize` first. `sanitize` escapes quotes and
backslashes, then adds `./` unless the path already starts with `.`.

Modules:

- `Wrappers` (wrappers.dfy): `Option` and `Result`.
- `PathSanitizer` (sanitize.dfy): `sanitize` as a character-by-character
  function, the inverse reading `Unescape`, and their round trips.
- `Ast` (ast.dfy): the hand-made syntax tree. It has expressions (string, array,
  object literal, the emitted `require` call, and any other expression with its
  sub-expressions), properties whose key is known only by its `name`,
  decorators, and the `TypeError`s the rewrite can throw.
- `Rewriter` (rewriter.dfy): `RewriteObject` is the specification of
  `visitObjectExpression`. It applies the source's three steps in the
  source's order. Class `ObjectExpression` does the same edit in place on its
  `properties` field. Its methods are proved equal to the specification, and
  the `styleUrls` element loop carries its own loop invariant.
- `RewriterProperties` (rewriter_properties.dfy): what the rewrite guarantees.
  It covers success exactly when the shapes are right, the value and key of
  each rewritten property, the drop of `styles`, and every other property kept
  in order.
- `Locator` (locator.dfy): `visitDecorator` and the traversal of decorator
  arguments. Object literals are rewritten and not entered; other expressions
  are entered. The all-or-nothing fallback of the loader is the function
  `Transform`.
- `Scenarios` (scenarios.dfy): worked rewrites of whole decorator lists.

Shape policy: the source never checks the shapes it relies on. It reads a
literal through its `value` field: `value.value.value` for `templateUrl`
(index.js:81), and the `value` of each `styleUrls` element (index.js:93). When
that field is not a string, `sanitize` throws a `TypeError`. A string literal
passes, and so does any other node whose `value` is a string, such as the BigInt
literal `10n`. The model's `StrLit` stands for every such node. The code also
throws when:

- the `styleUrls` value has no `elements` array;
- the `styles` value has no `elements` array (looked at only when `styleUrls`
  exists).

The loader's `catch` then returns the original source. The model follows the
code: the rewrite returns `Err(ShapeError)`, and `Transform` returns its input
unchanged.

Three behaviours of the code that the model keeps:

- index.js:20 escapes every quote and backslash, an already escaped one
  included. It does not escape line feeds or carriage returns, so a path holding
  one yields a `require('...')` call that does not parse.
- A key matches only through its `name` (index.js:75-77): an identifier key
  `templateUrl` matches, while the string-literal key `'templateUrl'` never does.
- Any decorator is examined, whatever its name (index.js:115-124).

## Model

| member | source | states |
|---|---|---|
| PathSanitizer.Escape | index.js:20 | Output length is input length plus one per `"`, `'` or `\`; the output starts with `.` exactly when the input does |
| PathSanitizer.Sanitize | index.js:19-22 | The sanitized path is never empty and always starts with `.` |
| PathSanitizer.SanitizePrefix | index.js:21 | An input starting with `.` gets no prefix; any other input, the empty one included, gets `./` before its escaping |
| PathSanitizer.UnescapeEscape | index.js:20 | Reading the escaped text back gives the original string: no character lost, added or reordered |
| PathSanitizer.EscapeUnescape | index.js:20 | Text that reads back to `s` is exactly the escaping of `s` |
| PathSanitizer.EscapeIff | index.js:20 | `Escape(s) == t` if and only if `t` reads back to `s` |
| PathSanitizer.SanitizeRoundTrip | index.js:20-21 | Dropping the added prefix and the inserted backslashes gives back the input |
| PathSanitizer.EscapeLineBreaks | index.js:20 | Escaping neither adds nor removes a line feed or carriage return |
| PathSanitizer.SanitizeLineBreaks | index.js:19-22 | The sanitized path holds a line break exactly when the input does |
| PathSanitizer.SanitizeIsQuotingSafe | index.js:20-21 | The sanitized path never has a bare quote or a dangling backslash. It can stand between the quotes of the `'...'` literal of line 82 if and only if the input has no line feed or carriage return |
| PathSanitizer.SanitizeLineBreakExample | index.js:20-21 | `a` LF `b` becomes `./a` LF `b`, which is not a valid literal body |
| PathSanitizer.EscapeQuoteFree | index.js:20 | A path without quotes or backslashes is not changed by escaping |
| PathSanitizer.SanitizeQuoteFree | index.js:19-22 | A path without quotes or backslashes only gets the prefix rule applied |
| PathSanitizer.SanitizeQuoteExample | index.js:19-22 | `a'b` becomes `./a\'b` |
| PathSanitizer.SanitizeRelativeExample | index.js:21 | `./x` stays `./x` |
| PathSanitizer.SanitizeBareExample | index.js:21 | `rel/path` becomes `./rel/path` |
| PathSanitizer.SanitizeEmptyExample | index.js:21 | The empty path becomes `./` |
| Rewriter.KeyIndex | index.js:75-77 | -1 exactly when no key has the name; otherwise the first position whose key `name` is that name |
| Rewriter.ConvertUrls | index.js:93-95 | Succeeds exactly when every element is a string literal; the result then has the same length and element i is `require(sanitize(url_i))` |
| Rewriter.RemoveAt | index.js:106 | One element shorter; the elements before the dropped one stay put, those after move back by one |
| Rewriter.TemplateUrlStep | index.js:79-87 | Keeps the number of properties |
| Rewriter.StyleUrlsStep | index.js:89-98 | Keeps the number of properties; the rewritten `styleUrls` value is an array |
| Rewriter.StylesStep | index.js:100-110 | The list is one shorter exactly when both `styleUrls` and `styles` are present |
| Rewriter.RewriteObject | index.js:71-111 | An object with no `templateUrl` and no `styleUrls` key, the empty object included, is returned unchanged; the property count drops by one exactly when `styleUrls` and `styles` are both present |
| Rewriter.ObjectExpression.RewriteTemplateUrl | index.js:80-86 | The in-place `templateUrl` edit leaves the list equal to the specification step, or fails exactly when the step does, with its error |
| Rewriter.ObjectExpression.RewriteStyleUrls | index.js:90-98 | Each `styleUrls` element slot is replaced in turn; the result equals the specification step, or fails exactly when it does |
| Rewriter.ObjectExpression.MergeStyles | index.js:100-110 | Drops `styles` and pushes its elements onto the `styleUrls` array, matching the specification step |
| Rewriter.ObjectExpression.VisitObjectExpression | index.js:48-114 | The in-place rewrite ends with `RewriteObject` of the old list, or fails exactly when `RewriteObject` does, with the same error |
| RewriterProperties.RewriteSucceedsIff | index.js:79-110 | The rewrite succeeds if and only if the first `templateUrl` holds a string, the first `styleUrls` an array of strings, and (with `styleUrls`) the first `styles` an array |
| RewriterProperties.StylesStepAt | index.js:100-110 | After the merge, every property but `styles` is at its old place or one earlier, and only `styleUrls` changes |
| RewriterProperties.UrlStepsAt | index.js:79-98 | After the first two steps only the `templateUrl` and `styleUrls` positions differ, and they hold the rewritten properties |
| RewriterProperties.KeyIndicesDistinct | index.js:75-77 | The three looked-up positions never coincide |
| RewriterProperties.RewriteAtMerged | index.js:75-110 | `RewriteAt` in the case where `styles` is merged |
| RewriterProperties.RewriteAtUnmerged | index.js:75-98 | `RewriteAt` in the case where nothing is merged |
| RewriterProperties.RewriteAt | index.js:75-110 | Each kept input property lands at `Position(i)`. It holds the rewritten `templateUrl` or `styleUrls` property there, or is unchanged |
| RewriterProperties.PositionIsOrderedBijection | index.js:106 | Kept properties keep their relative order and map one to one onto the output positions |
| RewriterProperties.OthersUntouched | index.js:75-110 | Every property with another key is unchanged, and so is every later duplicate of `templateUrl`/`styleUrls`/`styles`; the output length is exact |
| RewriterProperties.TemplateUrlRewritten | index.js:79-87 | The first `templateUrl` now holds `require(sanitize(url))`; its key is `template` if and only if `keepUrl` is false |
| RewriterProperties.StyleUrlsRewritten | index.js:89-98 | The first `styleUrls` array keeps its entries' order, entry k becoming `require(sanitize(url_k))`; with no `styles` its length is unchanged; its key is `styles` if and only if `keepUrl` is false |
| RewriterProperties.StylesMerged | index.js:100-110 | With both present, `styles` is removed (count drops by exactly one), and its entries follow the converted ones unchanged, whatever `keepUrl` is |
| RewriterProperties.LoneStylesUntouched | index.js:89-100 | A `styles` property without a sibling `styleUrls` stays in place and unchanged |
| RewriterProperties.RewriteClearsUrlKeys | index.js:84-98 | With renaming and no duplicate URL keys, no `templateUrl` or `styleUrls` key is left |
| Locator.VisitExpr | index.js:113-123 | Strings and emitted `require` calls come back unchanged. An object literal is rewritten, and the visit succeeds exactly when its shapes are right; it stays an object literal with no more properties than before. Arrays and other expressions keep their kind and their number of children |
| Locator.VisitList | index.js:123 | The argument list is visited element by element: success exactly when every element succeeds, each result in place |
| Locator.VisitDecorator | index.js:115-124 | A visited decorator keeps whether it has arguments, and how many |
| Locator.VisitDecorators | index.js:46 | The decorators are visited one by one: success exactly when each succeeds, each result in place |
| Locator.UnexaminedDecorator | index.js:119-121 | A decorator with absent or empty arguments is returned as it is |
| Locator.VisitUntouched | index.js:71-79 | An expression in which the traversal meets no `templateUrl`/`styleUrls` key comes out unchanged |
| Locator.VisitListUntouched | index.js:123 | The same for a list of expressions |
| Locator.VisitLeavesNothing | index.js:84-98 | With renaming, a successfully visited expression leaves no URL key where the traversal looks, provided none was duplicated |
| Locator.VisitListLeavesNothing | index.js:123 | The same for a list of expressions |
| Locator.Transform | index.js:140-145 | The decorator count is kept. If any decorator throws, all are returned unchanged; otherwise each is replaced by its own rewrite |
| Locator.TransformWithoutUrlKeys | index.js:79-89 | Decorators whose reachable object literals lack both URL keys come out unchanged |
| Locator.TransformIdempotent | index.js:84-98 | With renaming and no duplicated URL keys, rewriting the output again changes nothing |
| Scenarios.RenamingExample | index.js:79-98 | `{templateUrl: h, styleUrls: [c]}` becomes `{template: require(sanitize(h)), styles: [require(sanitize(c))]}` |
| Scenarios.KeepUrlExample | index.js:84-97 | With `keepUrl` the keys stay `templateUrl` and `styleUrls` and only the values change |
| Scenarios.MergeExample | index.js:100-110 | With `styles: [s]` beside them, the single `styles` array holds `[require(sanitize(c)), s]` |
| Scenarios.TwoDecoratorsExample | index.js:115-123 | Of `@Injectable() @Component({...})`, only the second decorator changes |
| Scenarios.QuotedKeyExample | index.js:75-77 | A string-literal key `'templateUrl'` is not matched |
| Scenarios.NestedObjectExample | index.js:113 | An object literal nested in the metadata object is not rewritten |
| Scenarios.ArrayArgumentExample | index.js:123 | An object literal inside an array argument is reached and rewritten |
| Scenarios.DuplicateTemplateUrlExample | index.js:77-87 | With two `templateUrl` properties, the second rewrite of the output is not the output: only the first duplicate is found each pass, so unique keys are needed for idempotence |
| Scenarios.MalformedExample | index.js:140-145 | A non-string `templateUrl` in one decorator leaves every decorator of the class as it was |

## Left out

- Parsing and printing (index.js:25-33, 127). The tree comes from recast, babylon and its typescript plugin, which also preserve formatting; the model starts from a parsed tree and ends with one.
- Loader glue (index.js:132-156). These are option layering through `Object.assign` and `parseQuery`, the `cacheable` call, the callback or direct return, and the `console.warn` logging. `keepUrl` is a parameter.
- The class-level gate of `visitClassDeclaration` (index.js:37-47) and the file-wide `hasDecorator` flag (index.js:34, 40, 64) are not modelled. `!!decoratorsPath` tests a path object, which is always truthy, so once any class has been visited the flag stays on, and object literals visited later outside decorators could be rewritten too. That depends on ast-types traversal order, which is not part of this model. The model describes the visit of one decorated class's decorators.
- Exact decorator node shapes. `nodePath.get('callee', 'arguments')` (index.js:116) depends on the parser's node layout; decorator arguments are an optional sequence of expressions.
- Emitted text. The source builds the text `require('<path>')` (index.js:82, 94); the model uses a `Require(path)` node.
- Array holes and spread elements inside `styleUrls` are not represented; in the source they throw like any non-string entry.
- Computed keys (`[templateUrl]: ...`) are not distinguished from identifier keys, as in the source, which looks only at `key.name`.
- The literal node kinds behind `StrLit` are not told apart. A string literal, a BigInt literal and any other node with a string `value` are read the same way, as in the source.
- Strings are sequences of Unicode characters; JavaScript's UTF-16 code units are not modelled.
- Transform: the loader's fallback returns the original source of the whole file. The model states this for the decorators of one class.
- Rewriter.ObjectExpression.VisitObjectExpression: on failure, the contract does not say how far the list was rewritten. In the source the tree is partly mutated when the `TypeError` is thrown, and the `catch` then discards it.
