# svelte-compile-intl: the message compiler and its runtime, in Dafny

svelte-compile-intl translates a Svelte application at build time. A Babel plugin
finds every call `_("message id", ...)`. It looks up the translation of the id for
the build's locale and parses the translation as an ICU MessageFormat message.

- A translation that parses to plain text replaces the id as a string literal.
- Any other translation becomes an arrow function. The function takes the
  variables the compiler registers for the message, sorted by name, and its body
  calls small runtime helpers:
  `__interpolate`, `__number`, `__date`, `__time`, `__select`, `__plural` and
  `__offsetPlural`.
- The plugin records which helpers a file uses. At the end of the file it adds one
  import of those helpers from `svelte-compile-intl`.

At run time, `format` (exported as `_`) calls such a function. It passes the values
of the options object, sorted by key.

The project models:

- **The branch keys** (`keys.dfy`, module `Keys`). `PLURAL_ABBREVIATIONS`,
  `normalizePluralKey` and `normalizeKey` are pure functions.
- **The compiler, as functions** (`lowering.dfy`, module `Lowering`). The helper
  table, `buildCallExpression`, `buildTemplateLiteral` and `buildFunction` are
  pure functions. They thread an
  explicit `State`: the used helpers, the current function parameters and the
  plural stack. This makes every partial update visible, including the updates left
  behind when an error is thrown.
- **The compiler, as a class** (`plugin.dfy`, module `BabelPlugin`). `Plugin` holds
  the same three variables as fields and updates them step by step, as the code
  does. Each method is proved to return the result, and leave the state, that the
  functions describe.
  - The `Program` enter and exit steps and the `CallExpression` visitor are
    methods of `Plugin`.
  - The in-memory `get` of a locale's translation manager is the class
    `TranslationManager`.
- **What the compiler guarantees** (`lowering_props.dfy`, `message_props.dfy`):
  - exactly when compilation succeeds;
  - which helpers and parameters it records;
  - the plural stack is balanced;
  - the shape of options objects and template literals, down to each expression;
  - the code built for a message is the same whatever was compiled before it;
  - which variables the code reads;
  - the outputs for the plural and complex messages that the repository's tests
    use.
- **The runtime** (`runtime.dfy`, module `Runtime`): `__interpolate`,
  `getLocalPluralFor`, `__plural`, `__select`, `format` and `getOptions`; the current
  locale as a class; and `monadicMemoize` as a class with a cache field.
- **Four defects of the source** (`findings.dfy`), each written twice: once as the
  code behaves, and once corrected.
- **String built-ins** (`base.dfy`): `String.prototype.trim` and the default
  `sort()` order of strings.

The faithful model keeps the behaviour as written, quirks included:

- a lone argument is not registered as a parameter;
- only an argument or `#` at index 0 gets a leading empty quasi;
- a lone `#` in a plural option ignores the offset;
- `=12` normalises to 1;
- the plural-category abbreviation is looked up before the key is trimmed.

The corrected definitions stand beside the faithful model and do not replace it.

## Model

| member | source | states |
|---|---|---|
| Keys.PluralAbbreviation | src/babel-plugin.ts:55-62 | defined exactly on the six plural categories, each abbreviated to one letter |
| Keys.AbbreviationsInjective | src/babel-plugin.ts:55-62 | two keys with the same abbreviation are the same category |
| Keys.OtherIsNotOne | src/babel-plugin.ts:55-62 | `other` is `h`, distinct from the abbreviation of `one` |
| Keys.ExactDigit | src/babel-plugin.ts:196-197 | `/^=(\d)/` matches exactly when the key is `=` followed by an ASCII digit, and yields that digit |
| Keys.NormalizeKey | src/babel-plugin.ts:201-206 | an integer key exactly when the trimmed key starts `=<digit>`, that digit; otherwise the trimmed key |
| Keys.NormalizePluralKey | src/babel-plugin.ts:188-199 | a category name gives its abbreviation, whatever else holds; any other key is normalised as in select mode |
| Keys.NormalizeKeyIgnoresPadding | src/babel-plugin.ts:201-206 | normalising a trimmed key gives the same result as normalising the raw key |
| Keys.ExactKeyKeepsFirstDigit | src/babel-plugin.ts:195-197 | `=<d><rest>` gives `d` in both modes, whatever follows the digit, trailing white space included (`=12` and `=1 ` give 1) |
| Keys.SelectKeepsNames | src/babel-plugin.ts:201-206 | an unpadded key that is not `=<digit>` is kept verbatim |
| Keys.PluralModeDiffersOnlyOnCategories | src/babel-plugin.ts:188-206 | plural mode and select mode give different keys exactly on the six category names |
| JsStrings.TrimStartSpec | src/babel-plugin.ts:195 | the start of `trim` removes a white-space prefix, and the rest starts with no white space |
| JsStrings.TrimEndSpec | src/babel-plugin.ts:195 | the end of `trim` removes a white-space suffix, and the rest ends with no white space |
| JsStrings.TrimSpec | src/babel-plugin.ts:202 | `trim` yields an infix of the key with only white space around it, and the infix neither starts nor ends with white space |
| JsStrings.TrimIdempotent | src/babel-plugin.ts:202 | trimming twice is trimming once |
| JsStrings.SortSet | src/babel-plugin.ts:403-405 | `Array.from(set).sort()`: strictly sorted, exactly the set's elements, each once |
| JsStrings.SortSetUnique | src/babel-plugin.ts:403-405 | any strictly sorted listing of a set is that sort |
| JsStrings.SortedDistinct | src/babel-plugin.ts:403-405 | a strictly sorted list repeats no name |
| JsStrings.SortNames | src/babel-plugin.ts:423-425 | the loop that takes the least remaining name computes the sorted listing |
| LoweringProps.BuildCallEffect | src/babel-plugin.ts:208-308 | `buildCallExpression` succeeds exactly when the element can be built (no literal, tag or skeleton; `#` only under a plural parent), and then adds exactly the element's helpers and parameters and leaves the plural stack as it was |
| LoweringProps.SelectEffect | src/babel-plugin.ts:229-298 | a select succeeds exactly when all its options do, and records `__select`, its variable and its options' names |
| LoweringProps.PluralEffect | src/babel-plugin.ts:229-298 | a plural's options are built with one more plural on the stack; on success the push is undone and the helper, variable and options' names are recorded |
| LoweringProps.OptionsEffect | src/babel-plugin.ts:270-293 | the options map succeeds exactly when every option body does, and adds their helpers and names |
| LoweringProps.BranchEffect | src/babel-plugin.ts:272-281 | an option body succeeds exactly when it can be built as a string, a direct call with the owner as parent, or a template |
| LoweringProps.StepEffect | src/babel-plugin.ts:313-389 | one loop iteration continues exactly when its element can be built at the current plural depth, and records the element's helpers, names and own variable |
| LoweringProps.TemplateEffect | src/babel-plugin.ts:310-391 | `buildTemplateLiteral` succeeds exactly when every element can be built, and adds exactly their helpers and parameters |
| LoweringProps.OptionsShape | src/babel-plugin.ts:270-293 | the options object has one property per option, in order, keyed by the normalised key; each value is a string for a lone literal body, the `buildCallExpression` of a lone other element with the select or plural as parent, and otherwise the template `TemplateShape` gives, all under the current plural stack |
| LoweringProps.BranchShape | src/babel-plugin.ts:272-281 | the property one option builds has the normalised key and the value of its body's case, and the plural stack is unchanged |
| LoweringProps.LoneLiteralValue | src/babel-plugin.ts:274-275 | a body of one literal becomes that string and changes no state |
| LoweringProps.StepShape | src/babel-plugin.ts:313-389 | one iteration appends exactly `PieceFor` to the quasis and `SlotExpr` to the expressions: nothing for text or a tag, the top plural's variable (minus a non-zero offset) for `#`, and for any other element its `buildCallExpression` with no parent; the plural stack is unchanged |
| LoweringProps.PieceForOk | src/babel-plugin.ts:316-388 | an iteration marks a quasi as the tail only after the last element, and then its last quasi |
| LoweringProps.QuasisTailOk | src/babel-plugin.ts:316-388 | only the last quasi of a template is the tail: the final literal's text, or empty after anything else |
| LoweringProps.TemplateShape | src/babel-plugin.ts:310-391 | a successful template's quasis are `QuasisFrom` the elements and its expressions are `ExprsFrom` them: expression k is the build of slot element k, in source order, one per placeholder or `#` |
| LoweringProps.BuildCallIndependent | src/babel-plugin.ts:208-308 | two builds from states with the same plural stack give the same result and leave the same stack: helpers and parameters are written, never read |
| LoweringProps.SelectIndependent | src/babel-plugin.ts:229-298 | a select's result depends on the plural stack only |
| LoweringProps.PluralIndependent | src/babel-plugin.ts:229-298 | a plural's result depends on the plural stack only |
| LoweringProps.OptionsIndependent | src/babel-plugin.ts:270-293 | the options object depends on the plural stack only |
| LoweringProps.BranchIndependent | src/babel-plugin.ts:272-281 | an option value depends on the plural stack only |
| LoweringProps.StepIndependent | src/babel-plugin.ts:313-389 | one iteration's outcome, quasis and expressions depend on the plural stack only |
| LoweringProps.TemplateIndependent | src/babel-plugin.ts:310-391 | a template depends on the plural stack only |
| LoweringProps.BuildCallVars | src/babel-plugin.ts:208-308 | a built call reads only the element's variables, those of enclosing plurals, and a plural parent's variable |
| LoweringProps.FormatCallVars | src/babel-plugin.ts:241-256 | a number, date or time call reads exactly its variable |
| LoweringProps.SelectVars | src/babel-plugin.ts:270-307 | a select call reads only its own variables and those of enclosing plurals |
| LoweringProps.PluralVars | src/babel-plugin.ts:266-307 | a plural call reads only its own variables and those of enclosing plurals |
| LoweringProps.OptionsVars | src/babel-plugin.ts:270-293 | the options object reads only its options' variables, those of the stack, and the owner's variable |
| LoweringProps.BranchVars | src/babel-plugin.ts:272-281 | an option value reads only its body's variables, those of the stack, and the owner's variable |
| LoweringProps.StepVars | src/babel-plugin.ts:313-384 | an iteration adds expressions that read only its element's variables and those of the stack |
| LoweringProps.TemplateVars | src/babel-plugin.ts:310-391 | a template reads only its elements' variables and those of enclosing plurals |
| MessageProps.CompileMessageEffect | src/babel-plugin.ts:393-409 | `buildFunction` succeeds exactly on buildable messages; the closure's parameters are the registered names, strictly sorted and each once; the new state is the old helpers plus the message's, its parameters, and an empty stack |
| MessageProps.MessageBodyEffect | src/babel-plugin.ts:396-401 | the body is built from reset parameters and an empty stack, as a direct call for one element and a template otherwise |
| MessageProps.CompileMessageIndependent | src/babel-plugin.ts:393-409 | a message compiles to the same code whatever helpers and parameters the plugin recorded before |
| MessageProps.CompileMessageVars | src/babel-plugin.ts:393-409 | the closure body reads only placeholder variables of the message |
| MessageProps.ReplacementShape | src/babel-plugin.ts:433-450 | a message that parses to one literal is replaced by the translation text with no state change; any other by the closure |
| MessageProps.HelpersWithin | src/babel-plugin.ts:42-233 | every helper an element records is a `HELPERS_MAP` name or `__offsetPlural` |
| MessageProps.MessageHelpersWithin | src/babel-plugin.ts:42-233 | every helper a message records is one of the seven helper names |
| MessageProps.ParamsWithinVars | src/babel-plugin.ts:241-298 | every registered parameter is a placeholder variable of the element |
| MessageProps.MessageParamsWithinVars | src/babel-plugin.ts:208-356 | every parameter of a message is one of its placeholder variables |
| MessageProps.LeafCalls | src/babel-plugin.ts:229-264 | an argument becomes `__interpolate(v)` and registers nothing; a number, date or time fails exactly on a skeleton, otherwise calls its helper with the style name as a second argument |
| MessageProps.SelectCallShape | src/babel-plugin.ts:229-307 | a select becomes `__select(v, {props})`, with props matching the options (values included) under the enclosing plural stack, and records `__select` |
| MessageProps.PluralCallShape | src/babel-plugin.ts:229-307 | a plural becomes `__offsetPlural(v, offset, {props})` for a non-zero offset and `__plural(v, {props})` otherwise, with props matching the options (values included) built with the plural pushed; its helper is recorded and the stack is restored |
| MessageProps.PluralPushedForOptions | src/babel-plugin.ts:266-297 | the plural is the top of the stack while its options are built, and the stack is restored after |
| MessageProps.PoundDirect | src/babel-plugin.ts:219-227 | a direct `#` is the plural parent's variable, whatever the offset, and an error under any other parent |
| MessageProps.PoundInTemplateStep | src/babel-plugin.ts:363-380 | `#` in a template is an error with an empty stack, and otherwise the top plural's variable, minus a non-zero offset |
| MessageProps.LonePoundUnderSelect | src/babel-plugin.ts:219-380 | a lone `#` in a select option fails even inside a plural, while `#` with text after it is resolved |
| MessageProps.PluralFixtureOutput | tests/rollup-plugin.js:69-85 | the plural fixture compiles to `quantity => __plural(quantity, {0: …, 1: …, h: `${quantity} …`})` |
| MessageProps.PluralWithOptions | src/babel-plugin.ts:266-307 | a zero-offset plural whose options build to `props` without changing the state (no option registers a helper or a parameter) becomes `__plural(v, {props})` and records its helper and variable; `PluralCallShape` covers options that register names |
| MessageProps.ComplexFixtureParams | tests/rollup-plugin.js:190-210 | the complex fixture's closure takes `(order, quantity, values)` and records `__plural` and `__interpolate` |
| MessageProps.ComplexFixtureOk | tests/rollup-plugin.js:190-210 | the complex fixture is buildable |
| MessageProps.ComplexFixtureSets | tests/rollup-plugin.js:190-210 | its parameters are `order`, `quantity` and `values`, and its helpers `__plural` and `__interpolate` |
| BabelPlugin.Resolve | src/babel-plugin.ts:152-164 | a truthy stored translation is returned unchanged; otherwise the id is stored as its own translation and returned; no other entry changes |
| BabelPlugin.ResolveIdempotent | src/babel-plugin.ts:152-164 | a second lookup of the same id returns the same translation and leaves the messages as they are |
| BabelPlugin.TranslationManager.Get | src/babel-plugin.ts:152-164 | returns and stores what `Resolve` describes |
| BabelPlugin.Plugin.constructor | src/babel-plugin.ts:184-186 | a new plugin starts with no helpers, no parameters and an empty stack |
| BabelPlugin.Plugin.BuildCallExpression | src/babel-plugin.ts:208-308 | result and new state equal `BuildCall` of the old state |
| BabelPlugin.Plugin.BuildOptions | src/babel-plugin.ts:270-293 | result and new state equal `OptionsFrom` of the old state |
| BabelPlugin.Plugin.BuildBranchValue | src/babel-plugin.ts:272-281 | result and new state equal `BranchValue` of the old state |
| BabelPlugin.Plugin.BuildTemplateLiteral | src/babel-plugin.ts:310-391 | the `for` loop's result and new state equal `TemplateFrom` of the old state |
| BabelPlugin.Plugin.BuildFunction | src/babel-plugin.ts:393-409 | result and new state equal `CompileMessage` of the old state |
| BabelPlugin.Plugin.ProgramEnter | src/babel-plugin.ts:414-416 | the used helpers are reset, nothing else changes |
| BabelPlugin.Plugin.ProgramExit | src/babel-plugin.ts:417-431 | `usesIntl` holds exactly when a helper was used, and then a single import of exactly the used helpers, sorted, from `svelte-compile-intl` is produced |
| BabelPlugin.Plugin.VisitCallExpression | src/babel-plugin.ts:433-450 | a call other than `_("…")` is left alone; otherwise the translation is resolved (and the id stored); a translation the parser rejects ends the visit with `SyntaxError` and no compiler state change, and any other has its first argument replaced by `Replacement`, with that state change |
| Runtime.Interpolate | src/index.ts:99-101 | 0 prints as "0", undefined as "", a string as itself, any other number as its string form |
| Runtime.InterpolateZero | src/index.ts:99-101 | 0 never prints as the empty string |
| Runtime.LocalPluralFor | src/index.ts:106-111 | the category's key is one letter; it is `h` exactly for `other`, and otherwise the category name's initial |
| Runtime.LocalPluralForAgrees | src/index.ts:106-111 | the runtime key of every category is the compiler's abbreviation of it |
| Runtime.LocalPluralForInjective | src/index.ts:106-111 | distinct categories get distinct keys |
| Runtime.Lookup | src/index.ts:113-119 | `opts[key] \|\| fallback`: a present, non-empty entry, else the fallback |
| Runtime.Select | src/index.ts:117-119 | the option named by the value, else `other`, else "" when neither is a non-empty option; the result is always "" or an option's text |
| Runtime.SelectFallsBackToOther | src/index.ts:117-119 | with no match, a select compiled with an `other` option returns that option |
| Runtime.Plural | src/index.ts:113-115 | the option keyed by the value itself, else the value's category key, else ""; the result is always "" or an option's text |
| Runtime.PluralFindsCategoryOption | src/index.ts:106-115 | with no exact match, the option written under the value's category name is found under the key the compiler gave it |
| Runtime.ArgsFor | src/index.ts:146-149 | the arguments are the option values in sorted key order, one per key |
| Runtime.Format | src/index.ts:139-151 | a string is returned as is; a closure is called on `ArgsFor` of the options, none when they are absent |
| Runtime.FormatBindsByName | src/index.ts:139-151 | when the options' keys are exactly the closure's sorted parameter names, each parameter receives the value of its own name |
| Runtime.GetOptions | src/index.ts:41-50 | the format defaults to "default"; a name is looked up and a missing one is the `Invalid format` error; an inline object is used as is |
| Runtime.GetOptionsDefault | src/index.ts:41-50 | omitting the format is asking for "default" |
| Runtime.LocaleState.constructor | src/index.ts:18-27 | no locale and empty format tables at start |
| Runtime.LocaleState.CurrentLocale | src/index.ts:28 | the stored locale when set and non-empty, else "en-GB"; never empty |
| Runtime.LocaleState.SetCurrentLocale | src/index.ts:29-39 | replaces the locale and the formats; the current locale becomes the new one, or "en-GB" if it is empty |
| Runtime.Memo.constructor | src/index.ts:2-5 | an empty cache over `fn` |
| Runtime.Memo.Call | src/index.ts:6-12 | always returns `fn(key)`; a hit changes nothing; a miss calls `fn` once and caches the result; the cache never holds a wrong value and `fn` is never called twice on one key |
| Findings.LoneArgumentIsFree | src/babel-plugin.ts:258-262 | `{name}` alone compiles to `() => __interpolate(name)`, which reads the free variable `name` |
| Findings.CompileMessageClosedIsClosed | src/babel-plugin.ts:393-409 | the corrected closure succeeds exactly when the original does, keeps its body, reads no free variable, and takes a sorted superset of the original parameters |
| Findings.LeadingNumberLosesItsQuasi | src/babel-plugin.ts:336-390 | `{n, number} left` yields one quasi for one expression |
| Findings.FixedQuasisLayout | src/babel-plugin.ts:310-391 | the corrected quasis number one more than the expressions, only the last is the tail, and together they hold all the literal text in order |
| Findings.FixedTemplateLayout | src/babel-plugin.ts:310-391 | the corrected template succeeds and changes state exactly as the original, keeps its expressions, and has that layout |
| Findings.FixedAgreesOnAlternation | src/babel-plugin.ts:310-391 | on text, a placeholder, text and a final argument, the original and corrected quasis coincide |
| Findings.OffsetPluralNotExported | src/babel-plugin.ts:229-304 | a plural with an offset records `__offsetPlural`, which is the one helper the runtime does not export |
| Findings.OffsetPlural | src/babel-plugin.ts:302-305 | the corrected runtime helper: the exact key matches the value, and the category is chosen on the value minus the offset |
| Findings.OffsetPluralZero | src/index.ts:113-115 | with offset 0 the corrected helper is `__plural` |
| Findings.AllHelpersExported | src/babel-plugin.ts:42-233 | with it, the runtime exports every helper the compiler can import |
| Findings.DirectPoundIgnoresOffset | src/babel-plugin.ts:219-377 | a lone `#` with `offset:1` gives `n` while the template `#` gives `n - 1` |
| Findings.PoundDirectFixed | src/babel-plugin.ts:219-222 | the corrected direct `#`: the variable minus a non-zero offset |
| Findings.PoundDirectFixedAgrees | src/babel-plugin.ts:219-377 | the original agrees with the correction exactly when the offset is 0; the correction always agrees with `#` in a template of the same plural |

## Left out

- **File and translation-manager machinery.**
  - Reading, writing and debouncing the translation files and the `chokidar`
    watcher are I/O and are not modelled.
  - The registry of translation managers per locale, `resetTranslationManagers`
    and the plugin's `post` hook are not modelled either. `TranslationManager`
    models only the in-memory `messages` of one locale and its `get`.
- **The ICU parser.** `intl-messageformat-parser` is foreign code. Its
  output is the datatype `IcuAst.Node`, and the visitor receives it as the
  parameter `parse`, with `None` for a translation it rejects. Which strings the
  parser rejects, and the message of its `SyntaxError`, are not modelled.
- **Babel.**
  - Babel's node builders are modelled by the datatype `JsAst.Expr`.
  - `unshiftContainer`, the file metadata object and the visitor plumbing are
    modelled as the values `ProgramExit` returns.
  - Babel's own validation of a template literal's quasi count is not modelled.
    Finding 2 gives the layout a valid template needs.
- **Options order.** Options are taken in the order the parser lists them. The
  order `Object.keys` gives for integer-like keys is not modelled.
- **Inherited object keys.** Every object lookup of the source is modelled as a
  lookup among own keys, so keys inherited from `Object.prototype`, such as
  `constructor` or `toString`, find nothing in the model where the engine finds a
  (truthy) function:
  - Keys.PluralAbbreviation: `PLURAL_ABBREVIATIONS[key]` (src/babel-plugin.ts:191).
  - BabelPlugin.Resolve and BabelPlugin.TranslationManager.Get: `messages[messageId]`
    (src/babel-plugin.ts:153,163). `_("constructor")` stores nothing and returns
    a function in the source; the model stores and returns `"constructor"`.
  - Runtime.Lookup, Runtime.Select and Runtime.Plural: `opts[value]` and
    `opts["other"]` (src/index.ts:114,118). `__select("toString", {other: "x"})`
    returns a function in the source and `"x"` in the model.
  - Runtime.GetOptions: `options[format]` (src/index.ts:45). The format
    `"toString"` yields a function in the source and `Invalid format` in the model.
- **Sort order.**
  - `Below` compares strings character by character, as `sort()` compares UTF-16
    code units. Characters outside the Basic Multilingual Plane are not split into
    surrogate pairs.
  - `SortNames` computes the same listing as the engine's sort, but not by the same
    algorithm.
- **Intl.** `formatNumber`, `formatDate`, `formatTime`, `__number`, `__date` and
  `__time` wrap `Intl` formatters and are not modelled. The format lookup they
  rely on is modelled by `GetOptions`.
- **Runtime inputs that are parameters.** Plural categories come from
  `Intl.PluralRules`, and numbers are converted to strings by the engine. They
  enter `Plural`, `Interpolate` and `OffsetPlural` as the function parameters
  `category` and `numberToString`.
- **Value domains.**
  - Runtime values are modelled as integers, strings or undefined, so fractional
    numbers and `Date` objects are left out.
  - Option texts are strings.
  - A plural's `offset` is an integer; the parser's `null` offset is treated as 0.
- **Memo.Call.**
  - The cache key is the argument value itself. `JSON.stringify` of the argument
    list is assumed injective on the arguments used.
  - Object identity of the cached `Intl` formatter is not modelled. `fn` is a pure
    function, so a hit and a fresh call give equal values.
- **Console output.** The `console.error` for an unsupported element in a template
  and the `debug` logging are left out.
- **Rollup and build outputs.** The rollup plugin, the build configuration and the
  compiled `lib`/`dist` files are not part of this model.

## Findings

| source | as written | input that shows it | evidently intended | confidence | as-written member | corrected member |
|---|---|---|---|---|---|---|
| src/babel-plugin.ts:258-262 | `buildCallExpression` does not add an argument's name to the parameters, so a message that is a single argument, or a lone argument in an option, compiles to a closure that does not bind the variable | the translation `{name}` gives `() => __interpolate(name)` | every variable the closure reads is one of its parameters | high (not executed) | Findings.LoneArgumentIsFree | Findings.CompileMessageClosed / Findings.CompileMessageClosedIsClosed |
| src/babel-plugin.ts:336-390 | only an argument or `#` at index 0 opens the template with an empty quasi, and no quasi is added between two adjacent placeholders | `{n, number} left` gives quasis `[" left"]` with one expression | a template literal has one quasi more than expressions | high (not executed) | Findings.LeadingNumberLosesItsQuasi | Findings.FixedTemplate / Findings.FixedTemplateLayout |
| src/babel-plugin.ts:229-305 | a plural with a non-zero offset compiles to a call of `__offsetPlural`, imported from the runtime, which has no such export | `{n, plural, offset:1 other {x}}` | the runtime exports every helper the compiler emits | high (not executed) | Findings.OffsetPluralNotExported | Findings.OffsetPlural / Findings.AllHelpersExported |
| src/babel-plugin.ts:219-222 | a lone `#` in a plural option returns the plural's variable, ignoring the offset that `#` in a template subtracts | `{n, plural, offset:1 other {#}}` gives `n`, while `other {# left}` gives `n - 1` | `#` is the value minus the offset wherever it appears | medium (not executed) | Findings.DirectPoundIgnoresOffset | Findings.PoundDirectFixed / Findings.PoundDirectFixedAgrees |
