/**
 * The message compiler of src/babel-plugin.ts as functions over an explicit state.
 *
 * The plugin keeps three variables across calls: `usedHelpers` (reset per file),
 * `currentFunctionParams` and `pluralsStack` (reset per message). Here they form a
 * `State` that each function takes and returns, so that every addition, push and
 * pop of the code is visible, including the partial updates left behind when an
 * error is thrown. `Plugin` in plugin.dfy runs the same steps imperatively and is
 * proved equal to these functions.
 */
module Lowering {
  import opened Opt
  import opened JsStrings
  import opened IcuAst
  import opened JsAst
  import opened Keys

  /** What the compiler reads from a plural on `pluralsStack`. */
  datatype PluralFrame = PluralFrame(value: string, offset: int)

  datatype State = State(usedHelpers: set<string>, params: set<string>, plurals: seq<PluralFrame>)

  /** `NotImplemented` is the "Not implemented yet" error the builder throws;
      `NoEnclosingPlural` is the TypeError of reading `.offset` of the top of an
      empty `pluralsStack`; `SyntaxError` is what the ICU parser throws on a
      malformed translation. */
  datatype Error = NotImplemented | NoEnclosingPlural | SyntaxError

  datatype Result<T> = Ok(value: T) | Err(error: Error)

  /** The result of a step together with the state it leaves. */
  datatype Out<T> = Out(result: Result<T>, st: State)

  /** `HELPERS_MAP`. */
  function HelperName(n: Node): string {
    match n
    case Argument(_) => "__interpolate"
    case Number(_, _) => "__number"
    case Date(_, _) => "__date"
    case Time(_, _) => "__time"
    case Select(_, _) => "__select"
    case Plural(_, _, _) => "__plural"
    case _ => "none"
  }

  const OffsetPluralHelper := "__offsetPlural"

  /** Every helper name the compiler can emit. */
  const AllHelpers: set<string> :=
    {"__interpolate", "__number", "__date", "__time", "__select", "__plural", "__offsetPlural"}

  /** A normalised key as an object-property key. */
  function KeyExpr(k: Key): Expr {
    match k
    case IntKey(n) => NumLit(n)
    case NameKey(s) => Identifier(s)
  }

  /** The key normaliser of an option: plural mode under a plural, select mode otherwise. */
  function OptionKey(owner: Node, raw: string): Key {
    if owner.Plural? then NormalizePluralKey(raw) else NormalizeKey(raw)
  }

  /** `Array.prototype.pop`: drops the last element, if any. */
  function Pop<T>(s: seq<T>): seq<T> {
    if |s| == 0 then s else s[..|s| - 1]
  }

  function AddHelper(st: State, h: string): State {
    st.(usedHelpers := st.usedHelpers + {h})
  }

  function AddParam(st: State, x: string): State {
    st.(params := st.params + {x})
  }

  function Fail<T, U>(o: Out<T>): Out<U>
    requires o.result.Err?
  {
    Out(Err(o.result.error), o.st)
  }

  /** `buildCallExpression(entry, parent)`. */
  function BuildCall(st: State, entry: Node, parent: Option<Node>): Out<Expr>
    decreases NodeSize(entry), 0, 1
  {
    match entry
    case Literal(_) => Out(Err(NotImplemented), st)
    case Tag(_, _) => Out(Err(NotImplemented), st)
    case Pound =>
      if parent.Some? && parent.value.Plural? then Out(Ok(Identifier(parent.value.value)), st)
      else Out(Err(NotImplemented), st)
    case Argument(v) =>
      Out(Ok(Call(HelperName(entry), [Identifier(v)])), AddHelper(st, HelperName(entry)))
    case Number(v, style) => BuildFormatCall(st, HelperName(entry), v, style)
    case Date(v, style) => BuildFormatCall(st, HelperName(entry), v, style)
    case Time(v, style) => BuildFormatCall(st, HelperName(entry), v, style)
    case Select(_, _) => BuildSelect(st, entry)
    case Plural(_, _, _) => BuildPlural(st, entry)
  }

  /** The select branch: record `__select`, build the options object, then record
      the variable. */
  function BuildSelect(st: State, entry: Node): Out<Expr>
    requires entry.Select?
    decreases NodeSize(entry), 0, 0
  {
    var o := OptionsFrom(AddHelper(st, HelperName(entry)), entry, entry.options, 0, []);
    if o.result.Err? then Fail(o)
    else Out(Ok(Call(HelperName(entry), [Identifier(entry.value), Object(o.result.value)])), AddParam(o.st, entry.value))
  }

  /** The plural branch: record the helper (`__offsetPlural` for a non-zero offset),
      push the plural while its options are built, pop it, then record the variable. */
  function BuildPlural(st: State, entry: Node): Out<Expr>
    requires entry.Plural?
    decreases NodeSize(entry), 0, 0
  {
    var v, offset := entry.value, entry.offset;
    var helper := if offset != 0 then OffsetPluralHelper else HelperName(entry);
    var st1 := AddHelper(st, helper).(plurals := st.plurals + [PluralFrame(v, offset)]);
    var o := OptionsFrom(st1, entry, entry.options, 0, []);
    if o.result.Err? then Fail(o)
    else
      var st2 := AddParam(o.st.(plurals := Pop(o.st.plurals)), v);
      var args := if offset != 0 then [Identifier(v), NumLit(offset), Object(o.result.value)]
                  else [Identifier(v), Object(o.result.value)];
      Out(Ok(Call(helper, args)), st2)
  }

  /** The number/date/time branch: the style, when a string, becomes a second
      argument; a skeleton is rejected (after the helper and the name were recorded). */
  function BuildFormatCall(st: State, fn: string, v: string, style: Style): Out<Expr>
  {
    var st1 := AddParam(AddHelper(st, fn), v);
    match style
    case NoStyle => Out(Ok(Call(fn, [Identifier(v)])), st1)
    case Named(s) => Out(Ok(Call(fn, [Identifier(v), StringLit(s)])), st1)
    case Skeleton => Out(Err(NotImplemented), st1)
  }

  /** The callback of `Object.keys(entry.options).map(...)`, applied to the options
      from index `j` on, with `acc` the properties built so far. */
  function OptionsFrom(st: State, owner: Node, opts: seq<Branch>, j: nat, acc: seq<Prop>): Out<seq<Prop>>
    requires j <= |opts|
    decreases BranchesSize(opts), 3, |opts| - j
  {
    if j == |opts| then Out(Ok(acc), st)
    else
      BodySizeAt(opts, j);
      var v := BranchValue(st, owner, opts[j].body);
      if v.result.Err? then Fail(v)
      else
        OptionsFrom(v.st, owner, opts, j + 1, acc + [Prop(KeyExpr(OptionKey(owner, opts[j].key)), v.result.value)])
  }

  /** The value of one option: a lone literal is a string, any other lone element
      is built with the select/plural as parent, longer bodies become templates. */
  function BranchValue(st: State, owner: Node, body: seq<Node>): Out<Expr>
    decreases NodesSize(body), 2, 0
  {
    if |body| == 1 && body[0].Literal? then Out(Ok(StringLit(body[0].value)), st)
    else if |body| == 1 then BuildCall(st, body[0], Some(owner))
    else TemplateFrom(st, body, 0, [], [])
  }

  /** `#` inside a template: the innermost plural's variable, minus its offset when
      that is non-zero. */
  function PoundInTemplate(top: PluralFrame): Expr {
    if top.offset != 0 then Minus(Identifier(top.value), NumLit(top.offset)) else Identifier(top.value)
  }

  /** The empty tail quasi pushed after a last element that is not a literal. */
  function TailFor(ast: seq<Node>, i: nat): seq<Quasi>
    requires i < |ast|
  {
    if i == |ast| - 1 && !ast[i].Literal? then [Quasi("", true)] else []
  }

  /** The outcome of one iteration of the `for` loop of `buildTemplateLiteral`: the
      error that ends the loop, or the state and arrays the next iteration starts from. */
  datatype Step = Stop(out: Out<Expr>) | Next(st: State, quasis: seq<Quasi>, exprs: seq<Expr>)

  /** The body of that loop for element `i`. */
  function TemplateStep(st: State, ast: seq<Node>, i: nat, quasis: seq<Quasi>, exprs: seq<Expr>): Step
    requires i < |ast|
    decreases NodesSize(ast), 1, |ast| - i
  {
    var entry := ast[i];
    if entry.Literal? then
      Next(st, quasis + [Quasi(entry.value, i == |ast| - 1)], exprs)
    else if entry.Pound? then
      if |st.plurals| == 0 then Stop(Out(Err(NoEnclosingPlural), st))
      else
        var lead := if i == 0 then [Quasi("", false)] else [];
        var e := PoundInTemplate(st.plurals[|st.plurals| - 1]);
        Next(st, quasis + lead + TailFor(ast, i), exprs + [e])
    else if entry.Tag? then
      // unsupported entry type: reported on the console and skipped
      Next(st, quasis + TailFor(ast, i), exprs)
    else
      NodeSizeAt(ast, i);
      var o := BuildCall(st, entry, None);
      if o.result.Err? then Stop(o)
      else
        var st1 := if entry.Select? || entry.Plural? then o.st else AddParam(o.st, entry.value);
        var lead := if entry.Argument? && i == 0 then [Quasi("", false)] else [];
        Next(st1, quasis + lead + TailFor(ast, i), exprs + [o.result.value])
  }

  /** The loop from index `i` on, with the `quasis` and `expressions` arrays built so
      far; the template is built once every element has been handled. */
  function TemplateFrom(st: State, ast: seq<Node>, i: nat, quasis: seq<Quasi>, exprs: seq<Expr>): Out<Expr>
    requires i <= |ast|
    decreases NodesSize(ast), 1, |ast| - i + 1
  {
    if i == |ast| then Out(Ok(Template(quasis, exprs)), st)
    else
      match TemplateStep(st, ast, i, quasis, exprs)
      case Stop(o) => o
      case Next(st', quasis', exprs') => TemplateFrom(st', ast, i + 1, quasis', exprs')
  }

  /** `buildFunction`: reset the parameters and the plural stack, build the body,
      and close over the sorted parameter names. `usedHelpers` is kept. */
  ghost function CompileMessage(st: State, ast: seq<Node>): Out<Expr>
  {
    var st0 := st.(params := {}, plurals := []);
    var body := if |ast| == 1 then BuildCall(st0, ast[0], None) else TemplateFrom(st0, ast, 0, [], []);
    if body.result.Err? then body
    else Out(Ok(Arrow(SortSet(body.st.params), body.result.value)), body.st)
  }

  /** The `CallExpression` visitor's choice for a translation and its parse: a lone
      literal is replaced by the translation text itself, anything else by a closure. */
  ghost function Replacement(st: State, translated: string, ast: seq<Node>): Out<Expr>
  {
    if |ast| == 1 && ast[0].Literal? then Out(Ok(StringLit(translated)), st)
    else CompileMessage(st, ast)
  }

  /** The import the `Program` exit step adds: the used helpers, sorted, from the
      runtime package. */
  datatype ImportDecl = ImportDecl(names: seq<string>, source: string)

  const RuntimePackage := "svelte-compile-intl"
}
