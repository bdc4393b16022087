/**
 * The message AST produced by the ICU MessageFormat parser, the compiler's input.
 * The parser itself is foreign code; its output is taken as given.
 */
module IcuAst {

  /** The `style` of a number, date or time element: absent, a named format,
      or a structured skeleton. */
  datatype Style = NoStyle | Named(name: string) | Skeleton

  /** One element of a parsed message. `value` is the literal text of a
      `Literal`, the tag name of a `Tag`, and the variable name otherwise. */
  datatype Node =
    | Literal(value: string)
    | Argument(value: string)
    | Number(value: string, style: Style)
    | Date(value: string, style: Style)
    | Time(value: string, style: Style)
    | Select(value: string, options: seq<Branch>)
    | Plural(value: string, options: seq<Branch>, offset: int)
    | Pound
    | Tag(value: string, children: seq<Node>)

  /** One option of a select or plural: its raw key and its body. The options of
      a node are listed in the order `Object.keys` enumerates them. */
  datatype Branch = Branch(key: string, body: seq<Node>)

  /** The elements that expand to a runtime value (everything but literal text,
      `#` and tags). */
  predicate IsPlaceholder(n: Node) {
    n.Argument? || n.Number? || n.Date? || n.Time? || n.Select? || n.Plural?
  }

  // Sizes used as termination measures for the mutually recursive lowering.

  function NodeSize(n: Node): nat
    decreases n, 1
  {
    match n
    case Select(_, opts) => 1 + BranchesSize(opts)
    case Plural(_, opts, _) => 1 + BranchesSize(opts)
    case _ => 1
  }

  function NodesSize(ns: seq<Node>): nat
    decreases ns, 0
  {
    if ns == [] then 0 else NodeSize(ns[0]) + NodesSize(ns[1..])
  }

  function BranchesSize(bs: seq<Branch>): nat
    decreases bs, 0
  {
    if bs == [] then 0 else 1 + NodesSize(bs[0].body) + BranchesSize(bs[1..])
  }

  lemma {:induction false} NodeSizeAt(ns: seq<Node>, i: nat)
    requires i < |ns|
    ensures NodeSize(ns[i]) <= NodesSize(ns)
    decreases i
  {
    if i > 0 { NodeSizeAt(ns[1..], i - 1); }
  }

  lemma {:induction false} BodySizeAt(bs: seq<Branch>, j: nat)
    requires j < |bs|
    ensures NodesSize(bs[j].body) < BranchesSize(bs)
    decreases j
  {
    if j > 0 { BodySizeAt(bs[1..], j - 1); }
  }
}
