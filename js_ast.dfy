/**
 * The JavaScript expressions the compiler emits (the Babel node constructors it
 * calls: identifier, stringLiteral, numericLiteral, callExpression, templateLiteral,
 * binaryExpression("-"), objectExpression, arrowFunctionExpression).
 */
module JsAst {

  /** A template element: its text and whether it is the tail. */
  datatype Quasi = Quasi(text: string, tail: bool)

  /** An object property `key: value`; the key is a numeric literal or an identifier. */
  datatype Prop = Prop(key: Expr, value: Expr)

  datatype Expr =
    | Identifier(name: string)
    | StringLit(value: string)
    | NumLit(num: int)
    | Call(callee: string, args: seq<Expr>)
    | Template(quasis: seq<Quasi>, exprs: seq<Expr>)
    | Minus(left: Expr, right: Expr)
    | Object(props: seq<Prop>)
    | Arrow(params: seq<string>, body: Expr)

  /** The variables an expression reads. Callees are imported helpers and
      object keys are property names, so neither counts. */
  function Idents(e: Expr): set<string>
  {
    match e
    case Identifier(x) => {x}
    case StringLit(_) => {}
    case NumLit(_) => {}
    case Call(_, args) => IdentsOfAll(args)
    case Template(_, es) => IdentsOfAll(es)
    case Minus(l, r) => Idents(l) + Idents(r)
    case Object(props) => set p, x | p in props && x in Idents(p.value) :: x
    case Arrow(ps, body) => Idents(body) - set p | p in ps
  }

  function IdentsOfAll(es: seq<Expr>): set<string>
  {
    if es == [] then {} else Idents(es[0]) + IdentsOfAll(es[1..])
  }
}
