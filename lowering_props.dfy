/**
 * What the message compiler of `Lowering` guarantees, stated against independent
 * descriptions of a message: when building succeeds, what it records in the state,
 * which variables the result reads, and the layout of template literals.
 */
module LoweringProps {
  import opened Opt
  import opened JsStrings
  import opened IcuAst
  import opened JsAst
  import opened Keys
  import opened Lowering

  // ---------------------------------------------------------------------------
  // When building succeeds
  // ---------------------------------------------------------------------------

  /** An element can be built by `buildCallExpression`, given whether its parent
      is a plural and how many plurals enclose it: no literal or tag, a `#` only
      directly under a plural, no skeleton style, and every option body buildable. */
  predicate CallOk(n: Node, underPlural: bool, depth: nat)
    decreases NodeSize(n), 0, 1
  {
    match n
    case Literal(_) => false
    case Tag(_, _) => false
    case Pound => underPlural
    case Argument(_) => true
    case Number(_, style) => !style.Skeleton?
    case Date(_, style) => !style.Skeleton?
    case Time(_, style) => !style.Skeleton?
    case Select(_, opts) => OptionsOk(opts, false, depth, 0)
    case Plural(_, opts, _) => OptionsOk(opts, true, depth + 1, 0)
  }

  predicate OptionsOk(opts: seq<Branch>, underPlural: bool, depth: nat, j: nat)
    requires j <= |opts|
    decreases BranchesSize(opts), 3, |opts| - j
  {
    if j == |opts| then true
    else
      BodySizeAt(opts, j);
      BodyOk(opts[j].body, underPlural, depth) && OptionsOk(opts, underPlural, depth, j + 1)
  }

  predicate BodyOk(body: seq<Node>, underPlural: bool, depth: nat)
    decreases NodesSize(body), 2, 0
  {
    if |body| == 1 && body[0].Literal? then true
    else if |body| == 1 then CallOk(body[0], underPlural, depth)
    else ElemsOk(body, depth, 0)
  }

  /** A template element can be handled: literals and tags always, `#` inside some
      plural, any other element as a builder call with no parent. */
  predicate ElemOk(e: Node, depth: nat)
    decreases NodeSize(e), 0, 2
  {
    if e.Literal? || e.Tag? then true else if e.Pound? then depth > 0 else CallOk(e, false, depth)
  }

  /** Every element of a template from `i` on can be handled. */
  predicate ElemsOk(ast: seq<Node>, depth: nat, i: nat)
    requires i <= |ast|
    decreases NodesSize(ast), 1, |ast| - i
  {
    if i == |ast| then true
    else
      NodeSizeAt(ast, i);
      ElemOk(ast[i], depth) && ElemsOk(ast, depth, i + 1)
  }

  // ---------------------------------------------------------------------------
  // Which helpers and which parameters a message registers
  // ---------------------------------------------------------------------------

  /** The runtime helpers an element needs: its own and those of its option bodies. */
  function HelpersOf(n: Node): set<string>
    decreases NodeSize(n), 0, 0
  {
    match n
    case Argument(_) => {"__interpolate"}
    case Number(_, _) => {"__number"}
    case Date(_, _) => {"__date"}
    case Time(_, _) => {"__time"}
    case Select(_, opts) => {"__select"} + HelpersOfOptions(opts, 0)
    case Plural(_, opts, offset) =>
      (if offset != 0 then {"__offsetPlural"} else {"__plural"}) + HelpersOfOptions(opts, 0)
    case Literal(_) => {}
    case Pound => {}
    case Tag(_, _) => {}
  }

  function HelpersOfOptions(opts: seq<Branch>, j: nat): set<string>
    requires j <= |opts|
    decreases BranchesSize(opts), 3, |opts| - j
  {
    if j == |opts| then {}
    else
      BodySizeAt(opts, j);
      HelpersOfBody(opts[j].body) + HelpersOfOptions(opts, j + 1)
  }

  function HelpersOfBody(body: seq<Node>): set<string>
    decreases NodesSize(body), 2, 0
  {
    if |body| == 1 then HelpersOf(body[0]) else HelpersOfElems(body, 0)
  }

  function HelpersOfElems(ast: seq<Node>, i: nat): set<string>
    requires i <= |ast|
    decreases NodesSize(ast), 1, |ast| - i
  {
    if i == |ast| then {}
    else
      NodeSizeAt(ast, i);
      HelpersOf(ast[i]) + HelpersOfElems(ast, i + 1)
  }

  /** The names an element adds to the closure's parameters: number, date and time
      variables, select and plural variables, and (through `ParamsOfElems`) every
      placeholder variable of a template -- but not the variable of an argument
      built outside a template. */
  function ParamsOf(n: Node): set<string>
    decreases NodeSize(n), 0, 0
  {
    match n
    case Number(v, _) => {v}
    case Date(v, _) => {v}
    case Time(v, _) => {v}
    case Select(v, opts) => {v} + ParamsOfOptions(opts, 0)
    case Plural(v, opts, _) => {v} + ParamsOfOptions(opts, 0)
    case Argument(_) => {}
    case Literal(_) => {}
    case Pound => {}
    case Tag(_, _) => {}
  }

  function ParamsOfOptions(opts: seq<Branch>, j: nat): set<string>
    requires j <= |opts|
    decreases BranchesSize(opts), 3, |opts| - j
  {
    if j == |opts| then {}
    else
      BodySizeAt(opts, j);
      ParamsOfBody(opts[j].body) + ParamsOfOptions(opts, j + 1)
  }

  function ParamsOfBody(body: seq<Node>): set<string>
    decreases NodesSize(body), 2, 0
  {
    if |body| == 1 then ParamsOf(body[0]) else ParamsOfElems(body, 0)
  }

  function ParamsOfElems(ast: seq<Node>, i: nat): set<string>
    requires i <= |ast|
    decreases NodesSize(ast), 1, |ast| - i
  {
    if i == |ast| then {}
    else
      NodeSizeAt(ast, i);
      ParamsOf(ast[i]) + SlotParam(ast[i]) + ParamsOfElems(ast, i + 1)
  }

  /** A placeholder of a template also records its own variable. */
  function SlotParam(e: Node): set<string> {
    if IsPlaceholder(e) then {e.value} else {}
  }

  /** The state a successful build leaves: the helpers and parameters of the input
      added, and the plural stack as it was. */
  function After(st: State, helpers: set<string>, params: set<string>): State {
    State(st.usedHelpers + helpers, st.params + params, st.plurals)
  }

  lemma AfterAfter(st: State, h1: set<string>, p1: set<string>, h2: set<string>, p2: set<string>)
    ensures After(After(st, h1, p1), h2, p2) == After(st, h1 + h2, p1 + p2)
  {
  }

  // ---------------------------------------------------------------------------
  // Success and effect of every builder
  // ---------------------------------------------------------------------------

  /** `buildCallExpression` succeeds exactly on `CallOk` inputs and then adds
      `HelpersOf` and `ParamsOf`; the push and pop of `pluralsStack` balance. */
  lemma {:induction false} BuildCallEffect(st: State, entry: Node, parent: Option<Node>)
    ensures BuildCall(st, entry, parent).result.Ok?
            <==> CallOk(entry, parent.Some? && parent.value.Plural?, |st.plurals|)
    ensures BuildCall(st, entry, parent).result.Ok?
            ==> BuildCall(st, entry, parent).st == After(st, HelpersOf(entry), ParamsOf(entry))
    decreases NodeSize(entry), 0, 1
  {
    match entry
    case Select(_, _) => SelectEffect(st, entry);
    case Plural(_, _, _) => PluralEffect(st, entry);
    case _ =>
  }

  lemma {:induction false} SelectEffect(st: State, entry: Node)
    requires entry.Select?
    ensures BuildSelect(st, entry).result.Ok? <==> OptionsOk(entry.options, false, |st.plurals|, 0)
    ensures BuildSelect(st, entry).result.Ok?
            ==> BuildSelect(st, entry).st == After(st, HelpersOf(entry), ParamsOf(entry))
    decreases NodeSize(entry), 0, 0
  {
    OptionsEffect(AddHelper(st, "__select"), entry, entry.options, 0, []);
  }

  lemma {:induction false} PluralEffect(st: State, entry: Node)
    requires entry.Plural?
    ensures BuildPlural(st, entry).result.Ok? <==> OptionsOk(entry.options, true, |st.plurals| + 1, 0)
    ensures BuildPlural(st, entry).result.Ok?
            ==> BuildPlural(st, entry).st == After(st, HelpersOf(entry), ParamsOf(entry))
    decreases NodeSize(entry), 0, 0
  {
    var helper := if entry.offset != 0 then OffsetPluralHelper else HelperName(entry);
    var st1 := AddHelper(st, helper).(plurals := st.plurals + [PluralFrame(entry.value, entry.offset)]);
    OptionsEffect(st1, entry, entry.options, 0, []);
    assert Pop(st1.plurals) == st.plurals;
  }

  lemma {:induction false} OptionsEffect(st: State, owner: Node, opts: seq<Branch>, j: nat, acc: seq<Prop>)
    requires j <= |opts|
    ensures OptionsFrom(st, owner, opts, j, acc).result.Ok?
            <==> OptionsOk(opts, owner.Plural?, |st.plurals|, j)
    ensures OptionsFrom(st, owner, opts, j, acc).result.Ok?
            ==> OptionsFrom(st, owner, opts, j, acc).st
                == After(st, HelpersOfOptions(opts, j), ParamsOfOptions(opts, j))
    decreases BranchesSize(opts), 3, |opts| - j
  {
    if j < |opts| {
      BodySizeAt(opts, j);
      BranchEffect(st, owner, opts[j].body);
      var v := BranchValue(st, owner, opts[j].body);
      if v.result.Ok? {
        var acc' := acc + [Prop(KeyExpr(OptionKey(owner, opts[j].key)), v.result.value)];
        OptionsEffect(v.st, owner, opts, j + 1, acc');
        assert OptionsFrom(st, owner, opts, j, acc) == OptionsFrom(v.st, owner, opts, j + 1, acc');
        AfterAfter(st, HelpersOfBody(opts[j].body), ParamsOfBody(opts[j].body),
                   HelpersOfOptions(opts, j + 1), ParamsOfOptions(opts, j + 1));
      }
    }
  }

  lemma {:induction false} BranchEffect(st: State, owner: Node, body: seq<Node>)
    ensures BranchValue(st, owner, body).result.Ok? <==> BodyOk(body, owner.Plural?, |st.plurals|)
    ensures BranchValue(st, owner, body).result.Ok?
            ==> BranchValue(st, owner, body).st == After(st, HelpersOfBody(body), ParamsOfBody(body))
    decreases NodesSize(body), 2, 0
  {
    if |body| == 1 && body[0].Literal? {
    } else if |body| == 1 {
      BuildCallEffect(st, body[0], Some(owner));
    } else {
      TemplateEffect(st, body, 0, [], []);
    }
  }

  /** One loop iteration goes on exactly when its element can be handled, and then
      records the element's helpers and parameters; otherwise it ends with an error. */
  lemma {:induction false} StepEffect(st: State, ast: seq<Node>, i: nat, quasis: seq<Quasi>, exprs: seq<Expr>)
    requires i < |ast|
    ensures var s := TemplateStep(st, ast, i, quasis, exprs);
            && (s.Next? <==> ElemOk(ast[i], |st.plurals|))
            && (s.Stop? ==> s.out.result.Err?)
            && (s.Next? ==> s.st == After(st, HelpersOf(ast[i]), ParamsOf(ast[i]) + SlotParam(ast[i])))
    decreases NodesSize(ast), 1, |ast| - i
  {
    var entry := ast[i];
    if !(entry.Literal? || entry.Pound? || entry.Tag?) {
      NodeSizeAt(ast, i);
      BuildCallEffect(st, entry, None);
    }
  }

  lemma {:induction false} TemplateEffect(st: State, ast: seq<Node>, i: nat, quasis: seq<Quasi>, exprs: seq<Expr>)
    requires i <= |ast|
    ensures TemplateFrom(st, ast, i, quasis, exprs).result.Ok? <==> ElemsOk(ast, |st.plurals|, i)
    ensures TemplateFrom(st, ast, i, quasis, exprs).result.Ok?
            ==> TemplateFrom(st, ast, i, quasis, exprs).st == After(st, HelpersOfElems(ast, i), ParamsOfElems(ast, i))
    decreases NodesSize(ast), 1, |ast| - i + 1
  {
    if i < |ast| {
      StepEffect(st, ast, i, quasis, exprs);
      var s := TemplateStep(st, ast, i, quasis, exprs);
      if s.Next? {
        TemplateEffect(s.st, ast, i + 1, s.quasis, s.exprs);
        AfterAfter(st, HelpersOf(ast[i]), ParamsOf(ast[i]) + SlotParam(ast[i]),
                   HelpersOfElems(ast, i + 1), ParamsOfElems(ast, i + 1));
      }
    }
  }

  // ---------------------------------------------------------------------------
  // The code built depends only on the plural stack
  // ---------------------------------------------------------------------------

  /** Two builds from states with the same plural stack return the same result and
      leave the same plural stack: the used helpers and the registered parameters
      are only written, never read. */
  lemma {:induction false} BuildCallIndependent(st1: State, st2: State, entry: Node, parent: Option<Node>)
    requires st1.plurals == st2.plurals
    ensures BuildCall(st1, entry, parent).result == BuildCall(st2, entry, parent).result
    ensures BuildCall(st1, entry, parent).st.plurals == BuildCall(st2, entry, parent).st.plurals
    decreases NodeSize(entry), 0, 1
  {
    match entry
    case Select(_, _) => SelectIndependent(st1, st2, entry);
    case Plural(_, _, _) => PluralIndependent(st1, st2, entry);
    case _ =>
  }

  lemma {:induction false} SelectIndependent(st1: State, st2: State, entry: Node)
    requires entry.Select? && st1.plurals == st2.plurals
    ensures BuildSelect(st1, entry).result == BuildSelect(st2, entry).result
    ensures BuildSelect(st1, entry).st.plurals == BuildSelect(st2, entry).st.plurals
    decreases NodeSize(entry), 0, 0
  {
    OptionsIndependent(AddHelper(st1, "__select"), AddHelper(st2, "__select"), entry, entry.options, 0, []);
  }

  lemma {:induction false} PluralIndependent(st1: State, st2: State, entry: Node)
    requires entry.Plural? && st1.plurals == st2.plurals
    ensures BuildPlural(st1, entry).result == BuildPlural(st2, entry).result
    ensures BuildPlural(st1, entry).st.plurals == BuildPlural(st2, entry).st.plurals
    decreases NodeSize(entry), 0, 0
  {
    var helper := if entry.offset != 0 then OffsetPluralHelper else HelperName(entry);
    var frame := PluralFrame(entry.value, entry.offset);
    OptionsIndependent(AddHelper(st1, helper).(plurals := st1.plurals + [frame]),
                       AddHelper(st2, helper).(plurals := st2.plurals + [frame]),
                       entry, entry.options, 0, []);
  }

  lemma {:induction false} OptionsIndependent(st1: State, st2: State, owner: Node, opts: seq<Branch>, j: nat, acc: seq<Prop>)
    requires j <= |opts| && st1.plurals == st2.plurals
    ensures OptionsFrom(st1, owner, opts, j, acc).result == OptionsFrom(st2, owner, opts, j, acc).result
    ensures OptionsFrom(st1, owner, opts, j, acc).st.plurals == OptionsFrom(st2, owner, opts, j, acc).st.plurals
    decreases BranchesSize(opts), 3, |opts| - j
  {
    if j < |opts| {
      BodySizeAt(opts, j);
      BranchIndependent(st1, st2, owner, opts[j].body);
      var v1 := BranchValue(st1, owner, opts[j].body);
      var v2 := BranchValue(st2, owner, opts[j].body);
      if v1.result.Ok? {
        var acc' := acc + [Prop(KeyExpr(OptionKey(owner, opts[j].key)), v1.result.value)];
        OptionsIndependent(v1.st, v2.st, owner, opts, j + 1, acc');
      }
    }
  }

  lemma {:induction false} BranchIndependent(st1: State, st2: State, owner: Node, body: seq<Node>)
    requires st1.plurals == st2.plurals
    ensures BranchValue(st1, owner, body).result == BranchValue(st2, owner, body).result
    ensures BranchValue(st1, owner, body).st.plurals == BranchValue(st2, owner, body).st.plurals
    decreases NodesSize(body), 2, 0
  {
    if |body| == 1 && body[0].Literal? {
    } else if |body| == 1 {
      BuildCallIndependent(st1, st2, body[0], Some(owner));
    } else {
      TemplateIndependent(st1, st2, body, 0, [], []);
    }
  }

  lemma {:induction false} StepIndependent(st1: State, st2: State, ast: seq<Node>, i: nat, quasis: seq<Quasi>, exprs: seq<Expr>)
    requires i < |ast| && st1.plurals == st2.plurals
    ensures var s1, s2 := TemplateStep(st1, ast, i, quasis, exprs), TemplateStep(st2, ast, i, quasis, exprs);
            && s1.Stop? == s2.Stop?
            && (s1.Stop? ==> s1.out.result == s2.out.result && s1.out.st.plurals == s2.out.st.plurals)
            && (s1.Next? ==> s1.quasis == s2.quasis && s1.exprs == s2.exprs && s1.st.plurals == s2.st.plurals)
    decreases NodesSize(ast), 1, |ast| - i
  {
    var entry := ast[i];
    if !(entry.Literal? || entry.Pound? || entry.Tag?) {
      NodeSizeAt(ast, i);
      BuildCallIndependent(st1, st2, entry, None);
    }
  }

  lemma {:induction false} TemplateIndependent(st1: State, st2: State, ast: seq<Node>, i: nat, quasis: seq<Quasi>, exprs: seq<Expr>)
    requires i <= |ast| && st1.plurals == st2.plurals
    ensures TemplateFrom(st1, ast, i, quasis, exprs).result == TemplateFrom(st2, ast, i, quasis, exprs).result
    ensures TemplateFrom(st1, ast, i, quasis, exprs).st.plurals == TemplateFrom(st2, ast, i, quasis, exprs).st.plurals
    decreases NodesSize(ast), 1, |ast| - i + 1
  {
    if i < |ast| {
      StepIndependent(st1, st2, ast, i, quasis, exprs);
      var s1 := TemplateStep(st1, ast, i, quasis, exprs);
      var s2 := TemplateStep(st2, ast, i, quasis, exprs);
      if s1.Next? {
        TemplateIndependent(s1.st, s2.st, ast, i + 1, s1.quasis, s1.exprs);
      }
    }
  }

  // ---------------------------------------------------------------------------
  // Shape of the options object
  // ---------------------------------------------------------------------------

  predicate LoneLiteral(body: seq<Node>) {
    |body| == 1 && body[0].Literal?
  }

  /** One property built from one option under the plural stack `plurals`: keyed
      by the normalised key; its value a plain string when the body is one
      literal, the build of a lone other element with the owner as parent, and
      otherwise the template `TemplateShape` describes. */
  predicate PropMatch(p: Prop, owner: Node, b: Branch, plurals: seq<PluralFrame>) {
    && p.key == KeyExpr(OptionKey(owner, b.key))
    && (LoneLiteral(b.body) ==> p.value == StringLit(b.body[0].value))
    && (|b.body| == 1 && !b.body[0].Literal? ==>
          BuildCall(State({}, {}, plurals), b.body[0], Some(owner)).result == Ok(p.value))
    && (|b.body| != 1 ==> p.value == Template(QuasisFrom(b.body, 0), ExprsFrom(plurals, b.body, 0)))
  }

  /** `props` is the options object of `opts`: one matching property per option, in order. */
  predicate PropsMatch(props: seq<Prop>, owner: Node, opts: seq<Branch>, plurals: seq<PluralFrame>) {
    |props| == |opts|
    && (props != [] ==> PropMatch(props[0], owner, opts[0], plurals) && PropsMatch(props[1..], owner, opts[1..], plurals))
  }

  lemma {:induction false} PropsMatchAt(props: seq<Prop>, owner: Node, opts: seq<Branch>, plurals: seq<PluralFrame>, k: nat)
    requires PropsMatch(props, owner, opts, plurals) && k < |props|
    ensures PropMatch(props[k], owner, opts[k], plurals)
    decreases k
  {
    if k > 0 { PropsMatchAt(props[1..], owner, opts[1..], plurals, k - 1); }
  }

  /** The property one option builds matches it, and the stack is left as it was. */
  lemma BranchShape(st: State, owner: Node, b: Branch)
    ensures var v := BranchValue(st, owner, b.body);
            v.result.Ok? ==>
              && PropMatch(Prop(KeyExpr(OptionKey(owner, b.key)), v.result.value), owner, b, st.plurals)
              && v.st.plurals == st.plurals
  {
    var body := b.body;
    BranchEffect(st, owner, body);
    if |body| == 1 && !body[0].Literal? {
      BuildCallIndependent(st, State({}, {}, st.plurals), body[0], Some(owner));
    } else if |body| != 1 {
      TemplateShape(st, body, 0, [], []);
      assert [] + QuasisFrom(body, 0) == QuasisFrom(body, 0);
      assert [] + ExprsFrom(st.plurals, body, 0) == ExprsFrom(st.plurals, body, 0);
    }
  }

  /** A successful options map keeps the properties built so far and adds the
      `PropsMatch` object of the remaining options. */
  lemma {:induction false} OptionsShape(st: State, owner: Node, opts: seq<Branch>, j: nat, acc: seq<Prop>)
    requires j <= |opts|
    ensures var o := OptionsFrom(st, owner, opts, j, acc);
            o.result.Ok? ==>
              && |o.result.value| >= |acc|
              && o.result.value == acc + o.result.value[|acc|..]
              && PropsMatch(o.result.value[|acc|..], owner, opts[j..], st.plurals)
    decreases |opts| - j
  {
    if j < |opts| {
      var v := BranchValue(st, owner, opts[j].body);
      if v.result.Ok? {
        var p := Prop(KeyExpr(OptionKey(owner, opts[j].key)), v.result.value);
        var acc' := acc + [p];
        OptionsShape(v.st, owner, opts, j + 1, acc');
        var r := OptionsFrom(st, owner, opts, j, acc);
        assert r == OptionsFrom(v.st, owner, opts, j + 1, acc');
        if r.result.Ok? {
          var props := r.result.value;
          BranchShape(st, owner, opts[j]);
          assert PropMatch(p, owner, opts[j], st.plurals);
          assert props[|acc|..][1..] == props[|acc'|..];
          assert opts[j..][1..] == opts[j + 1..];
        }
      }
    } else {
      assert opts[j..] == [];
    }
  }

  lemma LoneLiteralValue(st: State, owner: Node, body: seq<Node>)
    requires LoneLiteral(body)
    ensures BranchValue(st, owner, body) == Out(Ok(StringLit(body[0].value)), st)
  {
  }

  // ---------------------------------------------------------------------------
  // Shape of template literals
  // ---------------------------------------------------------------------------

  /** The elements from `i` on that become an expression of the template. */
  function SlotsFrom(ast: seq<Node>, i: nat): nat
    requires i <= |ast|
    decreases |ast| - i
  {
    if i == |ast| then 0
    else Slot(ast[i]) + SlotsFrom(ast, i + 1)
  }

  /** The closing quasi: a final literal is itself the tail, after anything else an
      empty tail is added. */
  function TailQuasi(ast: seq<Node>): Quasi
    requires |ast| > 0
  {
    if ast[|ast| - 1].Literal? then Quasi(ast[|ast| - 1].value, true) else Quasi("", true)
  }

  /** The quasis a template adds from element `i` on: the last is `TailQuasi` and
      no other is marked as the tail. */
  predicate TailOk(added: seq<Quasi>, ast: seq<Node>, i: nat)
    requires i <= |ast|
  {
    && (i < |ast| ==> |added| > 0 && added[|added| - 1] == TailQuasi(ast))
    && (forall k :: 0 <= k < |added| - 1 ==> !added[k].tail)
  }

  lemma TailOkStep(piece: seq<Quasi>, rest: seq<Quasi>, ast: seq<Node>, i: nat)
    requires i < |ast| && TailOk(rest, ast, i + 1) && PieceOk(piece, ast, i)
    requires i == |ast| - 1 ==> rest == []
    ensures TailOk(piece + rest, ast, i)
  {
    assert forall k :: |piece| <= k < |piece + rest| ==> (piece + rest)[k] == rest[k - |piece|];
  }

  /** The quasis one iteration adds for element `i`: none marked as the tail, except
      that after the last element the last of them is `TailQuasi`. */
  predicate PieceOk(piece: seq<Quasi>, ast: seq<Node>, i: nat)
    requires i < |ast|
  {
    && (i < |ast| - 1 ==> forall k :: 0 <= k < |piece| ==> !piece[k].tail)
    && (i == |ast| - 1 ==> |piece| > 0 && piece[|piece| - 1] == TailQuasi(ast)
                           && forall k :: 0 <= k < |piece| - 1 ==> !piece[k].tail)
  }

  /** An element becomes an expression of the template unless it is text or a tag. */
  function Slot(e: Node): nat {
    if e.Literal? || e.Tag? then 0 else 1
  }

  /** The quasis one iteration adds for element `i`: a literal's own text, or an
      opening empty quasi for an argument or `#` at index 0, then `TailFor`. */
  function PieceFor(ast: seq<Node>, i: nat): seq<Quasi>
    requires i < |ast|
  {
    if ast[i].Literal? then [Quasi(ast[i].value, i == |ast| - 1)]
    else (if (ast[i].Pound? || ast[i].Argument?) && i == 0 then [Quasi("", false)] else []) + TailFor(ast, i)
  }

  lemma PieceForOk(ast: seq<Node>, i: nat)
    requires i < |ast|
    ensures PieceOk(PieceFor(ast, i), ast, i)
  {
  }

  /** The expression a template element becomes, given the plural stack: none for
      text or a tag, the innermost plural's value for `#`, and otherwise the element
      built with no parent -- from a state holding nothing but the stack, since
      nothing else is read. */
  function SlotExpr(plurals: seq<PluralFrame>, e: Node): seq<Expr> {
    if e.Literal? || e.Tag? then []
    else if e.Pound? then (if |plurals| == 0 then [] else [PoundInTemplate(plurals[|plurals| - 1])])
    else
      match BuildCall(State({}, {}, plurals), e, None).result
      case Ok(x) => [x]
      case Err(_) => []
  }

  /** One iteration appends `PieceFor` to the quasis and the element's `SlotExpr`
      to the expressions, and leaves the plural stack as it was. */
  lemma StepShape(st: State, ast: seq<Node>, i: nat, quasis: seq<Quasi>, exprs: seq<Expr>)
    requires i < |ast|
    ensures var s := TemplateStep(st, ast, i, quasis, exprs);
            s.Next? ==>
              && s.quasis == quasis + PieceFor(ast, i)
              && s.exprs == exprs + SlotExpr(st.plurals, ast[i])
              && |SlotExpr(st.plurals, ast[i])| == Slot(ast[i])
              && s.st.plurals == st.plurals
  {
    var entry := ast[i];
    if !entry.Literal? {
      var lead := if (entry.Pound? || entry.Argument?) && i == 0 then [Quasi("", false)] else [];
      assert quasis + lead + TailFor(ast, i) == quasis + (lead + TailFor(ast, i));
      assert entry.Tag? ==> lead + TailFor(ast, i) == TailFor(ast, i);
    }
    if !(entry.Literal? || entry.Pound? || entry.Tag?) {
      BuildCallIndependent(st, State({}, {}, st.plurals), entry, None);
      BuildCallEffect(st, entry, None);
    }
  }

  /** The quasis of the elements from `i` on, independent of any state. */
  function QuasisFrom(ast: seq<Node>, i: nat): seq<Quasi>
    requires i <= |ast|
    decreases |ast| - i
  {
    if i == |ast| then [] else PieceFor(ast, i) + QuasisFrom(ast, i + 1)
  }

  /** Only the last quasi of a template is its tail, and it is `TailQuasi`. */
  lemma {:induction false} QuasisTailOk(ast: seq<Node>, i: nat)
    requires i <= |ast|
    ensures TailOk(QuasisFrom(ast, i), ast, i)
    decreases |ast| - i
  {
    if i < |ast| {
      QuasisTailOk(ast, i + 1);
      PieceForOk(ast, i);
      TailOkStep(PieceFor(ast, i), QuasisFrom(ast, i + 1), ast, i);
    }
  }

  lemma AppendAssoc<T>(a: seq<T>, b: seq<T>, c: seq<T>)
    ensures a + b + c == a + (b + c)
  {
  }

  /** The expressions of the elements from `i` on, in order, given the stack. */
  function ExprsFrom(plurals: seq<PluralFrame>, ast: seq<Node>, i: nat): seq<Expr>
    requires i <= |ast|
    decreases |ast| - i
  {
    if i == |ast| then [] else SlotExpr(plurals, ast[i]) + ExprsFrom(plurals, ast, i + 1)
  }

  /** A successful template extends what was built so far by `QuasisFrom` and by
      `ExprsFrom`: expression k is slot element k, in source order, built under the
      template's plural stack, one for each slot. */
  lemma {:induction false} TemplateShape(st: State, ast: seq<Node>, i: nat, quasis: seq<Quasi>, exprs: seq<Expr>)
    requires i <= |ast|
    ensures var o := TemplateFrom(st, ast, i, quasis, exprs);
            o.result.Ok? ==>
              && o.result.value.Template?
              && o.result.value.quasis == quasis + QuasisFrom(ast, i)
              && o.result.value.exprs == exprs + ExprsFrom(st.plurals, ast, i)
              && |ExprsFrom(st.plurals, ast, i)| == SlotsFrom(ast, i)
    decreases |ast| - i
  {
    if i < |ast| {
      var s := TemplateStep(st, ast, i, quasis, exprs);
      StepShape(st, ast, i, quasis, exprs);
      if s.Next? {
        TemplateShape(s.st, ast, i + 1, s.quasis, s.exprs);
        var r := TemplateFrom(s.st, ast, i + 1, s.quasis, s.exprs);
        assert TemplateFrom(st, ast, i, quasis, exprs) == r;
        if r.result.Ok? {
          var t := r.result.value;
          AppendAssoc(quasis, PieceFor(ast, i), QuasisFrom(ast, i + 1));
          AppendAssoc(exprs, SlotExpr(st.plurals, ast[i]), ExprsFrom(st.plurals, ast, i + 1));
        }
      }
    } else {
      assert quasis + [] == quasis;
      assert exprs + [] == exprs;
    }
  }

  // ---------------------------------------------------------------------------
  // Which variables the compiled code reads
  // ---------------------------------------------------------------------------

  /** Every placeholder variable of an element, at any depth. */
  function VarsOf(n: Node): set<string>
    decreases NodeSize(n), 0, 0
  {
    match n
    case Argument(v) => {v}
    case Number(v, _) => {v}
    case Date(v, _) => {v}
    case Time(v, _) => {v}
    case Select(v, opts) => {v} + VarsOfOptions(opts, 0)
    case Plural(v, opts, _) => {v} + VarsOfOptions(opts, 0)
    case Literal(_) => {}
    case Pound => {}
    case Tag(_, _) => {}
  }

  function VarsOfOptions(opts: seq<Branch>, j: nat): set<string>
    requires j <= |opts|
    decreases BranchesSize(opts), 3, |opts| - j
  {
    if j == |opts| then {}
    else
      BodySizeAt(opts, j);
      VarsOfElems(opts[j].body, 0) + VarsOfOptions(opts, j + 1)
  }

  function VarsOfElems(ast: seq<Node>, i: nat): set<string>
    requires i <= |ast|
    decreases NodesSize(ast), 1, |ast| - i
  {
    if i == |ast| then {}
    else
      NodeSizeAt(ast, i);
      VarsOf(ast[i]) + VarsOfElems(ast, i + 1)
  }

  function StackVars(plurals: seq<PluralFrame>): set<string> {
    set k | 0 <= k < |plurals| :: plurals[k].value
  }

  /** The variable a direct `#` may read: that of a plural parent. */
  function ParentVar(parent: Option<Node>): set<string> {
    if parent.Some? && parent.value.Plural? then {parent.value.value} else {}
  }

  lemma IdentsOfAllSnoc(es: seq<Expr>, e: Expr)
    ensures IdentsOfAll(es + [e]) == IdentsOfAll(es) + Idents(e)
    decreases |es|
  {
    if es != [] {
      assert (es + [e])[1..] == es[1..] + [e];
      IdentsOfAllSnoc(es[1..], e);
    }
  }

  lemma IdentsOfAllPrefix(es: seq<Expr>, n: nat)
    requires n <= |es|
    ensures IdentsOfAll(es[..n]) <= IdentsOfAll(es)
    decreases |es|
  {
    if n > 0 {
      assert es[..n][1..] == es[1..][..n - 1];
      IdentsOfAllPrefix(es[1..], n - 1);
    }
  }

  lemma IdentsOfShort(a: Expr, b: Expr, c: Expr)
    ensures IdentsOfAll([a]) == Idents(a)
    ensures IdentsOfAll([a, b]) == Idents(a) + Idents(b)
    ensures IdentsOfAll([a, b, c]) == Idents(a) + Idents(b) + Idents(c)
  {
    assert [a][1..] == [];
    assert IdentsOfAll([a]) == Idents(a) + IdentsOfAll([]);
    assert [a, b][1..] == [b];
    assert IdentsOfAll([a, b]) == Idents(a) + IdentsOfAll([b]);
    assert [b, c][1..] == [c];
    assert IdentsOfAll([b, c]) == Idents(b) + IdentsOfAll([c]);
    assert [c][1..] == [];
    assert IdentsOfAll([c]) == Idents(c) + IdentsOfAll([]);
    assert [a, b, c][1..] == [b, c];
    assert IdentsOfAll([a, b, c]) == Idents(a) + IdentsOfAll([b, c]);
  }

  lemma IdentsOfPropsSnoc(props: seq<Prop>, p: Prop)
    ensures Idents(Object(props + [p])) == Idents(Object(props)) + Idents(p.value)
  {
    var l := Idents(Object(props + [p]));
    var r := Idents(Object(props)) + Idents(p.value);
    forall x | x in l ensures x in r {
      var q :| q in props + [p] && x in Idents(q.value);
    }
    forall x | x in r ensures x in l {
      if x in Idents(Object(props)) {
        var q :| q in props && x in Idents(q.value);
        assert q in props + [p];
      } else {
        assert p in props + [p];
      }
    }
  }

  /** A successful build reads only variables of the element, of enclosing plurals
      and of a plural parent. */
  lemma {:induction false} BuildCallVars(st: State, entry: Node, parent: Option<Node>)
    ensures BuildCall(st, entry, parent).result.Ok?
            ==> Idents(BuildCall(st, entry, parent).result.value)
                <= VarsOf(entry) + StackVars(st.plurals) + ParentVar(parent)
    decreases NodeSize(entry), 0, 1
  {
    match entry
    case Select(_, _) => SelectVars(st, entry);
    case Plural(_, _, _) => PluralVars(st, entry);
    case Argument(v) => IdentsOfShort(Identifier(v), Identifier(v), Identifier(v));
    case Number(v, style) => FormatCallVars(st, HelperName(entry), v, style);
    case Date(v, style) => FormatCallVars(st, HelperName(entry), v, style);
    case Time(v, style) => FormatCallVars(st, HelperName(entry), v, style);
    case _ =>
  }

  /** A number, date or time call reads its variable and nothing else. */
  lemma FormatCallVars(st: State, fn: string, v: string, style: Style)
    ensures BuildFormatCall(st, fn, v, style).result.Ok? ==> Idents(BuildFormatCall(st, fn, v, style).result.value) == {v}
  {
    IdentsOfShort(Identifier(v), StringLit(if style.Named? then style.name else ""), Identifier(v));
  }

  lemma {:induction false} SelectVars(st: State, entry: Node)
    requires entry.Select?
    ensures BuildSelect(st, entry).result.Ok?
            ==> Idents(BuildSelect(st, entry).result.value) <= VarsOf(entry) + StackVars(st.plurals)
    decreases NodeSize(entry), 0, 0
  {
    var st1 := AddHelper(st, "__select");
    OptionsVars(st1, entry, entry.options, 0, []);
    var o := OptionsFrom(st1, entry, entry.options, 0, []);
    if o.result.Ok? {
      CallIdents(HelperName(entry), entry.value, 0, o.result.value);
      NoPropsNoIdents();
    }
  }

  lemma {:induction false} PluralVars(st: State, entry: Node)
    requires entry.Plural?
    ensures BuildPlural(st, entry).result.Ok?
            ==> Idents(BuildPlural(st, entry).result.value) <= VarsOf(entry) + StackVars(st.plurals)
    decreases NodeSize(entry), 0, 0
  {
    var v, offset := entry.value, entry.offset;
    var helper := if offset != 0 then OffsetPluralHelper else HelperName(entry);
    var st1 := AddHelper(st, helper).(plurals := st.plurals + [PluralFrame(v, offset)]);
    OptionsVars(st1, entry, entry.options, 0, []);
    StackVarsSnoc(st.plurals, PluralFrame(v, offset));
    var o := OptionsFrom(st1, entry, entry.options, 0, []);
    if o.result.Ok? {
      CallIdents(helper, v, offset, o.result.value);
      NoPropsNoIdents();
    }
  }

  /** The select and plural calls read their variable and what the options read. */
  lemma CallIdents(helper: string, v: string, offset: int, props: seq<Prop>)
    ensures Idents(Call(helper, [Identifier(v), Object(props)])) == {v} + Idents(Object(props))
    ensures Idents(Call(helper, [Identifier(v), NumLit(offset), Object(props)])) == {v} + Idents(Object(props))
  {
    IdentsOfShort(Identifier(v), Object(props), Object(props));
    IdentsOfShort(Identifier(v), NumLit(offset), Object(props));
  }

  lemma NoPropsNoIdents()
    ensures Idents(Object([])) == {}
  {
  }

  lemma StackVarsSnoc(plurals: seq<PluralFrame>, top: PluralFrame)
    ensures StackVars(plurals + [top]) == StackVars(plurals) + {top.value}
  {
    var s := plurals + [top];
    forall x | x in StackVars(s) ensures x in StackVars(plurals) + {top.value} {
      var k :| 0 <= k < |s| && s[k].value == x;
      if k < |plurals| { assert s[k] == plurals[k]; }
    }
    forall x | x in StackVars(plurals) + {top.value} ensures x in StackVars(s) {
      if x in StackVars(plurals) {
        var k :| 0 <= k < |plurals| && plurals[k].value == x;
        assert s[k] == plurals[k];
      } else {
        assert s[|plurals|] == top;
      }
    }
  }

  lemma {:induction false} OptionsVars(st: State, owner: Node, opts: seq<Branch>, j: nat, acc: seq<Prop>)
    requires j <= |opts|
    ensures OptionsFrom(st, owner, opts, j, acc).result.Ok?
            ==> Idents(Object(OptionsFrom(st, owner, opts, j, acc).result.value))
                <= Idents(Object(acc)) + VarsOfOptions(opts, j) + StackVars(st.plurals) + ParentVar(Some(owner))
    decreases BranchesSize(opts), 3, |opts| - j
  {
    if j < |opts| {
      BodySizeAt(opts, j);
      BranchVars(st, owner, opts[j].body);
      BranchEffect(st, owner, opts[j].body);
      var v := BranchValue(st, owner, opts[j].body);
      if v.result.Ok? {
        var p := Prop(KeyExpr(OptionKey(owner, opts[j].key)), v.result.value);
        OptionsVars(v.st, owner, opts, j + 1, acc + [p]);
        IdentsOfPropsSnoc(acc, p);
      }
    }
  }

  lemma {:induction false} BranchVars(st: State, owner: Node, body: seq<Node>)
    ensures BranchValue(st, owner, body).result.Ok?
            ==> Idents(BranchValue(st, owner, body).result.value)
                <= VarsOfElems(body, 0) + StackVars(st.plurals) + ParentVar(Some(owner))
    decreases NodesSize(body), 2, 0
  {
    if |body| == 1 && body[0].Literal? {
    } else if |body| == 1 {
      BuildCallVars(st, body[0], Some(owner));
      assert VarsOfElems(body, 0) == VarsOf(body[0]) + VarsOfElems(body, 1);
    } else {
      TemplateVars(st, body, 0, [], []);
    }
  }

  /** One iteration adds an expression reading only variables of its element and
      of the enclosing plurals. */
  lemma {:induction false} StepVars(st: State, ast: seq<Node>, i: nat, quasis: seq<Quasi>, exprs: seq<Expr>)
    requires i < |ast|
    ensures var s := TemplateStep(st, ast, i, quasis, exprs);
            s.Next? ==> IdentsOfAll(s.exprs) <= IdentsOfAll(exprs) + VarsOf(ast[i]) + StackVars(st.plurals)
    decreases NodesSize(ast), 1, |ast| - i
  {
    var entry := ast[i];
    if entry.Pound? {
      if |st.plurals| > 0 {
        var top := st.plurals[|st.plurals| - 1];
        IdentsOfAllSnoc(exprs, PoundInTemplate(top));
        assert top.value in StackVars(st.plurals);
      }
    } else if !(entry.Literal? || entry.Tag?) {
      NodeSizeAt(ast, i);
      BuildCallVars(st, entry, None);
      var o := BuildCall(st, entry, None);
      if o.result.Ok? {
        IdentsOfAllSnoc(exprs, o.result.value);
      }
    }
  }

  lemma {:induction false} TemplateVars(st: State, ast: seq<Node>, i: nat, quasis: seq<Quasi>, exprs: seq<Expr>)
    requires i <= |ast|
    ensures TemplateFrom(st, ast, i, quasis, exprs).result.Ok?
            ==> Idents(TemplateFrom(st, ast, i, quasis, exprs).result.value)
                <= IdentsOfAll(exprs) + VarsOfElems(ast, i) + StackVars(st.plurals)
    decreases NodesSize(ast), 1, |ast| - i + 1
  {
    if i < |ast| {
      StepVars(st, ast, i, quasis, exprs);
      StepEffect(st, ast, i, quasis, exprs);
      var s := TemplateStep(st, ast, i, quasis, exprs);
      if s.Next? {
        NodeSizeAt(ast, i);
        TemplateVars(s.st, ast, i + 1, s.quasis, s.exprs);
      }
    }
  }
}
