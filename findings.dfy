/**
 * Four places where the code of src/babel-plugin.ts does not do what the rest of
 * the design evidently intends. For each: a lemma that exhibits the behaviour as
 * written on a concrete message, and a corrected definition with the intended
 * property proved about it. The faithful model (Lowering, BabelPlugin, Runtime)
 * keeps the behaviour as written; the corrected definitions stand beside it.
 */
module Findings {
  import opened Opt
  import opened JsStrings
  import opened IcuAst
  import opened JsAst
  import opened Keys
  import opened Lowering
  import opened LoweringProps
  import opened MessageProps
  import Runtime

  // ---------------------------------------------------------------------------
  // 1. A message that is one argument compiles to a closure with a free variable
  // ---------------------------------------------------------------------------

  /** `{name}` alone: `buildCallExpression` does not register an argument, so the
      closure takes no parameter but reads `name`. */
  lemma LoneArgumentIsFree(st: State)
    ensures var o := CompileMessage(st, [Argument("name")]);
            && o.result == Ok(Arrow([], Call("__interpolate", [Identifier("name")])))
            && Idents(o.result.value) == {"name"}
  {
    var st0 := st.(params := {}, plurals := []);
    var body := BuildCall(st0, Argument("name"), None);
    assert body.st.params == {};
    SameElementsBothEmpty(SortSet({}), []);
    var e := Call("__interpolate", [Identifier("name")]);
    assert IdentsOfAll([Identifier("name")]) == {"name"} by {
      assert [Identifier("name")][1..] == [];
    }
    assert Idents(Arrow([], e)) == Idents(e) - {};
  }

  /** The intended `buildFunction`: the same body, closed over every placeholder
      variable of the message, sorted. */
  ghost function CompileMessageClosed(st: State, ast: seq<Node>): Out<Expr>
  {
    var o := CompileMessage(st, ast);
    match o.result
    case Ok(Arrow(_, body)) =>
      var params := VarsOfElems(ast, 0);
      Out(Ok(Arrow(SortSet(params), body)), o.st.(params := params))
    case _ => o
  }

  /** The corrected closure succeeds exactly when the original does, has the same
      body, reads no free variable, and takes a sorted superset of the original
      parameters. */
  lemma CompileMessageClosedIsClosed(st: State, ast: seq<Node>)
    ensures var o, w := CompileMessageClosed(st, ast), CompileMessage(st, ast);
            && (o.result.Ok? <==> MessageOk(ast))
            && (o.result.Ok? ==>
                  && o.result.value.Arrow? && w.result.value.Arrow?
                  && o.result.value.body == w.result.value.body
                  && Idents(o.result.value) == {}
                  && StrictlySorted(o.result.value.params)
                  && (forall x :: x in o.result.value.params <==> x in VarsOfElems(ast, 0))
                  && (forall x :: x in w.result.value.params ==> x in o.result.value.params))
  {
    CompileMessageEffect(st, ast);
    CompileMessageVars(st, ast);
    MessageParamsWithinVars(ast);
    var o := CompileMessageClosed(st, ast);
    if o.result.Ok? {
      var a := o.result.value;
      assert Idents(a) == Idents(a.body) - set p | p in a.params;
      assert forall x :: x in Idents(a.body) ==> x in a.params;
    }
  }

  // ---------------------------------------------------------------------------
  // 2. A template that starts with a number, date, time, select or plural, or
  //    has two placeholders in a row, gets too few quasis
  // ---------------------------------------------------------------------------

  /** `{n, number} left`: one expression but a single quasi, where a template
      literal needs one more quasi than expressions. */
  lemma LeadingNumberLosesItsQuasi(st: State)
    ensures var o := TemplateFrom(st, [Number("n", NoStyle), Literal(" left")], 0, [], []);
            && o.result == Ok(Template([Quasi(" left", true)], [Call("__number", [Identifier("n")])]))
            && |o.result.value.quasis| == |o.result.value.exprs|
  {
    var ast := [Number("n", NoStyle), Literal(" left")];
    var s0 := TemplateStep(st, ast, 0, [], []);
    assert s0.Next? && s0.quasis == [] && s0.exprs == [Call("__number", [Identifier("n")])];
    var s1 := TemplateStep(s0.st, ast, 1, s0.quasis, s0.exprs);
    assert s1.Next? && s1.quasis == [Quasi(" left", true)] && s1.exprs == s0.exprs;
  }

  /** The intended quasis from element `i` on, `text` being the literal text since
      the last placeholder: literals accumulate, each expression closes a quasi,
      tags are skipped, and the end closes the tail. */
  function FixedQuasisFrom(ast: seq<Node>, i: nat, text: string): seq<Quasi>
    requires i <= |ast|
    decreases |ast| - i
  {
    if i == |ast| then [Quasi(text, true)]
    else if ast[i].Literal? then FixedQuasisFrom(ast, i + 1, text + ast[i].value)
    else if ast[i].Tag? then FixedQuasisFrom(ast, i + 1, text)
    else [Quasi(text, false)] + FixedQuasisFrom(ast, i + 1, "")
  }

  /** The literal text of the elements from `i` on. */
  function LiteralText(ast: seq<Node>, i: nat): string
    requires i <= |ast|
    decreases |ast| - i
  {
    if i == |ast| then "" else (if ast[i].Literal? then ast[i].value else "") + LiteralText(ast, i + 1)
  }

  function Texts(qs: seq<Quasi>): string {
    if qs == [] then "" else qs[0].text + Texts(qs[1..])
  }

  lemma {:induction false} TextsAppend(a: seq<Quasi>, b: seq<Quasi>)
    ensures Texts(a + b) == Texts(a) + Texts(b)
  {
    if a != [] {
      assert (a + b)[1..] == a[1..] + b;
      TextsAppend(a[1..], b);
    } else {
      assert a + b == b;
    }
  }

  /** One quasi more than expressions, only the last one the tail, and all the
      literal text kept in order. */
  lemma {:induction false} FixedQuasisLayout(ast: seq<Node>, i: nat, text: string)
    requires i <= |ast|
    ensures var qs := FixedQuasisFrom(ast, i, text);
            && |qs| == SlotsFrom(ast, i) + 1
            && qs[|qs| - 1].tail
            && (forall k :: 0 <= k < |qs| - 1 ==> !qs[k].tail)
            && Texts(qs) == text + LiteralText(ast, i)
    decreases |ast| - i
  {
    if i == |ast| {
      assert Texts([Quasi(text, true)]) == text + Texts([]);
      assert text + "" == text;
    } else if ast[i].Literal? {
      FixedQuasisLayout(ast, i + 1, text + ast[i].value);
      assert text + ast[i].value + LiteralText(ast, i + 1) == text + (ast[i].value + LiteralText(ast, i + 1));
    } else if ast[i].Tag? {
      FixedQuasisLayout(ast, i + 1, text);
      assert LiteralText(ast, i) == "" + LiteralText(ast, i + 1);
    } else {
      FixedQuasisLayout(ast, i + 1, "");
      var rest := FixedQuasisFrom(ast, i + 1, "");
      var qs := [Quasi(text, false)] + rest;
      assert forall k :: 1 <= k < |qs| ==> qs[k] == rest[k - 1];
      TextsAppend([Quasi(text, false)], rest);
      assert Texts([Quasi(text, false)]) == text + Texts([]);
      assert "" + LiteralText(ast, i + 1) == LiteralText(ast, i + 1);
      assert LiteralText(ast, i) == "" + LiteralText(ast, i + 1);
    }
  }

  /** The corrected `buildTemplateLiteral`: the same expressions and state, with
      the intended quasis. */
  function FixedTemplate(st: State, ast: seq<Node>): Out<Expr>
  {
    var o := TemplateFrom(st, ast, 0, [], []);
    match o.result
    case Ok(Template(_, exprs)) => Out(Ok(Template(FixedQuasisFrom(ast, 0, ""), exprs)), o.st)
    case _ => o
  }

  lemma FixedTemplateLayout(st: State, ast: seq<Node>)
    ensures var o, w := FixedTemplate(st, ast), TemplateFrom(st, ast, 0, [], []);
            && (o.result.Ok? <==> w.result.Ok?)
            && o.st == w.st
            && (o.result.Ok? ==>
                  var t := o.result.value;
                  && t.Template? && w.result.value.Template?
                  && t.exprs == w.result.value.exprs
                  && |t.quasis| == |t.exprs| + 1
                  && t.quasis[|t.quasis| - 1].tail
                  && (forall k :: 0 <= k < |t.quasis| - 1 ==> !t.quasis[k].tail)
                  && Texts(t.quasis) == LiteralText(ast, 0))
  {
    TemplateShape(st, ast, 0, [], []);
    FixedQuasisLayout(ast, 0, "");
    assert "" + LiteralText(ast, 0) == LiteralText(ast, 0);
  }

  /** Where the code gets the layout right, the correction changes nothing: text,
      a placeholder, text, an argument at the end. */
  lemma FixedAgreesOnAlternation(a: string, x: string, b: string, y: string)
    ensures var ast := [Literal(a), Number(x, NoStyle), Literal(b), Argument(y)];
            QuasisFrom(ast, 0) == FixedQuasisFrom(ast, 0, "")
              == [Quasi(a, false), Quasi(b, false), Quasi("", true)]
  {
    var ast := [Literal(a), Number(x, NoStyle), Literal(b), Argument(y)];
    assert QuasisFrom(ast, 4) == [];
    assert QuasisFrom(ast, 3) == [Quasi("", true)];
    assert QuasisFrom(ast, 2) == [Quasi(b, false), Quasi("", true)];
    assert QuasisFrom(ast, 1) == [Quasi(b, false), Quasi("", true)];
    assert QuasisFrom(ast, 0) == [Quasi(a, false), Quasi(b, false), Quasi("", true)];
    assert FixedQuasisFrom(ast, 4, "") == [Quasi("", true)];
    assert FixedQuasisFrom(ast, 3, b) == [Quasi(b, false), Quasi("", true)];
    assert FixedQuasisFrom(ast, 2, "") == [Quasi(b, false), Quasi("", true)] by {
      assert "" + b == b;
    }
    assert FixedQuasisFrom(ast, 1, a) == [Quasi(a, false), Quasi(b, false), Quasi("", true)];
    assert FixedQuasisFrom(ast, 0, "") == FixedQuasisFrom(ast, 1, a) by {
      assert "" + a == a;
    }
  }

  // ---------------------------------------------------------------------------
  // 3. `__offsetPlural` is imported but the runtime does not export it
  // ---------------------------------------------------------------------------

  /** A plural with a non-zero offset records `__offsetPlural`, which the import
      added by the `Program` exit step then names; it is the one helper the
      runtime lacks. */
  lemma OffsetPluralNotExported(st: State)
    ensures OffsetPluralHelper in AllHelpers && OffsetPluralHelper !in Runtime.RuntimeExports
    ensures AllHelpers - {OffsetPluralHelper} <= Runtime.RuntimeExports
    ensures var o := BuildCall(st, Plural("n", [Branch("other", [Literal("x")])], 1), None);
            o.result.Ok? && OffsetPluralHelper in o.st.usedHelpers
  {
    var entry := Plural("n", [Branch("other", [Literal("x")])], 1);
    var st1 := AddHelper(st, OffsetPluralHelper).(plurals := st.plurals + [PluralFrame("n", 1)]);
    var v := BranchValue(st1, entry, [Literal("x")]);
    assert v == Out(Ok(StringLit("x")), st1);
    var o := OptionsFrom(st1, entry, entry.options, 0, []);
    assert o.result.Ok? && o.st == st1;
  }

  /** The intended `__offsetPlural(value, offset, opts)`, as ICU MessageFormat
      defines an offset: exact keys match the value itself, the category is that
      of the value minus the offset. */
  function OffsetPlural(value: int, offset: int, opts: map<string, string>, category: int -> Runtime.Category,
                        numberToString: int -> string): (r: string)
    ensures r == "" || r in opts.Values
    ensures var exact := numberToString(value);
            exact in opts && opts[exact] != "" ==> r == opts[exact]
    ensures var exact, cat := numberToString(value), Runtime.LocalPluralFor(category(value - offset));
            !(exact in opts && opts[exact] != "") ==> r == Runtime.Lookup(opts, cat, "")
  {
    Runtime.Lookup(opts, numberToString(value), Runtime.Lookup(opts, Runtime.LocalPluralFor(category(value - offset)), ""))
  }

  /** With offset 0 it is `__plural`. */
  lemma OffsetPluralZero(value: int, opts: map<string, string>, category: int -> Runtime.Category,
                         numberToString: int -> string)
    ensures OffsetPlural(value, 0, opts, category, numberToString) == Runtime.Plural(value, opts, category, numberToString)
  {
  }

  /** The runtime with it exports every helper the compiler can import. */
  const FixedRuntimeExports: set<string> := Runtime.RuntimeExports + {OffsetPluralHelper}

  lemma AllHelpersExported()
    ensures AllHelpers <= FixedRuntimeExports
  {
  }

  // ---------------------------------------------------------------------------
  // 4. A lone `#` in a plural option ignores the offset
  // ---------------------------------------------------------------------------

  /** `{n, plural, offset:1 other {#}}`: the option is built directly and gives `n`,
      while `#` with text around it gives `n - 1`. */
  lemma DirectPoundIgnoresOffset(st: State, opts: seq<Branch>)
    ensures BuildCall(st, Pound, Some(Plural("n", opts, 1))).result == Ok(Identifier("n"))
    ensures PoundInTemplate(PluralFrame("n", 1)) == Minus(Identifier("n"), NumLit(1))
  {
  }

  /** The intended direct `#`: the parent plural's value as the template `#` would
      read it from the frame the parent pushed. */
  function PoundDirectFixed(parent: Node): (r: Expr)
    requires parent.Plural?
    ensures parent.offset != 0 ==> r == Minus(Identifier(parent.value), NumLit(parent.offset))
    ensures parent.offset == 0 ==> r == Identifier(parent.value)
  {
    PoundInTemplate(PluralFrame(parent.value, parent.offset))
  }

  /** The correction agrees with the code exactly when the offset is 0, and with
      the `#` of a template inside the same plural always. */
  lemma PoundDirectFixedAgrees(st: State, parent: Node)
    requires parent.Plural?
    ensures BuildCall(st, Pound, Some(parent)).result == Ok(PoundDirectFixed(parent)) <==> parent.offset == 0
    ensures var pushed := st.plurals + [PluralFrame(parent.value, parent.offset)];
            PoundDirectFixed(parent) == PoundInTemplate(pushed[|pushed| - 1])
  {
  }
}
