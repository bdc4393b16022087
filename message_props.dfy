/**
 * What compiling one message produces: when it succeeds, the closure's
 * parameters, the helpers it records, the variables it reads, the shape of
 * select and plural calls, the three ways a `#` is resolved, and the outputs for
 * the messages of the repository's fixtures.
 */
module MessageProps {
  import opened Opt
  import opened JsStrings
  import opened IcuAst
  import opened JsAst
  import opened Keys
  import opened Lowering
  import opened LoweringProps

  // ---------------------------------------------------------------------------
  // A whole message
  // ---------------------------------------------------------------------------

  /** A message can be compiled: its one element, or every element of its
      template, can be built outside any plural. */
  predicate MessageOk(ast: seq<Node>) {
    if |ast| == 1 then CallOk(ast[0], false, 0) else ElemsOk(ast, 0, 0)
  }

  function MessageHelpers(ast: seq<Node>): set<string> {
    if |ast| == 1 then HelpersOf(ast[0]) else HelpersOfElems(ast, 0)
  }

  function MessageParams(ast: seq<Node>): set<string> {
    if |ast| == 1 then ParamsOf(ast[0]) else ParamsOfElems(ast, 0)
  }

  /** `buildFunction` succeeds exactly on `MessageOk` messages. The closure's
      parameters are then the registered names, sorted and each once; the used
      helpers grow by the message's helpers; the parameter set is exactly the
      message's and the plural stack is empty again. */
  lemma CompileMessageEffect(st: State, ast: seq<Node>)
    ensures var o := CompileMessage(st, ast);
            && (o.result.Ok? <==> MessageOk(ast))
            && (o.result.Ok? ==>
                  && o.result.value.Arrow?
                  && StrictlySorted(o.result.value.params)
                  && (forall i, j :: 0 <= i < j < |o.result.value.params| ==> o.result.value.params[i] != o.result.value.params[j])
                  && (forall x :: x in o.result.value.params <==> x in MessageParams(ast))
                  && o.st == State(st.usedHelpers + MessageHelpers(ast), MessageParams(ast), []))
  {
    MessageBodyEffect(st, ast);
    var o := CompileMessage(st, ast);
    if o.result.Ok? {
      SortedDistinct(o.result.value.params);
    }
  }

  /** The body `buildFunction` builds from the reset state. */
  lemma MessageBodyEffect(st: State, ast: seq<Node>)
    ensures var st0 := st.(params := {}, plurals := []);
            var body := if |ast| == 1 then BuildCall(st0, ast[0], None) else TemplateFrom(st0, ast, 0, [], []);
            && (body.result.Ok? <==> MessageOk(ast))
            && (body.result.Ok? ==> body.st == State(st.usedHelpers + MessageHelpers(ast), MessageParams(ast), []))
  {
    var st0 := st.(params := {}, plurals := []);
    if |ast| == 1 {
      BuildCallEffect(st0, ast[0], None);
    } else {
      TemplateEffect(st0, ast, 0, [], []);
    }
  }

  /** A message compiles to the same code whatever the plugin has recorded before:
      `buildFunction` resets the parameters and the stack, and the helpers used so
      far are never read. */
  lemma CompileMessageIndependent(st1: State, st2: State, ast: seq<Node>)
    ensures CompileMessage(st1, ast).result == CompileMessage(st2, ast).result
  {
    var s1 := st1.(params := {}, plurals := []);
    var s2 := st2.(params := {}, plurals := []);
    MessageBodyEffect(st1, ast);
    MessageBodyEffect(st2, ast);
    if |ast| == 1 {
      BuildCallIndependent(s1, s2, ast[0], None);
    } else {
      TemplateIndependent(s1, s2, ast, 0, [], []);
    }
  }

  /** The body of a compiled message reads only placeholder variables of the
      message. */
  lemma CompileMessageVars(st: State, ast: seq<Node>)
    ensures var o := CompileMessage(st, ast);
            o.result.Ok? ==> Idents(o.result.value.body) <= VarsOfElems(ast, 0)
  {
    var st0 := st.(params := {}, plurals := []);
    if |ast| == 1 {
      BuildCallVars(st0, ast[0], None);
      assert VarsOfElems(ast, 0) == VarsOf(ast[0]) + VarsOfElems(ast, 1);
    } else {
      TemplateVars(st0, ast, 0, [], []);
    }
  }

  /** The `CallExpression` visitor: a message that parses to one literal is
      replaced by the translation text and changes no state; any other message is
      replaced by the closure `buildFunction` returns. */
  lemma ReplacementShape(st: State, translated: string, ast: seq<Node>)
    ensures var o := Replacement(st, translated, ast);
            && (|ast| == 1 && ast[0].Literal? ==> o == Out(Ok(StringLit(translated)), st))
            && (!(|ast| == 1 && ast[0].Literal?) ==>
                  o == CompileMessage(st, ast) && (o.result.Ok? ==> o.result.value.Arrow?))
  {
    CompileMessageEffect(st, ast);
  }

  // ---------------------------------------------------------------------------
  // Registered names
  // ---------------------------------------------------------------------------

  /** Every recorded helper is one of the names of `HELPERS_MAP` or `__offsetPlural`. */
  lemma {:induction false} HelpersWithin(n: Node)
    ensures HelpersOf(n) <= AllHelpers
    decreases NodeSize(n), 0, 0
  {
    match n
    case Select(_, opts) => HelpersOfOptionsWithin(opts, 0);
    case Plural(_, opts, _) => HelpersOfOptionsWithin(opts, 0);
    case _ =>
  }

  lemma {:induction false} HelpersOfOptionsWithin(opts: seq<Branch>, j: nat)
    requires j <= |opts|
    ensures HelpersOfOptions(opts, j) <= AllHelpers
    decreases BranchesSize(opts), 3, |opts| - j
  {
    if j < |opts| {
      BodySizeAt(opts, j);
      HelpersOfBodyWithin(opts[j].body);
      HelpersOfOptionsWithin(opts, j + 1);
    }
  }

  lemma {:induction false} HelpersOfBodyWithin(body: seq<Node>)
    ensures HelpersOfBody(body) <= AllHelpers
    decreases NodesSize(body), 2, 0
  {
    if |body| == 1 {
      HelpersWithin(body[0]);
    } else {
      HelpersOfElemsWithin(body, 0);
    }
  }

  lemma {:induction false} HelpersOfElemsWithin(ast: seq<Node>, i: nat)
    requires i <= |ast|
    ensures HelpersOfElems(ast, i) <= AllHelpers
    decreases NodesSize(ast), 1, |ast| - i
  {
    if i < |ast| {
      NodeSizeAt(ast, i);
      HelpersWithin(ast[i]);
      HelpersOfElemsWithin(ast, i + 1);
    }
  }

  lemma MessageHelpersWithin(ast: seq<Node>)
    ensures MessageHelpers(ast) <= AllHelpers
  {
    if |ast| == 1 { HelpersWithin(ast[0]); } else { HelpersOfElemsWithin(ast, 0); }
  }

  /** Every registered parameter is a placeholder variable of the message (the
      converse fails for arguments built outside a template). */
  lemma {:induction false} ParamsWithinVars(n: Node)
    ensures ParamsOf(n) <= VarsOf(n)
    decreases NodeSize(n), 0, 0
  {
    match n
    case Select(_, opts) => ParamsOfOptionsWithinVars(opts, 0);
    case Plural(_, opts, _) => ParamsOfOptionsWithinVars(opts, 0);
    case _ =>
  }

  lemma {:induction false} ParamsOfOptionsWithinVars(opts: seq<Branch>, j: nat)
    requires j <= |opts|
    ensures ParamsOfOptions(opts, j) <= VarsOfOptions(opts, j)
    decreases BranchesSize(opts), 3, |opts| - j
  {
    if j < |opts| {
      BodySizeAt(opts, j);
      ParamsOfBodyWithinVars(opts[j].body);
      ParamsOfOptionsWithinVars(opts, j + 1);
    }
  }

  lemma {:induction false} ParamsOfBodyWithinVars(body: seq<Node>)
    ensures ParamsOfBody(body) <= VarsOfElems(body, 0)
    decreases NodesSize(body), 2, 0
  {
    if |body| == 1 {
      ParamsWithinVars(body[0]);
      assert VarsOfElems(body, 0) == VarsOf(body[0]) + VarsOfElems(body, 1);
    } else {
      ParamsOfElemsWithinVars(body, 0);
    }
  }

  lemma {:induction false} ParamsOfElemsWithinVars(ast: seq<Node>, i: nat)
    requires i <= |ast|
    ensures ParamsOfElems(ast, i) <= VarsOfElems(ast, i)
    decreases NodesSize(ast), 1, |ast| - i
  {
    if i < |ast| {
      NodeSizeAt(ast, i);
      ParamsWithinVars(ast[i]);
      ParamsOfElemsWithinVars(ast, i + 1);
    }
  }

  lemma MessageParamsWithinVars(ast: seq<Node>)
    ensures MessageParams(ast) <= VarsOfElems(ast, 0)
  {
    if |ast| == 1 {
      ParamsWithinVars(ast[0]);
      assert VarsOfElems(ast, 0) == VarsOf(ast[0]) + VarsOfElems(ast, 1);
    } else {
      ParamsOfElemsWithinVars(ast, 0);
    }
  }

  // ---------------------------------------------------------------------------
  // Leaf, select and plural calls
  // ---------------------------------------------------------------------------

  /** An argument becomes `__interpolate(v)`, records its helper and, outside a
      template, registers no parameter. A number, date or time element fails
      exactly on a skeleton style; otherwise it becomes a call of its helper on
      the variable, with the style name as a second argument when there is one,
      and registers the variable. */
  lemma LeafCalls(st: State, entry: Node, parent: Option<Node>)
    requires entry.Argument? || entry.Number? || entry.Date? || entry.Time?
    ensures var o := BuildCall(st, entry, parent);
            var fn := HelperName(entry);
            && fn in AllHelpers && fn != "none"
            && (entry.Argument? ==> o == Out(Ok(Call("__interpolate", [Identifier(entry.value)])), AddHelper(st, "__interpolate")))
            && (!entry.Argument? ==>
                  && (o.result.Ok? <==> !entry.style.Skeleton?)
                  && o.st == State(st.usedHelpers + {fn}, st.params + {entry.value}, st.plurals)
                  && (entry.style.NoStyle? ==> o.result == Ok(Call(fn, [Identifier(entry.value)])))
                  && (entry.style.Named? ==> o.result == Ok(Call(fn, [Identifier(entry.value), StringLit(entry.style.name)]))))
  {
  }

  /** A select becomes `__select(v, options)`; a plural becomes
      `__offsetPlural(v, offset, options)` for a non-zero offset and
      `__plural(v, options)` otherwise. The options object has one property per
      option, matching it, and the helper named is recorded. */
  lemma SelectCallShape(st: State, entry: Node)
    requires entry.Select?
    ensures var o := BuildCall(st, entry, None);
            o.result.Ok? ==>
              && "__select" in o.st.usedHelpers
              && exists props ::
                   && o.result.value == Call("__select", [Identifier(entry.value), Object(props)])
                   && PropsMatch(props, entry, entry.options, st.plurals)
  {
    var st1 := AddHelper(st, "__select");
    SelectEffect(st, entry);
    OptionsShape(st1, entry, entry.options, 0, []);
    var o := OptionsFrom(st1, entry, entry.options, 0, []);
    if o.result.Ok? {
      assert o.result.value[0..] == o.result.value;
      assert entry.options[0..] == entry.options;
    }
  }

  lemma PluralCallShape(st: State, entry: Node)
    requires entry.Plural?
    ensures var o := BuildCall(st, entry, None);
            var v, offset := entry.value, entry.offset;
            o.result.Ok? ==>
              && (offset != 0 ==> "__offsetPlural" in o.st.usedHelpers)
              && (offset == 0 ==> "__plural" in o.st.usedHelpers)
              && o.st.plurals == st.plurals
              && exists props ::
                   && PropsMatch(props, entry, entry.options, st.plurals + [PluralFrame(v, offset)])
                   && o.result.value == if offset != 0 then Call("__offsetPlural", [Identifier(v), NumLit(offset), Object(props)])
                                        else Call("__plural", [Identifier(v), Object(props)])
  {
    var helper := if entry.offset != 0 then OffsetPluralHelper else HelperName(entry);
    var st1 := AddHelper(st, helper).(plurals := st.plurals + [PluralFrame(entry.value, entry.offset)]);
    PluralEffect(st, entry);
    OptionsShape(st1, entry, entry.options, 0, []);
    var o := OptionsFrom(st1, entry, entry.options, 0, []);
    if o.result.Ok? {
      assert o.result.value[0..] == o.result.value;
      assert entry.options[0..] == entry.options;
    }
  }

  /** While a plural's options are built, that plural is the top of the stack;
      once it returns, the stack is as before, whether or not building succeeded
      below it. (On failure the push is left in place, as in the code.) */
  lemma PluralPushedForOptions(st: State, entry: Node)
    requires entry.Plural?
    ensures var st1 := AddHelper(st, if entry.offset != 0 then OffsetPluralHelper else "__plural")
                         .(plurals := st.plurals + [PluralFrame(entry.value, entry.offset)]);
            && st1.plurals[|st1.plurals| - 1] == PluralFrame(entry.value, entry.offset)
            && (BuildPlural(st, entry).result.Ok? ==> BuildPlural(st, entry).st.plurals == st.plurals)
  {
    PluralEffect(st, entry);
  }

  // ---------------------------------------------------------------------------
  // `#`
  // ---------------------------------------------------------------------------

  /** A `#` built directly: the variable of a plural parent (whatever its offset),
      and an error under any other parent or none. */
  lemma PoundDirect(st: State, parent: Option<Node>)
    ensures parent.Some? && parent.value.Plural? ==>
              BuildCall(st, Pound, parent) == Out(Ok(Identifier(parent.value.value)), st)
    ensures !(parent.Some? && parent.value.Plural?) ==>
              BuildCall(st, Pound, parent) == Out(Err(NotImplemented), st)
  {
  }

  /** A `#` inside a template: with no enclosing plural the loop stops with the
      error of reading the top of an empty stack; otherwise it appends the top
      plural's variable, minus its offset when that is non-zero, and reads only that
      variable. */
  lemma PoundInTemplateStep(st: State, ast: seq<Node>, i: nat, quasis: seq<Quasi>, exprs: seq<Expr>)
    requires i < |ast| && ast[i].Pound?
    ensures var s := TemplateStep(st, ast, i, quasis, exprs);
            && (|st.plurals| == 0 <==> s == Stop(Out(Err(NoEnclosingPlural), st)))
            && (|st.plurals| > 0 ==>
                  var top := st.plurals[|st.plurals| - 1];
                  && s.Next? && s.st == st
                  && s.exprs == exprs + [PoundInTemplate(top)]
                  && (top.offset != 0 ==> PoundInTemplate(top) == Minus(Identifier(top.value), NumLit(top.offset)))
                  && (top.offset == 0 ==> PoundInTemplate(top) == Identifier(top.value))
                  && Idents(PoundInTemplate(top)) == {top.value})
  {
  }

  /** A lone `#` in an option of a select fails even when a plural encloses the
      select, while the same `#` with text around it is resolved from the stack. */
  lemma LonePoundUnderSelect(st: State, select: Node, text: string)
    requires select.Select? && |st.plurals| > 0
    ensures BranchValue(st, select, [Pound]).result == Err(NotImplemented)
    ensures BranchValue(st, select, [Pound, Literal(text)]).result.Ok?
  {
    var body := [Pound, Literal(text)];
    BranchEffect(st, select, body);
    assert ElemOk(body[0], |st.plurals|) && ElemOk(body[1], |st.plurals|);
    assert ElemsOk(body, |st.plurals|, 2);
    assert ElemsOk(body, |st.plurals|, 1);
  }

  // ---------------------------------------------------------------------------
  // The fixtures
  // ---------------------------------------------------------------------------

  /** `{quantity, plural, =0 {none} =1 {one item} other {# items}}`. */
  const PluralFixture: seq<Node> := [Plural("quantity", [
    Branch("=0", [Literal("none")]),
    Branch("=1", [Literal("one item")]),
    Branch("other", [Pound, Literal(" items")])], 0)]

  /** It compiles to `quantity => __plural(quantity, {0: "none", 1: "one item",
      h: `${quantity} items`})`. */
  lemma PluralFixtureOutput(st: State)
    ensures CompileMessage(st, PluralFixture).result == Ok(Arrow(["quantity"], PluralFixtureCall))
  {
    var st0 := st.(params := {}, plurals := []);
    PluralFixtureBuilt(st0);
    SortSetUnique({"quantity"}, ["quantity"]);
  }

  const PluralFixtureProps: seq<Prop> := [
    Prop(NumLit(0), StringLit("none")),
    Prop(NumLit(1), StringLit("one item")),
    Prop(Identifier("h"), Template([Quasi("", false), Quasi(" items", true)], [Identifier("quantity")]))]

  const PluralFixtureCall: Expr := Call("__plural", [Identifier("quantity"), Object(PluralFixtureProps)])

  /** Built outside any plural, the fixture's plural records `__plural` and
      `quantity` and leaves the stack empty. */
  lemma PluralFixtureBuilt(st0: State)
    requires st0.plurals == []
    ensures BuildCall(st0, PluralFixture[0], None)
            == Out(Ok(PluralFixtureCall), AddParam(AddHelper(st0, "__plural"), "quantity"))
  {
    PluralFixturePlural(st0);
  }

  lemma PluralFixturePlural(st0: State)
    requires st0.plurals == []
    ensures BuildPlural(st0, PluralFixture[0])
            == Out(Ok(PluralFixtureCall), AddParam(AddHelper(st0, "__plural"), "quantity"))
  {
    var st1 := AddHelper(st0, "__plural").(plurals := st0.plurals + [PluralFrame("quantity", 0)]);
    PluralFixtureOptions(st1);
    PluralWithOptions(st0, PluralFixture[0], PluralFixtureProps);
  }

  /** A plural with offset 0 whose options build to `props` without touching the
      state becomes `__plural(v, {props})`. */
  lemma PluralWithOptions(st: State, entry: Node, props: seq<Prop>)
    requires entry.Plural? && entry.offset == 0
    requires var st1 := AddHelper(st, "__plural").(plurals := st.plurals + [PluralFrame(entry.value, 0)]);
             OptionsFrom(st1, entry, entry.options, 0, []) == Out(Ok(props), st1)
    ensures BuildPlural(st, entry)
            == Out(Ok(Call("__plural", [Identifier(entry.value), Object(props)])), AddParam(AddHelper(st, "__plural"), entry.value))
  {
    var st1 := AddHelper(st, "__plural").(plurals := st.plurals + [PluralFrame(entry.value, 0)]);
    assert Pop(st1.plurals) == st.plurals;
  }

  /** The options object of the fixture, built with its plural on the stack. */
  lemma PluralFixtureOptions(st1: State)
    requires st1.plurals == [PluralFrame("quantity", 0)]
    ensures OptionsFrom(st1, PluralFixture[0], PluralFixture[0].options, 0, []) == Out(Ok(PluralFixtureProps), st1)
  {
    var entry := PluralFixture[0];
    KeyOfDigit("=0", '0');
    KeyOfDigit("=1", '1');
    assert NormalizePluralKey("other") == NameKey("h");
    var h := Template([Quasi("", false), Quasi(" items", true)], [Identifier("quantity")]);
    PluralFixtureItems(st1);
    var p0 := Prop(NumLit(0), StringLit("none"));
    var p1 := Prop(NumLit(1), StringLit("one item"));
    var ph := Prop(Identifier("h"), h);
    var opts := entry.options;
    assert BranchValue(st1, entry, opts[0].body) == Out(Ok(StringLit("none")), st1);
    assert BranchValue(st1, entry, opts[1].body) == Out(Ok(StringLit("one item")), st1);
    assert BranchValue(st1, entry, opts[2].body) == Out(Ok(h), st1);
    assert OptionsFrom(st1, entry, opts, 3, [p0, p1, ph]) == Out(Ok([p0, p1, ph]), st1);
    assert [p0, p1] + [ph] == [p0, p1, ph];
    assert OptionsFrom(st1, entry, opts, 2, [p0, p1]) == Out(Ok([p0, p1, ph]), st1);
    assert [p0] + [p1] == [p0, p1];
    assert OptionsFrom(st1, entry, opts, 1, [p0]) == Out(Ok([p0, p1, ph]), st1);
    assert [] + [p0] == [p0];
  }

  /** `# items` under that plural: an opening empty quasi, the variable, the text. */
  lemma PluralFixtureItems(st1: State)
    requires st1.plurals == [PluralFrame("quantity", 0)]
    ensures TemplateFrom(st1, [Pound, Literal(" items")], 0, [], [])
            == Out(Ok(Template([Quasi("", false), Quasi(" items", true)], [Identifier("quantity")])), st1)
  {
    var body := [Pound, Literal(" items")];
    var s0 := TemplateStep(st1, body, 0, [], []);
    assert s0 == Next(st1, [Quasi("", false)], [Identifier("quantity")]);
    var s1 := TemplateStep(st1, body, 1, s0.quasis, s0.exprs);
    assert s1 == Next(st1, [Quasi("", false), Quasi(" items", true)], [Identifier("quantity")]);
  }

  /** `=<d>` normalises to the digit `d` in both modes. */
  lemma KeyOfDigit(k: string, d: char)
    requires k == ['=', d] && IsAsciiDigit(d)
    ensures NormalizePluralKey(k) == IntKey((d as int) - ('0' as int))
  {
    ExactKeyKeepsFirstDigit(d, []);
    assert "=" + [d] + [] == k;
  }

  /** `My super translation {quantity, plural, =0 {0} other {#}} with multiple
      {values} with weird {order}`. */
  const ComplexFixture: seq<Node> := [
    Literal("My super translation "),
    Plural("quantity", [Branch("=0", [Literal("0")]), Branch("other", [Pound])], 0),
    Literal(" with multiple "),
    Argument("values"),
    Literal(" with weird "),
    Argument("order")]

  /** Its closure takes `(order, quantity, values)` and uses `__plural` and
      `__interpolate`. */
  lemma ComplexFixtureParams(st: State)
    ensures var o := CompileMessage(st, ComplexFixture);
            && o.result.Ok?
            && o.result.value.params == ["order", "quantity", "values"]
            && o.st.usedHelpers == st.usedHelpers + {"__plural", "__interpolate"}
  {
    ComplexFixtureOk();
    ComplexFixtureSets();
    CompileMessageEffect(st, ComplexFixture);
    var params := ["order", "quantity", "values"];
    ComplexParamsSorted();
    SortedUnique(params, CompileMessage(st, ComplexFixture).result.value.params);
  }

  lemma ComplexParamsSorted()
    ensures StrictlySorted(["order", "quantity", "values"])
  {
    assert Below("order", "quantity") && Below("quantity", "values") && Below("order", "values");
  }

  lemma ComplexFixtureOk()
    ensures MessageOk(ComplexFixture)
  {
    var ast := ComplexFixture;
    var plural := ast[1];
    assert OptionsOk(plural.options, true, 1, 2);
    assert BodyOk(plural.options[1].body, true, 1);
    assert OptionsOk(plural.options, true, 1, 1);
    assert OptionsOk(plural.options, true, 1, 0);
    assert ElemOk(ast[1], 0);
    ElemsOkAll(ast, 0, 0);
  }

  lemma ComplexFixtureSets()
    ensures MessageParams(ComplexFixture) == {"order", "quantity", "values"}
    ensures MessageHelpers(ComplexFixture) == {"__plural", "__interpolate"}
  {
    ComplexFixtureParamsSet();
    ComplexFixtureHelpersSet();
  }

  /** The plural of the fixture records `__plural` and `quantity`, nothing below it. */
  lemma ComplexPluralEffects()
    ensures HelpersOf(ComplexFixture[1]) == {"__plural"}
    ensures ParamsOf(ComplexFixture[1]) == {"quantity"}
  {
    var plural := ComplexFixture[1];
    assert HelpersOfOptions(plural.options, 1) == {};
    assert HelpersOfOptions(plural.options, 0) == {};
    assert ParamsOfOptions(plural.options, 1) == {};
    assert ParamsOfOptions(plural.options, 0) == {};
  }

  lemma ComplexFixtureParamsSet()
    ensures MessageParams(ComplexFixture) == {"order", "quantity", "values"}
  {
    var ast := ComplexFixture;
    ComplexPluralEffects();
    assert ParamsOfElems(ast, 6) == {};
    assert ParamsOfElems(ast, 5) == {"order"};
    assert ParamsOfElems(ast, 4) == {"order"};
    assert ParamsOfElems(ast, 3) == {"values", "order"};
    assert ParamsOfElems(ast, 2) == {"values", "order"};
    assert ParamsOfElems(ast, 1) == {"quantity", "values", "order"};
  }

  lemma ComplexFixtureHelpersSet()
    ensures MessageHelpers(ComplexFixture) == {"__plural", "__interpolate"}
  {
    var ast := ComplexFixture;
    ComplexPluralEffects();
    assert HelpersOfElems(ast, 6) == {};
    assert HelpersOfElems(ast, 5) == {"__interpolate"};
    assert HelpersOfElems(ast, 4) == {"__interpolate"};
    assert HelpersOfElems(ast, 3) == {"__interpolate"};
    assert HelpersOfElems(ast, 2) == {"__interpolate"};
    assert HelpersOfElems(ast, 1) == {"__plural", "__interpolate"};
  }

  lemma {:induction false} ElemsOkAll(ast: seq<Node>, depth: nat, i: nat)
    requires i <= |ast|
    requires forall k :: i <= k < |ast| ==> ElemOk(ast[k], depth)
    ensures ElemsOk(ast, depth, i)
    decreases |ast| - i
  {
    if i < |ast| { ElemsOkAll(ast, depth, i + 1); }
  }
}
