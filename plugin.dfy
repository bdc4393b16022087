/**
 * The Babel plugin of src/babel-plugin.ts as objects with state: the in-memory
 * part of a locale's translation manager, and the plugin instance whose closure
 * variables `usedHelpers`, `currentFunctionParams` and `pluralsStack` become fields.
 * Each method is proved to leave the state, and return the result, that the
 * functions of `Lowering` describe.
 */
module BabelPlugin {
  import opened Opt
  import opened JsStrings
  import opened IcuAst
  import opened JsAst
  import opened Keys
  import opened Lowering

  /** What `get` returns and what `messages` becomes, for a message id: a stored
      translation is used when truthy (present and non-empty); otherwise the id is
      stored as its own translation and returned. */
  function Resolve(messages: map<string, string>, messageId: string): (r: (string, map<string, string>))
    ensures messageId in r.1 && r.1[messageId] == r.0
    ensures r.1.Keys == messages.Keys + {messageId}
    ensures forall k :: k in messages && k != messageId ==> k in r.1 && r.1[k] == messages[k]
    ensures messageId in messages && messages[messageId] != "" ==> r == (messages[messageId], messages)
    ensures !(messageId in messages && messages[messageId] != "") ==> r.0 == messageId
  {
    if messageId in messages && messages[messageId] != "" then (messages[messageId], messages)
    else (messageId, messages[messageId := messageId])
  }

  /** A second lookup of the same id returns the same translation and changes nothing. */
  lemma ResolveIdempotent(messages: map<string, string>, messageId: string)
    ensures var (t, m) := Resolve(messages, messageId);
            Resolve(m, messageId) == (t, m)
  {
    var (t, m) := Resolve(messages, messageId);
    if t == "" {
      // the empty id is stored as its own, falsy, translation and stored again
      assert m[messageId := messageId] == m;
    }
  }

  /** The in-memory translations of one locale. Reading, writing and watching the
      translation file are not modelled. */
  class TranslationManager {
    var messages: map<string, string>

    constructor (initial: map<string, string>)
      ensures messages == initial
    {
      messages := initial;
    }

    /** `get(messageId)`. */
    method Get(messageId: string) returns (translation: string)
      modifies this
      ensures (translation, messages) == Resolve(old(messages), messageId)
    {
      if !(messageId in messages && messages[messageId] != "") {
        messages := messages[messageId := messageId];
      }
      translation := messages[messageId];
    }
  }

  /** The `CallExpression` visitor's test: a call of `_` whose first argument is a
      string literal. */
  predicate IsTranslationCall(callee: Expr, args: seq<Expr>) {
    callee == Identifier("_") && |args| >= 1 && args[0].StringLit?
  }

  /** One plugin instance: the compiler state and the translations of its locale. */
  class Plugin {
    var usedHelpers: set<string>
    var currentFunctionParams: set<string>
    var pluralsStack: seq<PluralFrame>
    const translations: TranslationManager

    function Current(): State
      reads this
    {
      State(usedHelpers, currentFunctionParams, pluralsStack)
    }

    constructor (translations: TranslationManager)
      ensures Current() == State({}, {}, []) && this.translations == translations
    {
      usedHelpers := {};
      currentFunctionParams := {};
      pluralsStack := [];
      this.translations := translations;
    }

    /** `buildCallExpression(entry, parent)`; an `Err` result is a thrown error. */
    method BuildCallExpression(entry: Node, parent: Option<Node>) returns (r: Result<Expr>)
      modifies this
      ensures Out(r, Current()) == BuildCall(old(Current()), entry, parent)
      decreases NodeSize(entry), 0, 0
    {
      var fnName := HelperName(entry);
      if entry.Literal? || entry.Tag? {
        return Err(NotImplemented);
      }
      if entry.Pound? {
        if parent.Some? && parent.value.Plural? {
          return Ok(Identifier(parent.value.value));
        }
        return Err(NotImplemented);
      }

      if entry.Plural? && entry.offset != 0 {
        usedHelpers := usedHelpers + {OffsetPluralHelper};
      } else if fnName != "none" {
        usedHelpers := usedHelpers + {fnName};
      }

      if entry.Argument? || entry.Number? || entry.Date? || entry.Time? {
        var callArgs: seq<Expr>;
        if entry.Number? || entry.Date? || entry.Time? {
          currentFunctionParams := currentFunctionParams + {entry.value};
          if entry.style.Named? {
            callArgs := [Identifier(entry.value), StringLit(entry.style.name)];
          } else if entry.style.Skeleton? {
            return Err(NotImplemented);
          } else {
            callArgs := [Identifier(entry.value)];
          }
        } else {
          callArgs := [Identifier(entry.value)];
        }
        return Ok(Call(fnName, callArgs));
      }

      if entry.Plural? {
        pluralsStack := pluralsStack + [PluralFrame(entry.value, entry.offset)];
      }
      var options := BuildOptions(entry, entry.options);
      if options.Err? {
        return Err(options.error);
      }
      if entry.Plural? && |pluralsStack| > 0 {
        pluralsStack := pluralsStack[..|pluralsStack| - 1];
      }
      currentFunctionParams := currentFunctionParams + {entry.value};
      if entry.Plural? && entry.offset != 0 {
        r := Ok(Call(OffsetPluralHelper, [Identifier(entry.value), NumLit(entry.offset), Object(options.value)]));
      } else {
        r := Ok(Call(fnName, [Identifier(entry.value), Object(options.value)]));
      }
    }

    /** The `Object.keys(entry.options).map(...)` of a select or plural. */
    method BuildOptions(entry: Node, opts: seq<Branch>) returns (r: Result<seq<Prop>>)
      modifies this
      ensures Out(r, Current()) == OptionsFrom(old(Current()), entry, opts, 0, [])
      decreases BranchesSize(opts), 3, 0
    {
      var props: seq<Prop> := [];
      for j := 0 to |opts|
        invariant OptionsFrom(Current(), entry, opts, j, props) == OptionsFrom(old(Current()), entry, opts, 0, [])
      {
        BodySizeAt(opts, j);
        var value := BuildBranchValue(entry, opts[j].body);
        if value.Err? {
          return Err(value.error);
        }
        var normalizedKey := if entry.Plural? then NormalizePluralKey(opts[j].key) else NormalizeKey(opts[j].key);
        props := props + [Prop(KeyExpr(normalizedKey), value.value)];
      }
      r := Ok(props);
    }

    /** The value of one option body. */
    method BuildBranchValue(entry: Node, body: seq<Node>) returns (r: Result<Expr>)
      modifies this
      ensures Out(r, Current()) == BranchValue(old(Current()), entry, body)
      decreases NodesSize(body), 2, 0
    {
      if |body| == 1 && body[0].Literal? {
        r := Ok(StringLit(body[0].value));
      } else if |body| == 1 {
        r := BuildCallExpression(body[0], Some(entry));
      } else {
        r := BuildTemplateLiteral(body);
      }
    }

    /** `buildTemplateLiteral(ast)`. */
    method BuildTemplateLiteral(ast: seq<Node>) returns (r: Result<Expr>)
      modifies this
      ensures Out(r, Current()) == TemplateFrom(old(Current()), ast, 0, [], [])
      decreases NodesSize(ast), 1, 0
    {
      var quasis: seq<Quasi> := [];
      var expressions: seq<Expr> := [];
      for i := 0 to |ast|
        invariant TemplateFrom(Current(), ast, i, quasis, expressions) == TemplateFrom(old(Current()), ast, 0, [], [])
      {
        var entry := ast[i];
        ghost var q0 := quasis;
        if entry.Literal? {
          quasis := quasis + [Quasi(entry.value, i == |ast| - 1)];
        } else if entry.Pound? {
          if |pluralsStack| == 0 {
            return Err(NoEnclosingPlural);
          }
          var lastPlural := pluralsStack[|pluralsStack| - 1];
          if lastPlural.offset != 0 {
            expressions := expressions + [Minus(Identifier(lastPlural.value), NumLit(lastPlural.offset))];
          } else {
            expressions := expressions + [Identifier(lastPlural.value)];
          }
          if i == 0 {
            quasis := quasis + [Quasi("", false)];
          }
        } else if entry.Tag? {
          // unsupported entry type: reported on the console and skipped
        } else {
          NodeSizeAt(ast, i);
          var e := BuildCallExpression(entry, None);
          if e.Err? {
            return e;
          }
          expressions := expressions + [e.value];
          if !(entry.Select? || entry.Plural?) {
            currentFunctionParams := currentFunctionParams + {entry.value};
          }
          if entry.Argument? && i == 0 {
            quasis := quasis + [Quasi("", false)];
          }
        }
        ghost var q1 := quasis;
        if i == |ast| - 1 && !entry.Literal? {
          quasis := quasis + [Quasi("", true)];
        }
        assert !entry.Literal? ==> quasis == q1 + TailFor(ast, i);
        assert q0 + [] == q0;
      }
      r := Ok(Template(quasis, expressions));
    }

    /** `buildFunction(ast)`. */
    method BuildFunction(ast: seq<Node>) returns (r: Result<Expr>)
      modifies this
      ensures Out(r, Current()) == CompileMessage(old(Current()), ast)
    {
      currentFunctionParams := {};
      pluralsStack := [];
      var body: Result<Expr>;
      if |ast| == 1 {
        body := BuildCallExpression(ast[0], None);
      } else {
        body := BuildTemplateLiteral(ast);
      }
      if body.Err? {
        return body;
      }
      var params := SortNames(currentFunctionParams);
      r := Ok(Arrow(params, body.value));
    }

    /** The `Program` enter step: a new file starts with no used helpers. */
    method ProgramEnter()
      modifies this
      ensures usedHelpers == {}
      ensures currentFunctionParams == old(currentFunctionParams) && pluralsStack == old(pluralsStack)
    {
      usedHelpers := {};
    }

    /** The `Program` exit step: the `usesIntl` flag and, when some helper was used,
        one import of all of them, sorted. */
    method ProgramExit() returns (usesIntl: bool, decl: Option<ImportDecl>)
      ensures usesIntl <==> usedHelpers != {}
      ensures decl.Some? <==> usesIntl
      ensures decl.Some? ==> decl.value.source == RuntimePackage
      ensures decl.Some? ==> StrictlySorted(decl.value.names)
      ensures decl.Some? ==> forall h :: h in decl.value.names <==> h in usedHelpers
    {
      usesIntl := |usedHelpers| > 0;
      if usesIntl {
        var names := SortNames(usedHelpers);
        decl := Some(ImportDecl(names, RuntimePackage));
      } else {
        decl := None;
      }
    }

    /** The `CallExpression` visitor: a call `_("id", ...)` gets its first argument
        replaced by the compiled translation of "id". `parse` stands for the ICU
        parser, `None` for a translation it rejects: that error ends the visit after
        `get` has stored the id, and before the compiler state is touched. */
    method VisitCallExpression(callee: Expr, args: seq<Expr>, parse: string -> Option<seq<Node>>)
      returns (newArgs: Result<seq<Expr>>)
      modifies this, translations
      ensures !IsTranslationCall(callee, args) ==>
                newArgs == Ok(args) && Current() == old(Current())
                && translations.messages == old(translations.messages)
      ensures IsTranslationCall(callee, args) ==>
                var (translated, messages) := Resolve(old(translations.messages), args[0].value);
                && translations.messages == messages
                && (parse(translated).None? ==> newArgs == Err(SyntaxError) && Current() == old(Current()))
                && (parse(translated).Some? ==>
                      var o := Replacement(old(Current()), translated, parse(translated).value);
                      && Current() == o.st
                      && newArgs == (if o.result.Ok? then Ok(args[0 := o.result.value]) else Err(o.result.error)))
    {
      if !IsTranslationCall(callee, args) {
        return Ok(args);
      }
      var messageId := args[0].value;
      var translatedMessage := translations.Get(messageId);
      var parsed := parse(translatedMessage);
      if parsed.None? {
        return Err(SyntaxError);
      }
      var icuAst := parsed.value;
      if |icuAst| == 1 && icuAst[0].Literal? {
        newArgs := Ok(args[0 := StringLit(translatedMessage)]);
      } else {
        var f := BuildFunction(icuAst);
        if f.Err? {
          return Err(f.error);
        }
        newArgs := Ok(args[0 := f.value]);
      }
    }
  }
}
