/**
 * The runtime of src/index.ts that compiled messages call: the interpolation,
 * select and plural helpers, `format`, the format-option lookup, the current
 * locale and the memoising cache.
 *
 * Locale data stays outside the model: the plural category a locale's rules
 * pick for a number, and a number's string form, are parameters.
 */
module Runtime {
  import opened Opt
  import opened JsStrings
  import opened Keys

  /** The names the runtime module exports. */
  const RuntimeExports: set<string> :=
    {"getCurrentLocale", "setCurrentLocale", "formatNumber", "formatDate", "formatTime",
     "__interpolate", "__plural", "__select", "__number", "__date", "__time", "format", "_"}

  /** The values a closure passes on: numbers (integers here), strings, or undefined. */
  datatype JsValue = Num(n: int) | Str(s: string) | Undefined

  /** `__interpolate(value)`: 0 prints as "0" (it would otherwise fall to the `|| ""`
      fallback only if its string form were empty), undefined as "", anything else
      as its string form. */
  function Interpolate(value: JsValue, numberToString: int -> string): (r: string)
    ensures value == Num(0) ==> r == "0"
    ensures value.Undefined? ==> r == ""
    ensures value.Str? ==> r == value.s
    ensures value.Num? && value.n != 0 ==> r == numberToString(value.n)
  {
    match value
    case Num(n) => if n == 0 then "0" else numberToString(n)
    case Str(s) => s
    case Undefined => ""
  }

  /** Zero is never swallowed, whatever string form numbers get. */
  lemma InterpolateZero(numberToString: int -> string)
    ensures Interpolate(Num(0), numberToString) != ""
  {
  }

  // ---------------------------------------------------------------------------
  // Plural categories
  // ---------------------------------------------------------------------------

  /** What `Intl.PluralRules.prototype.select` returns. */
  datatype Category = Zero | One | Two | Few | Many | Other

  function CategoryName(c: Category): string {
    match c
    case Zero => "zero"
    case One => "one"
    case Two => "two"
    case Few => "few"
    case Many => "many"
    case Other => "other"
  }

  /** `getLocalPluralFor`, given the category the current locale selects: `h` for
      `other`, the first letter otherwise. */
  function LocalPluralFor(c: Category): (r: string)
    ensures |r| == 1
    ensures r == "h" <==> c == Other
    ensures c != Other ==> r[0] == CategoryName(c)[0]
  {
    var key := CategoryName(c);
    if key == "other" then "h" else [key[0]]
  }

  /** The runtime's key for each category is the compiler's abbreviation of it. */
  lemma LocalPluralForAgrees(c: Category)
    ensures PluralAbbreviation(CategoryName(c)) == Some(LocalPluralFor(c))
    ensures NormalizePluralKey(CategoryName(c)) == NameKey(LocalPluralFor(c))
  {
    assert CategoryName(c) in PluralCategories;
  }

  /** Distinct categories have distinct keys. */
  lemma LocalPluralForInjective(a: Category, b: Category)
    ensures LocalPluralFor(a) == LocalPluralFor(b) ==> a == b
  {
  }

  // ---------------------------------------------------------------------------
  // Select and plural
  // ---------------------------------------------------------------------------

  /** `opts[key] || fallback`: a present, non-empty entry, else the fallback. */
  function Lookup(opts: map<string, string>, key: string, fallback: string): (r: string)
    ensures key in opts && opts[key] != "" ==> r == opts[key]
    ensures !(key in opts && opts[key] != "") ==> r == fallback
  {
    if key in opts && opts[key] != "" then opts[key] else fallback
  }

  /** `__select(value, opts)`: the option named by the value, else `other`, else "". */
  function Select(value: string, opts: map<string, string>): (r: string)
    ensures r == "" || r in opts.Values
    ensures value in opts && opts[value] != "" ==> r == opts[value]
    ensures !(value in opts && opts[value] != "") && "other" in opts && opts["other"] != "" ==> r == opts["other"]
    ensures !(value in opts && opts[value] != "") && !("other" in opts && opts["other"] != "") ==> r == ""
  {
    Lookup(opts, value, Lookup(opts, "other", ""))
  }

  /** A select compiled with an `other` option falls back to it: `normalizeKey`
      keeps `other` as the property name the runtime reads. */
  lemma SelectFallsBackToOther(value: string, opts: map<string, string>, text: string)
    requires !(value in opts && opts[value] != "") && text != ""
    requires NormalizeKey("other").NameKey? && NormalizeKey("other").s in opts
    requires opts[NormalizeKey("other").s] == text
    ensures Select(value, opts) == text
  {
    SelectKeepsNames("other");
  }

  /** `__plural(value, opts)`: the option keyed by the value itself, else the one
      keyed by the value's category, else "". `category` stands for the current
      locale's plural rules and `numberToString` for the property name of a number. */
  function Plural(value: int, opts: map<string, string>, category: int -> Category,
                  numberToString: int -> string): (r: string)
    ensures r == "" || r in opts.Values
    ensures var exact := numberToString(value);
            exact in opts && opts[exact] != "" ==> r == opts[exact]
    ensures var exact, cat := numberToString(value), LocalPluralFor(category(value));
            !(exact in opts && opts[exact] != "") ==> r == Lookup(opts, cat, "")
  {
    Lookup(opts, numberToString(value), Lookup(opts, LocalPluralFor(category(value)), ""))
  }

  /** A plural option written with a category name reaches the runtime under the
      key it looks up: with no exact match, the value's category picks the option
      that was written `zero`, `one`, ... or `other`. */
  lemma PluralFindsCategoryOption(value: int, opts: map<string, string>, category: int -> Category,
                                   numberToString: int -> string, text: string)
    requires text != ""
    requires NormalizePluralKey(CategoryName(category(value))).NameKey?
    requires NormalizePluralKey(CategoryName(category(value))).s in opts
    requires opts[NormalizePluralKey(CategoryName(category(value))).s] == text
    requires !(numberToString(value) in opts && opts[numberToString(value)] != "")
    ensures Plural(value, opts, category, numberToString) == text
  {
    LocalPluralForAgrees(category(value));
  }

  // ---------------------------------------------------------------------------
  // format
  // ---------------------------------------------------------------------------

  /** A compiled message: a plain string or a closure over positional arguments. */
  datatype Message = Text(text: string) | Closure(f: seq<string> -> string)

  /** The arguments `format` passes: the option values in sorted key order. */
  ghost function ArgsFor(options: map<string, string>): (r: seq<string>)
    ensures var keys := SortSet(options.Keys);
            |r| == |keys| && forall i :: 0 <= i < |r| ==> keys[i] in options && r[i] == options[keys[i]]
  {
    var keys := SortSet(options.Keys);
    seq(|keys|, i requires 0 <= i < |keys| => options[keys[i]])
  }

  /** `format(message, options)`: a string is returned as is; a closure is called
      on the values of `options` (none when it is absent), by sorted key. */
  ghost function Format(message: Message, options: Option<map<string, string>>): (r: string)
    ensures message.Text? ==> r == message.text
    ensures message.Closure? ==> r == message.f(ArgsFor(if options.Some? then options.value else map[]))
  {
    match message
    case Text(s) => s
    case Closure(f) => f(ArgsFor(if options.Some? then options.value else map[]))
  }

  /** The closure's parameters are sorted too, so when `options` has exactly the
      closure's parameter names as keys, every parameter receives the value of its
      own name. */
  lemma FormatBindsByName(params: seq<string>, options: map<string, string>)
    requires StrictlySorted(params)
    requires forall x :: x in params <==> x in options
    ensures |ArgsFor(options)| == |params|
    ensures forall i :: 0 <= i < |params| ==> params[i] in options && ArgsFor(options)[i] == options[params[i]]
  {
    SortSetUnique(options.Keys, params);
  }

  // ---------------------------------------------------------------------------
  // getOptions
  // ---------------------------------------------------------------------------

  /** The `format` argument of the number, date and time helpers: the name of a
      configured format, or an options object given inline. */
  datatype FormatArg<T> = Named(name: string) | Inline(options: T)

  datatype Options<T> = Found(value: T) | InvalidFormat(format: FormatArg<T>)

  const DefaultFormat := "default"

  /** `getOptions(format = "default", options)`: a name is looked up in the table,
      an inline object is used as is; a missing entry is the `Invalid format` error.
      Option objects themselves are always truthy. */
  function GetOptions<T>(format: Option<FormatArg<T>>, table: map<string, T>): (r: Options<T>)
    ensures var f := if format.Some? then format.value else Named(DefaultFormat);
            && (f.Inline? ==> r == Found(f.options))
            && (f.Named? ==> (r.Found? <==> f.name in table) && (r.Found? ==> r.value == table[f.name]))
            && (r.InvalidFormat? ==> r.format == f)
  {
    var f := if format.Some? then format.value else Named(DefaultFormat);
    match f
    case Inline(o) => Found(o)
    case Named(n) => if n in table then Found(table[n]) else InvalidFormat(f)
  }

  /** Leaving the format out is asking for the one named "default". */
  lemma GetOptionsDefault<T>(table: map<string, T>)
    ensures GetOptions(None, table) == GetOptions(Some(Named(DefaultFormat)), table)
  {
  }

  // ---------------------------------------------------------------------------
  // The current locale
  // ---------------------------------------------------------------------------

  /** An `Intl` options object, kept abstract. */
  datatype IntlOptions = IntlOptions(fields: map<string, string>)

  datatype Formats = Formats(number: map<string, IntlOptions>, date: map<string, IntlOptions>,
                             time: map<string, IntlOptions>)

  const DefaultLocale := "en-GB"

  /** The module-level `locale` and `formats` variables. */
  class LocaleState {
    var locale: Option<string>
    var formats: Formats

    constructor ()
      ensures locale == None && formats == Formats(map[], map[], map[])
    {
      locale := None;
      formats := Formats(map[], map[], map[]);
    }

    /** `getCurrentLocale()`: the stored locale when it is set and non-empty, else
        "en-GB". */
    function CurrentLocale(): (r: string)
      reads this
      ensures r != ""
      ensures locale.Some? && locale.value != "" ==> r == locale.value
      ensures !(locale.Some? && locale.value != "") ==> r == DefaultLocale
    {
      if locale.Some? && locale.value != "" then locale.value else DefaultLocale
    }

    /** `setCurrentLocale(newLocale, newFormats)` replaces both variables. */
    method SetCurrentLocale(newLocale: string, newFormats: Formats)
      modifies this
      ensures locale == Some(newLocale) && formats == newFormats
      ensures newLocale != "" ==> CurrentLocale() == newLocale
      ensures newLocale == "" ==> CurrentLocale() == DefaultLocale
    {
      locale := Some(newLocale);
      formats := newFormats;
    }
  }

  // ---------------------------------------------------------------------------
  // monadicMemoize
  // ---------------------------------------------------------------------------

  /** `monadicMemoize(fn)`: a cache keyed by the (serialised) arguments. `misses`
      records, in order, the keys `fn` was called on. */
  class Memo<K(==, !new), V> {
    const fn: K -> V
    var cache: map<K, V>
    ghost var misses: seq<K>

    /** Each cached value is `fn` of its key, and `fn` was called exactly once for
        each cached key and never for any other. */
    ghost predicate Valid()
      reads this
    {
      && (forall k :: k in cache ==> cache[k] == fn(k))
      && (forall k :: k in cache <==> k in misses)
      && (forall i, j :: 0 <= i < j < |misses| ==> misses[i] != misses[j])
    }

    constructor (fn: K -> V)
      ensures Valid() && this.fn == fn && cache == map[] && misses == []
    {
      this.fn := fn;
      cache := map[];
      misses := [];
    }

    /** `memoizedFn(...args)`: a hit returns the cached value and changes nothing; a
        miss calls `fn` once and stores its result. Either way the result is `fn`'s. */
    method Call(key: K) returns (v: V)
      requires Valid()
      modifies this
      ensures Valid()
      ensures v == fn(key)
      ensures old(key in cache) ==> cache == old(cache) && misses == old(misses)
      ensures !old(key in cache) ==> cache == old(cache)[key := v] && misses == old(misses) + [key]
    {
      if key in cache {
        return cache[key];
      }
      v := fn(key);
      cache := cache[key := v];
      misses := misses + [key];
    }
  }
}
