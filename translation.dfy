/**
 * `getStaticTranslation`: a dotted key looked up in the chosen locale's translation tree, falling back to
 * the Russian tree on the first missing segment, then `{name}` placeholders replaced from the parameters.
 */
module Translation {
  import opened Common
  import opened Strings

  /** A value of a translation file: a string, an object, or anything else (numbers, `null`, ...). */
  datatype Json = Str(s: string) | Obj(fields: map<string, Json>) | Other

  /** A parameter value: `string | number` (numbers are integers here). */
  datatype ParamValue = Text(t: string) | Number(n: int)

  /** `String(v)`. */
  function ParamText(v: ParamValue): string {
    match v
    case Text(t) => t
    case Number(n) => IntToString(n)
  }

  /** The three bundled translation trees. */
  datatype Bundles = Bundles(ru: Json, tg: Json, en: Json)

  /** `locale in translations ? locale : "ru"`. */
  function ValidLocale(locale: string): (r: string)
    ensures r in {"ru", "tg", "en"}
    ensures locale in {"ru", "tg", "en"} ==> r == locale
  {
    if locale in {"ru", "tg", "en"} then locale else "ru"
  }

  function Tree(b: Bundles, locale: string): Json {
    if locale == "tg" then b.tg else if locale == "en" then b.en else b.ru
  }

  /** Following a key path from `tree`: `None` at the first segment that is not a key of an object. */
  function Walk(tree: Json, keys: seq<string>): Option<Json>
    decreases |keys|
  {
    if keys == [] then Some(tree)
    else match Walk(tree, keys[..|keys| - 1])
      case Some(Obj(fields)) => if keys[|keys| - 1] in fields then Some(fields[keys[|keys| - 1]]) else None
      case _ => None
  }

  /** The reference result: the chosen locale's value if the whole path exists there, otherwise the
      Russian value; the key itself when neither exists or the value found is not a string. */
  function Translated(b: Bundles, locale: string, key: string, params: Option<map<string, ParamValue>>): string {
    var keys := Split(key, '.');
    var found: Option<Json> := match Walk(Tree(b, ValidLocale(locale)), keys)
      case Some(v) => Some(v)
      case None => Walk(b.ru, keys);
    match found
    case Some(Str(s)) => if params.Some? then Substitute(s, params.value) else s
    case _ => key
  }

  /** The translation function `getStaticTranslation(locale)` returns, applied to `key` and `params`: the
      walk over the key path with its restart in Russian on the first miss. */
  method GetStaticTranslation(b: Bundles, locale: string, key: string, params: Option<map<string, ParamValue>>)
    returns (r: string)
    ensures r == Translated(b, locale, key, params)
  {
    var keys := Split(key, '.');
    var value := Tree(b, ValidLocale(locale));
    var i := 0;
    while i < |keys|
      invariant 0 <= i <= |keys|
      invariant Walk(Tree(b, ValidLocale(locale)), keys[..i]) == Some(value)
    {
      var k := keys[i];
      assert keys[..i + 1][..i] == keys[..i];
      if value.Obj? && k in value.fields {
        value := value.fields[k];
        i := i + 1;
      } else {
        MissStaysMissing(Tree(b, ValidLocale(locale)), keys, i + 1);
        var fallback := WalkRussian(b.ru, keys);
        if fallback.None? {
          return key;
        }
        value := fallback.value;
        break;
      }
    }
    if i == |keys| {
      assert keys[..i] == keys;
    }
    if !value.Str? {
      return key;
    }
    if params.Some? {
      return Substitute(value.s, params.value);
    }
    return value.s;
  }

  /** The inner loop of the lookup: the same walk over the Russian tree, `None` at the first miss (where the
      source returns the key). */
  method WalkRussian(ru: Json, keys: seq<string>) returns (found: Option<Json>)
    ensures found == Walk(ru, keys)
  {
    var value := ru;
    var j := 0;
    while j < |keys|
      invariant 0 <= j <= |keys|
      invariant Walk(ru, keys[..j]) == Some(value)
    {
      assert keys[..j + 1][..j] == keys[..j];
      if value.Obj? && keys[j] in value.fields {
        value := value.fields[keys[j]];
        j := j + 1;
      } else {
        MissStaysMissing(ru, keys, j + 1);
        return None;
      }
    }
    assert keys[..j] == keys;
    return Some(value);
  }

  /** Once a prefix of the path misses, the whole path misses. */
  lemma {:induction false} MissStaysMissing(tree: Json, keys: seq<string>, n: nat)
    requires n <= |keys| && Walk(tree, keys[..n]) == None
    ensures Walk(tree, keys) == None
    decreases |keys| - n
  {
    if n < |keys| {
      assert keys[..n + 1][..n] == keys[..n];
      MissStaysMissing(tree, keys, n + 1);
    } else {
      assert keys[..n] == keys;
    }
  }

  // ---------------------------------------------------------------------------------------------
  // value.replace(/\{(\w+)\}/g, (match, paramKey) => params[paramKey]?.toString() || match)

  /** The longest leading run of `\w` characters. */
  function WordRun(s: string): (r: string)
    ensures |r| <= |s| && r == s[..|r|]
    ensures forall i | 0 <= i < |r| :: IsWordChar(r[i])
    ensures |r| < |s| ==> !IsWordChar(s[|r|])
  {
    if s != [] && IsWordChar(s[0]) then [s[0]] + WordRun(s[1..]) else []
  }

  /** What one placeholder `{name}` becomes: the parameter's text, or the placeholder itself when the
      parameter is missing or its text is empty. */
  function Replacement(name: string, params: map<string, ParamValue>): string {
    if name in params && ParamText(params[name]) != "" then ParamText(params[name]) else "{" + name + "}"
  }

  /** The global replace: scan left to right; at a `{`, a non-empty word run followed by `}` is a match,
      which is replaced and scanning resumes after it. */
  function Substitute(s: string, params: map<string, ParamValue>): string
    decreases |s|
  {
    if s == [] then []
    else if s[0] == '{' && 1 + |WordRun(s[1..])| < |s| && |WordRun(s[1..])| >= 1 && s[1 + |WordRun(s[1..])|] == '}' then
      var name := WordRun(s[1..]);
      Replacement(name, params) + Substitute(s[|name| + 2..], params)
    else [s[0]] + Substitute(s[1..], params)
  }

  /** Text without `{` comes back unchanged. */
  lemma {:induction false} NoPlaceholderUnchanged(s: string, params: map<string, ParamValue>)
    requires '{' !in s
    ensures Substitute(s, params) == s
    decreases |s|
  {
    if s != [] {
      NoPlaceholderUnchanged(s[1..], params);
      assert s == [s[0]] + s[1..];
    }
  }

  lemma {:induction false} WordRunOfWord(name: string, rest: string)
    requires forall i | 0 <= i < |name| :: IsWordChar(name[i])
    requires rest == [] || !IsWordChar(rest[0])
    ensures WordRun(name + rest) == name
    decreases |name|
  {
    if name == [] {
      assert name + rest == rest;
    } else {
      assert (name + rest)[1..] == name[1..] + rest;
      WordRunOfWord(name[1..], rest);
    }
  }

  /** A placeholder at the front is replaced once and the scan resumes after it: the inserted text is
      never scanned again, even when it looks like a placeholder itself. */
  lemma PlaceholderReplacedOnce(name: string, rest: string, params: map<string, ParamValue>)
    requires |name| >= 1 && forall i | 0 <= i < |name| :: IsWordChar(name[i])
    ensures Substitute("{" + name + "}" + rest, params) == Replacement(name, params) + Substitute(rest, params)
  {
    var s := "{" + name + "}" + rest;
    assert s[1..] == name + ("}" + rest);
    WordRunOfWord(name, "}" + rest);
    assert s[1 + |name|] == '}';
    assert s[|name| + 2..] == rest;
  }

  /** A placeholder whose parameter is missing or empty stays as written. */
  lemma MissingParameterKept(name: string, rest: string, params: map<string, ParamValue>)
    requires |name| >= 1 && forall i | 0 <= i < |name| :: IsWordChar(name[i])
    requires name !in params || ParamText(params[name]) == ""
    ensures Substitute("{" + name + "}" + rest, params) == "{" + name + "}" + Substitute(rest, params)
  {
    PlaceholderReplacedOnce(name, rest, params);
  }

  // ---------------------------------------------------------------------------------------------
  // Properties of the lookup

  /** An unknown locale reads the Russian tree. */
  lemma UnknownLocaleIsRussian(b: Bundles, locale: string, key: string, params: Option<map<string, ParamValue>>)
    requires locale !in {"ru", "tg", "en"}
    ensures Translated(b, locale, key, params) == Translated(b, "ru", key, params)
  {
  }

  /** A path that exists in the chosen locale wins; a value there that is not a string yields the key,
      without trying Russian. */
  lemma ChosenLocaleWins(b: Bundles, locale: string, key: string, params: Option<map<string, ParamValue>>)
    requires Walk(Tree(b, ValidLocale(locale)), Split(key, '.')).Some?
    ensures var v := Walk(Tree(b, ValidLocale(locale)), Split(key, '.')).value;
      Translated(b, locale, key, params) == if v.Str? then (if params.Some? then Substitute(v.s, params.value) else v.s)
                                           else key
  {
  }

  /** Missing everywhere: the key itself. */
  lemma MissingEverywhereGivesKey(b: Bundles, locale: string, key: string, params: Option<map<string, ParamValue>>)
    requires Walk(Tree(b, ValidLocale(locale)), Split(key, '.')).None? && Walk(b.ru, Split(key, '.')).None?
    ensures Translated(b, locale, key, params) == key
  {
  }

  /** A translation that exists only in Russian comes from the Russian tree. */
  lemma RussianFallback(b: Bundles, locale: string, key: string, s: string)
    requires Walk(Tree(b, ValidLocale(locale)), Split(key, '.')).None? && Walk(b.ru, Split(key, '.')) == Some(Str(s))
    ensures Translated(b, locale, key, None) == s
  {
  }
}
