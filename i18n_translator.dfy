/** The translation service of backend/i18n/translator.py: language-code
    normalisation, the dotted-key walk through a loaded translation table,
    the fallback from the requested language to English to the key itself,
    and `{{name}}` interpolation.

    Reading the JSON files is not modelled: what each file held, if it
    exists, is given to the constructor. */
module I18nTranslator {
  import opened Wrappers
  import opened Text

  /** A value of a loaded translation file. Numbers, lists, booleans and null
      are all `JOther`: the lookup treats them alike. */
  datatype Json = JStr(s: string) | JObj(fields: map<string, Json>) | JOther

  /** `self.translations`: the loaded table of each language code. */
  type Tables = map<string, Json>

  const EnglishAliases: seq<string> := ["en", "eng", "english", "en-us", "en-gb"]
  const SpanishAliases: seq<string> := ["es", "esp", "spanish", "es-es", "es-mx", "espa\U{F1}ol"]

  // ----- language codes -----

  /** `_normalize_language`: every code maps to 'en' or 'es', and to 'es'
      exactly when its lowercased, stripped form is a Spanish alias. */
  function NormalizeLanguage(language: string): (r: string)
    ensures r == "en" || r == "es"
    ensures r == "es" <==> Strip(Lower(language)) in SpanishAliases
  {
    var code := Strip(Lower(language));
    if code in EnglishAliases then "en"
    else if code in SpanishAliases then "es"
    else "en"
  }

  /** `get_language_name`. */
  function LanguageName(languageCode: string): (r: string)
    ensures r == "English" || r == "Espa\U{F1}ol"
    ensures r == "Espa\U{F1}ol" <==> Strip(Lower(languageCode)) in SpanishAliases
  {
    if NormalizeLanguage(languageCode) == "es" then "Espa\U{F1}ol" else "English"
  }

  // ----- nested keys -----

  /** Follow the segments `keys` from `value`; `None` as soon as a value on
      the way is not an object or lacks the next segment. */
  function Walk(value: Json, keys: seq<string>): Option<Json> {
    if keys == [] then Some(value)
    else if value.JObj? && keys[0] in value.fields then Walk(value.fields[keys[0]], keys[1..])
    else None
  }

  /** The string at the end of a walk, if the walk ended at one. */
  function Leaf(found: Option<Json>): Option<string> {
    if found.Some? && found.value.JStr? then Some(found.value.s) else None
  }

  /** `_get_nested_key(key, language)`. */
  function NestedKey(tables: Tables, key: string, language: string): Option<string> {
    if language !in tables then None else Leaf(Walk(tables[language], Split(key, '.')))
  }

  /** The fallback chain of `get` for an already normalised language: the
      language's own string, else the English one. */
  function Lookup(tables: Tables, key: string, lang: string): Option<string> {
    var found := NestedKey(tables, key, lang);
    if found.None? && lang != "en" then NestedKey(tables, key, "en") else found
  }

  /** `get` once the language is normalised: the key itself when no
      translation exists; interpolation only when variables were passed. */
  function TranslateNormalized(tables: Tables, key: string, lang: string, variables: map<string, string>): string {
    match Lookup(tables, key, lang)
    case None => key
    case Some(text) => if variables != map[] then Interpolate(text, variables) else text
  }

  // ----- interpolation -----

  /** A character of Python's `\w`, for the ASCII and Latin-1 ranges: the
      underscore and the characters `str.isalnum` accepts, which in Latin-1
      include the ordinal indicators, the superscript digits, the micro sign
      and the vulgar fractions. */
  predicate IsWordChar(c: char) {
    'a' <= c <= 'z' || 'A' <= c <= 'Z' || '0' <= c <= '9' || c == '_'
    || c == '\U{AA}' || c == '\U{B2}' || c == '\U{B3}' || c == '\U{B5}' || c == '\U{B9}' || c == '\U{BA}'
    || ('\U{BC}' <= c <= '\U{BE}')
    || ('\U{C0}' <= c <= '\U{FF}' && c != '\U{D7}' && c != '\U{F7}')
  }

  /** The length of the run of word characters that starts `s`. */
  function WordRun(s: string): (n: nat)
    ensures n <= |s|
  {
    if s != [] && IsWordChar(s[0]) then 1 + WordRun(s[1..]) else 0
  }

  /** A placeholder `{{name}}` starts `s`: the length of its name. */
  function PlaceholderAt(s: string): (r: Option<nat>)
    ensures r.Some? ==> 0 < r.value && r.value + 4 <= |s|
  {
    if |s| >= 2 && s[0] == '{' && s[1] == '{' then
      var n := WordRun(s[2..]);
      if n > 0 && n + 4 <= |s| && s[n + 2] == '}' && s[n + 3] == '}' then Some(n) else None
    else None
  }

  /** `re.sub(r'\{\{(\w+)\}\}', replace_var, text)`: one left-to-right pass
      that replaces each placeholder whose name has a value and keeps the
      others; replaced text is not scanned again. */
  function Interpolate(text: string, variables: map<string, string>): string
    decreases |text|
  {
    if text == [] then ""
    else match PlaceholderAt(text)
      case Some(n) =>
        var name := text[2..n + 2];
        (if name in variables then variables[name] else text[..n + 4]) + Interpolate(text[n + 4..], variables)
      case None => [text[0]] + Interpolate(text[1..], variables)
  }

  // ----- the service -----

  /** `load_translations`: each file that exists replaces its language's table. */
  function Loaded(tables: Tables, en: Option<Json>, es: Option<Json>): (r: Tables)
    ensures "en" in r <==> "en" in tables || en.Some?
    ensures "es" in r <==> "es" in tables || es.Some?
    ensures forall l :: l in tables && l != "en" && l != "es" ==> l in r && r[l] == tables[l]
  {
    var withEn := if en.Some? then tables["en" := en.value] else tables;
    if es.Some? then withEn["es" := es.value] else withEn
  }

  class TranslationService {
    var translations: Tables

    /** `TranslationService()`, given the contents of en.json and es.json
        when those files exist. */
    constructor(en: Option<Json>, es: Option<Json>)
      ensures translations == Loaded(map[], en, es)
    {
      translations := map[];
      new;
      LoadTranslations(en, es);
    }

    method LoadTranslations(en: Option<Json>, es: Option<Json>)
      modifies this
      ensures translations == Loaded(old(translations), en, es)
    {
      if en.Some? {
        translations := translations["en" := en.value];
      }
      if es.Some? {
        translations := translations["es" := es.value];
      }
    }

    /** `_get_nested_key`: the loop that walks one segment at a time. */
    method GetNestedKey(key: string, language: string) returns (r: Option<string>)
      ensures r == NestedKey(translations, key, language)
    {
      if language !in translations {
        return None;
      }
      var keys := Split(key, '.');
      var value := translations[language];
      for i := 0 to |keys|
        invariant Walk(translations[language], keys) == Walk(value, keys[i..])
      {
        if value.JObj? && keys[i] in value.fields {
          value := value.fields[keys[i]];
        } else {
          return None;
        }
      }
      r := if value.JStr? then Some(value.s) else None;
    }

    /** `get(key, language, **variables)`. */
    method Get(key: string, language: string, variables: map<string, string>) returns (text: string)
      ensures text == TranslateNormalized(translations, key, NormalizeLanguage(language), variables)
    {
      var lang := NormalizeLanguage(language);
      var found := GetNestedKey(key, lang);
      if found.None? && lang != "en" {
        found := GetNestedKey(key, "en");
      }
      if found.None? {
        return key;
      }
      text := found.value;
      if variables != map[] {
        text := Interpolate(text, variables);
      }
    }

    /** `get_all`: the normalised language's table, else the English one,
        else an empty object. */
    function GetAll(language: string): (r: Json)
      reads this
      ensures NormalizeLanguage(language) in translations ==> r == translations[NormalizeLanguage(language)]
      ensures NormalizeLanguage(language) !in translations && "en" in translations ==> r == translations["en"]
      ensures NormalizeLanguage(language) !in translations && "en" !in translations ==> r == JObj(map[])
    {
      var lang := NormalizeLanguage(language);
      if lang in translations then translations[lang]
      else if "en" in translations then translations["en"]
      else JObj(map[])
    }
  }

  // ----- properties -----

  /** A walk along `a + b` is a walk along `a` and then along `b` from where
      the first one ended. */
  lemma {:induction false} WalkAppend(value: Json, a: seq<string>, b: seq<string>)
    ensures Walk(value, a + b) == (match Walk(value, a) case None => None case Some(v) => Walk(v, b))
  {
    if a != [] {
      assert (a + b)[0] == a[0] && (a + b)[1..] == a[1..] + b;
      if value.JObj? && a[0] in value.fields {
        WalkAppend(value.fields[a[0]], a[1..], b);
      }
    } else {
      assert a + b == b;
    }
  }

  /** The object that holds `leaf` at the path `keys`. */
  function Nest(keys: seq<string>, leaf: Json): Json {
    if keys == [] then leaf else JObj(map[keys[0] := Nest(keys[1..], leaf)])
  }

  /** Walking a path through the objects built along it reaches the leaf. */
  lemma {:induction false} WalkNest(keys: seq<string>, leaf: Json)
    ensures Walk(Nest(keys, leaf), keys) == Some(leaf)
  {
    if keys != [] {
      WalkNest(keys[1..], leaf);
    }
  }

  /** A dotted key whose segments lead to a string finds it, and a key whose
      walk stops early, or ends at something other than a string, finds
      nothing; so does any key of a language that is not loaded. */
  lemma NestedKeyCases(tables: Tables, key: string, language: string)
    ensures language !in tables ==> NestedKey(tables, key, language) == None
    ensures language in tables ==>
      var found := Walk(tables[language], Split(key, '.'));
      (NestedKey(tables, key, language).Some? <==> found.Some? && found.value.JStr?)
  {
  }

  /** The lookup of a dotted key in a table built from that key's segments. */
  lemma NestedKeyFinds(tables: Tables, key: string, language: string, s: string)
    requires language in tables && tables[language] == Nest(Split(key, '.'), JStr(s))
    ensures NestedKey(tables, key, language) == Some(s)
  {
    WalkNest(Split(key, '.'), JStr(s));
  }

  /** `get` tries the normalised language, then English, then gives back the
      key; whatever it finds is interpolated (which changes nothing when no
      variables were passed). */
  lemma TranslateChain(tables: Tables, key: string, lang: string, variables: map<string, string>)
    ensures NestedKey(tables, key, lang).Some? ==>
      TranslateNormalized(tables, key, lang, variables) == Interpolate(NestedKey(tables, key, lang).value, variables)
    ensures NestedKey(tables, key, lang).None? && NestedKey(tables, key, "en").Some? ==>
      TranslateNormalized(tables, key, lang, variables) == Interpolate(NestedKey(tables, key, "en").value, variables)
    ensures NestedKey(tables, key, lang).None? && NestedKey(tables, key, "en").None? ==>
      TranslateNormalized(tables, key, lang, variables) == key
  {
    match Lookup(tables, key, lang)
    case None =>
    case Some(text) =>
      if variables == map[] {
        InterpolateNoVariables(text);
      }
  }

  /** `get_all` and `get` read the same table: for a loaded language, the
      lookup of a key is the walk through what `get_all` returns. */
  lemma GetAllAgrees(service: TranslationService, key: string, language: string)
    requires NormalizeLanguage(language) in service.translations
    ensures NestedKey(service.translations, key, NormalizeLanguage(language))
      == Leaf(Walk(service.GetAll(language), Split(key, '.')))
  {
  }

  /** The name part of a placeholder runs exactly to the closing braces. */
  lemma {:induction false} WordRunStops(name: string, rest: string)
    requires forall i :: 0 <= i < |name| ==> IsWordChar(name[i])
    ensures WordRun(name + "}}" + rest) == |name|
  {
    if name != [] {
      assert (name + "}}" + rest)[1..] == name[1..] + "}}" + rest;
      WordRunStops(name[1..], rest);
    }
  }

  /** A placeholder is replaced by its variable's value, or kept verbatim
      when its name has none, and scanning resumes after it: the value is
      not scanned for placeholders. */
  lemma InterpolatePlaceholder(name: string, rest: string, variables: map<string, string>)
    requires name != [] && forall i :: 0 <= i < |name| ==> IsWordChar(name[i])
    ensures Interpolate("{{" + name + "}}" + rest, variables)
      == (if name in variables then variables[name] else "{{" + name + "}}") + Interpolate(rest, variables)
  {
    var text := "{{" + name + "}}" + rest;
    assert text[2..] == name + "}}" + rest;
    WordRunStops(name, rest);
    var n := |name|;
    assert text[n + 2] == '}' && text[n + 3] == '}';
    assert text[2..n + 2] == name;
    assert text[..n + 4] == "{{" + name + "}}";
    assert text[n + 4..] == rest;
  }

  /** Text without an opening brace passes through interpolation unchanged. */
  lemma {:induction false} InterpolateNoPlaceholders(a: string, b: string, variables: map<string, string>)
    requires '{' !in a
    ensures Interpolate(a + b, variables) == a + Interpolate(b, variables)
  {
    if a != [] {
      var text := a + b;
      assert text[0] == a[0] && text[1..] == a[1..] + b;
      InterpolateNoPlaceholders(a[1..], b, variables);
    } else {
      assert a + b == b;
    }
  }

  /** With no variables every placeholder stays as it is. */
  lemma {:induction false} InterpolateNoVariables(text: string)
    ensures Interpolate(text, map[]) == text
    decreases |text|
  {
    if text != [] {
      match PlaceholderAt(text)
      case Some(n) =>
        InterpolateNoVariables(text[n + 4..]);
        assert text[..n + 4] + text[n + 4..] == text;
      case None =>
        InterpolateNoVariables(text[1..]);
        assert [text[0]] + text[1..] == text;
    }
  }
}
