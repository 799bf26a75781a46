/** The front end's translation helpers of ui/i18n_utils.py. They repeat
    the backend's table walk, fallback chain and interpolation, reading the
    same translation files, but normalise language codes more narrowly; they
    add the HTML `lang` attribute helpers and the accessible `<div>` wrapper. */
module I18nUi {
  import opened Wrappers
  import opened Text
  import opened I18nTranslator

  const UiSpanishAliases: seq<string> := ["es", "spanish", "espa\U{F1}ol"]

  /** `_normalize_lang`: 'es' exactly for the three Spanish spellings. */
  function NormalizeLang(lang: string): (r: string)
    ensures r == "en" || r == "es"
    ensures r == "es" <==> Strip(Lower(lang)) in UiSpanishAliases
  {
    if Strip(Lower(lang)) in UiSpanishAliases then "es" else "en"
  }

  /** `get_lang_attr`: compares the code as given, without normalising it. */
  function LangAttr(lang: string): (r: string)
    ensures r == "es" <==> lang == "es"
    ensures r == "en" <==> lang != "es"
  {
    if lang == "es" then "es" else "en"
  }

  /** `get_lang_name`, which compares the code as given as well. */
  function LangName(lang: string): (r: string)
    ensures r == "Espa\U{F1}ol" <==> lang == "es"
    ensures r == "English" <==> lang != "es"
  {
    if lang == "es" then "Espa\U{F1}ol" else "English"
  }

  /** The HTML helpers do not share the translator's normalisation: a code
      the translator reads as Spanish still gets English markup unless it is
      exactly "es", and "ES" is one. */
  lemma LangAttrUnnormalised(lang: string)
    ensures NormalizeLang(lang) == "es" && lang != "es" ==>
      LangAttr(lang) == "en" && LangName(lang) == "English"
    ensures NormalizeLang("ES") == "es" && LangAttr("ES") == "en"
  {
    assert Lower("ES") == "es";
    assert Strip("es") == "es";
  }

  /** `get_language_from_response`: the response's 'language' entry, else 'en'. */
  function LanguageFromResponse(response: map<string, string>): (r: string)
    ensures "language" in response ==> r == response["language"]
    ensures "language" !in response ==> r == "en"
  {
    if "language" in response then response["language"] else "en"
  }

  class UITranslator {
    var translations: Tables

    /** `UITranslator()`, given the contents of the backend's en.json and
        es.json when those files exist. */
    constructor(en: Option<Json>, es: Option<Json>)
      ensures translations == Loaded(map[], en, es)
    {
      translations := map[];
      new;
      LoadTranslations(en, es);
    }

    method LoadTranslations(en: Option<Json>, es: Option<Json>)
      modifies this
      ensures translations == Loaded(old(translations), en, es)
    {
      if en.Some? {
        translations := translations["en" := en.value];
      }
      if es.Some? {
        translations := translations["es" := es.value];
      }
    }

    /** `_get_nested`: the same walk as the backend's `_get_nested_key`. */
    method GetNested(key: string, lang: string) returns (r: Option<string>)
      ensures r == NestedKey(translations, key, lang)
    {
      if lang !in translations {
        return None;
      }
      var keys := Split(key, '.');
      var value := translations[lang];
      for i := 0 to |keys|
        invariant Walk(translations[lang], keys) == Walk(value, keys[i..])
      {
        if value.JObj? && keys[i] in value.fields {
          value := value.fields[keys[i]];
        } else {
          return None;
        }
      }
      r := if value.JStr? then Some(value.s) else None;
    }

    /** `t(key, lang, **variables)`: the backend's fallback chain after the
        narrower normalisation. */
    method T(key: string, lang: string, variables: map<string, string>) returns (text: string)
      ensures text == TranslateNormalized(translations, key, NormalizeLang(lang), variables)
    {
      var code := NormalizeLang(lang);
      var found := GetNested(key, code);
      if found.None? && code != "en" {
        found := GetNested(key, "en");
      }
      if found.None? {
        return key;
      }
      text := found.value;
      if variables != map[] {
        text := Interpolate(text, variables);
      }
    }
  }

  /** The attribute list of `create_lang_div`: `lang` first, then each of
      `role`, `aria-live` and `aria-label` that is given and not empty. */
  function DivAttrs(lang: string, role: Option<string>, ariaLive: Option<string>, ariaLabel: Option<string>)
    : seq<string>
  {
    var withRole := WithAttr([Attr("lang", LangAttr(lang))], "role", role);
    WithAttr(WithAttr(withRole, "aria-live", ariaLive), "aria-label", ariaLabel)
  }

  /** `attrs`, with `name="value"` appended when the value is given and not empty. */
  function WithAttr(attrs: seq<string>, name: string, value: Option<string>): seq<string> {
    if Truthy(value) then attrs + [Attr(name, value.value)] else attrs
  }

  /** The f-string `name="value"`. */
  function Attr(name: string, value: string): string {
    name + "=\"" + value + "\""
  }

  /** Python's truth value of an optional string: given and not empty. */
  predicate Truthy(s: Option<string>) {
    s.Some? && s.value != ""
  }

  function Count(b: bool): nat {
    if b then 1 else 0
  }

  /** `create_lang_div`: the attributes are appended one by one. */
  method CreateLangDiv(content: string, lang: string, role: Option<string>, ariaLive: Option<string>,
                       ariaLabel: Option<string>)
    returns (html: string)
    ensures html == "<div " + Join(" ", DivAttrs(lang, role, ariaLive, ariaLabel)) + ">" + content + "</div>"
  {
    var attrs := [Attr("lang", LangAttr(lang))];
    if Truthy(role) {
      attrs := attrs + [Attr("role", role.value)];
    }
    if Truthy(ariaLive) {
      attrs := attrs + [Attr("aria-live", ariaLive.value)];
    }
    if Truthy(ariaLabel) {
      attrs := attrs + [Attr("aria-label", ariaLabel.value)];
    }
    html := "<div " + Join(" ", attrs) + ">" + content + "</div>";
  }

  // ----- properties -----

  /** The attributes: one per given option plus `lang`, which comes first,
      with `aria-label` last whenever it is given. */
  lemma DivAttrsShape(lang: string, role: Option<string>, ariaLive: Option<string>, ariaLabel: Option<string>)
    ensures var attrs := DivAttrs(lang, role, ariaLive, ariaLabel);
      && |attrs| == 1 + Count(Truthy(role)) + Count(Truthy(ariaLive)) + Count(Truthy(ariaLabel))
      && attrs[0] == Attr("lang", LangAttr(lang))
      && (Truthy(role) ==> attrs[1] == Attr("role", role.value))
      && (Truthy(ariaLabel) ==> attrs[|attrs| - 1] == Attr("aria-label", ariaLabel.value))
  {
  }

  /** The content sits unchanged between the opening tag and `</div>`. */
  lemma DivWrapsContent(content: string, lang: string, role: Option<string>, ariaLive: Option<string>,
                        ariaLabel: Option<string>)
    ensures var opening := "<div " + Join(" ", DivAttrs(lang, role, ariaLive, ariaLabel)) + ">";
      var html := opening + content + "</div>";
      && html[|opening|..|opening| + |content|] == content
      && html[..5] == "<div "
      && html[|html| - 6..] == "</div>"
  {
    var opening := "<div " + Join(" ", DivAttrs(lang, role, ariaLive, ariaLabel)) + ">";
    var html := opening + content + "</div>";
    assert html[..|opening|] == opening;
    assert html[..5] == opening[..5];
  }

  /** The UI's normalisation is narrower than the backend's: whatever it
      reads as Spanish the backend does too, but 'es-mx' and 'esp' are
      Spanish only to the backend. */
  lemma NormalizeLangNarrower(lang: string)
    ensures NormalizeLang(lang) == "es" ==> NormalizeLanguage(lang) == "es"
    ensures NormalizeLang("es-mx") == "en" && NormalizeLanguage("es-mx") == "es"
    ensures NormalizeLang("esp") == "en" && NormalizeLanguage("esp") == "es"
  {
    StripFramed([], "es-mx", []);
    StripFramed([], "esp", []);
    assert Lower("es-mx") == "es-mx";
    assert Lower("esp") == "esp";
  }

  /** Wherever the two normalisations agree, the UI's `t` and the backend's
      `get` give the same text. */
  lemma UiAgreesWithBackend(tables: Tables, key: string, lang: string, variables: map<string, string>)
    requires NormalizeLang(lang) == NormalizeLanguage(lang)
    ensures TranslateNormalized(tables, key, NormalizeLang(lang), variables)
      == TranslateNormalized(tables, key, NormalizeLanguage(lang), variables)
  {
  }
}
