/** The translation hook (frontend/src/hooks/useTranslation.js): `t` walks a
    dotted key through the table of the current language, retries the
    English table when the language is not English, and otherwise returns
    the fallback; `hasTranslation` asks the current table only. The locale
    tables are JSON documents and are parameters here. */
module Translation {
  import opened Wrappers
  import opened Text
  import opened Js

  /** The `translations` object: the English and Spanish tables. */
  datatype Translations = Translations(en: JsValue, es: JsValue)

  /** `translations[language]`: the listed codes, undefined for any other. */
  function Listed(tables: Translations, language: string): JsValue
  {
    if language == "en" then tables.en
    else if language == "es" then tables.es
    else Undefined
  }

  /** `translations[language] || translations.en` */
  function TableFor(tables: Translations, language: string): JsValue
  {
    Or(Listed(tables, language), tables.en)
  }

  /** One step of the walk: `value && typeof value === 'object' && k in value`. */
  predicate CanDescend(value: JsValue, k: string)
  {
    Truthy(value) && TypeOf(value) == "object" && value.Obj? && k in value.props
  }

  /** The node a path of keys leads to, or `None` when some step has no
      such key. */
  function Walk(value: JsValue, keys: seq<string>): (r: Option<JsValue>)
    ensures keys == [] ==> r == Some(value)
    ensures keys != [] && !CanDescend(value, keys[0]) ==> r.None?
    decreases |keys|
  {
    if keys == [] then Some(value)
    else if CanDescend(value, keys[0]) then Walk(value.props[keys[0]], keys[1..])
    else None
  }

  /** The string a dotted key names in a table, if the walk succeeds and
      ends at a string. */
  function Resolved(table: JsValue, key: string): (r: Option<string>)
    ensures r.Some? <==> Walk(table, Split(key, '.')).Some? && Walk(table, Split(key, '.')).value.Str?
  {
    var node := Walk(table, Split(key, '.'));
    if node.Some? && node.value.Str? then Some(node.value.s) else None
  }

  /** What `t(key, fallback)` returns; `fallback` is `None` when omitted,
      in which case it defaults to the key. */
  function Translate(tables: Translations, language: string, key: string, fallback: Option<string>): (r: string)
    ensures Resolved(TableFor(tables, language), key).Some? ==> r == Resolved(TableFor(tables, language), key).value
    ensures Resolved(TableFor(tables, language), key).None? && language != "en" && Resolved(tables.en, key).Some? ==>
      r == Resolved(tables.en, key).value
    ensures Resolved(TableFor(tables, language), key).None? && (language == "en" || Resolved(tables.en, key).None?) ==>
      r == (if fallback.Some? then fallback.value else key)
  {
    var here := Resolved(TableFor(tables, language), key);
    var english := Resolved(tables.en, key);
    if here.Some? then here.value
    else if language != "en" && english.Some? then english.value
    else if fallback.Some? then fallback.value
    else key
  }

  /** The `for (const k of keys)` walk with its early `break`. */
  method WalkKeys(table: JsValue, keys: seq<string>) returns (value: JsValue, found: bool)
    ensures found <==> Walk(table, keys).Some?
    ensures found ==> value == Walk(table, keys).value
  {
    value := table;
    found := true;
    var i := 0;
    while i < |keys|
      invariant 0 <= i <= |keys|
      invariant Walk(table, keys) == Walk(value, keys[i..])
    {
      var k := keys[i];
      if CanDescend(value, k) {
        assert keys[i..][1..] == keys[i + 1..];
        value := value.props[k];
      } else {
        found := false;
        break;
      }
      i := i + 1;
    }
    if found {
      assert keys[i..] == [];
    }
  }

  /** `t(key, fallback)`. */
  method T(tables: Translations, language: string, key: string, fallback: Option<string>) returns (s: string)
    ensures s == Translate(tables, language, key, fallback)
  {
    var keys := Split(key, '.');
    var value, found := WalkKeys(TableFor(tables, language), keys);
    if found && TypeOf(value) == "string" {
      return value.s;
    }
    if language != "en" {
      value, found := WalkKeys(tables.en, keys);
      if found && TypeOf(value) == "string" {
        return value.s;
      }
    }
    s := if fallback.Some? then fallback.value else key;
  }

  /** `hasTranslation(key)`. */
  method HasTranslation(tables: Translations, language: string, key: string) returns (has: bool)
    ensures has <==> Resolved(TableFor(tables, language), key).Some?
  {
    var keys := Split(key, '.');
    var value := TableFor(tables, language);
    var i := 0;
    while i < |keys|
      invariant 0 <= i <= |keys|
      invariant Walk(value, keys[i..]) == Walk(TableFor(tables, language), keys)
    {
      var k := keys[i];
      if CanDescend(value, k) {
        assert keys[i..][1..] == keys[i + 1..];
        value := value.props[k];
      } else {
        return false;
      }
      i := i + 1;
    }
    assert keys[i..] == [];
    has := TypeOf(value) == "string";
  }

  /** When `hasTranslation(key)` holds, `t(key)` returns the string of the
      current table, whatever the fallback. */
  lemma HasTranslationAgreesWithT(tables: Translations, language: string, key: string, fallback: Option<string>)
    requires Resolved(TableFor(tables, language), key).Some?
    ensures Translate(tables, language, key, fallback) == Resolved(TableFor(tables, language), key).value
  {
  }

  /** A language without a table of its own reads the English table, and
      its English retry gives the same answer, so it behaves like English. */
  lemma UnknownLanguageIsEnglish(tables: Translations, language: string, key: string, fallback: Option<string>)
    requires language != "en" && language != "es"
    ensures Translate(tables, language, key, fallback) == Translate(tables, "en", key, fallback)
  {
    assert TableFor(tables, language) == tables.en;
    assert TableFor(tables, "en") == tables.en;
  }

  /** A key without '.' is looked up as one segment: a string stored
      directly under it is its translation. */
  lemma {:induction false} SingleSegmentKey(table: JsValue, key: string)
    requires '.' !in key && table.Obj? && key in table.props && table.props[key].Str?
    ensures Resolved(table, key) == Some(table.props[key].s)
  {
    assert Split(key, '.') == [key];
    assert Split(key, '.')[1..] == [];
  }
}
