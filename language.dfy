/** The language provider: the initial language, language switching, and the translation function
    `t`, which walks a dotted key through a nested table, falls back from the current language to
    English to the key itself, and fills `{name}` placeholders. */
module Language {
  import opened Wrappers
  import opened Strings

  /** A value of the translation table: a string, a nested table, or any other JSON value. */
  datatype TNode = Text(s: string) | Table(entries: map<string, TNode>) | OtherValue

  /** One `name: value` pair of the replacements record, its value already turned into a string. */
  datatype Replacement = Replacement(name: string, value: string)

  const DefaultLanguage := "es"
  const FallbackLanguage := "en"

  /** The stored language when it is set and known, otherwise Spanish. */
  function GetInitialLanguage(stored: Option<string>, languages: set<string>): (r: string)
    ensures r in languages || r == DefaultLanguage
    ensures stored.Some? && stored.value != "" && stored.value in languages ==> r == stored.value
    ensures r != DefaultLanguage ==> stored == Some(r)
  {
    if stored.Some? && stored.value != "" && stored.value in languages then stored.value else DefaultLanguage
  }

  /** `result?.[k]`: the entry `k` of a table, and undefined for anything else. */
  function Step(n: Option<TNode>, k: string): Option<TNode> {
    if n.Some? && n.value.Table? && k in n.value.entries then Some(n.value.entries[k]) else None
  }

  /** The value after walking `keys` in order from `root`, one `Step` per key. */
  function Walk(root: Option<TNode>, keys: seq<string>): Option<TNode>
    decreases |keys|
  {
    if |keys| == 0 then root else Step(Walk(root, keys[..|keys| - 1]), keys[|keys| - 1])
  }

  /** The value at a path of a tree, defined from the root down: an independent account of `Walk`. */
  function PathValue(n: TNode, keys: seq<string>): Option<TNode>
    decreases |keys|
  {
    if |keys| == 0 then Some(n)
    else if n.Table? && keys[0] in n.entries then PathValue(n.entries[keys[0]], keys[1..])
    else None
  }

  /** The translation at a path: present only when the walk ends on a string. */
  function Lookup(root: Option<TNode>, keys: seq<string>): Option<string> {
    var w := Walk(root, keys);
    if w.Some? && w.value.Text? then Some(w.value.s) else None
  }

  /** `translations[lang]`. */
  function Root(table: map<string, TNode>, language: string): Option<TNode> {
    if language in table then Some(table[language]) else None
  }

  /** `findTranslation(language) ?? findTranslation('en') ?? key`. */
  function TemplateFor(table: map<string, TNode>, language: string, key: string): string {
    var keys := Split(key, ".");
    var own := Lookup(Root(table, language), keys);
    if own.Some? then own.value
    else
      var english := Lookup(Root(table, FallbackLanguage), keys);
      if english.Some? then english.value else key
  }

  function Placeholder(name: string): (p: string)
    ensures |p| > 0
  {
    "{" + name + "}"
  }

  /** The template after each replacement, in order, has replaced every `{name}` by its value. */
  function ApplyReplacements(template: string, reps: seq<Replacement>): string
    decreases |reps|
  {
    if |reps| == 0 then template
    else
      var last := reps[|reps| - 1];
      ReplaceAll(ApplyReplacements(template, reps[..|reps| - 1]), Placeholder(last.name), last.value)
  }

  /** `t(key, replacements)` in a language. */
  function Translate(table: map<string, TNode>, language: string, key: string, reps: seq<Replacement>): string {
    ApplyReplacements(TemplateFor(table, language, key), reps)
  }

  // ---------------------------------------------------------------------------------------------
  // Lemmas

  /** Walking one more key from the front is walking the rest from that key's entry. */
  lemma {:induction false} WalkCons(root: Option<TNode>, k: string, rest: seq<string>)
    ensures Walk(root, [k] + rest) == Walk(Step(root, k), rest)
    decreases |rest|
  {
    var ks := [k] + rest;
    if |rest| == 0 {
      assert ks[..0] == [];
    } else {
      assert ks[..|ks| - 1] == [k] + rest[..|rest| - 1];
      WalkCons(root, k, rest[..|rest| - 1]);
    }
  }

  /** Nothing is found below an absent value. */
  lemma {:induction false} WalkNone(keys: seq<string>)
    requires |keys| > 0
    ensures Walk(None, keys) == None
    decreases |keys|
  {
    if |keys| > 1 {
      WalkNone(keys[..|keys| - 1]);
    }
  }

  /** The step-by-step walk agrees with the root-down path lookup. */
  lemma {:induction false} WalkIsPath(n: TNode, keys: seq<string>)
    ensures Walk(Some(n), keys) == PathValue(n, keys)
    decreases |keys|
  {
    if |keys| > 0 {
      assert keys == [keys[0]] + keys[1..];
      WalkCons(Some(n), keys[0], keys[1..]);
      if n.Table? && keys[0] in n.entries {
        WalkIsPath(n.entries[keys[0]], keys[1..]);
      } else if |keys| > 1 {
        WalkNone(keys[1..]);
      }
    }
  }

  /** Once the walk leaves the table, it stays out: the early `return null` loses nothing. */
  lemma {:induction false} WalkAbsentStays(root: Option<TNode>, keys: seq<string>, i: nat)
    requires i < |keys|
    requires Walk(root, keys[..i + 1]) == None
    ensures Walk(root, keys) == None
    decreases |keys| - i
  {
    if i + 1 < |keys| {
      assert keys[..i + 2][..i + 1] == keys[..i + 1];
      assert Walk(root, keys[..i + 2]) == None;
      WalkAbsentStays(root, keys, i + 1);
    } else {
      assert keys[..i + 1] == keys;
    }
  }

  /** The fallback order: the current language's string, else the English string, else the key. */
  lemma {:induction false} FallbackOrder(table: map<string, TNode>, language: string, key: string)
    ensures var keys := Split(key, ".");
            var own := Lookup(Root(table, language), keys);
            var english := Lookup(Root(table, FallbackLanguage), keys);
            && (own.Some? ==> TemplateFor(table, language, key) == own.value)
            && (own.None? && english.Some? ==> TemplateFor(table, language, key) == english.value)
            && (own.None? && english.None? ==> TemplateFor(table, language, key) == key)
  {
  }

  /** A language without a table reads the English table. */
  lemma {:induction false} UnknownLanguageReadsEnglish(table: map<string, TNode>, language: string, key: string)
    requires language !in table
    ensures TemplateFor(table, language, key) == TemplateFor(table, FallbackLanguage, key)
  {
    var keys := Split(key, ".");
    WalkNone(keys);
  }

  /** A key that is no string in either table is returned as it is, when there is nothing to replace. */
  lemma {:induction false} MissingKeyIsKey(table: map<string, TNode>, language: string, key: string)
    requires forall lang | lang in table && (lang == language || lang == FallbackLanguage) ::
               var w := PathValue(table[lang], Split(key, "."));
               w.None? || !w.value.Text?
    ensures Translate(table, language, key, []) == key
  {
    var keys := Split(key, ".");
    WalkNone(keys);
    if language in table {
      WalkIsPath(table[language], keys);
    }
    if FallbackLanguage in table {
      WalkIsPath(table[FallbackLanguage], keys);
    }
  }

  /** Replacements apply in the order given: a record split in two acts as the first part, then the second. */
  lemma {:induction false} ReplacementsCompose(template: string, a: seq<Replacement>, b: seq<Replacement>)
    ensures ApplyReplacements(template, a + b) == ApplyReplacements(ApplyReplacements(template, a), b)
    decreases |b|
  {
    if |b| == 0 {
      assert a + b == a;
    } else {
      var ab := a + b;
      assert ab[..|ab| - 1] == a + b[..|b| - 1];
      assert ab[|ab| - 1] == b[|b| - 1];
      ReplacementsCompose(template, a, b[..|b| - 1]);
    }
  }

  /** One replacement puts its value in place of every `{name}`: the result is the template's pieces
      between placeholders, none holding the placeholder, rejoined with the value. */
  lemma {:induction false} EveryPlaceholderReplaced(template: string, r: Replacement)
    ensures ApplyReplacements(template, [r]) == Join(Split(template, Placeholder(r.name)), r.value)
    ensures forall k :: 0 <= k < |Split(template, Placeholder(r.name))| ==>
              !Contains(Split(template, Placeholder(r.name))[k], Placeholder(r.name))
    ensures Join(Split(template, Placeholder(r.name)), Placeholder(r.name)) == template
  {
    assert [r][..0] == [];
    SplitPartsFree(template, Placeholder(r.name));
    SplitJoin(template, Placeholder(r.name));
  }

  /** A replacement whose placeholder is absent changes nothing. */
  lemma {:induction false} AbsentPlaceholderKept(template: string, r: Replacement)
    requires !Contains(template, Placeholder(r.name))
    ensures ApplyReplacements(template, [r]) == template
  {
    assert [r][..0] == [];
    ReplaceAllAbsent(template, Placeholder(r.name), r.value);
  }

  // ---------------------------------------------------------------------------------------------
  // Provider

  class LanguageProvider {
    /** The codes of the languages the application offers. */
    const languages: set<string>
    const translations: map<string, TNode>
    var language: string

    /** Starts in the language restored from storage, or Spanish. */
    constructor (stored: Option<string>, languages: set<string>, translations: map<string, TNode>)
      ensures this.languages == languages && this.translations == translations
      ensures language == GetInitialLanguage(stored, languages)
    {
      this.languages := languages;
      this.translations := translations;
      language := GetInitialLanguage(stored, languages);
    }

    /** Switches only to a known language. */
    method SetLanguage(lang: string)
      modifies this
      ensures lang in languages ==> language == lang
      ensures lang !in languages ==> language == old(language)
    {
      if lang in languages {
        language := lang;
      }
    }

    /** `findTranslation`: walks the keys one by one, giving up as soon as a step finds nothing. */
    method FindTranslation(lang: string, keys: seq<string>) returns (r: Option<string>)
      ensures r == Lookup(Root(translations, lang), keys)
    {
      var root := Root(translations, lang);
      var result := root;
      for i := 0 to |keys|
        invariant result == Walk(root, keys[..i])
      {
        assert keys[..i + 1][..i] == keys[..i];
        result := Step(result, keys[i]);
        if result.None? {
          WalkAbsentStays(root, keys, i);
          return None;
        }
      }
      assert keys[..|keys|] == keys;
      r := if result.Some? && result.value.Text? then Some(result.value.s) else None;
    }

    /** `t(key, replacements)`: the template in the current language (or English, or the key), with
        each replacement applied in turn. */
    method T(key: string, reps: seq<Replacement>) returns (r: string)
      ensures r == Translate(translations, language, key, reps)
    {
      var keys := Split(key, ".");
      var template: string;
      var own := FindTranslation(language, keys);
      if own.Some? {
        template := own.value;
      } else {
        var english := FindTranslation(FallbackLanguage, keys);
        template := if english.Some? then english.value else key;
      }
      ghost var base := template;
      for i := 0 to |reps|
        invariant template == ApplyReplacements(base, reps[..i])
      {
        assert reps[..i + 1][..i] == reps[..i];
        template := ReplaceAll(template, Placeholder(reps[i].name), reps[i].value);
      }
      assert reps[..|reps|] == reps;
      r := template;
    }
  }
}
