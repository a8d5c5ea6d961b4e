/** The language aggregator, the language-name list and the symbol
    collator: from the linguistic manifest to one bundle per language, and
    from the bundles to the grapheme and phoneme vocabularies. */
module Languages {
  import opened Common
  import opened Dictionary
  import opened Bundles

  /** One language of the manifest: its name and its dictionary ids. An
      absent `dictionaries` key is the empty list. */
  datatype LanguageSpec = LanguageSpec(name: string, dictionaries: seq<string>)

  /** The linguistic manifest. An absent `languages` key is the empty list;
      an absent `linguistic_path` is `None`. */
  datatype Manifest = Manifest(linguisticPath: Option<string>, languages: seq<LanguageSpec>)

  /** Every entry of `words` tagged with the language `name`, in order. */
  function Tag(name: string, words: seq<DictEntry>): (r: seq<Entry>)
  {
    seq(|words|, i requires 0 <= i < |words| => Entry(name, words[i].word, words[i].phonemes))
  }

  /** The outcome of reading each dictionary of language `lang`, in the
      order listed. */
  function DictionaryResults(files: FileSystem, lingPath: Option<string>, lang: string, dicts: seq<string>)
    : (r: seq<Result<seq<DictEntry>>>)
    ensures |r| == |dicts|
  {
    seq(|dicts|, k requires 0 <= k < |dicts| => DictionaryFile(files, lingPath, lang, dicts[k]))
  }

  /** A language's entries: its dictionaries concatenated in listed order,
      without deduplication, each entry tagged with the language's name. */
  function LanguageEntries(files: FileSystem, lingPath: Option<string>, spec: LanguageSpec): Result<seq<Entry>>
  {
    match Collect(DictionaryResults(files, lingPath, spec.name, spec.dictionaries))
    case Failure(e) => Failure(e)
    case Success(words) => Success(Tag(spec.name, Flatten(words)))
  }

  function LanguageResults(files: FileSystem, manifest: Manifest): (r: seq<Result<seq<Entry>>>)
    ensures |r| == |manifest.languages|
  {
    seq(|manifest.languages|, i requires 0 <= i < |manifest.languages| =>
      LanguageEntries(files, manifest.linguisticPath, manifest.languages[i]))
  }

  /** The entries of every language of the manifest, in manifest order, or
      the first failure met while reading them. */
  function LoadLanguages(files: FileSystem, manifest: Manifest): Result<seq<seq<Entry>>>
  {
    Collect(LanguageResults(files, manifest))
  }

  /** Every dictionary of `spec` reads. */
  predicate AllDictionariesRead(files: FileSystem, lingPath: Option<string>, spec: LanguageSpec)
  {
    forall k :: 0 <= k < |spec.dictionaries| ==>
      DictionaryFile(files, lingPath, spec.name, spec.dictionaries[k]).Success?
  }

  /** The pairs of each dictionary of `spec`, in listed order. */
  function DictionaryWords(files: FileSystem, lingPath: Option<string>, spec: LanguageSpec): (r: seq<seq<DictEntry>>)
    requires AllDictionariesRead(files, lingPath, spec)
    ensures |r| == |spec.dictionaries|
  {
    seq(|spec.dictionaries|, k requires 0 <= k < |spec.dictionaries| =>
      DictionaryFile(files, lingPath, spec.name, spec.dictionaries[k]).value)
  }

  /** A language loads exactly when each of its dictionaries reads; its
      entries are then the pairs of its dictionaries concatenated in listed
      order, nothing dropped or merged, each tagged with the language. */
  lemma LanguageEntriesExact(files: FileSystem, lingPath: Option<string>, spec: LanguageSpec)
    ensures LanguageEntries(files, lingPath, spec).Success? <==> AllDictionariesRead(files, lingPath, spec)
    ensures AllDictionariesRead(files, lingPath, spec) ==>
      LanguageEntries(files, lingPath, spec) == Success(Tag(spec.name, Flatten(DictionaryWords(files, lingPath, spec))))
    ensures LanguageEntries(files, lingPath, spec).Success? ==>
      forall e :: e in LanguageEntries(files, lingPath, spec).value ==> e.language == spec.name
  {
    var dr := DictionaryResults(files, lingPath, spec.name, spec.dictionaries);
    CollectExact(dr);
    assert forall k :: 0 <= k < |dr| ==> dr[k] == DictionaryFile(files, lingPath, spec.name, spec.dictionaries[k]);
    if AllDictionariesRead(files, lingPath, spec) {
      assert Collect(dr).value == DictionaryWords(files, lingPath, spec);
      var es := LanguageEntries(files, lingPath, spec).value;
      forall e | e in es ensures e.language == spec.name {
        var i :| 0 <= i < |es| && es[i] == e;
      }
    }
  }

  /** Loading the manifest succeeds exactly when every language loads; it
      then yields one entry list per language, in manifest order. */
  lemma LoadLanguagesExact(files: FileSystem, manifest: Manifest)
    ensures LoadLanguages(files, manifest).Success? <==>
      forall i :: 0 <= i < |manifest.languages| ==>
        AllDictionariesRead(files, manifest.linguisticPath, manifest.languages[i])
    ensures LoadLanguages(files, manifest).Success? ==>
      && |LoadLanguages(files, manifest).value| == |manifest.languages|
      && forall i :: 0 <= i < |manifest.languages| ==>
           Success(LoadLanguages(files, manifest).value[i])
             == LanguageEntries(files, manifest.linguisticPath, manifest.languages[i])
  {
    var rs := LanguageResults(files, manifest);
    CollectExact(rs);
    forall i | 0 <= i < |manifest.languages|
      ensures rs[i].Success? <==> AllDictionariesRead(files, manifest.linguisticPath, manifest.languages[i])
    {
      LanguageEntriesExact(files, manifest.linguisticPath, manifest.languages[i]);
    }
  }

  /** The entry lists of the bundles, in order. */
  function Lists(langs: seq<LanguageBundle>): (r: seq<seq<Entry>>)
    reads set b | b in langs
    ensures |r| == |langs| && forall i :: 0 <= i < |langs| ==> r[i] == langs[i].entries
  {
    seq(|langs|, i reads set b | b in langs requires 0 <= i < |langs| => langs[i].entries)
  }

  /** Reads the dictionaries of one language in listed order, concatenates
      their pairs and tags each with the language's name; the first
      dictionary that cannot be read stops the run. */
  method ReadLanguage(files: FileSystem, lingPath: Option<string>, spec: LanguageSpec) returns (r: Result<seq<Entry>>)
    ensures r == LanguageEntries(files, lingPath, spec)
  {
    var words := ReadWords(files, lingPath, spec);
    if words.Failure? {
      return Failure(words.error);
    }
    var entries := TagEntries(spec.name, words.value);
    r := Success(entries);
  }

  /** The pairs of the dictionaries of one language, concatenated in listed
      order, or the first failure. */
  method ReadWords(files: FileSystem, lingPath: Option<string>, spec: LanguageSpec) returns (r: Result<seq<DictEntry>>)
    ensures var c := Collect(DictionaryResults(files, lingPath, spec.name, spec.dictionaries));
      && (r.Success? <==> c.Success?)
      && (r.Success? ==> r.value == Flatten(c.value))
      && (r.Failure? ==> r.error == c.error)
  {
    var name, dicts := spec.name, spec.dictionaries;
    ghost var dictResults := DictionaryResults(files, lingPath, name, dicts);
    ghost var parts: seq<seq<DictEntry>> := [];
    var allWords: seq<DictEntry> := [];
    var k := 0;
    assert dictResults[..0] == [];
    while k < |dicts|
      invariant 0 <= k <= |dicts|
      invariant Collect(dictResults[..k]) == Success(parts)
      invariant allWords == Flatten(parts)
    {
      var d := ReadDictionary(files, lingPath, name, dicts[k]);
      CollectStep(dictResults, k, parts);
      if d.Failure? {
        return Failure(d.error);
      }
      FlattenSnoc(parts, d.value);
      allWords := allWords + d.value;
      parts := parts + [d.value];
      k := k + 1;
    }
    assert dictResults[..k] == dictResults;
    r := Success(allWords);
  }

  /** Tags each pair with the language name, in order. */
  method TagEntries(name: string, words: seq<DictEntry>) returns (entries: seq<Entry>)
    ensures entries == Tag(name, words)
  {
    entries := [];
    var j := 0;
    while j < |words|
      invariant 0 <= j <= |words|
      invariant entries == Tag(name, words[..j])
    {
      TagSnoc(name, words, j);
      entries := entries + [Entry(name, words[j].word, words[j].phonemes)];
      j := j + 1;
    }
    assert words[..j] == words;
  }

  lemma TagSnoc(name: string, words: seq<DictEntry>, j: nat)
    requires j < |words|
    ensures Tag(name, words[..j + 1]) == Tag(name, words[..j]) + [Entry(name, words[j].word, words[j].phonemes)]
  {
  }

  /** Reads every language of the manifest, in order, into a fresh bundle of
      its tagged entries. The first dictionary that cannot be read stops the
      whole run. */
  method ProcessLanguages(files: FileSystem, manifest: Manifest) returns (r: Result<seq<LanguageBundle>>)
    ensures r.Failure? ==> LoadLanguages(files, manifest) == Failure(r.error)
    ensures r.Success? ==>
      && LoadLanguages(files, manifest) == Success(Lists(r.value))
      && |r.value| == |manifest.languages|
      && Distinct(r.value)
      && (forall i :: 0 <= i < |r.value| ==> fresh(r.value[i]) && r.value[i].name == manifest.languages[i].name)
  {
    var langs := manifest.languages;
    ghost var results := LanguageResults(files, manifest);
    ghost var done: seq<seq<Entry>> := [];
    var data: seq<LanguageBundle> := [];
    var i := 0;
    assert results[..0] == [];
    while i < |langs|
      invariant 0 <= i <= |langs|
      invariant Collect(results[..i]) == Success(done)
      invariant |data| == i && |done| == i && Distinct(data)
      invariant forall k :: 0 <= k < i ==>
        fresh(data[k]) && data[k].name == langs[k].name && data[k].entries == done[k]
    {
      var bundle := LoadBundle(files, manifest.linguisticPath, langs[i]);
      CollectStep(results, i, done);
      if bundle.Failure? {
        return Failure(bundle.error);
      }
      DistinctSnoc(data, bundle.value);
      done := done + [bundle.value.entries];
      data := data + [bundle.value];
      i := i + 1;
    }
    assert results[..i] == results;
    assert Lists(data) == done;
    r := Success(data);
  }

  /** One language read into a fresh bundle, or the failure that stopped
      the reading. */
  method LoadBundle(files: FileSystem, lingPath: Option<string>, spec: LanguageSpec)
    returns (r: Result<LanguageBundle>)
    ensures r.Success? <==> LanguageEntries(files, lingPath, spec).Success?
    ensures r.Failure? ==> r.error == LanguageEntries(files, lingPath, spec).error
    ensures r.Success? ==>
      && fresh(r.value)
      && r.value.name == spec.name
      && r.value.entries == LanguageEntries(files, lingPath, spec).value
  {
    var entries := ReadLanguage(files, lingPath, spec);
    if entries.Failure? {
      return Failure(entries.error);
    }
    var bundle := new LanguageBundle(entries.value, spec.name);
    r := Success(bundle);
  }

  /** The language names of the bundles, in order, one per bundle and
      duplicates kept. */
  method GetAllLangs(langs: seq<LanguageBundle>) returns (names: seq<string>)
    ensures |names| == |langs|
    ensures forall i :: 0 <= i < |langs| ==> names[i] == langs[i].name
  {
    names := [];
    for i := 0 to |langs|
      invariant |names| == i
      invariant forall k :: 0 <= k < i ==> names[k] == langs[k].name
    {
      names := names + [langs[i].name];
    }
  }

  /** The elements of a sequence (the characters of a word, the tokens of
      a pronunciation). */
  function Elements<T>(s: seq<T>): set<T>
  {
    set k | 0 <= k < |s| :: s[k]
  }

  /** The graphemes met so far when the entries are scanned in order. */
  function Graphemes(es: seq<Entry>): set<char>
  {
    if es == [] then {} else Graphemes(es[..|es| - 1]) + Elements(es[|es| - 1].word)
  }

  /** The phoneme tokens met so far when the entries are scanned in order. */
  function Phonemes(es: seq<Entry>): set<string>
  {
    if es == [] then {} else Phonemes(es[..|es| - 1]) + Elements(es[|es| - 1].phonemes)
  }

  /** The grapheme set is exactly the union of the characters of every
      entry's word, and the phoneme set exactly the union of every entry's
      phoneme tokens. */
  lemma {:induction false} SymbolsExact(es: seq<Entry>)
    ensures forall c :: c in Graphemes(es) <==> exists i :: 0 <= i < |es| && c in es[i].word
    ensures forall p :: p in Phonemes(es) <==> exists i :: 0 <= i < |es| && p in es[i].phonemes
  {
    if es != [] {
      var init := es[..|es| - 1];
      SymbolsExact(init);
      assert forall i :: 0 <= i < |init| ==> init[i] == es[i];
      forall c | c in Graphemes(es)
        ensures exists i :: 0 <= i < |es| && c in es[i].word
      {
        if c !in Graphemes(init) {
          var k :| 0 <= k < |es[|es| - 1].word| && es[|es| - 1].word[k] == c;
        }
      }
      forall c | exists i :: 0 <= i < |es| && c in es[i].word
        ensures c in Graphemes(es)
      {
        var i :| 0 <= i < |es| && c in es[i].word;
        if i == |es| - 1 {
          var k :| 0 <= k < |es[i].word| && es[i].word[k] == c;
        }
      }
    }
  }

  /** Scans every entry of every language and collects the union of the
      word characters and the union of the phoneme tokens, across all
      languages together. */
  method CollateSymbols(langs: seq<LanguageBundle>) returns (graphemes: set<char>, phonemes: set<string>)
    ensures graphemes == Graphemes(Flatten(Lists(langs)))
    ensures phonemes == Phonemes(Flatten(Lists(langs)))
  {
    ghost var lists := Lists(langs);
    graphemes, phonemes := {}, {};
    for i := 0 to |langs|
      invariant graphemes == Graphemes(Flatten(lists[..i]))
      invariant phonemes == Phonemes(Flatten(lists[..i]))
    {
      ghost var before := Flatten(lists[..i]);
      var entries := langs[i].entries;
      assert before + entries[..0] == before;
      for j := 0 to |entries|
        invariant graphemes == Graphemes(before + entries[..j])
        invariant phonemes == Phonemes(before + entries[..j])
      {
        var entry := entries[j];
        ScanStep(before, entries, j);
        graphemes := graphemes + Elements(entry.word);
        phonemes := phonemes + Elements(entry.phonemes);
      }
      FlattenTake(lists, i + 1);
      assert entries[..|entries|] == entries;
    }
    assert lists[..|langs|] == lists;
  }

  /** Scanning one more entry adds its characters and its phoneme tokens. */
  lemma ScanStep(before: seq<Entry>, entries: seq<Entry>, j: nat)
    requires j < |entries|
    ensures Graphemes(before + entries[..j + 1]) == Graphemes(before + entries[..j]) + Elements(entries[j].word)
    ensures Phonemes(before + entries[..j + 1]) == Phonemes(before + entries[..j]) + Elements(entries[j].phonemes)
  {
    var scanned := before + entries[..j + 1];
    assert scanned[..|scanned| - 1] == before + entries[..j];
  }
}
