/** The configuration synthesiser: the master training configuration, a
    tree of YAML mappings, becomes the configuration of one experiment. The
    mappings are objects that the synthesiser updates in place, and the
    copy it makes is shallow, so nested mappings stay shared with the
    master. */
module DpConfig {
  import opened Common
  import opened ValidationAmount

  /** A YAML string scalar, plain or tagged for single-quoted output. */
  datatype Scalar = Plain(text: string) | SingleQuoted(text: string)

  /** A YAML value. `Other` stands for every node the synthesiser never
      looks inside (null, booleans, sequences of other values). */
  datatype Value =
    | Text(scalar: Scalar)
    | Int(i: int)
    | Float(f: Fraction)
    | List(list: SymbolList)
    | Block(section: Section)
    | Other

  /** A YAML mapping. */
  class Section {
    var fields: map<string, Value>

    constructor (fields: map<string, Value>)
      ensures this.fields == fields
    {
      this.fields := fields;
    }
  }

  /** A YAML sequence of string scalars. */
  class SymbolList {
    var items: seq<Scalar>

    constructor (items: seq<Scalar>)
      ensures this.items == items
    {
      this.items := items;
    }

    /** Overwrites every slot, by index, with the same text tagged
        single-quoted. */
    method QuoteAll()
      modifies this
      ensures items == Quoted(old(items))
    {
      var index := 0;
      while index < |items|
        invariant 0 <= index <= |items| == |old(items)|
        invariant items == Quoted(old(items))[..index] + old(items)[index..]
      {
        items := items[index := SingleQuoted(items[index].text)];
        index := index + 1;
      }
    }
  }

  /** Every scalar tagged single-quoted, with its text kept. */
  function Quoted(s: seq<Scalar>): (r: seq<Scalar>)
    ensures |r| == |s|
  {
    seq(|s|, i requires 0 <= i < |s| => SingleQuoted(s[i].text))
  }

  /** The texts of a sequence of scalars. */
  function Texts(s: seq<Scalar>): (r: seq<string>)
    ensures |r| == |s|
  {
    seq(|s|, i requires 0 <= i < |s| => s[i].text)
  }

  /** Untagged scalars for the strings `ss`. */
  function Plains(ss: seq<string>): (r: seq<Scalar>)
    ensures |r| == |ss|
  {
    seq(|ss|, i requires 0 <= i < |ss| => Plain(ss[i]))
  }

  /** Quoting keeps the length and the texts, tags every element, and
      quoting again changes nothing. */
  lemma QuotedKeepsTexts(s: seq<Scalar>)
    ensures Texts(Quoted(s)) == Texts(s)
    ensures forall i :: 0 <= i < |s| ==> Quoted(s)[i].SingleQuoted?
    ensures Quoted(Quoted(s)) == Quoted(s)
  {
  }

  /** The strings of a set as a list, each once, in some order
      (Python's `list(s)` on a set). */
  method ListOf<T(==)>(s: set<T>) returns (r: seq<T>)
    ensures |r| == |s| && Distinct(r)
    ensures forall x :: x in r <==> x in s
  {
    r := [];
    var rest := s;
    while rest != {}
      invariant rest <= s && |r| + |rest| == |s|
      invariant Distinct(r)
      invariant forall x :: x in r <==> x in s && x !in rest
      decreases |rest|
    {
      var x :| x in rest;
      r := r + [x];
      rest := rest - {x};
    }
  }

  /** The mappings directly under `m`. */
  function Blocks(m: Section): set<Section>
    reads m
  {
    set k | k in m.fields && m.fields[k].Block? :: m.fields[k].section
  }

  /** `os.path.join("experiments", exp, dir)`. */
  function ExperimentDir(exp: string, dir: string): string
  {
    JoinPath(JoinPath("experiments", exp), dir)
  }

  /** For a plain experiment name and a relative directory the result is
      `experiments/<exp>/<dir>`. */
  lemma ExperimentDirRelative(exp: string, dir: string)
    requires exp != [] && exp[0] != '/' && exp[|exp| - 1] != '/'
    requires dir == [] || dir[0] != '/'
    ensures ExperimentDir(exp, dir) == "experiments/" + exp + "/" + dir
  {
  }

  /** An absolute directory is kept as it is, whatever the experiment. */
  lemma ExperimentDirAbsolute(exp: string, dir: string)
    requires |dir| > 0 && dir[0] == '/'
    ensures ExperimentDir(exp, dir) == dir
  {
  }

  /** The scalar `os.path.join("experiments", exp, dir)` stores for the
      scalar `dir`: a new plain string, except that an absolute directory is
      returned as the very same scalar, keeping its quoting. */
  function MovedDir(exp: string, dir: Scalar): (r: Scalar)
    ensures r.text == ExperimentDir(exp, dir.text)
    ensures |dir.text| > 0 && dir.text[0] == '/' ==> r == dir
    ensures !(|dir.text| > 0 && dir.text[0] == '/') ==> r.Plain?
  {
    if |dir.text| > 0 && dir.text[0] == '/' then dir
    else Plain(ExperimentDir(exp, dir.text))
  }

  /** Where the synthesiser stops on `master`, if it does: the lookups and
      type uses of the source in the order it makes them. */
  function ConfigError(master: Section): (e: Option<Error>)
    reads master, Blocks(master)
    ensures e.None? <==>
      && "validation" in master.fields
      && "preprocessing" in master.fields && master.fields["preprocessing"].Block?
      && "paths" in master.fields && master.fields["paths"].Block?
      && "checkpoint_dir" in master.fields["paths"].section.fields
      && "data_dir" in master.fields["paths"].section.fields
      && master.fields["paths"].section.fields["checkpoint_dir"].Text?
      && master.fields["paths"].section.fields["data_dir"].Text?
  {
    var f := master.fields;
    if "validation" !in f then Some(MissingKey("validation"))
    else if "preprocessing" !in f then Some(MissingKey("preprocessing"))
    else if !f["preprocessing"].Block? then Some(WrongType("preprocessing"))
    else if "paths" !in f then Some(MissingKey("paths"))
    else if !f["paths"].Block? then Some(WrongType("paths"))
    else
      var paths := f["paths"].section.fields;
      if "checkpoint_dir" !in paths then Some(MissingKey("checkpoint_dir"))
      else if "data_dir" !in paths then Some(MissingKey("data_dir"))
      else if !paths["checkpoint_dir"].Text? then Some(WrongType("checkpoint_dir"))
      else if !paths["data_dir"].Text? then Some(WrongType("data_dir"))
      else None
  }

  /** The raw validation settings of the master configuration. */
  datatype Settings = Settings(minimum: Value, maximum: Value, percentage: Value)

  /** Looks up the three validation settings; their types are only used,
      and so only checked, where the amounts are computed. */
  function ReadValidationSettings(master: Section): (r: Result<Settings>)
    reads master, Blocks(master)
    ensures r.Success? <==>
      && "validation" in master.fields && master.fields["validation"].Block?
      && "validation_minimum" in master.fields["validation"].section.fields
      && "validation_maximum" in master.fields["validation"].section.fields
      && "validation_percentage" in master.fields["validation"].section.fields
    ensures r.Success? ==>
      var v := master.fields["validation"].section.fields;
      r.value == Settings(v["validation_minimum"], v["validation_maximum"], v["validation_percentage"])
  {
    var f := master.fields;
    if "validation" !in f then Failure(MissingKey("validation"))
    else if !f["validation"].Block? then Failure(WrongType("validation"))
    else SettingsOf(f["validation"].section.fields)
  }

  const SettingKeys: set<string> := {"validation_minimum", "validation_maximum", "validation_percentage"}

  /** The three settings of the validation mapping `v`. */
  function SettingsOf(v: map<string, Value>): Result<Settings>
  {
    if "validation_minimum" !in v then Failure(MissingKey("validation_minimum"))
    else if "validation_maximum" !in v then Failure(MissingKey("validation_maximum"))
    else if "validation_percentage" !in v then Failure(MissingKey("validation_percentage"))
    else Success(Settings(v["validation_minimum"], v["validation_maximum"], v["validation_percentage"]))
  }

  /** Two mappings that agree on the three setting keys agree on the
      settings. */
  lemma SettingsOfAgree(a: map<string, Value>, b: map<string, Value>)
    requires forall k :: k in SettingKeys ==> (k in a <==> k in b) && (k in a ==> a[k] == b[k])
    ensures SettingsOf(a) == SettingsOf(b)
  {
    assert "validation_minimum" in SettingKeys && "validation_maximum" in SettingKeys;
    assert "validation_percentage" in SettingKeys;
  }

  /** The one-character strings of a set of characters. */
  function CharStrings(cs: set<char>): set<string>
  {
    set c | c in cs :: [c]
  }

  /** The keys the synthesiser adds to the preprocessing mapping. */
  const VocabularyKeys: set<string> := {"text_symbols", "phoneme_symbols", "languages"}

  /** Quoting a list of distinct plain strings yields each string once,
      tagged. */
  lemma QuotedPlainsHold(ss: seq<string>, symbols: set<string>)
    requires ListsOnce(ss, symbols)
    ensures HoldsQuotedItems(Quoted(Plains(ss)), symbols)
  {
    var q := Quoted(Plains(ss));
    assert Texts(q) == ss;
    forall x | x in symbols ensures SingleQuoted(x) in q {
      var i :| 0 <= i < |ss| && ss[i] == x;
      assert q[i] == SingleQuoted(x);
    }
  }

  /** HoldsQuoted on the items of a list. */
  ghost predicate HoldsQuotedItems(items: seq<Scalar>, symbols: set<string>)
  {
    && |items| == |symbols|
    && Distinct(Texts(items))
    && (forall i :: 0 <= i < |items| ==> items[i].SingleQuoted?)
    && (forall x :: x in symbols <==> SingleQuoted(x) in items)
  }

  /** Builds the experiment configuration from `master`: a shallow copy
      without the `validation` key, whose (shared) `preprocessing` mapping
      gains the grapheme, phoneme and language lists, whose (shared) `paths`
      mapping has both directories moved under `experiments/<exp>`, and
      whose symbol lists end up single-quoted. */
  method CreateDpConfig(master: Section, graphemes: set<char>, phonemes: set<string>, allLangs: seq<string>, exp: string)
    returns (r: Result<Section>)
    requires master !in Blocks(master)
    requires ("preprocessing" in master.fields && "paths" in master.fields &&
              master.fields["preprocessing"].Block? && master.fields["paths"].Block?) ==>
      master.fields["preprocessing"].section != master.fields["paths"].section
    modifies Blocks(master)
    ensures master.fields == old(master.fields)
    ensures ReadValidationSettings(master) == old(ReadValidationSettings(master))
    ensures r.Failure? <==> old(ConfigError(master)).Some?
    ensures r.Failure? ==> r.error == old(ConfigError(master)).value
    ensures r.Failure? ==> forall s :: s in Blocks(master) ==> s.fields == old(s.fields)
    ensures r.Success? ==>
      forall s :: (s in Blocks(master) && s != master.fields["preprocessing"].section &&
                   s != master.fields["paths"].section) ==> s.fields == old(s.fields)
    ensures r.Success? ==>
      && fresh(r.value)
      && r.value.fields == master.fields - {"validation"}
      && var prep := master.fields["preprocessing"].section;
      && var paths := master.fields["paths"].section;
      && prep.fields.Keys == old(prep.fields).Keys + VocabularyKeys
      && (forall k :: k in old(prep.fields) && k !in VocabularyKeys ==> prep.fields[k] == old(prep.fields[k]))
      && prep.fields["text_symbols"].List? && fresh(prep.fields["text_symbols"].list)
      && HoldsQuotedItems(prep.fields["text_symbols"].list.items, CharStrings(graphemes))
      && prep.fields["phoneme_symbols"].List? && fresh(prep.fields["phoneme_symbols"].list)
      && HoldsQuotedItems(prep.fields["phoneme_symbols"].list.items, phonemes)
      && prep.fields["languages"].List? && fresh(prep.fields["languages"].list)
      && prep.fields["languages"].list.items == Plains(allLangs)
      && paths.fields == old(paths.fields)
           ["checkpoint_dir" := Text(MovedDir(exp, old(paths.fields["checkpoint_dir"].scalar)))]
           ["data_dir" := Text(MovedDir(exp, old(paths.fields["data_dir"].scalar)))]
  {
    var err := ConfigError(master);
    if err.Some? {
      return Failure(err.value);
    }
    ghost var settingsBefore := ReadValidationSettings(master);
    ghost var validationBefore := if master.fields["validation"].Block? then master.fields["validation"].section.fields else map[];
    var copy := new Section(master.fields);
    copy.fields := copy.fields - {"validation"};
    var prep, paths := copy.fields["preprocessing"].section, copy.fields["paths"].section;
    assert prep in Blocks(master) && paths in Blocks(master);
    AddQuotedVocabularies(prep, graphemes, phonemes, allLangs);
    MoveDirectories(paths, exp);
    if master.fields["validation"].Block? {
      ghost var v := master.fields["validation"].section;
      if v != prep && v != paths {
        assert v.fields == validationBefore;
      }
      SettingsOfAgree(v.fields, validationBefore);
    }
    assert ReadValidationSettings(master) == settingsBefore;

    r := Success(copy);
  }

  /** Adds the three lists to the preprocessing mapping and tags the
      grapheme and phoneme lists single-quoted. */
  method AddQuotedVocabularies(prep: Section, graphemes: set<char>, phonemes: set<string>, allLangs: seq<string>)
    modifies prep
    ensures prep.fields.Keys == old(prep.fields).Keys + VocabularyKeys
    ensures forall k :: k in old(prep.fields) && k !in VocabularyKeys ==> prep.fields[k] == old(prep.fields[k])
    ensures prep.fields["text_symbols"].List? && fresh(prep.fields["text_symbols"].list)
    ensures HoldsQuotedItems(prep.fields["text_symbols"].list.items, CharStrings(graphemes))
    ensures prep.fields["phoneme_symbols"].List? && fresh(prep.fields["phoneme_symbols"].list)
    ensures HoldsQuotedItems(prep.fields["phoneme_symbols"].list.items, phonemes)
    ensures prep.fields["languages"].List? && fresh(prep.fields["languages"].list)
    ensures prep.fields["languages"].list.items == Plains(allLangs)
  {
    var textSymbols, phonemeSymbols, _ := AddVocabularies(prep, graphemes, phonemes, allLangs);
    ghost var texts, phonemeTexts := Texts(textSymbols.items), Texts(phonemeSymbols.items);
    textSymbols.QuoteAll();
    phonemeSymbols.QuoteAll();
    QuotedPlainsHold(texts, CharStrings(graphemes));
    QuotedPlainsHold(phonemeTexts, phonemes);
  }

  /** `ss` lists each of `symbols` exactly once. */
  ghost predicate ListsOnce(ss: seq<string>, symbols: set<string>)
  {
    |ss| == |symbols| && Distinct(ss) && forall x :: x in ss <==> x in symbols
  }

  /** Adds the grapheme, phoneme and language lists to the preprocessing
      mapping, replacing any lists already under those keys. */
  method AddVocabularies(prep: Section, graphemes: set<char>, phonemes: set<string>, allLangs: seq<string>)
    returns (textSymbols: SymbolList, phonemeSymbols: SymbolList, languages: SymbolList)
    modifies prep
    ensures fresh(textSymbols) && fresh(phonemeSymbols) && fresh(languages)
    ensures textSymbols != phonemeSymbols && languages != textSymbols && languages != phonemeSymbols
    ensures prep.fields == old(prep.fields)["text_symbols" := List(textSymbols)]
                                           ["phoneme_symbols" := List(phonemeSymbols)]
                                           ["languages" := List(languages)]
    ensures textSymbols.items == Plains(Texts(textSymbols.items))
    ensures ListsOnce(Texts(textSymbols.items), CharStrings(graphemes))
    ensures phonemeSymbols.items == Plains(Texts(phonemeSymbols.items))
    ensures ListsOnce(Texts(phonemeSymbols.items), phonemes)
    ensures languages.items == Plains(allLangs)
  {
    var gs := ListOf(graphemes);
    var graphemeStrings := seq(|gs|, i requires 0 <= i < |gs| => [gs[i]]);
    GraphemeStringsHold(gs, graphemes, graphemeStrings);
    var ps := ListOf(phonemes);
    textSymbols := new SymbolList(Plains(graphemeStrings));
    phonemeSymbols := new SymbolList(Plains(ps));
    languages := new SymbolList(Plains(allLangs));
    assert Texts(Plains(graphemeStrings)) == graphemeStrings;
    assert Texts(Plains(ps)) == ps;
    prep.fields := prep.fields["text_symbols" := List(textSymbols)]
                              ["phoneme_symbols" := List(phonemeSymbols)]
                              ["languages" := List(languages)];
  }

  /** Moves the checkpoint and data directories under the experiment. */
  method MoveDirectories(paths: Section, exp: string)
    requires "checkpoint_dir" in paths.fields && paths.fields["checkpoint_dir"].Text?
    requires "data_dir" in paths.fields && paths.fields["data_dir"].Text?
    modifies paths
    ensures paths.fields == old(paths.fields)
      ["checkpoint_dir" := Text(MovedDir(exp, old(paths.fields["checkpoint_dir"].scalar)))]
      ["data_dir" := Text(MovedDir(exp, old(paths.fields["data_dir"].scalar)))]
  {
    var logDir := paths.fields["checkpoint_dir"].scalar;
    var dataDir := paths.fields["data_dir"].scalar;
    paths.fields := paths.fields["checkpoint_dir" := Text(MovedDir(exp, logDir))];
    paths.fields := paths.fields["data_dir" := Text(MovedDir(exp, dataDir))];
  }

  /** The one-character strings of a list of distinct characters are
      distinct and are the strings of the set. */
  lemma GraphemeStringsHold(gs: seq<char>, cs: set<char>, ss: seq<string>)
    requires |gs| == |cs| && Distinct(gs) && (forall c :: c in gs <==> c in cs)
    requires |ss| == |gs| && forall i :: 0 <= i < |gs| ==> ss[i] == [gs[i]]
    ensures ListsOnce(ss, CharStrings(cs))
  {
    forall x | x in CharStrings(cs) ensures x in ss {
      var c :| c in cs && x == [c];
      var i :| 0 <= i < |gs| && gs[i] == c;
      assert ss[i] == x;
    }
    assert forall i, j :: 0 <= i < j < |ss| ==> ss[i][0] != ss[j][0];
    var strs := set i | 0 <= i < |ss| :: ss[i];
    assert strs == CharStrings(cs);
    DistinctCard(ss);
  }

  /** A list without repeats is as long as the set of its elements. */
  lemma {:induction false} DistinctCard<T>(s: seq<T>)
    requires Distinct(s)
    ensures |set i | 0 <= i < |s| :: s[i]| == |s|
  {
    if s != [] {
      var init := s[..|s| - 1];
      DistinctCard(init);
      var a := set i | 0 <= i < |init| :: init[i];
      var b := set i | 0 <= i < |s| :: s[i];
      assert b == a + {s[|s| - 1]};
      assert s[|s| - 1] !in a;
    }
  }
}
