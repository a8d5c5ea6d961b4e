# Preprocessing pipeline of a multilingual grapheme-to-phoneme trainer

This project models, in Dafny, the data-preparation core of `preprocess.py`. That core runs before training a DeepPhonemizer model on several languages. Its pieces are:

- **Dictionary reader** (`read_dictionary`). It reads one tab-separated pronunciation dictionary into `(word, phoneme tokens)` pairs. The phoneme field is split on whitespace the way Python's `str.split()` does it.
- **Language aggregator** (`process_languages`). It reads every language of the linguistic manifest into a bundle of entries tagged with the language name.
- **Symbol collator** (`collate_symbols`). It builds the grapheme set and the phoneme set.
- **Language-name list** (`get_all_langs`). It lists the language names in order.
- **Validation-count clamp** (`get_validation_amount`). It computes a rounded percentage of a language's size and clamps it between a minimum and a maximum.
- **Split builder** (`create_dp_sets`). Each language gives up its clamped number of randomly chosen entries, popped out of its list in place, to a global validation list. What it keeps goes to a global training list.
- **Config synthesiser** (`create_dp_config`). It makes a shallow copy of the master configuration without its `validation` mapping. It adds the symbol and language lists to the shared `preprocessing` mapping and moves both directories of the shared `paths` mapping under `experiments/<exp>`. Finally it re-tags every symbol as a single-quoted scalar.

## How the model is built

- The code that works by mutation is imperative Dafny:
  - a `LanguageBundle` class whose entry list is popped in place;
  - `Section` and `SymbolList` classes for the YAML mappings and lists, which the synthesiser updates in place and which the shallow copy shares with the master;
  - methods with loops for every loop of the source.
- Each method is proved against a specification function:
  - `DictionaryFile` for a dictionary;
  - `LanguageEntries` and `LoadLanguages` for the manifest;
  - `Graphemes` and `Phonemes` for the collator;
  - `Quoted` for the quoting loop;
  - `Sample` for one language's draws;
  - `SplitAll` for the whole split.
- Lemmas then prove what the source promises about those functions.
- Randomness is an oracle `nat -> nat`. The `t`-th `random.choice` of a run takes the element at index `oracle(t) % n` of the current list. `pop(index(choice))` then removes the first element equal to it.
- Dictionary files are a map from path to rows already split into fields.
- An aborting call is a `Failure` carrying an `Error`. The aborting calls are:
  - `exit(1)`;
  - the `FileNotFoundError` of `open` (`DictionaryNotFound`);
  - the `AttributeError` of `preprocessing.update` on a value that is not a mapping (`WrongType("preprocessing")`);
  - an uncaught `KeyError`, `TypeError` or `IndexError`.

Where the code and its documentation disagree, the model follows the code:

- **The clamp.** `get_validation_amount` tests the minimum first. So when `val_min > val_max`, it returns `val_min` only when the rounded amount is below `val_min`. Otherwise it returns `val_max`, not `val_min`. `GetValidationAmount` states both cases.
- **The language-name list.** The docstring of `get_all_langs` speaks of unique languages. The code keeps every name, duplicates included.
- **Directory paths.** `os.path.join("experiments", exp, dir)` returns `dir` unchanged when `dir` is absolute. `ExperimentDirAbsolute` states this.
- **Too few entries.** A language with fewer entries than its amount is not clamped to its size. It is emptied by the draws, and the next `random.choice` on the empty list raises. `SplitFailureState` states the state this leaves.

## Model

| member | source | states |
|---|---|---|
| Tokens.Split | preprocess.py:42 | The tokens of `str.split()`: each one is non-empty and holds no whitespace, and together, in order, they are exactly the non-whitespace characters of the field. |
| Tokens.SplitAtSpace | preprocess.py:42 | Tokens break at every whitespace character and nowhere else: the tokens of `a`, a whitespace character and `b` are the tokens of `a` followed by those of `b`. |
| Tokens.SplitOfToken | preprocess.py:42 | A non-empty whitespace-free field is one token. With `SplitAtSpace` and the empty field's empty token list, this fixes the split of every field. |
| Tokens.SplitJoinSpaced | preprocess.py:42 | Splitting whitespace-free tokens that were joined with single spaces gives back exactly those tokens. |
| Dictionary.ReadDictionary | preprocess.py:26-47 | Equals `DictionaryFile`. For a file that exists, the read succeeds exactly when every row has two fields, giving one pair per row in row order, `(row[0], split of row[1])`. Otherwise it fails as a whole with the malformed-dictionary error and returns no partial result. |
| Common.CollectExact | preprocess.py:63-69 | A loop that stops at the first failure succeeds exactly when every step does, with every value in order. Otherwise it reports the first failing step, all earlier steps having succeeded. |
| Languages.LanguageEntriesExact | preprocess.py:64-73 | A language loads exactly when each of its dictionaries reads. Its entries are then its dictionaries' pairs concatenated in listed order, nothing dropped or merged, and every entry carries the language's name. |
| Languages.LoadLanguagesExact | preprocess.py:63-75 | Loading the manifest succeeds exactly when every language's dictionaries all read. It then gives one entry list per manifest language, in manifest order, each that language's entries. |
| Languages.ReadWords | preprocess.py:65-69 | The extend loop gives the concatenation of the dictionaries' pairs in listed order, or the first dictionary's failure. |
| Languages.TagEntries | preprocess.py:71-73 | The tagging loop tags every pair with the language name, in order. |
| Languages.ReadLanguage | preprocess.py:64-73 | Reading one language gives exactly `LanguageEntries`, its specification. |
| Languages.LoadBundle | preprocess.py:64-75 | One language becomes a fresh bundle with the manifest's name and exactly the language's entries, or the failure of its first unreadable dictionary. |
| Languages.ProcessLanguages | preprocess.py:50-81 | Fails exactly when `LoadLanguages` does, with the same error. Otherwise it gives one fresh, distinct bundle per manifest language, in manifest order, with the language's name and its entries. |
| Languages.GetAllLangs | preprocess.py:143-154 | One name per bundle, in input order, duplicates kept. |
| Languages.SymbolsExact | preprocess.py:94-98 | A character is in the grapheme set exactly when it occurs in some entry's word. A token is in the phoneme set exactly when it is among some entry's phoneme tokens. |
| Languages.CollateSymbols | preprocess.py:84-100 | The two sets built by the nested loops are `Graphemes` and `Phonemes` of all entries of all languages together. |
| ValidationAmount.RoundHalfEven | preprocess.py:202 | Python's `round` of the exact percentage amount: within half a unit of it, and even on a tie. |
| ValidationAmount.RoundHalfEvenUnique | preprocess.py:202 | Those two properties single out the rounded integer. |
| ValidationAmount.GetValidationAmount | preprocess.py:202-209 | With `val_min <= val_max`, the result lies in `[val_min, val_max]` and equals the rounded amount exactly when that amount is in range. With `val_min > val_max`, the result is `val_min` exactly when the rounded amount is below `val_min`, and `val_max` otherwise. |
| ValidationAmount.AmountIsNearest | preprocess.py:202-209 | With a consistent range, the clamp is the value of the range nearest to the rounded amount. |
| ValidationAmount.AmountExamples | preprocess.py:202-209 | For a 20% share clamped to [5, 50], sizes 100, 10 and 1000 give 20, 5 and 50. |
| Bundles.IndexOf | preprocess.py:181 | `list.index` finds a position that holds the value. |
| Bundles.IndexOfFirst | preprocess.py:181 | No earlier position holds it, so `pop(index(x))` removes the first occurrence. |
| Bundles.LanguageBundle.constructor | preprocess.py:75 | A bundle holds the language's entries and name. |
| Bundles.LanguageBundle.Pop | preprocess.py:181 | `pop(j)` returns the entry at `j` and leaves the list without it. |
| Bundles.Sample | preprocess.py:180-182 | `k` draws without replacement pick exactly `k` entries and leave `n - k`. |
| Bundles.SampleSplits | preprocess.py:180-182 | The drawn and the remaining entries together are a permutation of the language's entries, and the remaining ones are among them. |
| Bundles.LanguageBundle.MoveToValidation | preprocess.py:180-182 | The draws succeed exactly when the amount is at most the language's size. The drawn entries and what stays in the bundle are then `Sample` of the old entries. Otherwise the bundle is left empty. |
| DpConfig.ListOf | preprocess.py:122 | `list(s)` of a set lists every element exactly once. |
| DpConfig.SymbolList.QuoteAll | preprocess.py:130-138 | The index loop leaves the list equal to `Quoted` of its old contents. |
| DpConfig.QuotedKeepsTexts | preprocess.py:130-138 | Quoting keeps the length and every string, tags every element single-quoted, and is idempotent. |
| DpConfig.ExperimentDirRelative | preprocess.py:127-128 | For a plain experiment name and a relative directory, the result is `experiments/<exp>/<dir>`. |
| DpConfig.ExperimentDirAbsolute | preprocess.py:127-128 | An absolute directory is returned unchanged. |
| DpConfig.ConfigError | preprocess.py:114-128 | The synthesiser runs to the end exactly when these all hold: `validation` exists, `preprocessing` and `paths` exist and are mappings, and `paths` holds string `checkpoint_dir` and `data_dir`. Otherwise it reports the first missing or mistyped key, in the source's order of use. |
| DpConfig.ReadValidationSettings | preprocess.py:165-167 | Succeeds exactly when the `validation` mapping holds the three settings, and then returns them. |
| DpConfig.AddVocabularies | preprocess.py:120-122 | `preprocessing` gains three lists: every grapheme once and every phoneme once, each as plain strings, and the language names in order. Nothing else in the mapping changes. |
| DpConfig.AddQuotedVocabularies | preprocess.py:120-138 | After the quoting loops, the symbol lists hold every grapheme and every phoneme exactly once, each tagged single-quoted. The language list stays plain. The other keys are kept. |
| DpConfig.MovedDir | preprocess.py:127-128 | The scalar `os.path.join("experiments", exp, dir)` yields: its text is the joined path. An absolute directory comes back as the very same scalar, single-quoted if it was loaded quoted. Any other directory becomes a new plain string. |
| DpConfig.MoveDirectories | preprocess.py:125-128 | `checkpoint_dir` and `data_dir` become `MovedDir` of their old scalars, and nothing else in `paths` changes. |
| DpConfig.CreateDpConfig | preprocess.py:103-140 | Fails exactly when `ConfigError` reports a key. On success it returns a fresh copy of the master's fields without `validation`, with `preprocessing` and `paths` updated as above. Every other mapping directly under the master keeps its contents, so the derived config carries the master's other settings. The master keeps its own fields, so its validation settings survive for the split. |
| SplitBuilder.CheckSettings | preprocess.py:178 | The settings are usable exactly when the percentage is a number and both bounds are integers. An integer percentage becomes the same exact fraction. |
| SplitBuilder.SplitFailsExactly | preprocess.py:180-181 | The split fails exactly when some language has fewer entries than its amount. |
| SplitBuilder.SplitCounts | preprocess.py:178-185 | Without a failure, each language gives exactly its amount (none when the amount is negative) and keeps the rest. What it gave and what it kept are together a permutation of what it had. |
| SplitBuilder.SplitPermutation | preprocess.py:175-185 | Without a failure, training and validation together are a multiset permutation of all the input entries. |
| SplitBuilder.SplitFailureState | preprocess.py:175-185 | On a failure, the first overdrawn language is left empty. The languages before it keep all but their amount, and those after it are untouched. |
| SplitBuilder.SplitExample | preprocess.py:178-185 | Languages of 10 and 100 entries with a 10% share clamped to [2, 20] give 2 and 10 validation entries and keep 8 and 90. |
| SplitBuilder.AppendAll | preprocess.py:184-185 | The training list is extended by the language's remaining entries, in order. |
| SplitBuilder.SplitLanguage | preprocess.py:178-185 | One language's turn follows `Sample`. The bundle keeps the undrawn entries, validation gains the drawn ones in draw order, and training gains the kept ones. |
| SplitBuilder.SplitNext | preprocess.py:175-187 | One loop turn extends the `SplitAfter` outcome by one language, or reaches the failed `SplitAll`. |
| SplitBuilder.SplitLanguages | preprocess.py:174-189 | The bundles end holding `SplitAll(...).kept`. The result is `(Flatten(kept), Flatten(picks))` when no language is overdrawn, and otherwise the empty-choice failure. |
| SplitBuilder.CreateDpSets | preprocess.py:157-189 | Missing validation settings fail, with the bundles unchanged. No languages gives two empty lists. Otherwise the outcome and the bundles' final contents are those of `SplitAll` over the clamped amounts. |

## Left out

- File access is not modelled: `open`, `os.path.abspath` and `csv.reader`. A dictionary is looked up in a map from path to rows already split into fields, and the linguistic path is used as given, without making it absolute. A missing file is the `DictionaryNotFound` failure. A manifest without `linguistic_path`, which makes `abspath(None)` raise, is the `NoLinguisticPath` failure.
- `print(...)` followed by `exit(1)` on a malformed row is the `MalformedDictionary` failure. The message is not modelled.
- `tqdm` progress bars and every `print` are left out. They change no data.
- `load_config`, the YAML dump and the `__main__` block are left out. So are `os.mkdir` and the call into the trainer's own preprocessing. train.py and export.py are not part of this model. They only call into PyTorch and the training library.
- A language's `name` is taken as a string that is present. A missing `name` key, and `str()` of a non-string name, are not modelled.
- A language's `dictionaries` is taken as a list of strings. A null `dictionaries` value, and dictionary ids that are not strings, are not modelled. Both raise `TypeError`, the first at `for dictionary in …`, the second at `dict_path + ".tsv"`.
- Python's float arithmetic in `round(num_entries * val_percentage)` is not modelled. The percentage is an exact fraction, rounded half to even as Python's `round` does on the exact value. Binary floating-point error near a tie is not captured.
- `SingleQuotedScalarString` is modelled as a tag around the same text. Its YAML rendering is not modelled.
- The order of `list(set)` is left open. `ListOf` picks an arbitrary order, and only "each element exactly once" is stated. The key order of YAML mappings is not modelled either, since mappings are Dafny maps.
- The random generator is replaced by the oracle. Uniformity of the draws is not stated.
- The language lists of `process_languages`, `[entries, name]` pairs, are modelled as `LanguageBundle` objects with an entry list and a name.
- DpConfig.CreateDpConfig checks every lookup before changing anything. When a later lookup fails, the source has already updated the shared `preprocessing` (and possibly `paths`) mapping before raising, but the model leaves every mapping unchanged.
- DpConfig.CreateDpConfig requires the `preprocessing` and `paths` mappings to be two different objects, and the master not to be nested inside itself. Aliasing through YAML anchors is not modelled.
- DpConfig.AddVocabularies stores a new list object under `languages`. The source stores the caller's own `all_langs` list there, so a later change to one would show in the other. That sharing is not modelled, since the language names are passed as a value.
- SplitBuilder.CheckSettings accepts only integer bounds and an integer or fractional percentage. Python would also accept booleans, and float bounds in comparisons, and a wrong type would surface only when first used. The model reports a `WrongType` failure before any language is split.
- SplitBuilder.CreateDpSets does not keep the validation entries drawn before a failure. The source's exception discards both lists, so the model records no picks from the failing language onwards.
