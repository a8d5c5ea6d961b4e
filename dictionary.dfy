/** The dictionary reader: one tab-separated pronunciation dictionary
    becomes a list of (word, phoneme tokens) pairs. */
module Dictionary {
  import opened Common
  import opened Tokens

  /** The fields of one dictionary line, as the tab-delimited CSV reader
      splits it. */
  type Row = seq<string>

  /** Dictionary files by path, each already split into rows. */
  type FileSystem = map<string, seq<Row>>

  /** `<linguistic_path>/<language>/<dictionary id>.tsv` */
  function DictionaryPath(lingPath: string, lang: string, dictId: string): string
  {
    JoinPath(JoinPath(lingPath, lang), dictId + ".tsv")
  }

  /** Every row has exactly a word field and a phoneme field. */
  predicate WellFormed(rows: seq<Row>)
  {
    forall i :: 0 <= i < |rows| ==> |rows[i]| == 2
  }

  function ToDictEntry(row: Row): DictEntry
    requires |row| == 2
  {
    DictEntry(row[0], Split(row[1]))
  }

  /** What a dictionary file yields: the pair of every row in file order,
      or the malformed-dictionary stop if some row is not a pair. */
  function DictionaryFile(files: FileSystem, lingPath: Option<string>, lang: string, dictId: string): Result<seq<DictEntry>>
  {
    if lingPath.None? then Failure(NoLinguisticPath)
    else
      var path := DictionaryPath(lingPath.value, lang, dictId);
      if path !in files then Failure(DictionaryNotFound(path))
      else if WellFormed(files[path]) then
        Success(seq(|files[path]|, i requires 0 <= i < |files[path]| => ToDictEntry(files[path][i])))
      else Failure(MalformedDictionary(dictId))
  }

  /** Reads the dictionary `dictId` of language `lang` row by row; the first
      row that is not a pair aborts the whole read and nothing read so far is
      returned. */
  method ReadDictionary(files: FileSystem, lingPath: Option<string>, lang: string, dictId: string)
    returns (r: Result<seq<DictEntry>>)
    ensures r == DictionaryFile(files, lingPath, lang, dictId)
    ensures lingPath.Some? && DictionaryPath(lingPath.value, lang, dictId) in files ==>
      var rows := files[DictionaryPath(lingPath.value, lang, dictId)];
      && (r.Success? <==> WellFormed(rows))
      && (r.Failure? ==> r.error == MalformedDictionary(dictId))
      && (r.Success? ==>
            && |r.value| == |rows|
            && forall i :: 0 <= i < |rows| ==> r.value[i] == DictEntry(rows[i][0], Split(rows[i][1])))
  {
    if lingPath.None? {
      return Failure(NoLinguisticPath);
    }
    var path := DictionaryPath(lingPath.value, lang, dictId);
    if path !in files {
      return Failure(DictionaryNotFound(path));
    }
    var rows := files[path];
    var data: seq<DictEntry> := [];
    var i := 0;
    while i < |rows|
      invariant 0 <= i <= |rows|
      invariant forall k :: 0 <= k < i ==> |rows[k]| == 2
      invariant |data| == i
      invariant forall k :: 0 <= k < i ==> data[k] == ToDictEntry(rows[k])
    {
      if |rows[i]| == 2 {
        data := data + [DictEntry(rows[i][0], Split(rows[i][1]))];
      } else {
        return Failure(MalformedDictionary(dictId));
      }
      i := i + 1;
    }
    assert data == seq(|rows|, k requires 0 <= k < |rows| => ToDictEntry(rows[k]));
    r := Success(data);
  }
}
