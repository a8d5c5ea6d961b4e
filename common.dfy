/** Shared vocabulary of the preprocessing pipeline: results, errors,
    dictionary entries and sequence helpers. */
module Common {

  datatype Option<+T> = None | Some(value: T)

  /** Outcome of an operation that the source may abort (an `exit(1)` or an
      uncaught exception). */
  datatype Result<+T> = Success(value: T) | Failure(error: Error)

  /** The ways a preprocessing run stops. */
  datatype Error =
    | MalformedDictionary(dictId: string)   // a row without exactly two fields
    | DictionaryNotFound(path: string)      // opening the dictionary file fails
    | NoLinguisticPath                      // the manifest has no linguistic_path
    | EmptyChoice                           // random.choice on an empty list
    | MissingKey(key: string)               // a config lookup raises KeyError
    | WrongType(key: string)                // the value under key has the wrong shape

  /** One row of a pronunciation dictionary: a word and its phoneme tokens. */
  datatype DictEntry = DictEntry(word: string, phonemes: seq<string>)

  /** A dictionary row tagged with the language it came from. */
  datatype Entry = Entry(language: string, word: string, phonemes: seq<string>)

  /** The training and validation collections handed to the trainer. */
  datatype DataSets = DataSets(training: seq<Entry>, validation: seq<Entry>)

  /** Concatenation of a sequence of sequences, in order. */
  function Flatten<T>(ss: seq<seq<T>>): seq<T>
  {
    if ss == [] then [] else Flatten(ss[..|ss| - 1]) + ss[|ss| - 1]
  }

  lemma {:induction false} FlattenConcat<T>(a: seq<seq<T>>, b: seq<seq<T>>)
    ensures Flatten(a + b) == Flatten(a) + Flatten(b)
    decreases |b|
  {
    if b == [] {
      assert a + b == a;
    } else {
      var c := b[..|b| - 1];
      assert (a + b)[..|a + b| - 1] == a + c;
      FlattenConcat(a, c);
      assert b == c + [b[|b| - 1]];
      assert Flatten(b) == Flatten(c) + b[|b| - 1];
    }
  }

  lemma FlattenCons<T>(x: seq<T>, rest: seq<seq<T>>)
    ensures Flatten([x] + rest) == x + Flatten(rest)
  {
    FlattenConcat([x], rest);
    assert [x][..0] == [];
  }

  lemma FlattenSnoc<T>(a: seq<seq<T>>, x: seq<T>)
    ensures Flatten(a + [x]) == Flatten(a) + x
  {
    assert (a + [x])[..|a|] == a;
  }

  /** Flattening one more element of a prefix appends it. */
  lemma FlattenTake<T>(ss: seq<seq<T>>, n: nat)
    requires 0 < n <= |ss|
    ensures Flatten(ss[..n]) == Flatten(ss[..n - 1]) + ss[n - 1]
  {
    assert ss[..n][..n - 1] == ss[..n - 1];
  }

  /** No object or value occurs twice. */
  predicate Distinct<T(==)>(s: seq<T>)
  {
    forall i, j :: 0 <= i < j < |s| ==> s[i] != s[j]
  }

  lemma DistinctSnoc<T>(s: seq<T>, x: T)
    requires Distinct(s) && x !in s
    ensures Distinct(s + [x])
  {
  }

  /** `os.path.join(a, b)` on POSIX: an absolute `b` replaces `a`; otherwise
      a separator is inserted unless `a` is empty or already ends in one. */
  function JoinPath(a: string, b: string): string
  {
    if |b| > 0 && b[0] == '/' then b
    else if a == [] || a[|a| - 1] == '/' then a + b
    else a + "/" + b
  }

  /** The values of `rs` in order, or the first failure among them: what a
      loop that stops at the first error collects. */
  function Collect<T>(rs: seq<Result<T>>): Result<seq<T>>
  {
    if rs == [] then Success([])
    else match Collect(rs[..|rs| - 1])
      case Failure(e) => Failure(e)
      case Success(vs) =>
        match rs[|rs| - 1]
        case Failure(e) => Failure(e)
        case Success(v) => Success(vs + [v])
  }

  /** Collect succeeds exactly when every result does, with all their values
      in order; otherwise it reports the first failure. */
  lemma {:induction false} CollectExact<T>(rs: seq<Result<T>>)
    ensures Collect(rs).Success? <==> forall i :: 0 <= i < |rs| ==> rs[i].Success?
    ensures Collect(rs).Success? ==>
      |Collect(rs).value| == |rs| && forall i :: 0 <= i < |rs| ==> Collect(rs).value[i] == rs[i].value
    ensures Collect(rs).Failure? ==>
      exists i :: 0 <= i < |rs| && rs[i] == Failure(Collect(rs).error) &&
        forall j :: 0 <= j < i ==> rs[j].Success?
  {
    if rs != [] {
      var init := rs[..|rs| - 1];
      CollectExact(init);
      assert forall i :: 0 <= i < |init| ==> init[i] == rs[i];
      if Collect(init).Failure? {
        var i :| 0 <= i < |init| && init[i] == Failure(Collect(init).error) &&
          forall j :: 0 <= j < i ==> init[j].Success?;
        assert rs[i] == Failure(Collect(rs).error);
      } else if rs[|rs| - 1].Failure? {
        assert rs[|rs| - 1] == Failure(Collect(rs).error);
      }
    }
  }

  /** Once a prefix of the results has failed, later results change nothing. */
  lemma {:induction false} CollectPrefixFailure<T>(rs: seq<Result<T>>, k: nat)
    requires k <= |rs| && Collect(rs[..k]).Failure?
    ensures Collect(rs) == Collect(rs[..k])
    decreases |rs| - k
  {
    if k < |rs| {
      var longer := rs[..k + 1];
      assert longer[..k] == rs[..k];
      assert Collect(longer) == Collect(rs[..k]);
      CollectPrefixFailure(rs, k + 1);
    } else {
      assert rs[..k] == rs;
    }
  }

  /** One more result after a successful prefix: a failure is the outcome
      of the whole sequence, a success extends the prefix's values. */
  lemma CollectStep<T>(rs: seq<Result<T>>, k: nat, vs: seq<T>)
    requires k < |rs| && Collect(rs[..k]) == Success(vs)
    ensures rs[k].Failure? ==> Collect(rs) == Failure(rs[k].error)
    ensures rs[k].Success? ==> Collect(rs[..k + 1]) == Success(vs + [rs[k].value])
  {
    CollectSnoc(rs, k);
    if rs[k].Failure? {
      CollectPrefixFailure(rs, k + 1);
    }
  }

  /** Collecting one more result extends the prefix's outcome. */
  lemma CollectSnoc<T>(rs: seq<Result<T>>, k: nat)
    requires k < |rs|
    ensures Collect(rs[..k + 1]) ==
      match Collect(rs[..k])
      case Failure(e) => Failure(e)
      case Success(vs) =>
        match rs[k]
        case Failure(e) => Failure(e)
        case Success(v) => Success(vs + [v])
  {
    assert rs[..k + 1][..k] == rs[..k];
  }
}
