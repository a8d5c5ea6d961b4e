/** The split builder: each language gives up a clamped number of randomly
    chosen entries, popped out of its bundle in place, to the global
    validation list; what is left of it is appended to the global training
    list. */
module SplitBuilder {
  import opened Common
  import opened Bundles
  import opened Languages
  import opened ValidationAmount
  import opened DpConfig

  /** The validation settings once their types have been used: the integer
      bounds and the percentage as an exact fraction. */
  datatype Bounds = Bounds(minimum: int, maximum: int, percentage: Fraction)

  /** The settings as the amount computation uses them: the percentage is
      multiplied first, then the minimum and the maximum are compared. A
      value of another type stops the run. */
  function CheckSettings(s: Settings): (r: Result<Bounds>)
    ensures r.Success? <==> (s.percentage.Int? || s.percentage.Float?) && s.minimum.Int? && s.maximum.Int?
    ensures r.Success? ==> r.value.minimum == s.minimum.i && r.value.maximum == s.maximum.i
    ensures r.Success? && s.percentage.Int? ==> r.value.percentage.num == s.percentage.i * r.value.percentage.den
    ensures r.Success? && s.percentage.Float? ==> r.value.percentage == s.percentage.f
    ensures r.Failure? ==> r.error.WrongType?
  {
    if !(s.percentage.Int? || s.percentage.Float?) then Failure(WrongType("validation_percentage"))
    else if !s.minimum.Int? then Failure(WrongType("validation_minimum"))
    else if !s.maximum.Int? then Failure(WrongType("validation_maximum"))
    else
      var pct := if s.percentage.Int? then Fraction(s.percentage.i, 1) else s.percentage.f;
      Success(Bounds(s.minimum.i, s.maximum.i, pct))
  }

  /** The validation amount for a language of `n` entries. */
  function Amount(n: nat, b: Bounds): int
  {
    GetValidationAmount(n, b.minimum, b.maximum, b.percentage)
  }

  /** The validation amount of each language. */
  function Amounts(lists: seq<seq<Entry>>, b: Bounds): (r: seq<int>)
    ensures |r| == |lists|
  {
    seq(|lists|, i requires 0 <= i < |lists| => Amount(|lists[i]|, b))
  }

  /** The split after the first languages: what each of them holds, what
      each of them gave to validation in the order drawn, how many random
      draws were made, and whether a random choice met an empty language. */
  datatype Outcome = Outcome(kept: seq<seq<Entry>>, picks: seq<seq<Entry>>, draws: nat, failed: bool)

  /** The split of the first `n` languages of `lists`, language `i` giving
      up `amounts[i]` entries. A language whose amount exceeds its size is
      emptied and the run stops there: the languages after it keep all
      their entries. On a failure the validation entries are discarded, so
      none are recorded for the failing language or those after it. */
  function SplitAfter(lists: seq<seq<Entry>>, amounts: seq<int>, oracle: Oracle, n: nat): (o: Outcome)
    requires |amounts| == |lists| && n <= |lists|
    ensures |o.kept| == n && |o.picks| == n
  {
    if n == 0 then Outcome([], [], 0, false)
    else
      var p := SplitAfter(lists, amounts, oracle, n - 1);
      var s, amount := lists[n - 1], amounts[n - 1];
      if p.failed then Outcome(p.kept + [s], p.picks + [[]], p.draws, true)
      else if amount > |s| then Outcome(p.kept + [[]], p.picks + [[]], p.draws, true)
      else
        var d := Sample(s, DrawCount(amount), oracle, p.draws);
        Outcome(p.kept + [d.kept], p.picks + [d.picked], p.draws + DrawCount(amount), false)
  }

  /** The split of all the languages. */
  function SplitAll(lists: seq<seq<Entry>>, amounts: seq<int>, oracle: Oracle): (o: Outcome)
    requires |amounts| == |lists|
    ensures |o.kept| == |lists| && |o.picks| == |lists|
  {
    SplitAfter(lists, amounts, oracle, |lists|)
  }

  /** Some of the first `n` languages has fewer entries than its amount. */
  predicate SomeOverdrawn(lists: seq<seq<Entry>>, amounts: seq<int>, n: nat)
    requires |amounts| == |lists| && n <= |lists|
  {
    exists i :: 0 <= i < n && amounts[i] > |lists[i]|
  }

  /** One more language that can give its amount extends an unfailed
      split by that language's draw. */
  lemma SplitStep(lists: seq<seq<Entry>>, amounts: seq<int>, oracle: Oracle, n: nat)
    requires |amounts| == |lists| && n < |lists|
    requires !SplitAfter(lists, amounts, oracle, n).failed && amounts[n] <= |lists[n]|
    ensures var p := SplitAfter(lists, amounts, oracle, n);
      var d := Sample(lists[n], DrawCount(amounts[n]), oracle, p.draws);
      SplitAfter(lists, amounts, oracle, n + 1) ==
        Outcome(p.kept + [d.kept], p.picks + [d.picked], p.draws + DrawCount(amounts[n]), false)
  {
  }

  /** The step of SplitStep, stated for the outcome reached so far. */
  lemma SplitStepTo(lists: seq<seq<Entry>>, amounts: seq<int>, oracle: Oracle, n: nat,
                    kept: seq<seq<Entry>>, picks: seq<seq<Entry>>, draws: nat, d: Draw)
    requires |amounts| == |lists| && n < |lists|
    requires SplitAfter(lists, amounts, oracle, n) == Outcome(kept, picks, draws, false)
    requires amounts[n] <= |lists[n]| && d == Sample(lists[n], DrawCount(amounts[n]), oracle, draws)
    ensures SplitAfter(lists, amounts, oracle, n + 1) ==
      Outcome(kept + [d.kept], picks + [d.picked], draws + DrawCount(amounts[n]), false)
  {
    SplitStep(lists, amounts, oracle, n);
  }

  /** The split fails exactly when some language has fewer entries than its
      validation amount. */
  lemma {:induction false} SplitFailsExactly(lists: seq<seq<Entry>>, amounts: seq<int>, oracle: Oracle, n: nat)
    requires |amounts| == |lists| && n <= |lists|
    ensures SplitAfter(lists, amounts, oracle, n).failed <==> SomeOverdrawn(lists, amounts, n)
  {
    if n > 0 {
      SplitFailsExactly(lists, amounts, oracle, n - 1);
      if SomeOverdrawn(lists, amounts, n) && !SomeOverdrawn(lists, amounts, n - 1) {
        var i :| 0 <= i < n && amounts[i] > |lists[i]|;
        assert i == n - 1;
      }
    }
  }

  /** Without a failure, each language gives exactly its amount of entries
      to validation (none when the amount is negative) and keeps the rest:
      what it gave and what it kept are together a permutation of what it
      had. */
  lemma SplitCounts(lists: seq<seq<Entry>>, amounts: seq<int>, oracle: Oracle, n: nat)
    requires |amounts| == |lists| && n <= |lists| && !SplitAfter(lists, amounts, oracle, n).failed
    ensures var o := SplitAfter(lists, amounts, oracle, n);
      forall i :: 0 <= i < n ==>
        && |o.picks[i]| == DrawCount(amounts[i])
        && |o.kept[i]| == |lists[i]| - DrawCount(amounts[i])
        && multiset(o.picks[i]) + multiset(o.kept[i]) == multiset(lists[i])
        && multiset(o.kept[i]) <= multiset(lists[i])
  {
    var o := SplitAfter(lists, amounts, oracle, n);
    forall i | 0 <= i < n
      ensures |o.picks[i]| == DrawCount(amounts[i])
      ensures |o.kept[i]| == |lists[i]| - DrawCount(amounts[i])
      ensures multiset(o.picks[i]) + multiset(o.kept[i]) == multiset(lists[i])
      ensures multiset(o.kept[i]) <= multiset(lists[i])
    {
      SplitAt(lists, amounts, oracle, n, i);
    }
  }

  /** SplitCounts for one language. */
  lemma {:induction false} SplitAt(lists: seq<seq<Entry>>, amounts: seq<int>, oracle: Oracle, n: nat, i: nat)
    requires |amounts| == |lists| && i < n <= |lists| && !SplitAfter(lists, amounts, oracle, n).failed
    ensures var o := SplitAfter(lists, amounts, oracle, n);
      && |o.picks[i]| == DrawCount(amounts[i])
      && |o.kept[i]| == |lists[i]| - DrawCount(amounts[i])
      && multiset(o.picks[i]) + multiset(o.kept[i]) == multiset(lists[i])
      && multiset(o.kept[i]) <= multiset(lists[i])
  {
    var p := SplitAfter(lists, amounts, oracle, n - 1);
    assert !p.failed && amounts[n - 1] <= |lists[n - 1]|;
    SplitStep(lists, amounts, oracle, n - 1);
    var o := SplitAfter(lists, amounts, oracle, n);
    var d := Sample(lists[n - 1], DrawCount(amounts[n - 1]), oracle, p.draws);
    assert o.kept == p.kept + [d.kept] && o.picks == p.picks + [d.picked];
    if i == n - 1 {
      SampleSplits(lists[i], DrawCount(amounts[i]), oracle, p.draws);
    } else {
      SplitAt(lists, amounts, oracle, n - 1, i);
      assert o.kept[i] == p.kept[i] && o.picks[i] == p.picks[i];
    }
  }

  /** Without a failure, the training entries (what the languages keep, in
      order) and the validation entries (what they gave, in order) together
      are a permutation of all the entries: nothing lost, nothing
      duplicated. */
  lemma SplitPermutation(lists: seq<seq<Entry>>, amounts: seq<int>, oracle: Oracle, n: nat)
    requires |amounts| == |lists| && n <= |lists| && !SplitAfter(lists, amounts, oracle, n).failed
    ensures var o := SplitAfter(lists, amounts, oracle, n);
      multiset(Flatten(o.kept)) + multiset(Flatten(o.picks)) == multiset(Flatten(lists[..n]))
  {
    var o := SplitAfter(lists, amounts, oracle, n);
    SplitCounts(lists, amounts, oracle, n);
    FlattenBags(o.kept, o.picks, lists[..n]);
  }

  /** Index by index permutations flatten to a permutation. */
  lemma {:induction false} FlattenBags<T>(a: seq<seq<T>>, b: seq<seq<T>>, c: seq<seq<T>>)
    requires |a| == |b| == |c|
    requires forall i :: 0 <= i < |c| ==> multiset(b[i]) + multiset(a[i]) == multiset(c[i])
    ensures multiset(Flatten(a)) + multiset(Flatten(b)) == multiset(Flatten(c))
  {
    if c != [] {
      var k := |c| - 1;
      FlattenBags(a[..k], b[..k], c[..k]);
      assert multiset(b[k]) + multiset(a[k]) == multiset(c[k]);
    }
  }

  /** On a failure, the first overdrawn language is left empty, those
      before it keep all but their amount, and those after it are
      untouched. */
  lemma SplitFailureState(lists: seq<seq<Entry>>, amounts: seq<int>, oracle: Oracle, i: nat)
    requires |amounts| == |lists| && i < |lists|
    requires amounts[i] > |lists[i]|
    requires forall j :: 0 <= j < i ==> amounts[j] <= |lists[j]|
    ensures var o := SplitAll(lists, amounts, oracle);
      && o.failed
      && o.kept[i] == []
      && (forall j :: i < j < |lists| ==> o.kept[j] == lists[j])
      && (forall j :: 0 <= j < i ==> |o.kept[j]| == |lists[j]| - DrawCount(amounts[j]))
  {
    var p := SplitAfter(lists, amounts, oracle, i);
    assert !p.failed by {
      SplitFailsExactly(lists, amounts, oracle, i);
    }
    SplitStopsAt(lists, amounts, oracle, i, p.kept, p.picks, p.draws);
    SpliceIndices(p.kept, [], lists, i);
    forall j | 0 <= j < i
      ensures |p.kept[j]| == |lists[j]| - DrawCount(amounts[j])
    {
      SplitAt(lists, amounts, oracle, i, j);
    }
  }

  /** Where the elements of `front + [v] + rest[n + 1..]` come from. */
  lemma SpliceIndices<T>(front: seq<T>, v: T, rest: seq<T>, n: nat)
    requires |front| == n < |rest|
    ensures var s := front + [v] + rest[n + 1..];
      && |s| == |rest| && s[n] == v
      && (forall j :: 0 <= j < n ==> s[j] == front[j])
      && (forall j :: n < j < |rest| ==> s[j] == rest[j])
  {
  }

  /** Two languages of 10 and 100 entries with a 10% share clamped to
      [2, 20]: 2 and 10 entries go to validation, 8 and 90 to training. */
  lemma SplitExample(lists: seq<seq<Entry>>, oracle: Oracle)
    requires |lists| == 2 && |lists[0]| == 10 && |lists[1]| == 100
    ensures var o := SplitAll(lists, Amounts(lists, Bounds(2, 20, Fraction(1, 10))), oracle);
      && !o.failed
      && |o.picks[0]| == 2 && |o.picks[1]| == 10
      && |o.kept[0]| == 8 && |o.kept[1]| == 90
      && |Flatten(o.picks)| == 12
  {
    var amounts := Amounts(lists, Bounds(2, 20, Fraction(1, 10)));
    assert amounts[0] == 2 && amounts[1] == 10 by {
      AmountTenPercent();
    }
    var o := SplitAll(lists, amounts, oracle);
    assert !o.failed by {
      SplitFailsExactly(lists, amounts, oracle, 2);
    }
    assert |o.kept[0]| == 8 && |o.kept[1]| == 90 && |o.picks[0]| == 2 && |o.picks[1]| == 10 by {
      SplitCounts(lists, amounts, oracle, 2);
    }
    FlattenPair(o.picks);
  }

  lemma FlattenPair<T>(ss: seq<seq<T>>)
    requires |ss| == 2
    ensures |Flatten(ss)| == |ss[0]| + |ss[1]|
  {
    assert ss[..1][..0] == [];
    assert Flatten(ss[..1]) == ss[0];
  }

  lemma AmountTenPercent()
    ensures Amount(10, Bounds(2, 20, Fraction(1, 10))) == 2
    ensures Amount(100, Bounds(2, 20, Fraction(1, 10))) == 10
  {
  }

  /** Once the split has failed, later languages are carried over as they
      are. */
  lemma {:induction false} SplitAfterFailure(lists: seq<seq<Entry>>, amounts: seq<int>, oracle: Oracle, n: nat, m: nat)
    requires |amounts| == |lists| && n <= m <= |lists| && SplitAfter(lists, amounts, oracle, n).failed
    ensures SplitAfter(lists, amounts, oracle, m).failed
    ensures SplitAfter(lists, amounts, oracle, m).kept == SplitAfter(lists, amounts, oracle, n).kept + lists[n..m]
    decreases m
  {
    if m > n {
      SplitAfterFailure(lists, amounts, oracle, n, m - 1);
      assert lists[n..m] == lists[n..m - 1] + [lists[m - 1]];
    } else {
      assert lists[n..m] == [];
    }
  }

  /** A language that cannot give its amount, reached without a failure,
      ends the split: it is emptied and the later languages are untouched. */
  lemma SplitStopsAt(lists: seq<seq<Entry>>, amounts: seq<int>, oracle: Oracle, n: nat,
                     kept: seq<seq<Entry>>, picks: seq<seq<Entry>>, draws: nat)
    requires |amounts| == |lists| && n < |lists|
    requires SplitAfter(lists, amounts, oracle, n) == Outcome(kept, picks, draws, false)
    requires amounts[n] > |lists[n]|
    ensures SplitAll(lists, amounts, oracle).failed
    ensures SplitAll(lists, amounts, oracle).kept == kept + [[]] + lists[n + 1..]
  {
    assert SplitAfter(lists, amounts, oracle, n + 1).kept == kept + [[]];
    SplitAfterFailure(lists, amounts, oracle, n + 1, |lists|);
  }

  /** Appends the entries one by one. */
  method AppendAll(training: seq<Entry>, entries: seq<Entry>) returns (r: seq<Entry>)
    ensures r == training + entries
  {
    r := training;
    for j := 0 to |entries|
      invariant r == training + entries[..j]
    {
      r := r + [entries[j]];
    }
    assert entries[..|entries|] == entries;
  }

  /** One language's turn: pops its amount of randomly chosen entries into
      the validation list, then appends the entries it keeps to the
      training list. */
  method SplitLanguage(language: LanguageBundle, amount: int, oracle: Oracle, t: nat,
                       training: seq<Entry>, validation: seq<Entry>)
    returns (training': seq<Entry>, validation': seq<Entry>, ok: bool)
    modifies language
    ensures ok <==> amount <= |old(language.entries)|
    ensures ok ==>
      var d := Sample(old(language.entries), DrawCount(amount), oracle, t);
      && language.entries == d.kept
      && validation' == validation + d.picked
      && training' == training + d.kept
    ensures !ok ==> language.entries == []
  {
    training', validation' := training, validation;
    var picked;
    picked, ok := language.MoveToValidation(amount, oracle, t);
    if !ok {
      return;
    }
    validation' := validation + picked;
    training' := AppendAll(training, language.entries);
  }

  /** A sequence that differs from `before` at most at index `i`. */
  lemma Replaced<T>(before: seq<T>, after: seq<T>, i: nat)
    requires |before| == |after| && i < |after|
    requires forall k :: 0 <= k < |after| && k != i ==> after[k] == before[k]
    ensures after == before[i := after[i]]
  {
  }

  /** Replacing the first element of the unprocessed part. */
  lemma SpliceAt<T>(front: seq<T>, rest: seq<T>, i: nat, v: T)
    requires |front| == i < |rest|
    ensures (front + rest[i..])[i := v] == front + [v] + rest[i + 1..]
  {
  }

  /** Builds the training and validation sets: reads the validation
      settings, then for each language in order pops its validation amount
      of randomly chosen entries into the validation list and appends what
      it keeps to the training list. The bundles are left holding their
      training entries. The settings are checked only when there is a
      language to split. */
  method CreateDpSets(langs: seq<LanguageBundle>, master: Section, oracle: Oracle) returns (r: Result<DataSets>)
    requires Distinct(langs)
    modifies set b | b in langs
    ensures ReadValidationSettings(master).Failure? ==>
      r == Failure(ReadValidationSettings(master).error) && Lists(langs) == old(Lists(langs))
    ensures ReadValidationSettings(master).Success? && langs == [] ==> r == Success(DataSets([], []))
    ensures ReadValidationSettings(master).Success? && langs != [] &&
            CheckSettings(ReadValidationSettings(master).value).Failure? ==>
      r == Failure(CheckSettings(ReadValidationSettings(master).value).error) && Lists(langs) == old(Lists(langs))
    ensures ReadValidationSettings(master).Success? && CheckSettings(ReadValidationSettings(master).value).Success? ==>
      var lists := old(Lists(langs));
      var o := SplitAll(lists, Amounts(lists, CheckSettings(ReadValidationSettings(master).value).value), oracle);
      && Lists(langs) == o.kept
      && (r.Success? <==> !o.failed)
      && (r.Success? ==> r.value == DataSets(Flatten(o.kept), Flatten(o.picks)))
      && (r.Failure? ==> r.error == EmptyChoice)
  {
    var settings := ReadValidationSettings(master);
    if settings.Failure? {
      return Failure(settings.error);
    }
    if langs == [] {
      return Success(DataSets([], []));
    }
    var bounds := CheckSettings(settings.value);
    if bounds.Failure? {
      return Failure(bounds.error);
    }
    r := SplitLanguages(langs, bounds.value, oracle);
  }

  /** The loop of the split over the languages, with checked settings. */
  method SplitLanguages(langs: seq<LanguageBundle>, bounds: Bounds, oracle: Oracle) returns (r: Result<DataSets>)
    requires Distinct(langs)
    modifies set b | b in langs
    ensures var lists := old(Lists(langs));
      var o := SplitAll(lists, Amounts(lists, bounds), oracle);
      && Lists(langs) == o.kept
      && (r.Success? <==> !o.failed)
      && (r.Success? ==> r.value == DataSets(Flatten(o.kept), Flatten(o.picks)))
      && (r.Failure? ==> r.error == EmptyChoice)
  {
    ghost var lists := Lists(langs);
    ghost var amounts := Amounts(lists, bounds);
    ghost var kept: seq<seq<Entry>> := [];
    ghost var picks: seq<seq<Entry>> := [];
    var training: seq<Entry> := [];
    var validation: seq<Entry> := [];
    var t: nat := 0;
    var i := 0;
    while i < |langs|
      invariant 0 <= i <= |langs|
      invariant SplitAfter(lists, amounts, oracle, i) == Outcome(kept, picks, t, false)
      invariant Lists(langs) == kept + lists[i..]
      invariant training == Flatten(kept) && validation == Flatten(picks)
    {
      var ok;
      ghost var entries, drawn;
      training, validation, t, ok, entries, drawn :=
        SplitNext(langs, i, bounds, oracle, training, validation, t, lists, amounts, kept, picks);
      if !ok {
        return Failure(EmptyChoice);
      }
      kept, picks := kept + [entries], picks + [drawn];
      i := i + 1;
    }
    assert lists[i..] == [];
    r := Success(DataSets(training, validation));
  }

  /** One turn of the split loop: language `i` gives up its amount. */
  method SplitNext(langs: seq<LanguageBundle>, i: nat, bounds: Bounds, oracle: Oracle,
                   training: seq<Entry>, validation: seq<Entry>, t: nat,
                   ghost lists: seq<seq<Entry>>, ghost amounts: seq<int>,
                   ghost kept: seq<seq<Entry>>, ghost picks: seq<seq<Entry>>)
    returns (training': seq<Entry>, validation': seq<Entry>, t': nat, ok: bool,
             ghost entries: seq<Entry>, ghost drawn: seq<Entry>)
    requires Distinct(langs) && i < |langs| == |lists| && amounts == Amounts(lists, bounds)
    requires SplitAfter(lists, amounts, oracle, i) == Outcome(kept, picks, t, false)
    requires Lists(langs) == kept + lists[i..]
    requires training == Flatten(kept) && validation == Flatten(picks)
    modifies langs[i]
    ensures ok ==>
      && SplitAfter(lists, amounts, oracle, i + 1) == Outcome(kept + [entries], picks + [drawn], t', false)
      && Lists(langs) == (kept + [entries]) + lists[i + 1..]
      && training' == Flatten(kept + [entries]) && validation' == Flatten(picks + [drawn])
    ensures !ok ==> SplitAll(lists, amounts, oracle).failed && Lists(langs) == SplitAll(lists, amounts, oracle).kept
  {
    var language := langs[i];
    assert language.entries == lists[i] == Lists(langs)[i];
    var amount := Amount(|language.entries|, bounds);
    assert amounts[i] == amount;
    training', validation', ok := SplitLanguage(language, amount, oracle, t, training, validation);
    t' := t + DrawCount(amount);
    entries, drawn := language.entries, [];
    forall k | 0 <= k < |langs| && k != i
      ensures Lists(langs)[k] == old(Lists(langs))[k]
    {
      assert langs[k] != language;
    }
    Replaced(old(Lists(langs)), Lists(langs), i);
    SpliceAt(kept, lists, i, entries);
    if !ok {
      SplitStopsAt(lists, amounts, oracle, i, kept, picks, t);
      return;
    }
    ghost var d := Sample(lists[i], DrawCount(amount), oracle, t);
    drawn := d.picked;
    SplitStepTo(lists, amounts, oracle, i, kept, picks, t, d);
    FlattenSnoc(kept, entries);
    FlattenSnoc(picks, drawn);
  }
}
