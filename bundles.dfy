/** A language bundle: the entries of one language, a list that the split
    builder shrinks in place by popping randomly chosen entries. */
module Bundles {
  import opened Common

  /** The random source: the `t`-th choice of a run draws the raw value
      `oracle(t)`, and a choice from a list of `n` entries takes the entry at
      index `oracle(t) % n`. */
  type Oracle = nat -> nat

  /** Index of the first entry equal to `x` (Python's `list.index`). */
  function IndexOf(s: seq<Entry>, x: Entry): (j: nat)
    requires x in s
    ensures j < |s| && s[j] == x
  {
    if s[0] == x then 0 else 1 + IndexOf(s[1..], x)
  }

  /** IndexOf finds the first occurrence: no earlier entry equals `x`. */
  lemma {:induction false} IndexOfFirst(s: seq<Entry>, x: Entry)
    requires x in s
    ensures forall k :: 0 <= k < IndexOf(s, x) ==> s[k] != x
  {
    if s[0] != x {
      IndexOfFirst(s[1..], x);
      assert forall k :: 1 <= k < IndexOf(s, x) ==> s[k] == s[1..][k - 1];
    }
  }

  /** `s` without its element at index `j` (Python's `list.pop(j)`). */
  function RemoveAt(s: seq<Entry>, j: nat): seq<Entry>
    requires j < |s|
  {
    s[..j] + s[j + 1..]
  }

  /** Where the `t`-th draw removes an entry from `s`: the first occurrence
      of the randomly chosen value. */
  function ChoiceIndex(s: seq<Entry>, oracle: Oracle, t: nat): (j: nat)
    requires s != []
    ensures j < |s|
  {
    IndexOf(s, s[oracle(t) % |s|])
  }

  /** The entries drawn for validation, in draw order, and those left. */
  datatype Draw = Draw(picked: seq<Entry>, kept: seq<Entry>)

  /** The first `k` draws without replacement from `s`, the first of them
      being draw number `t`: exactly `k` entries are drawn, in draw order,
      and the others stay in their order. */
  function Sample(s: seq<Entry>, k: nat, oracle: Oracle, t: nat): (r: Draw)
    requires k <= |s|
    ensures |r.picked| == k && |r.kept| == |s| - k
  {
    if k == 0 then Draw([], s)
    else
      var p := Sample(s, k - 1, oracle, t);
      var j := ChoiceIndex(p.kept, oracle, t + k - 1);
      Draw(p.picked + [p.kept[j]], RemoveAt(p.kept, j))
  }

  /** Removing the entry at `j` takes exactly that entry out of the multiset. */
  lemma RemoveAtMultiset(s: seq<Entry>, j: nat)
    requires j < |s|
    ensures multiset(RemoveAt(s, j)) + multiset{s[j]} == multiset(s)
  {
    assert s == s[..j] + [s[j]] + s[j + 1..];
  }

  /** Drawing neither loses nor invents entries: the drawn and the remaining
      entries together are a permutation of what there was, and the
      remaining ones are among those `s` had. */
  lemma {:induction false} SampleSplits(s: seq<Entry>, k: nat, oracle: Oracle, t: nat)
    requires k <= |s|
    ensures var r := Sample(s, k, oracle, t);
      multiset(r.picked) + multiset(r.kept) == multiset(s) && multiset(r.kept) <= multiset(s)
  {
    var r := Sample(s, k, oracle, t);
    assert multiset(r.picked) + multiset(r.kept) == multiset(s) by {
      if k > 0 {
        var p := Sample(s, k - 1, oracle, t);
        var j := ChoiceIndex(p.kept, oracle, t + k - 1);
        SampleSplits(s, k - 1, oracle, t);
        DrawOne(p.picked, p.kept, j, r);
      }
    }
    MultisetPart(multiset(r.picked), multiset(r.kept), multiset(s));
  }

  /** One more draw moves one entry from the kept to the picked side. */
  lemma DrawOne(picked: seq<Entry>, kept: seq<Entry>, j: nat, r: Draw)
    requires j < |kept| && r == Draw(picked + [kept[j]], RemoveAt(kept, j))
    ensures multiset(r.picked) + multiset(r.kept) == multiset(picked) + multiset(kept)
  {
    RemoveAtMultiset(kept, j);
  }

  lemma MultisetPart<T>(a: multiset<T>, b: multiset<T>, c: multiset<T>)
    requires a + b == c
    ensures b <= c
  {
  }

  /** How many draws `for _ in range(amount)` makes. */
  function DrawCount(amount: int): nat
  {
    if amount < 0 then 0 else amount
  }

  class LanguageBundle {
    var entries: seq<Entry>
    const name: string

    constructor (entries: seq<Entry>, name: string)
      ensures this.entries == entries && this.name == name
    {
      this.entries := entries;
      this.name := name;
    }

    /** Removes and returns the entry at index `i`. */
    method Pop(i: nat) returns (x: Entry)
      requires i < |entries|
      modifies this
      ensures x == old(entries)[i]
      ensures entries == RemoveAt(old(entries), i)
    {
      x := entries[i];
      entries := entries[..i] + entries[i + 1..];
    }

    /** Draws `amount` entries out of this language, one at a time, each at a
        position chosen by the oracle. When the language holds fewer entries
        than `amount`, the draws empty it and the next choice fails. */
    method MoveToValidation(amount: int, oracle: Oracle, t: nat) returns (picked: seq<Entry>, ok: bool)
      modifies this
      ensures ok <==> amount <= |old(entries)|
      ensures ok ==> Draw(picked, entries) == Sample(old(entries), DrawCount(amount), oracle, t)
      ensures !ok ==> entries == []
    {
      ghost var s0 := entries;
      var count := DrawCount(amount);
      picked := [];
      var d := 0;
      while d < count
        invariant d <= count && d <= |s0|
        invariant Draw(picked, entries) == Sample(s0, d, oracle, t)
        invariant |entries| == |s0| - d
      {
        if entries == [] {
          ok := false;
          return;
        }
        var j := ChoiceIndex(entries, oracle, t + d);
        var x := Pop(j);
        assert Sample(s0, d + 1, oracle, t) == Draw(picked + [x], entries);
        picked := picked + [x];
        d := d + 1;
      }
      ok := true;
    }
  }
}
