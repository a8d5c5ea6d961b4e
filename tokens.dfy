/** Python's argument-less `str.split()`, used on the phoneme column of a
    dictionary row: runs of whitespace separate tokens, and leading or
    trailing whitespace yields no empty token. */
module Tokens {
  import opened Common

  /** The characters for which Python's `str.isspace()` holds. */
  predicate IsSpace(c: char)
  {
    || c == ' '
    || '\t' <= c <= '\r'
    || '\U{1C}' <= c <= '\U{1F}'
    || c == '\U{85}'
    || c == '\U{A0}'
    || c == '\U{1680}'
    || '\U{2000}' <= c <= '\U{200A}'
    || c == '\U{2028}'
    || c == '\U{2029}'
    || c == '\U{202F}'
    || c == '\U{205F}'
    || c == '\U{3000}'
  }

  predicate NoSpace(s: string)
  {
    forall k :: 0 <= k < |s| ==> !IsSpace(s[k])
  }

  /** The non-whitespace characters of `s`, in order. */
  function Strip(s: string): string
  {
    if s == [] then []
    else (if IsSpace(s[0]) then [] else [s[0]]) + Strip(s[1..])
  }

  /** The longest prefix of `s` that holds no whitespace. */
  function Word(s: string): (w: string)
    ensures |w| <= |s| && w == s[..|w|]
    ensures NoSpace(w)
    ensures |w| < |s| ==> IsSpace(s[|w|])
  {
    if s == [] || IsSpace(s[0]) then [] else [s[0]] + Word(s[1..])
  }

  lemma {:induction false} StripNoSpacePrefix(s: string, k: nat)
    requires k <= |s| && NoSpace(s[..k])
    ensures Strip(s) == s[..k] + Strip(s[k..])
  {
    if k > 0 {
      var u := s[1..][..k - 1];
      assert !IsSpace(s[0]) by {
        assert s[..k][0] == s[0];
      }
      assert NoSpace(u) by {
        forall j | 0 <= j < |u| ensures !IsSpace(u[j]) {
          assert u[j] == s[..k][j + 1];
        }
      }
      StripNoSpacePrefix(s[1..], k - 1);
      assert s[1..][k - 1..] == s[k..];
      assert s[..k] == [s[0]] + u;
    }
  }

  /** The tokens of `s`: each one non-empty and free of whitespace, and
      together they are exactly the non-whitespace characters of `s`. */
  function Split(s: string): (r: seq<string>)
    ensures forall i :: 0 <= i < |r| ==> r[i] != [] && NoSpace(r[i])
    ensures Flatten(r) == Strip(s)
    decreases |s|
  {
    if s == [] then []
    else if IsSpace(s[0]) then Split(s[1..])
    else
      var w := Word(s);
      assert w != [];
      var rest := Split(s[|w|..]);
      ConsToken(s, w, rest);
      [w] + rest
  }

  /** A word of `s` followed by the tokens of what comes after it are the
      tokens of `s`. */
  lemma ConsToken(s: string, w: string, rest: seq<string>)
    requires s != [] && !IsSpace(s[0]) && w == Word(s)
    requires forall i :: 0 <= i < |rest| ==> rest[i] != [] && NoSpace(rest[i])
    requires Flatten(rest) == Strip(s[|w|..])
    ensures forall i :: 0 <= i < |[w] + rest| ==> ([w] + rest)[i] != [] && NoSpace(([w] + rest)[i])
    ensures Flatten([w] + rest) == Strip(s)
  {
    StripNoSpacePrefix(s, |w|);
    FlattenCons(w, rest);
  }

  /** Tokens written back with one space between neighbours. */
  function JoinSpaced(ts: seq<string>): string
  {
    if ts == [] then []
    else if |ts| == 1 then ts[0]
    else ts[0] + " " + JoinSpaced(ts[1..])
  }

  lemma {:induction false} WordOfToken(t: string, suffix: string)
    requires t != [] && NoSpace(t)
    requires suffix == [] || IsSpace(suffix[0])
    ensures Word(t + suffix) == t
    decreases |t|
  {
    var s := t + suffix;
    assert s[0] == t[0];
    assert s[1..] == t[1..] + suffix;
    if |t| > 1 {
      var u := t[1..];
      assert NoSpace(u) by {
        forall j | 0 <= j < |u| ensures !IsSpace(u[j]) {
          assert u[j] == t[j + 1];
        }
      }
      WordOfToken(t[1..], suffix);
    } else {
      assert t[1..] == [];
      assert Word(suffix) == [];
    }
    assert t == [t[0]] + t[1..];
  }

  /** A token followed by nothing or by whitespace splits off as the first
      token. */
  lemma SplitAfterToken(t: string, suffix: string)
    requires t != [] && NoSpace(t)
    requires suffix == [] || IsSpace(suffix[0])
    ensures Split(t + suffix) == [t] + Split(suffix)
  {
    var s := t + suffix;
    WordOfToken(t, suffix);
    assert s[0] == t[0] && s[|t|..] == suffix;
  }

  /** A whitespace-free non-empty string is a single token. */
  lemma SplitOfToken(t: string)
    requires t != [] && NoSpace(t)
    ensures Split(t) == [t]
  {
    SplitAfterToken(t, []);
    assert t + [] == t;
  }

  /** The word at the start of `a` stops at the latest at a whitespace
      character placed after `a`. */
  lemma {:induction false} WordBeforeSpace(a: string, c: char, b: string)
    requires IsSpace(c)
    ensures Word(a + [c] + b) == Word(a)
    decreases |a|
  {
    var s := a + [c] + b;
    if a == [] {
      assert s[0] == c;
    } else {
      assert s[0] == a[0];
      if !IsSpace(a[0]) {
        assert s[1..] == a[1..] + [c] + b;
        WordBeforeSpace(a[1..], c, b);
      }
    }
  }

  /** Tokens break at every whitespace character and nowhere else: the
      tokens of `a`, a whitespace character and `b` are those of `a`
      followed by those of `b`. */
  lemma {:induction false} SplitAtSpace(a: string, c: char, b: string)
    requires IsSpace(c)
    ensures Split(a + [c] + b) == Split(a) + Split(b)
    decreases |a|
  {
    var s := a + [c] + b;
    if a == [] {
      assert s[0] == c && s[1..] == b;
    } else if IsSpace(a[0]) {
      assert s[0] == a[0] && s[1..] == a[1..] + [c] + b;
      SplitAtSpace(a[1..], c, b);
    } else {
      var w := Word(a);
      WordBeforeSpace(a, c, b);
      assert s[0] == a[0] && s[|w|..] == a[|w|..] + [c] + b;
      SplitAtSpace(a[|w|..], c, b);
    }
  }

  /** Splitting tokens that were joined by single spaces gives the tokens
      back: the whitespace split loses nothing but the separators. */
  lemma {:induction false} SplitJoinSpaced(ts: seq<string>)
    requires forall i :: 0 <= i < |ts| ==> ts[i] != [] && NoSpace(ts[i])
    ensures Split(JoinSpaced(ts)) == ts
  {
    if ts != [] {
      var t, rest := ts[0], ts[1..];
      SplitOfToken(t);
      if rest == [] {
        assert JoinSpaced(ts) == t;
      } else {
        var joined := JoinSpaced(rest);
        SplitJoinSpaced(rest);
        assert JoinSpaced(ts) == t + [' '] + joined;
        SplitAtSpace(t, ' ', joined);
      }
    }
  }
}
