/** Python's `key.split('__')`, which the bond builder uses to recognise
    namespaced keyword arguments such as `bondclass__rating`. */
module KeySplit {
  import opened Python

  /** True when a `__` separator starts at position `j` of `s`. */
  predicate SepAt(s: string, j: int)
    requires 0 <= j
  {
    j + 1 < |s| && s[j] == '_' && s[j + 1] == '_'
  }

  /** True when `s` holds no `__` separator. */
  predicate NoSep(s: string) {
    forall j :: 0 <= j < |s| ==> !SepAt(s, j)
  }

  /** Position of the leftmost `__` in `s`, if any. */
  function FindSep(s: string): (r: Option<nat>)
    ensures r.Some? ==> SepAt(s, r.value)
    ensures r.Some? ==> forall j :: 0 <= j < r.value ==> !SepAt(s, j)
    ensures r.None? <==> NoSep(s)
  {
    if |s| < 2 then None
    else if s[0] == '_' && s[1] == '_' then assert SepAt(s, 0); Some(0)
    else
      match FindSep(s[1..])
      case None =>
        forall j | 1 <= j < |s| ensures !SepAt(s, j) {
          Shifted(s, j);
        }
        None
      case Some(i) =>
        Shifted(s, i + 1);
        forall j | 1 <= j < i + 1 ensures !SepAt(s, j) {
          Shifted(s, j);
        }
        Some(i + 1)
  }

  /** A separator at `j > 0` of `s` is one at `j - 1` of its tail. */
  lemma Shifted(s: string, j: int)
    requires 1 <= j && 1 <= |s|
    ensures SepAt(s, j) <==> SepAt(s[1..], j - 1)
  {
    if j + 1 < |s| {
      assert s[j] == s[1..][j - 1] && s[j + 1] == s[1..][j];
    }
  }

  /** Python's `s.split('__')`: the pieces between non-overlapping separators,
      found left to right. */
  function Split(s: string): (parts: seq<string>)
    ensures |parts| >= 1
    decreases |s|
  {
    match FindSep(s)
    case None => [s]
    case Some(i) => [s[..i]] + Split(s[i + 2..])
  }

  /** `sep.join(parts)` with `sep == '__'`. */
  function Join(parts: seq<string>): string
    requires |parts| >= 1
  {
    if |parts| == 1 then parts[0] else parts[0] + "__" + Join(parts[1..])
  }

  /** Splitting loses nothing: joining the pieces gives back the key. */
  lemma {:induction false} JoinSplit(s: string)
    ensures Join(Split(s)) == s
    decreases |s|
  {
    match FindSep(s)
    case None =>
    case Some(i) =>
      var parts := Split(s);
      assert parts[0] == s[..i] && parts[1..] == Split(s[i + 2..]);
      JoinSplit(s[i + 2..]);
      assert s[i..i + 2] == "__";
      assert s == s[..i] + s[i..i + 2] + s[i + 2..];
  }

  /** A key splits into a single piece exactly when it holds no separator. */
  lemma SingleIffNoSep(s: string)
    ensures |Split(s)| == 1 <==> NoSep(s)
  {
  }

  /** A key that splits into exactly two pieces is those pieces joined by `__`. */
  lemma TwoPieces(k: string)
    requires |Split(k)| == 2
    ensures k == Split(k)[0] + "__" + Split(k)[1]
  {
    JoinSplit(k);
    var parts := Split(k);
    assert parts[1..] == [parts[1]];
  }

  /** For the prefix `p`, `p + "__" + s` splits as `[p, s]` exactly when the
      suffix `s` holds no further separator; `p` must itself hold none and not
      end in `_`, so that the first separator is the one after `p`. */
  lemma {:induction false} PrefixedKey(p: string, s: string)
    requires p != "" && NoSep(p) && p[|p| - 1] != '_'
    ensures Split(p + "__" + s) == [p, s] <==> NoSep(s)
  {
    var k := p + "__" + s;
    var n := |p|;
    assert SepAt(k, n);
    forall j | 0 <= j < n
      ensures !SepAt(k, j)
    {
      if j + 1 < n {
        assert !SepAt(p, j);
      } else {
        assert k[j] == p[n - 1];
      }
    }
    var f := FindSep(k);
    assert f == Some(n);
    assert k[..n] == p;
    assert k[n + 2..] == s;
    assert Split(k) == [p] + Split(s);
    SingleIffNoSep(s);
    if NoSep(s) {
      assert Split(s) == [s];
    }
  }
}
