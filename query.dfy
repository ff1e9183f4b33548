/** URLSearchParams as the request builders use it: an ordered list of
    key/value pairs that only ever grows by `append`. */
module QueryParams {
  import opened Wrappers

  type Param = (string, string)

  /** URLSearchParams.get: the value of the first pair with key `k`. */
  function Get(ps: seq<Param>, k: string): Option<string>
  {
    if ps == [] then None else if ps[0].0 == k then Some(ps[0].1) else Get(ps[1..], k)
  }

  /** The keys of the pairs, in order. */
  function Keys(ps: seq<Param>): (r: seq<string>)
    ensures |r| == |ps|
  {
    if ps == [] then [] else [ps[0].0] + Keys(ps[1..])
  }

  /** `xs` is `ys` with some elements left out. */
  predicate Subsequence(xs: seq<string>, ys: seq<string>)
  {
    if xs == [] then true
    else if ys == [] then false
    else if xs[0] == ys[0] then Subsequence(xs[1..], ys[1..])
    else Subsequence(xs, ys[1..])
  }

  predicate Distinct(ks: seq<string>)
  {
    forall i, j :: 0 <= i < j < |ks| ==> ks[i] != ks[j]
  }

  /** The pair a guarded `append` adds: none when the value is absent. */
  function Appended(k: string, v: Option<string>): (r: seq<Param>)
    ensures v.None? ==> r == []
    ensures v.Some? ==> r == [(k, v.value)]
    ensures Get(r, k) == v
    ensures forall key :: key != k ==> Get(r, key) == None
  {
    if v.Some? then [(k, v.value)] else []
  }

  lemma {:induction false} GetConcat(a: seq<Param>, b: seq<Param>, k: string)
    ensures Get(a + b, k) == if Get(a, k).Some? then Get(a, k) else Get(b, k)
  {
    if a == [] {
      assert a + b == b;
    } else {
      assert (a + b)[1..] == a[1..] + b;
      GetConcat(a[1..], b, k);
    }
  }

  /** URLSearchParams.get after one guarded append: an earlier pair with
      the key still wins; otherwise the appended value, if its key. */
  lemma GetAfter(ps: seq<Param>, k: string, v: Option<string>, key: string)
    ensures Get(ps + Appended(k, v), key) == if Get(ps, key).Some? || key != k then Get(ps, key) else v
  {
    GetConcat(ps, Appended(k, v), key);
  }

  lemma {:induction false} KeysConcat(a: seq<Param>, b: seq<Param>)
    ensures Keys(a + b) == Keys(a) + Keys(b)
  {
    if a == [] {
      assert a + b == b;
    } else {
      assert (a + b)[1..] == a[1..] + b;
      KeysConcat(a[1..], b);
    }
  }

  /** A subsequence stays one when the longer list grows at its end. */
  lemma {:induction false} SubsequenceExtend(xs: seq<string>, ys: seq<string>, y: string)
    requires Subsequence(xs, ys)
    ensures Subsequence(xs, ys + [y])
    decreases |ys|
  {
    if xs != [] {
      assert (ys + [y])[0] == ys[0];
      assert (ys + [y])[1..] == ys[1..] + [y];
      if xs[0] == ys[0] {
        SubsequenceExtend(xs[1..], ys[1..], y);
      } else {
        SubsequenceExtend(xs, ys[1..], y);
      }
    }
  }

  /** Both lists growing by the same last element keep a subsequence. */
  lemma {:induction false} SubsequenceSnoc(xs: seq<string>, ys: seq<string>, y: string)
    requires Subsequence(xs, ys)
    ensures Subsequence(xs + [y], ys + [y])
    decreases |ys|
  {
    if ys == [] {
      assert xs == [];
      assert ([] + [y])[1..] == [];
      assert ([] + [y])[1..] == ([y])[1..];
    } else {
      assert (ys + [y])[0] == ys[0];
      assert (ys + [y])[1..] == ys[1..] + [y];
      if xs == [] {
        assert xs + [y] == [y];
        if ys[0] == y {
          assert [y][1..] == [];
        } else {
          SubsequenceSnoc([], ys[1..], y);
          assert [] + [y] == [y];
        }
      } else {
        assert (xs + [y])[0] == xs[0];
        assert (xs + [y])[1..] == xs[1..] + [y];
        if xs[0] == ys[0] {
          SubsequenceSnoc(xs[1..], ys[1..], y);
        } else {
          SubsequenceSnoc(xs, ys[1..], y);
        }
      }
    }
  }

  /** One guarded append of the next key keeps the keys in the order of
      the builder's key list. */
  lemma KeysStep(ps: seq<Param>, ks: seq<string>, k: string, v: Option<string>)
    requires Subsequence(Keys(ps), ks)
    ensures Subsequence(Keys(ps + Appended(k, v)), ks + [k])
  {
    KeysConcat(ps, Appended(k, v));
    if v.Some? {
      assert Keys(Appended(k, v)) == [k];
      SubsequenceSnoc(Keys(ps), ks, k);
    } else {
      assert Keys(ps) + Keys(Appended(k, v)) == Keys(ps);
      SubsequenceExtend(Keys(ps), ks, k);
    }
  }

  /** getAbstract's `site_id` append after a builder whose keys follow a
      list without repeats and without `site_id`: `site_id` comes last
      and no key occurs twice. */
  lemma SiteLast(ps: seq<Param>, ks: seq<string>, site: string)
    requires Subsequence(Keys(ps), ks) && Distinct(ks) && "site_id" !in ks
    ensures Keys(ps + [("site_id", site)]) == Keys(ps) + ["site_id"]
    ensures Distinct(Keys(ps + [("site_id", site)]))
  {
    KeysConcat(ps, [("site_id", site)]);
    assert Keys([("site_id", site)]) == ["site_id"];
    SubsequenceDistinct(Keys(ps), ks);
    var keys := Keys(ps) + ["site_id"];
    forall i, j | 0 <= i < j < |keys|
      ensures keys[i] != keys[j]
    {
      if j == |keys| - 1 {
        assert keys[i] == Keys(ps)[i];
        assert Keys(ps)[i] in ks;
      }
    }
  }

  /** A subsequence of a list without repeated keys repeats no key. */
  lemma {:induction false} SubsequenceDistinct(xs: seq<string>, ys: seq<string>)
    requires Subsequence(xs, ys) && Distinct(ys)
    ensures Distinct(xs)
    ensures forall i :: 0 <= i < |xs| ==> xs[i] in ys
    decreases |ys|
  {
    if xs != [] {
      assert Distinct(ys[1..]);
      if xs[0] == ys[0] {
        SubsequenceDistinct(xs[1..], ys[1..]);
        forall i | 0 < i < |xs|
          ensures xs[i] != xs[0]
        {
          assert xs[1..][i - 1] in ys[1..];
        }
        forall i | 0 <= i < |xs|
          ensures xs[i] in ys
        {
          if i > 0 { assert xs[1..][i - 1] in ys[1..]; }
        }
      } else {
        SubsequenceDistinct(xs, ys[1..]);
      }
    }
  }
}
