/** Row sequences as queries produce them: joins, filters, counts and sums keep repeats. */
module Rows {

  datatype Option<+T> = None | Some(value: T)

  /** Every row `f` makes of each row of `s`, in order. */
  function Collect<A, B>(s: seq<A>, f: A -> seq<B>): seq<B> {
    if s == [] then [] else f(s[0]) + Collect(s[1..], f)
  }

  function Keep<A>(s: seq<A>, p: A -> bool): seq<A> {
    if s == [] then [] else (if p(s[0]) then [s[0]] else []) + Keep(s[1..], p)
  }

  function Tally<A>(s: seq<A>, p: A -> bool): nat {
    if s == [] then 0 else (if p(s[0]) then 1 else 0) + Tally(s[1..], p)
  }

  function Total<A>(s: seq<A>, f: A -> nat): nat {
    if s == [] then 0 else f(s[0]) + Total(s[1..], f)
  }

  lemma {:induction false} KeepConcat<A>(s: seq<A>, t: seq<A>, p: A -> bool)
    ensures Keep(s + t, p) == Keep(s, p) + Keep(t, p)
  {
    if s == [] {
      assert s + t == t;
    } else {
      var first, rest, more := if p(s[0]) then [s[0]] else [], Keep(s[1..], p), Keep(t, p);
      assert (s + t)[1..] == s[1..] + t;
      assert Keep(s + t, p) == first + (rest + more) by {
        KeepConcat(s[1..], t, p);
      }
      assert Keep(s, p) == first + rest;
      assert first + (rest + more) == (first + rest) + more;
    }
  }

  lemma {:induction false} TotalConcat<A>(s: seq<A>, t: seq<A>, f: A -> nat)
    ensures Total(s + t, f) == Total(s, f) + Total(t, f)
  {
    if s == [] {
      assert s + t == t;
    } else {
      assert (s + t)[1..] == s[1..] + t;
      TotalConcat(s[1..], t, f);
    }
  }

  lemma {:induction false} InKeep<A>(s: seq<A>, p: A -> bool, a: A)
    ensures a in Keep(s, p) <==> a in s && p(a)
  {
    if s == [] {
    } else {
      assert s == [s[0]] + s[1..];
      InKeep(s[1..], p, a);
    }
  }

  /** A row of a join comes from some row of the table it is driven from. */
  lemma {:induction false} InCollect<A, B>(s: seq<A>, f: A -> seq<B>, b: B)
    ensures b in Collect(s, f) <==> exists i :: 0 <= i < |s| && b in f(s[i])
  {
    if s == [] {
    } else {
      InCollect(s[1..], f, b);
      if b in f(s[0]) {
        assert b in f(s[0]) && 0 <= 0 < |s|;
      }
      if i :| 0 <= i < |s[1..]| && b in f(s[1..][i]) {
        assert b in f(s[i + 1]);
      }
      if i :| 0 <= i < |s| && b in f(s[i]) {
        if i > 0 {
          assert b in f(s[1..][i - 1]);
        }
      }
    }
  }

  /** Filtering after a join is filtering what each driving row contributes. */
  lemma {:induction false} KeepOfCollect<A, B>(s: seq<A>, f: A -> seq<B>, g: A -> seq<B>, p: B -> bool)
    requires forall a | a in s :: Keep(f(a), p) == g(a)
    ensures Keep(Collect(s, f), p) == Collect(s, g)
  {
    if s == [] {
    } else {
      assert s[0] in s;
      KeepConcat(f(s[0]), Collect(s[1..], f), p);
      KeepOfCollect(s[1..], f, g, p);
    }
  }

  lemma {:induction false} CollectAgrees<A, B>(s: seq<A>, f: A -> seq<B>, g: A -> seq<B>)
    requires forall a | a in s :: f(a) == g(a)
    ensures Collect(s, f) == Collect(s, g)
  {
    if s == [] {
    } else {
      assert s[0] in s;
      CollectAgrees(s[1..], f, g);
    }
  }

  lemma {:induction false} TotalOfCollect<A, B>(s: seq<A>, f: A -> seq<B>, w: B -> nat, v: A -> nat)
    requires forall a | a in s :: Total(f(a), w) == v(a)
    ensures Total(Collect(s, f), w) == Total(s, v)
  {
    if s == [] {
    } else {
      assert s[0] in s;
      TotalConcat(f(s[0]), Collect(s[1..], f), w);
      TotalOfCollect(s[1..], f, w, v);
    }
  }

  lemma {:induction false} TotalAgrees<A>(s: seq<A>, f: A -> nat, g: A -> nat)
    requires forall a | a in s :: f(a) == g(a)
    ensures Total(s, f) == Total(s, g)
  {
    if s == [] {
    } else {
      assert s[0] in s;
      TotalAgrees(s[1..], f, g);
    }
  }

  /** Counting is summing ones. */
  lemma {:induction false} TallyIsTotal<A>(s: seq<A>, p: A -> bool, w: A -> nat)
    requires forall a | a in s :: w(a) == if p(a) then 1 else 0
    ensures Tally(s, p) == Total(s, w)
  {
    if s == [] {
    } else {
      assert s[0] in s;
      TallyIsTotal(s[1..], p, w);
    }
  }

  /** The rows of a table with the given key. */
  function At<A, K(==)>(s: seq<A>, keyOf: A -> K, k: K): seq<A> {
    if s == [] then [] else (if keyOf(s[0]) == k then [s[0]] else []) + At(s[1..], keyOf, k)
  }

  ghost predicate Unique<A, K>(s: seq<A>, keyOf: A -> K) {
    forall i, j | 0 <= i < j < |s| :: keyOf(s[i]) != keyOf(s[j])
  }

  lemma {:induction false} InAt<A, K>(s: seq<A>, keyOf: A -> K, k: K, a: A)
    ensures a in At(s, keyOf, k) <==> a in s && keyOf(a) == k
  {
    if s == [] {
    } else {
      assert s == [s[0]] + s[1..];
      InAt(s[1..], keyOf, k, a);
    }
  }

  /** A key names at most one row. */
  lemma {:induction false} AtMostOne<A, K>(s: seq<A>, keyOf: A -> K, k: K)
    requires Unique(s, keyOf)
    ensures |At(s, keyOf, k)| <= 1
  {
    if s == [] {
    } else {
      AtMostOne(s[1..], keyOf, k);
      if keyOf(s[0]) == k && At(s[1..], keyOf, k) != [] {
        InAt(s[1..], keyOf, k, At(s[1..], keyOf, k)[0]);
      }
    }
  }

  /** A foreign key that resolves names exactly one row. */
  lemma Resolves<A, K>(s: seq<A>, keyOf: A -> K, k: K)
    requires Unique(s, keyOf)
    requires exists a :: a in s && keyOf(a) == k
    ensures |At(s, keyOf, k)| == 1
    ensures At(s, keyOf, k)[0] in s && keyOf(At(s, keyOf, k)[0]) == k
  {
    var a :| a in s && keyOf(a) == k;
    InAt(s, keyOf, k, a);
    AtMostOne(s, keyOf, k);
    InAt(s, keyOf, k, At(s, keyOf, k)[0]);
  }

  /** The rows of an outer join: the ones that match, or one that is absent. */
  function Outer<A>(matches: seq<A>): seq<Option<A>> {
    if matches == [] then [None] else seq(|matches|, i requires 0 <= i < |matches| => Some(matches[i]))
  }

  lemma CollectOne<A, B>(a: A, f: A -> seq<B>)
    ensures Collect([a], f) == f(a)
  {
    assert [a][1..] == [];
    assert Collect([a], f) == f(a) + Collect([a][1..], f);
  }

  /** A join that multiplies rows without adding a column: the rows, once for each match. */
  function Each<A, B>(matches: seq<A>, rows: seq<B>): seq<B> {
    if matches == [] then [] else rows + Each(matches[1..], rows)
  }

  lemma {:induction false} KeepOfEach<A, B>(matches: seq<A>, rows: seq<B>, p: B -> bool)
    ensures Keep(Each(matches, rows), p) == Each(matches, Keep(rows, p))
  {
    if matches == [] {
    } else {
      KeepConcat(rows, Each(matches[1..], rows), p);
      KeepOfEach(matches[1..], rows, p);
    }
  }

  lemma EachOne<A, B>(matches: seq<A>, rows: seq<B>)
    requires |matches| == 1
    ensures Each(matches, rows) == rows
  {
    assert matches[1..] == [];
  }

  lemma {:induction false} InEach<A, B>(matches: seq<A>, rows: seq<B>, b: B)
    ensures b in Each(matches, rows) ==> b in rows
  {
    if matches != [] {
      InEach(matches[1..], rows, b);
    }
  }

  lemma TotalOne<A>(a: A, w: A -> nat)
    ensures Total([a], w) == w(a)
  {
    assert [a][1..] == [];
    assert Total([a], w) == w(a) + Total([a][1..], w);
  }

  lemma KeepOne<A>(a: A, p: A -> bool)
    ensures Keep([a], p) == if p(a) then [a] else []
  {
    assert [a][1..] == [];
    assert Keep([a], p) == (if p(a) then [a] else []) + Keep([a][1..], p);
  }

  lemma {:induction false} NothingCollected<A, B>(s: seq<A>, f: A -> seq<B>)
    requires forall a | a in s :: f(a) == []
    ensures Collect(s, f) == []
  {
    if s == [] {
    } else {
      assert s[0] in s;
      NothingCollected(s[1..], f);
    }
  }

  lemma {:induction false} CollectConcat<A, B>(s: seq<A>, t: seq<A>, f: A -> seq<B>)
    ensures Collect(s + t, f) == Collect(s, f) + Collect(t, f)
  {
    if s == [] {
      assert s + t == t;
    } else {
      assert (s + t)[1..] == s[1..] + t;
      CollectConcat(s[1..], t, f);
    }
  }

  lemma {:induction false} CollectOfCollect<A, B, C>(s: seq<A>, f: A -> seq<B>, g: B -> seq<C>, h: A -> seq<C>)
    requires forall a | a in s :: Collect(f(a), g) == h(a)
    ensures Collect(Collect(s, f), g) == Collect(s, h)
  {
    if s == [] {
    } else {
      assert s[0] in s;
      CollectConcat(f(s[0]), Collect(s[1..], f), g);
      CollectOfCollect(s[1..], f, g, h);
    }
  }

  lemma {:induction false} AtMostOneKept<A, K>(s: seq<A>, p: A -> bool, keyOf: A -> K, k: K)
    requires Unique(s, keyOf) && forall a | a in s && p(a) :: keyOf(a) == k
    ensures |Keep(s, p)| <= 1
  {
    if s == [] {
    } else {
      forall i, j | 0 <= i < j < |s[1..]| ensures keyOf(s[1..][i]) != keyOf(s[1..][j]) {
        assert keyOf(s[i + 1]) != keyOf(s[j + 1]);
      }
      AtMostOneKept(s[1..], p, keyOf, k);
      assert s[0] in s;
      if p(s[0]) && Keep(s[1..], p) != [] {
        InKeep(s[1..], p, Keep(s[1..], p)[0]);
      }
    }
  }
}
