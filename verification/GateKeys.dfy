/** The keys of the channel gate and the order a transaction takes them in. */
module GateKeys {

  /** One channel's gate. The two parts are the identifiers of the company and the channel. */
  datatype ChannelGateKey = ChannelGateKey(company: nat, channel: nat)

  /** `(company_id, channel_id)` order. */
  predicate Before(a: ChannelGateKey, b: ChannelGateKey) {
    a.company < b.company || (a.company == b.company && a.channel < b.channel)
  }

  predicate Ordered(keys: seq<ChannelGateKey>) {
    forall i, j | 0 <= i < j < |keys| :: !Before(keys[j], keys[i])
  }

  /** Ascending and without repeats. */
  predicate StrictlyOrdered(keys: seq<ChannelGateKey>) {
    forall i, j | 0 <= i < j < |keys| :: Before(keys[i], keys[j])
  }

  function Insert(key: ChannelGateKey, keys: seq<ChannelGateKey>): seq<ChannelGateKey> {
    if keys == [] then [key]
    else if Before(keys[0], key) then [keys[0]] + Insert(key, keys[1..])
    else [key] + keys
  }

  /** What an unstable sort leaves: equal keys are indistinguishable, so any sort agrees with it. */
  function Sorted(keys: seq<ChannelGateKey>): seq<ChannelGateKey> {
    if keys == [] then [] else Insert(keys[0], Sorted(keys[1..]))
  }

  lemma {:induction false} InsertKeepsOrder(key: ChannelGateKey, keys: seq<ChannelGateKey>)
    requires Ordered(keys)
    ensures Ordered(Insert(key, keys))
    ensures multiset(Insert(key, keys)) == multiset{key} + multiset(keys)
  {
    if keys == [] {
    } else {
      assert keys == [keys[0]] + keys[1..];
      if Before(keys[0], key) {
        InsertKeepsOrder(key, keys[1..]);
        var rest := Insert(key, keys[1..]);
        forall k | k in rest ensures !Before(k, keys[0]) {
          assert k in multiset(rest);
          assert k == key || k in keys[1..];
        }
      }
    }
  }

  lemma {:induction false} SortedIsAnOrderedPermutation(keys: seq<ChannelGateKey>)
    ensures Ordered(Sorted(keys))
    ensures multiset(Sorted(keys)) == multiset(keys)
  {
    if keys == [] {
    } else {
      assert keys == [keys[0]] + keys[1..];
      SortedIsAnOrderedPermutation(keys[1..]);
      InsertKeepsOrder(keys[0], Sorted(keys[1..]));
    }
  }

  /** Sort the keys, then drop each key equal to the one before it. */
  function AcquireOrder(keys: seq<ChannelGateKey>): (order: seq<ChannelGateKey>) {
    Dedup(Sorted(keys))
  }

  function Dedup(keys: seq<ChannelGateKey>): seq<ChannelGateKey> {
    if |keys| <= 1 then keys
    else if keys[|keys| - 1] == keys[|keys| - 2] then Dedup(keys[..|keys| - 1])
    else Dedup(keys[..|keys| - 1]) + [keys[|keys| - 1]]
  }

  lemma {:induction false} DedupIsStrict(keys: seq<ChannelGateKey>)
    requires Ordered(keys)
    ensures StrictlyOrdered(Dedup(keys))
    ensures forall k :: k in Dedup(keys) <==> k in keys
    ensures keys != [] ==> Dedup(keys) != [] && Dedup(keys)[|Dedup(keys)| - 1] == keys[|keys| - 1]
  {
    if |keys| <= 1 {
    } else {
      var front, last := keys[..|keys| - 1], keys[|keys| - 1];
      assert keys == front + [last];
      DedupIsStrict(front);
      if last != keys[|keys| - 2] {
        forall i | 0 <= i < |front| ensures Before(front[i], last) {
          assert !Before(last, front[|front| - 1]) && (i < |front| - 1 ==> !Before(front[|front| - 1], front[i]));
        }
        OneMoreStrict(Dedup(front), last);
      }
    }
  }

  lemma OneMoreStrict(keys: seq<ChannelGateKey>, last: ChannelGateKey)
    requires StrictlyOrdered(keys) && forall k | k in keys :: Before(k, last)
    ensures StrictlyOrdered(keys + [last]) && forall k :: k in keys + [last] <==> k in keys || k == last
  {
    assert forall i | 0 <= i < |keys| :: keys[i] in keys;
  }

  /** The gates are taken ascending, without repeats, and they are exactly the ones asked for. */
  lemma AcquireOrderIsStrict(keys: seq<ChannelGateKey>)
    ensures StrictlyOrdered(AcquireOrder(keys))
    ensures forall k :: k in AcquireOrder(keys) <==> k in keys
    ensures var order := AcquireOrder(keys);
      forall i, j | 0 <= i < j < |order| ::
        order[i].company <= order[j].company && (order[i].company == order[j].company ==> order[i].channel < order[j].channel)
  {
    SortedIsAnOrderedPermutation(keys);
    DedupIsStrict(Sorted(keys));
    forall k ensures k in Sorted(keys) <==> k in keys {
      assert k in Sorted(keys) <==> k in multiset(Sorted(keys));
      assert k in keys <==> k in multiset(keys);
    }
  }

  /** So two calls that name the same channels, in any order and with any repeats, lock alike. */
  lemma {:induction false} StrictOrderIsUnique(a: seq<ChannelGateKey>, b: seq<ChannelGateKey>)
    requires StrictlyOrdered(a) && StrictlyOrdered(b)
    requires forall k :: k in a <==> k in b
    ensures a == b
  {
    assert |b| > 0 ==> b[0] in b;
    if a == [] {
    } else {
      assert a[0] in b && b != [] && b[0] in a;
      assert a[0] == b[0];
      forall k ensures k in a[1..] <==> k in b[1..] {
        if k in a[1..] { assert k in a && k != a[0]; assert k in b; }
        if k in b[1..] { assert k in b && k != b[0]; assert k in a; }
      }
      StrictOrderIsUnique(a[1..], b[1..]);
      assert a == [a[0]] + a[1..] && b == [b[0]] + b[1..];
    }
  }

  /** A key is inserted after the first `n` keys when they all come before it and the next does not. */
  lemma {:induction false} InsertedAt(key: ChannelGateKey, rest: seq<ChannelGateKey>, n: nat)
    requires n <= |rest| && (forall m | 0 <= m < n :: Before(rest[m], key)) && (n < |rest| ==> !Before(rest[n], key))
    ensures Insert(key, rest) == rest[..n] + [key] + rest[n..]
    decreases n
  {
    if n > 0 {
      InsertedAt(key, rest[1..], n - 1);
      assert rest[1..][..n - 1] == rest[1..n] && rest[1..][n - 1..] == rest[n..];
      assert [rest[0]] + (rest[1..n] + [key] + rest[n..]) == rest[..n] + [key] + rest[n..];
    }
  }

  /** `now` is `was` with the key at `i` moved on to `j` past the keys between, each of which comes before it. */
  ghost predicate MovedOn(was: seq<ChannelGateKey>, now: seq<ChannelGateKey>, i: nat, j: nat) {
    && |now| == |was| && i <= j < |was|
    && (forall m | 0 <= m < i :: now[m] == was[m])
    && (forall m | j < m < |was| :: now[m] == was[m])
    && (forall m | i <= m < j :: Follows(was, m, now[m]) && Before(now[m], was[i]))
    && now[j] == was[i]
  }

  /** The key is the one after position `m`. */
  ghost predicate Follows(was: seq<ChannelGateKey>, m: int, key: ChannelGateKey) {
    0 <= m < |was| - 1 && key == was[m + 1]
  }

  lemma MovedOnIsSunk(was: seq<ChannelGateKey>, now: seq<ChannelGateKey>, i: nat, j: nat)
    requires MovedOn(was, now, i, j) && (j + 1 < |was| ==> !Before(was[j + 1], was[i]))
    ensures now == Sunk(was, i)
  {
    var rest := was[i + 1..];
    forall m | 0 <= m < j - i ensures Before(rest[m], was[i]) {
      assert now[i + m] == was[i + m + 1] == rest[m];
    }
    InsertedAt(was[i], rest, j - i);
    assert was[i + 1..][..j - i] == was[i + 1..j + 1] && was[i + 1..][j - i..] == was[j + 1..];
    assert now == was[..i] + (was[i + 1..j + 1] + [was[i]] + was[j + 1..]);
  }

  /** Put the key at `i` in its place among the sorted keys after it, one exchange at a time. */
  method SinkKey(keys: array<ChannelGateKey>, i: nat)
    requires i < keys.Length
    modifies keys
    ensures keys[..] == Sunk(old(keys[..]), i)
  {
    ghost var was := keys[..];
    var j := i;
    while j + 1 < keys.Length && Before(keys[j + 1], keys[j])
      invariant i <= j < keys.Length && keys[j] == was[i]
      invariant forall m | 0 <= m < i :: keys[m] == was[m]
      invariant forall m | j < m < keys.Length :: keys[m] == was[m]
      invariant forall m | i <= m < j :: Follows(was, m, keys[m]) && Before(keys[m], was[i])
    {
      keys[j], keys[j + 1] := keys[j + 1], keys[j];
      j := j + 1;
    }
    ghost var now := keys[..];
    assert |now| == keys.Length && forall m | 0 <= m < keys.Length :: now[m] == keys[m];
    MovedOnIsSunk(was, now, i, j);
  }

  /** The keys with the one at `i` inserted among those after it. */
  function Sunk(keys: seq<ChannelGateKey>, i: nat): seq<ChannelGateKey>
    requires i < |keys|
  {
    keys[..i] + Insert(keys[i], keys[i + 1..])
  }

  /** The keys with those from `i` on sorted. */
  function SortedFrom(keys: seq<ChannelGateKey>, i: nat): seq<ChannelGateKey>
    requires i <= |keys|
  {
    keys[..i] + Sorted(keys[i..])
  }

  lemma SinkingSorts(keys: seq<ChannelGateKey>, i: nat)
    requires i < |keys|
    ensures |SortedFrom(keys, i + 1)| == |keys| && Sunk(SortedFrom(keys, i + 1), i) == SortedFrom(keys, i)
  {
    var rest := Sorted(keys[i + 1..]);
    SortedIsAnOrderedPermutation(keys[i + 1..]);
    assert |rest| == |multiset(rest)| == |multiset(keys[i + 1..])| == |keys[i + 1..]|;
    var all := keys[..i + 1] + rest;
    assert all[..i] == keys[..i] && all[i] == keys[i] && all[i + 1..] == rest;
    assert keys[i..][0] == keys[i] && keys[i..][1..] == keys[i + 1..];
  }

  method SortKeys(keys: array<ChannelGateKey>)
    modifies keys
    ensures keys[..] == Sorted(old(keys[..]))
  {
    ghost var was := keys[..];
    var i := keys.Length;
    assert was[..i] == was && SortedFrom(was, i) == was;
    while i > 0
      invariant 0 <= i <= keys.Length
      invariant keys[..] == SortedFrom(was, i)
    {
      i := i - 1;
      SinkingSorts(was, i);
      SinkKey(keys, i);
    }
    assert was[0..] == was;
  }

  lemma DedupOneMore(keys: seq<ChannelGateKey>, i: nat)
    requires i < |keys|
    ensures Dedup(keys[..i + 1]) == if i > 0 && keys[i - 1] == keys[i] then Dedup(keys[..i]) else Dedup(keys[..i]) + [keys[i]]
  {
    assert keys[..i + 1][..i] == keys[..i];
    assert i == 0 ==> keys[..i + 1] == [keys[i]];
  }

  /** Keep each key that differs from the one kept before it, moving it down over the repeats. */
  method DedupKeys(keys: array<ChannelGateKey>) returns (n: nat)
    modifies keys
    ensures n <= keys.Length && keys[..n] == Dedup(old(keys[..]))
  {
    ghost var was := keys[..];
    n := 0;
    ghost var kept: seq<ChannelGateKey> := [];
    for i := 0 to keys.Length
      invariant n == |kept| <= i && kept == Dedup(was[..i])
      invariant forall m | 0 <= m < n :: keys[m] == kept[m]
      invariant forall m | i <= m < keys.Length :: keys[m] == was[m]
      invariant i > 0 ==> n > 0 && kept[n - 1] == was[i - 1]
    {
      DedupOneMore(was, i);
      if n == 0 || keys[n - 1] != keys[i] {
        keys[n] := keys[i];
        n := n + 1;
        kept := kept + [was[i]];
      }
    }
    assert was[..keys.Length] == was;
  }

  /** The vector of keys, in place: sorted, then cut to its first `n` keys without repeats. */
  method OrderKeys(keys: array<ChannelGateKey>) returns (n: nat)
    modifies keys
    ensures n <= keys.Length && keys[..n] == AcquireOrder(old(keys[..]))
    ensures StrictlyOrdered(keys[..n])
    ensures forall k :: k in keys[..n] <==> k in old(keys[..])
  {
    SortKeys(keys);
    n := DedupKeys(keys);
    AcquireOrderIsStrict(old(keys[..]));
  }
}
