/** An ordered map from strings, as the sorted list of its entries: what the buffer of a
    canonical object is. */
module SortedEntries {
  import opened Matrix

  datatype Binding<V> = Binding(key: string, value: V)

  /** Lexicographic order of strings by character. */
  predicate Less(a: string, b: string) {
    b != [] && (a == [] || (if a[0] == b[0] then Less(a[1..], b[1..]) else a[0] < b[0]))
  }

  /** The strings agree before position `k`, where `a` ends or has the smaller character. */
  predicate SmallerAt(a: string, b: string, k: nat) {
    k <= |a| && k < |b| && a[..k] == b[..k] && (k == |a| || a[k] < b[k])
  }

  /** The lexicographic order, said of positions. */
  ghost predicate Before(a: string, b: string) {
    exists k: nat :: SmallerAt(a, b, k)
  }

  lemma SmallerAtNext(a: string, b: string, k: nat)
    requires a != [] && b != [] && a[0] == b[0]
    ensures SmallerAt(a[1..], b[1..], k) <==> SmallerAt(a, b, k + 1)
  {
    if k + 1 <= |a| && k + 1 <= |b| {
      assert a[..k + 1] == [a[0]] + a[1..][..k] && b[..k + 1] == [b[0]] + b[1..][..k];
      assert a[1..][..k] == a[..k + 1][1..] && b[1..][..k] == b[..k + 1][1..];
    }
  }

  lemma {:induction false} LessIff(a: string, b: string)
    ensures Less(a, b) <==> Before(a, b)
  {
    if a != [] && b != [] && a[0] == b[0] {
      LessIff(a[1..], b[1..]);
      if k: nat :| SmallerAt(a[1..], b[1..], k) {
        SmallerAtNext(a, b, k);
      }
      if k: nat :| SmallerAt(a, b, k) {
        assert k > 0;
        SmallerAtNext(a, b, k - 1);
      }
    } else if Less(a, b) {
      assert SmallerAt(a, b, 0);
    }
  }

  lemma {:induction false} LessIsTotal(a: string, b: string)
    ensures a == b || Less(a, b) || Less(b, a)
  {
    if a != [] && b != [] && a[0] == b[0] {
      LessIsTotal(a[1..], b[1..]);
      assert a == [a[0]] + a[1..] && b == [b[0]] + b[1..];
    }
  }

  lemma {:induction false} LessIsIrreflexive(a: string)
    ensures !Less(a, a)
  {
    if a != [] {
      LessIsIrreflexive(a[1..]);
    }
  }

  lemma {:induction false} LessIsTransitive(a: string, b: string, c: string)
    requires Less(a, b) && Less(b, c)
    ensures Less(a, c)
  {
    if a != [] && a[0] == b[0] && b[0] == c[0] {
      LessIsTransitive(a[1..], b[1..], c[1..]);
    }
  }

  /** Strictly increasing keys; in particular no key twice. */
  predicate Sorted<V>(m: seq<Binding<V>>) {
    forall i, j | 0 <= i < j < |m| :: Less(m[i].key, m[j].key)
  }

  function Lookup<V>(m: seq<Binding<V>>, key: string): Option<V> {
    if m == [] then None
    else if m[0].key == key then Some(m[0].value)
    else Lookup(m[1..], key)
  }

  /** Insertion into the ordered map: the value of a key already there is replaced. */
  function Insert<V>(m: seq<Binding<V>>, key: string, value: V): seq<Binding<V>> {
    if m == [] || Less(key, m[0].key) then [Binding(key, value)] + m
    else if m[0].key == key then [Binding(key, value)] + m[1..]
    else [m[0]] + Insert(m[1..], key, value)
  }

  lemma {:induction false} InsertKeys<V>(m: seq<Binding<V>>, key: string, value: V, low: string)
    requires forall b | b in m :: Less(low, b.key)
    requires Less(low, key)
    ensures forall b | b in Insert(m, key, value) :: Less(low, b.key)
  {
    if !(m == [] || Less(key, m[0].key) || m[0].key == key) {
      InsertKeys(m[1..], key, value, low);
    }
  }

  lemma SortedCons<V>(b: Binding<V>, m: seq<Binding<V>>)
    requires Sorted(m) && forall c | c in m :: Less(b.key, c.key)
    ensures Sorted([b] + m)
  {
  }

  /** In a sorted list every key comes lexicographically before all later ones. */
  lemma SortedIff<V>(m: seq<Binding<V>>)
    ensures Sorted(m) <==> forall i, j | 0 <= i < j < |m| :: Before(m[i].key, m[j].key)
  {
    forall i, j | 0 <= i < j < |m| ensures Less(m[i].key, m[j].key) <==> Before(m[i].key, m[j].key) {
      LessIff(m[i].key, m[j].key);
    }
  }

  /** Insertion keeps the keys in lexicographic order. */
  lemma {:induction false} InsertKeepsSorted<V>(m: seq<Binding<V>>, key: string, value: V)
    requires Sorted(m)
    ensures Sorted(Insert(m, key, value))
    ensures var n := Insert(m, key, value); forall i, j | 0 <= i < j < |n| :: Before(n[i].key, n[j].key)
  {
    SortedIff(Insert(m, key, value));
    if m == [] {
    } else if Less(key, m[0].key) {
      forall c | c in m ensures Less(key, c.key) {
        if c != m[0] {
          LessIsTransitive(key, m[0].key, c.key);
        }
      }
      SortedCons(Binding(key, value), m);
    } else if m[0].key == key {
      SortedCons(Binding(key, value), m[1..]);
    } else {
      LessIsTotal(key, m[0].key);
      InsertKeepsSorted(m[1..], key, value);
      InsertKeys(m[1..], key, value, m[0].key);
      SortedCons(m[0], Insert(m[1..], key, value));
    }
  }

  /** A key before every key of a sorted list is not in it. */
  lemma {:induction false} SmallerIsAbsent<V>(m: seq<Binding<V>>, key: string)
    requires forall b | b in m :: Less(key, b.key)
    ensures Lookup(m, key) == None
  {
    if m != [] {
      assert m[0] in m;
      LessIsIrreflexive(key);
      SmallerIsAbsent(m[1..], key);
    }
  }

  ghost predicate SameBindings<V>(m: seq<Binding<V>>, n: seq<Binding<V>>) {
    forall key :: Lookup(m, key) == Lookup(n, key)
  }

  lemma {:induction false} HeadIsLeast<V>(m: seq<Binding<V>>, n: seq<Binding<V>>)
    requires Sorted(m) && Sorted(n) && m != [] && SameBindings(m, n)
    ensures n != [] && !Less(m[0].key, n[0].key)
  {
    var key := m[0].key;
    assert Lookup(m, key) == Lookup(n, key);
    if n != [] && Less(key, n[0].key) {
      forall b | b in n ensures Less(key, b.key) {
        if b != n[0] {
          LessIsTransitive(key, n[0].key, b.key);
        }
      }
      SmallerIsAbsent(n, key);
    }
  }

  /** The sorted list is determined by the bindings: this is why the text of an object
      cannot depend on the order in which its entries came. */
  lemma {:induction false} SortedIsUnique<V>(m: seq<Binding<V>>, n: seq<Binding<V>>)
    requires Sorted(m) && Sorted(n) && SameBindings(m, n)
    ensures m == n
  {
    if n != [] {
      HeadIsLeast(n, m);
    }
    if m != [] {
      HeadIsLeast(m, n);
      LessIsTotal(m[0].key, n[0].key);
      assert Lookup(m, m[0].key) == Lookup(n, m[0].key);
      TailsAgree(m, n);
      SortedIsUnique(m[1..], n[1..]);
      assert m == [m[0]] + m[1..] && n == [n[0]] + n[1..];
    }
  }

  lemma TailsAgree<V>(m: seq<Binding<V>>, n: seq<Binding<V>>)
    requires Sorted(m) && Sorted(n) && m != [] && n != [] && m[0].key == n[0].key && SameBindings(m, n)
    ensures SameBindings(m[1..], n[1..])
  {
    forall key ensures Lookup(m[1..], key) == Lookup(n[1..], key) {
      assert Lookup(m, key) == Lookup(n, key);
      if key == m[0].key {
        SmallerIsAbsent(m[1..], key);
        SmallerIsAbsent(n[1..], key);
      }
    }
  }

  /** The entries after an insertion: the new one, and the old ones of other keys. */
  lemma {:induction false} InsertMembers<V>(m: seq<Binding<V>>, key: string, value: V, b: Binding<V>)
    requires Sorted(m)
    ensures b in Insert(m, key, value) <==> b == Binding(key, value) || (b in m && b.key != key)
  {
    if m == [] {
    } else if Less(key, m[0].key) {
      if b in m && b.key == key {
        assert b == m[0] || Less(m[0].key, key);
        if b != m[0] {
          LessIsTransitive(key, m[0].key, key);
        }
        LessIsIrreflexive(key);
      }
    } else if m[0].key == key {
      assert m == [m[0]] + m[1..];
      LessIsIrreflexive(key);
    } else {
      InsertMembers(m[1..], key, value, b);
      assert m == [m[0]] + m[1..];
    }
  }

  lemma {:induction false} LookupIsMembership<V>(m: seq<Binding<V>>, b: Binding<V>)
    requires Sorted(m)
    ensures Lookup(m, b.key) == Some(b.value) <==> b in m
  {
    if m != [] {
      LookupIsMembership(m[1..], b);
      assert m == [m[0]] + m[1..];
      if m[0].key == b.key {
        SmallerIsAbsent(m[1..], b.key);
      }
    }
  }

  /** Two sorted lists with the same entries are the same list. */
  lemma SameMembersSameList<V(!new)>(m: seq<Binding<V>>, n: seq<Binding<V>>)
    requires Sorted(m) && Sorted(n) && forall b: Binding<V> :: b in m <==> b in n
    ensures m == n
  {
    forall key ensures Lookup(m, key) == Lookup(n, key) {
      if Lookup(m, key).Some? {
        LookupIsMembership(m, Binding(key, Lookup(m, key).value));
        LookupIsMembership(n, Binding(key, Lookup(m, key).value));
      } else if Lookup(n, key).Some? {
        LookupIsMembership(m, Binding(key, Lookup(n, key).value));
        LookupIsMembership(n, Binding(key, Lookup(n, key).value));
      }
    }
    SortedIsUnique(m, n);
  }
}
