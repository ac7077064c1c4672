/** Names are compared byte by byte in the program. This module gives that
    order on strings and the one fact about sorting that the planner, the
    scheduler and the contract normal form rely on: a sorted list is fixed by
    its elements, so neither the sorting algorithm nor the input order shows. */
module Order {

  /** Lexicographic order on strings (`<` on Dafny strings is "proper prefix"). */
  predicate Less(a: string, b: string) {
    if b == "" then false
    else if a == "" then true
    else if a[0] == b[0] then Less(a[1..], b[1..])
    else a[0] < b[0]
  }

  predicate IntLess(a: int, b: int) { a < b }

  ghost predicate StrictOrder<T(!new)>(less: (T, T) -> bool) {
    && (forall x :: !less(x, x))
    && (forall x, y, z :: less(x, y) && less(y, z) ==> less(x, z))
  }

  /** Any two different elements of `s` are ordered by `less`. */
  ghost predicate Resolves<T(!new)>(less: (T, T) -> bool, s: seq<T>) {
    forall x, y :: x in s && y in s && x != y ==> less(x, y) || less(y, x)
  }

  ghost predicate StrictTotal<T(!new)>(less: (T, T) -> bool) {
    && StrictOrder(less)
    && (forall x, y :: x != y ==> less(x, y) || less(y, x))
  }

  ghost predicate Sorted<T>(less: (T, T) -> bool, s: seq<T>) {
    forall i, j :: 0 <= i < j < |s| ==> !less(s[j], s[i])
  }

  // --- The order on strings is total ---

  lemma {:induction false} LessTransitive(a: string, b: string, c: string)
    requires Less(a, b) && Less(b, c)
    ensures Less(a, c)
  {
    if a != "" && a[0] == b[0] == c[0] {
      LessTransitive(a[1..], b[1..], c[1..]);
    }
  }

  lemma {:induction false} LessIrreflexive(a: string)
    ensures !Less(a, a)
  {
    if a != "" {
      LessIrreflexive(a[1..]);
    }
  }

  lemma {:induction false} LessConnected(a: string, b: string)
    requires a != b
    ensures Less(a, b) || Less(b, a)
  {
    if a != "" && b != "" && a[0] == b[0] {
      assert a == [a[0]] + a[1..] && b == [b[0]] + b[1..];
      LessConnected(a[1..], b[1..]);
    }
  }

  lemma LessIsTotal()
    ensures StrictTotal(Less)
  {
    forall a, b, c | Less(a, b) && Less(b, c) ensures Less(a, c) { LessTransitive(a, b, c); }
    forall a ensures !Less(a, a) { LessIrreflexive(a); }
    forall a, b | a != b ensures Less(a, b) || Less(b, a) { LessConnected(a, b); }
  }

  /** Tuples of strings, compared at the first field that differs. */
  predicate ListLess(a: seq<string>, b: seq<string>) {
    && a != [] && b != []
    && if a[0] != b[0] then Less(a[0], b[0]) else ListLess(a[1..], b[1..])
  }

  lemma {:induction false} ListLessTransitive(a: seq<string>, b: seq<string>, c: seq<string>)
    requires ListLess(a, b) && ListLess(b, c)
    ensures ListLess(a, c)
  {
    LessIsTotal();
    if a[0] == b[0] == c[0] {
      ListLessTransitive(a[1..], b[1..], c[1..]);
    }
  }

  lemma {:induction false} ListLessIrreflexive(a: seq<string>)
    ensures !ListLess(a, a)
  {
    if a != [] {
      ListLessIrreflexive(a[1..]);
    }
  }

  lemma {:induction false} ListLessConnected(a: seq<string>, b: seq<string>)
    requires |a| == |b| && a != b
    ensures ListLess(a, b) || ListLess(b, a)
  {
    if a[0] == b[0] {
      assert a == [a[0]] + a[1..] && b == [b[0]] + b[1..];
      ListLessConnected(a[1..], b[1..]);
    } else {
      LessConnected(a[0], b[0]);
    }
  }

  /** Comparing records by an injective tuple of fields is a total order. */
  lemma FieldOrderIsTotal<T(!new)>(fields: T -> seq<string>, less: (T, T) -> bool, width: nat)
    requires forall x :: |fields(x)| == width
    requires forall x, y :: x != y ==> fields(x) != fields(y)
    requires forall x, y :: less(x, y) <==> ListLess(fields(x), fields(y))
    ensures StrictTotal(less)
  {
    forall x ensures !less(x, x) { ListLessIrreflexive(fields(x)); }
    forall x, y, z | less(x, y) && less(y, z) ensures less(x, z) {
      ListLessTransitive(fields(x), fields(y), fields(z));
    }
    forall x, y | x != y ensures less(x, y) || less(y, x) { ListLessConnected(fields(x), fields(y)); }
  }

  // --- Sorting ---

  function Insert<T(!new)>(less: (T, T) -> bool, x: T, s: seq<T>): (r: seq<T>)
    ensures multiset(r) == multiset(s) + multiset{x}
  {
    if s == [] then [x]
    else if less(x, s[0]) then [x] + s
    else
      assert s == [s[0]] + s[1..];
      [s[0]] + Insert(less, x, s[1..])
  }

  function Sort<T(!new)>(less: (T, T) -> bool, s: seq<T>): (r: seq<T>)
    ensures multiset(r) == multiset(s)
    ensures |r| == |s|
    ensures forall x :: x in r <==> x in s
  {
    if s == [] then []
    else
      assert s == [s[0]] + s[1..];
      var r := Insert(less, s[0], Sort(less, s[1..]));
      SameMultisetSameMembers(r, s);
      r
  }

  lemma SameMultisetSameMembers<T>(s: seq<T>, t: seq<T>)
    requires multiset(s) == multiset(t)
    ensures |s| == |t|
    ensures forall x :: x in s <==> x in t
  {
    assert |multiset(s)| == |s| && |multiset(t)| == |t|;
    forall x ensures x in s <==> x in t {
      assert x in s <==> x in multiset(s);
      assert x in t <==> x in multiset(t);
    }
  }

  lemma {:induction false} InsertSorted<T(!new)>(less: (T, T) -> bool, x: T, s: seq<T>)
    requires StrictOrder(less) && Resolves(less, [x] + s) && Sorted(less, s)
    ensures Sorted(less, Insert(less, x, s))
  {
    if s != [] && !less(x, s[0]) {
      var rest := Insert(less, x, s[1..]);
      assert forall y :: y in s[1..] ==> y in s;
      InsertSorted(less, x, s[1..]);
      forall j | 0 <= j < |rest| ensures !less(rest[j], s[0]) {
        assert rest[j] in multiset(rest);
        assert rest[j] == x || rest[j] in s[1..];
      }
    } else if s != [] {
      forall j | 0 <= j < |s| ensures !less(s[j], x) {
        assert j == 0 || !less(s[j], s[0]);
      }
    }
  }

  /** Sorting yields a sorted rearrangement whenever the order tells the elements apart. */
  lemma {:induction false} SortSorts<T(!new)>(less: (T, T) -> bool, s: seq<T>)
    requires StrictOrder(less) && Resolves(less, s)
    ensures Sorted(less, Sort(less, s))
  {
    if s != [] {
      assert s == [s[0]] + s[1..];
      assert forall y :: y in s[1..] ==> y in s;
      SortSorts(less, s[1..]);
      InsertSorted(less, s[0], Sort(less, s[1..]));
    }
  }

  lemma TailSorted<T(!new)>(less: (T, T) -> bool, s: seq<T>)
    requires s != [] && Resolves(less, s) && Sorted(less, s)
    ensures Resolves(less, s[1..]) && Sorted(less, s[1..])
  {
    assert forall y :: y in s[1..] ==> y in s;
  }

  lemma {:induction false} SortedUnique<T(!new)>(less: (T, T) -> bool, s: seq<T>, t: seq<T>)
    requires StrictOrder(less) && Resolves(less, s)
    requires Sorted(less, s) && Sorted(less, t)
    requires multiset(s) == multiset(t)
    ensures s == t
  {
    SameMultisetSameMembers(s, t);
    if s != [] {
      HeadsAgree(less, s, t);
      TailMultiset(s);
      TailMultiset(t);
      TailSorted(less, s);
      TailSorted(less, t);
      SortedUnique(less, s[1..], t[1..]);
      assert s == [s[0]] + s[1..] && t == [t[0]] + t[1..];
    }
  }

  lemma TailMultiset<T>(s: seq<T>)
    requires s != []
    ensures multiset(s[1..]) == multiset(s) - multiset{s[0]}
  {
    assert s == [s[0]] + s[1..];
  }

  lemma HeadsAgree<T(!new)>(less: (T, T) -> bool, s: seq<T>, t: seq<T>)
    requires StrictOrder(less) && Resolves(less, s)
    requires Sorted(less, s) && Sorted(less, t)
    requires |s| == |t| > 0 && forall x :: x in s <==> x in t
    ensures s[0] == t[0]
  {
    assert s[0] in t && t[0] in s;
    var i :| 0 <= i < |t| && t[i] == s[0];
    var j :| 0 <= j < |s| && s[j] == t[0];
    assert i == 0 || !less(t[i], t[0]);
    assert j == 0 || !less(s[j], s[0]);
  }

  /** The sorted form depends only on the elements. */
  lemma SortIgnoresOrder<T(!new)>(less: (T, T) -> bool, s: seq<T>, t: seq<T>)
    requires StrictOrder(less) && Resolves(less, s)
    requires multiset(s) == multiset(t)
    ensures Sort(less, s) == Sort(less, t)
  {
    SameMultisetSameMembers(s, t);
    SortSorts(less, s);
    SortSorts(less, t);
    SortedUnique(less, Sort(less, s), Sort(less, t));
  }

  /** Under a total order, equal sorted forms and equal contents are the same thing. */
  lemma SortIsNormalForm<T(!new)>(less: (T, T) -> bool, s: seq<T>, t: seq<T>)
    requires StrictTotal(less)
    ensures Sort(less, s) == Sort(less, t) <==> multiset(s) == multiset(t)
    ensures Sorted(less, Sort(less, s))
  {
    SortSorts(less, s);
    if multiset(s) == multiset(t) {
      SortIgnoresOrder(less, s, t);
    }
  }

  // --- Strictly sorted lists are fixed by their members ---

  ghost predicate Ascending<T>(less: (T, T) -> bool, s: seq<T>) {
    forall i, j :: 0 <= i < j < |s| ==> less(s[i], s[j])
  }

  lemma AscendingHeads<T(!new)>(less: (T, T) -> bool, s: seq<T>, t: seq<T>)
    requires StrictOrder(less) && Ascending(less, s) && Ascending(less, t)
    requires s != [] && t != [] && forall x :: x in s <==> x in t
    ensures s[0] == t[0]
    ensures forall x :: x in s[1..] <==> x in t[1..]
  {
    assert s[0] in t && t[0] in s;
    var i :| 0 <= i < |t| && t[i] == s[0];
    var j :| 0 <= j < |s| && s[j] == t[0];
    forall x ensures x in s[1..] <==> x in s && x != s[0] { assert s == [s[0]] + s[1..]; }
    forall x ensures x in t[1..] <==> x in t && x != t[0] { assert t == [t[0]] + t[1..]; }
  }

  lemma {:induction false} AscendingUnique<T(!new)>(less: (T, T) -> bool, s: seq<T>, t: seq<T>)
    requires StrictOrder(less) && Ascending(less, s) && Ascending(less, t)
    requires forall x :: x in s <==> x in t
    ensures s == t
  {
    assert s == [] || s[0] in t;
    assert t == [] || t[0] in s;
    if s != [] {
      AscendingHeads(less, s, t);
      AscendingUnique(less, s[1..], t[1..]);
      assert s == [s[0]] + s[1..] && t == [t[0]] + t[1..];
    }
  }

  ghost predicate NoRepeats<T>(s: seq<T>) {
    forall i, j :: 0 <= i < j < |s| ==> s[i] != s[j]
  }

  lemma {:induction false} NoRepeatsCount<T>(s: seq<T>)
    ensures NoRepeats(s) <==> forall x :: multiset(s)[x] <= 1
  {
    if s != [] {
      var last, init := s[|s| - 1], s[..|s| - 1];
      assert s == init + [last];
      NoRepeatsCount(init);
      assert NoRepeats(s) <==> NoRepeats(init) && last !in init;
      assert last in init <==> multiset(init)[last] > 0;
      assert forall x :: multiset(s)[x] == multiset(init)[x] + if x == last then 1 else 0;
    }
  }

  lemma SortAscends<T(!new)>(less: (T, T) -> bool, s: seq<T>)
    requires StrictOrder(less) && Resolves(less, s) && NoRepeats(s)
    ensures Ascending(less, Sort(less, s))
  {
    SortSorts(less, s);
    NoRepeatsCount(s);
    NoRepeatsCount(Sort(less, s));
  }

  lemma Regroup<T>(a: seq<T>, b: seq<T>, k: nat)
    requires k < |b|
    ensures a + b[..k] + [b[k]] == a + b[..k + 1]
    ensures a + b[..k + 1] + b[k + 1..] == a + b
  {
  }

  /** Two positions of a list hold one value exactly when the value occurs twice. */
  lemma {:induction false} TwiceAt<T>(s: seq<T>, x: T)
    ensures multiset(s)[x] >= 2 <==> exists i, j :: 0 <= i < j < |s| && s[i] == x && s[j] == x
  {
    if s != [] {
      var init, last := s[..|s| - 1], s[|s| - 1];
      assert s == init + [last];
      TwiceAt(init, x);
      if last == x && x in init {
        var i :| 0 <= i < |init| && init[i] == x;
        assert s[i] == x && s[|s| - 1] == x;
      }
      if i, j :| 0 <= i < j < |init| && init[i] == x && init[j] == x {
        assert s[i] == x && s[j] == x;
      }
    }
  }

  /** Two places of a list have their like in every rearrangement. */
  lemma TwoPlaces<T>(c: seq<T>, c': seq<T>, i: nat, j: nat) returns (k: nat, l: nat)
    requires multiset(c) == multiset(c') && i < j < |c|
    ensures k < |c'| && l < |c'| && k != l && c'[k] == c[i] && c'[l] == c[j]
  {
    SameMultisetSameMembers(c, c');
    if c[i] == c[j] {
      TwiceAt(c, c[i]);
      TwiceAt(c', c[i]);
      k, l :| 0 <= k < l < |c'| && c'[k] == c[i] && c'[l] == c[i];
    } else {
      assert c[i] in c' && c[j] in c';
      k :| 0 <= k < |c'| && c'[k] == c[i];
      l :| 0 <= l < |c'| && c'[l] == c[j];
    }
  }
}
