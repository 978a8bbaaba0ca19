/** Vocabulary and small facts that several parts of the model share. */
module Common {

  datatype Option<+T> = None | Some(value: T)

  /** Thread identifiers: any number of threads may take part in a run. */
  type Tid = nat

  /** The tagged pointer of the linked queue: a node and a use count. */
  datatype Ptr = Ptr(id: nat, count: nat)

  const NULL := Ptr(0, 0)

  /** No element occurs twice. */
  ghost predicate Distinct<T>(s: seq<T>) { forall i, j :: 0 <= i < j < |s| ==> s[i] != s[j] }

  ghost function Any<T>(s: set<T>): (t: T)
    requires s != {}
    ensures t in s
  {
    var t :| t in s;
    t
  }

  lemma SubsetSize<T>(a: set<T>, b: set<T>)
    requires a <= b
    ensures |a| <= |b|
    ensures |a| == |b| ==> a == b
  {
    assert b == a + (b - a) && a !! (b - a);
  }

  // ----- attempts that may fail spuriously ----------------------------------------------------

  /** The last `n` attempts do not fail spuriously. */
  predicate Steady(spurious: seq<bool>, n: nat) {
    |spurious| >= n && forall i :: |spurious| - n <= i < |spurious| ==> !spurious[i]
  }

  lemma StillSteady(spurious: seq<bool>, n: nat)
    requires Steady(spurious, n) && spurious != []
    ensures |spurious| > n ==> Steady(spurious[1..], n)
    ensures |spurious| == n ==> !spurious[0] && Steady(spurious[1..], n - 1)
  {
  }

  // ----- products, quotients and remainders ---------------------------------------------------

  lemma Distribute(n: nat, x: nat, y: nat)
    ensures n * (x + y) == n * x + n * y
  {
  }

  /** One more factor adds at least one whole `n`. */
  lemma ProductGap(n: nat, x: nat, y: nat)
    ensures x < y ==> n * x + n <= n * y
    ensures x <= y ==> n * x <= n * y
  {
    if x < y {
      Distribute(n, x, y - x);
      Distribute(n, 1, y - x - 1);
    }
  }

  lemma DivideBy(a: nat, n: nat)
    requires n > 0
    ensures a == n * (a / n) + a % n && a % n < n
  {
  }

  lemma DivisionIsUnique(a: nat, n: nat, q: nat, r: nat)
    requires n > 0 && a == n * q + r && r < n
    ensures a % n == r && a / n == q
  {
    DivideBy(a, n);
    ProductGap(n, q, a / n);
    ProductGap(n, a / n, q);
  }
}
