/**
 * The keys of the operation catalog: a prefix naming the category and a
 * counter inside it, and the set of keys the catalog defines.
 */
module OpKeys {

  /** A key of the operation dictionary: its prefix and its counter. */
  datatype OpKey = Op(n: nat) | EI(n: nat) | F(n: nat) | M(n: nat) | D(n: nat) | OM(n: nat) | RT(n: nat)

  /** The category a key's prefix names. */
  function Family(k: OpKey): (f: int)
    ensures 1 <= f <= 7
  {
    match k
    case Op(_) => 1
    case EI(_) => 2
    case F(_) => 3
    case M(_) => 4
    case D(_) => 5
    case OM(_) => 6
    case RT(_) => 7
  }

  /** How many operations the catalog defines with the key's prefix. */
  function Count(k: OpKey): (c: nat)
    ensures c == CountOf(Family(k))
  {
    match k
    case Op(_) => 8
    case EI(_) => 2
    case F(_) => 7
    case M(_) => 9
    case D(_) => 2
    case OM(_) => 8
    case RT(_) => 6
  }

  predicate ValidKey(k: OpKey)
  {
    1 <= k.n <= Count(k)
  }

  /** The key with a category's prefix and a given counter. */
  function Make(f: int, n: nat): (k: OpKey)
    requires 1 <= f <= 7
    ensures Family(k) == f && k.n == n
  {
    if f == 1 then Op(n)
    else if f == 2 then EI(n)
    else if f == 3 then F(n)
    else if f == 4 then M(n)
    else if f == 5 then D(n)
    else if f == 6 then OM(n)
    else RT(n)
  }

  /** Rebuilding a key from its category and counter gives the key back. */
  lemma MakeFamily(k: OpKey)
    ensures Make(Family(k), k.n) == k
  {
  }

  /** The keys of category f with counters 1..c. */
  function FamilyKeys(f: int, c: nat): (r: set<OpKey>)
    requires 1 <= f <= 7
    ensures forall k :: k in r <==> Family(k) == f && 1 <= k.n <= c
  {
    var r := set n: nat | 1 <= n <= c :: Make(f, n);
    forall k | Family(k) == f && 1 <= k.n <= c
      ensures k in r
    {
      MakeFamily(k);
    }
    r
  }

  lemma {:induction false} FamilyCard(f: int, c: nat)
    requires 1 <= f <= 7
    ensures |FamilyKeys(f, c)| == c
  {
    if c == 0 {
      assert FamilyKeys(f, c) == {};
    } else {
      FamilyCard(f, c - 1);
      assert FamilyKeys(f, c) == FamilyKeys(f, c - 1) + {Make(f, c)};
    }
  }

  /** How many operations the catalog defines in category f. */
  function CountOf(f: int): nat
  {
    if f == 1 then 8
    else if f == 2 then 2
    else if f == 3 then 7
    else if f == 4 then 9
    else if f == 5 then 2
    else if f == 6 then 8
    else if f == 7 then 6
    else 0
  }

  lemma DisjointCard(a: set<OpKey>, b: set<OpKey>)
    requires a !! b
    ensures |a + b| == |a| + |b|
  {
    assert a * b == {};
  }

  /** How many operations categories 1..f define together. */
  function Total(f: nat): nat
  {
    if f == 0 then 0 else Total(f - 1) + CountOf(f)
  }

  /** The keys of categories 1..f. */
  function KeysUpTo(f: nat): (r: set<OpKey>)
    requires f <= 7
    ensures forall k :: k in r <==> Family(k) <= f && ValidKey(k)
    ensures |r| == Total(f)
  {
    if f == 0 then {}
    else
      var prev := KeysUpTo(f - 1);
      var next := FamilyKeys(f, CountOf(f));
      FamilyCard(f, CountOf(f));
      assert prev !! next by {
        forall k | k in prev ensures k !in next {
          assert Family(k) < f;
        }
      }
      DisjointCard(prev, next);
      prev + next
  }

  /** The keys of the whole dictionary. */
  function CatalogKeys(): (r: set<OpKey>)
    ensures forall k :: k in r <==> ValidKey(k)
  {
    var r := set f: int, n: nat | 1 <= f <= 7 && 1 <= n <= CountOf(f) :: Make(f, n);
    forall k | ValidKey(k)
      ensures k in r
    {
      MakeFamily(k);
    }
    r
  }

  /** The catalog is the union of all seven categories. */
  lemma CatalogUpTo(f: nat)
    requires f == 7
    ensures |CatalogKeys()| == Total(f)
  {
    assert CatalogKeys() == KeysUpTo(f);
  }

  /** The dictionary defines 42 keys. */
  lemma CatalogSize()
    ensures |CatalogKeys()| == 42
  {
    CatalogUpTo(7);
  }
}
