/**
 * A movie of the MovieLens dataset. Equality, ordering, printing and
 * hashing all come from the title alone.
 */
module MovieItems {

  datatype MovieItem = MovieItem(title: string)

  /**
   * Python's three-way comparison of two strings: code point by code
   * point, and a proper prefix sorts first. Negative, zero or positive.
   */
  function Compare(a: string, b: string): int
    decreases |a|
  {
    if |a| == 0 then (if |b| == 0 then 0 else -1)
    else if |b| == 0 then 1
    else if a[0] < b[0] then -1
    else if a[0] > b[0] then 1
    else Compare(a[1..], b[1..])
  }

  /** The comparison is zero exactly on equal strings. */
  lemma {:induction false} CompareZero(a: string, b: string)
    ensures Compare(a, b) == 0 <==> a == b
    decreases |a|
  {
    if |a| > 0 && |b| > 0 && a[0] == b[0] {
      CompareZero(a[1..], b[1..]);
      if a[1..] == b[1..] {
        assert a == [a[0]] + a[1..] && b == [b[0]] + b[1..];
      }
    }
  }

  /** Swapping the operands flips the sign of the comparison. */
  lemma {:induction false} CompareFlip(a: string, b: string)
    ensures Compare(b, a) < 0 <==> Compare(a, b) > 0
    ensures Compare(b, a) == 0 <==> Compare(a, b) == 0
    decreases |a|
  {
    if |a| > 0 && |b| > 0 && a[0] == b[0] {
      CompareFlip(a[1..], b[1..]);
    }
  }

  /** "Sorts before" is transitive. */
  lemma {:induction false} CompareTransitive(a: string, b: string, c: string)
    requires Compare(a, b) < 0 && Compare(b, c) < 0
    ensures Compare(a, c) < 0
    decreases |a|
  {
    if |a| > 0 && |b| > 0 && |c| > 0 && a[0] == b[0] && b[0] == c[0] {
      CompareTransitive(a[1..], b[1..], c[1..]);
    }
  }

  /** `__eq__`. */
  predicate Eq(a: MovieItem, b: MovieItem)
  {
    a.title == b.title
  }

  /** `__ne__`: `not self.__eq__(other)`. */
  predicate Ne(a: MovieItem, b: MovieItem)
  {
    !Eq(a, b)
  }

  /** `__lt__`. */
  predicate Lt(a: MovieItem, b: MovieItem)
  {
    Compare(a.title, b.title) < 0
  }

  /** `__le__`. */
  predicate Le(a: MovieItem, b: MovieItem)
  {
    Compare(a.title, b.title) <= 0
  }

  /** `__gt__`. */
  predicate Gt(a: MovieItem, b: MovieItem)
  {
    Compare(a.title, b.title) > 0
  }

  /** `__ge__`. */
  predicate Ge(a: MovieItem, b: MovieItem)
  {
    Compare(a.title, b.title) >= 0
  }

  /** `__str__`. */
  function Str(m: MovieItem): string
  {
    m.title
  }

  /** `__repr__`. */
  function Repr(m: MovieItem): string
  {
    m.title
  }

  /** `hash(m)` is `hash(str(m))`: the value the hash is computed from. */
  function HashKey(m: MovieItem): string
  {
    Str(m)
  }

  /**
   * Two movies are equal exactly when their titles are, which for this
   * one-field record is identity of the values; `!=` is the negation.
   */
  lemma EqualityByTitle(a: MovieItem, b: MovieItem)
    ensures Eq(a, b) <==> a == b
    ensures Ne(a, b) <==> a != b
  {
  }

  /** Exactly one of `a < b`, `a == b`, `a > b` holds. */
  lemma Trichotomy(a: MovieItem, b: MovieItem)
    ensures Lt(a, b) || Eq(a, b) || Gt(a, b)
    ensures !(Lt(a, b) && Eq(a, b)) && !(Lt(a, b) && Gt(a, b)) && !(Eq(a, b) && Gt(a, b))
  {
    CompareZero(a.title, b.title);
  }

  /** `a <= b` iff `a < b` or `a == b`, and `a >= b` iff `a > b` or `a == b`. */
  lemma WeakOrders(a: MovieItem, b: MovieItem)
    ensures Le(a, b) <==> Lt(a, b) || Eq(a, b)
    ensures Ge(a, b) <==> Gt(a, b) || Eq(a, b)
  {
    CompareZero(a.title, b.title);
  }

  /** `a > b` iff `b < a`, and `a >= b` iff `b <= a`. */
  lemma ConverseOrders(a: MovieItem, b: MovieItem)
    ensures Gt(a, b) <==> Lt(b, a)
    ensures Ge(a, b) <==> Le(b, a)
  {
    CompareFlip(a.title, b.title);
  }

  /** `<` is a strict order: irreflexive and transitive. */
  lemma StrictOrder(a: MovieItem, b: MovieItem, c: MovieItem)
    ensures !Lt(a, a)
    ensures Lt(a, b) && Lt(b, c) ==> Lt(a, c)
  {
    CompareZero(a.title, a.title);
    if Lt(a, b) && Lt(b, c) {
      CompareTransitive(a.title, b.title, c.title);
    }
  }

  /** `str` and `repr` give the title, and equal movies hash alike. */
  lemma PrintingAndHashing(a: MovieItem, b: MovieItem)
    ensures Str(a) == a.title && Repr(a) == a.title
    ensures Eq(a, b) ==> HashKey(a) == HashKey(b)
  {
  }
}
