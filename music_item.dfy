/**
 * A catalog record of the music (CDs and vinyl) dataset and the two field
 * validators that normalise it: the id loses its leading zeros and the
 * categories lose their list punctuation.
 */
module MusicItems {
  import opened Wrappers
  import opened Exceptions
  import Text

  /**
   * A validated catalog entry. The class itself declares no `title`; the
   * loader passes one and the renderers read it, so the model keeps it.
   */
  datatype MusicItem = MusicItem(id: string, title: string, categories: string, brand: string, salesType: string)

  /** `hash(item)` is `hash(item.id)`: the value the hash is computed from. */
  function HashKey(item: MusicItem): string
  {
    item.id
  }

  /** Two items with the same id hash alike, whatever their other fields. */
  lemma HashDependsOnlyOnId(a: MusicItem, b: MusicItem)
    requires a.id == b.id
    ensures HashKey(a) == HashKey(b)
  {
  }

  // ---------------------------------------------------------------- categories

  /** The characters the categories validator deletes, in the order it deletes them. */
  const Punctuation: seq<char> := ['[', ']', '\'']

  /** `s` with every character of `bad` deleted: the one-pass reference filter. */
  function Without(s: string, bad: set<char>): string
  {
    if |s| == 0 then "" else (if s[0] in bad then "" else [s[0]]) + Without(s[1..], bad)
  }

  /** What the categories validator produces, as one filter. */
  function CleanCategories(s: string): string
  {
    Without(s, {'[', ']', '\''})
  }

  /** Deleting one more character after a filter is the filter by the larger set. */
  lemma {:induction false} RemoveAfterWithout(s: string, bad: set<char>, c: char)
    ensures Text.RemoveChar(Without(s, bad), c) == Without(s, bad + {c})
  {
    if |s| > 0 {
      RemoveAfterWithout(s[1..], bad, c);
      var head := if s[0] in bad then "" else [s[0]];
      RemoveDistributes(head, Without(s[1..], bad), c);
    }
  }

  lemma {:induction false} RemoveDistributes(a: string, b: string, c: char)
    ensures Text.RemoveChar(a + b, c) == Text.RemoveChar(a, c) + Text.RemoveChar(b, c)
  {
    if |a| > 0 {
      assert (a + b)[1..] == a[1..] + b;
      RemoveDistributes(a[1..], b, c);
    } else {
      assert a + b == b;
    }
  }

  lemma {:induction false} WithoutNothing(s: string)
    ensures Without(s, {}) == s
  {
    if |s| > 0 {
      WithoutNothing(s[1..]);
    }
  }

  /** `validate_categories`: three `replace` passes, one per punctuation character. */
  method ValidateCategories(v: string) returns (r: string)
    ensures r == CleanCategories(v)
  {
    r := v;
    WithoutNothing(v);
    assert Removed(0) == {};
    for i := 0 to |Punctuation|
      invariant r == Without(v, Removed(i))
    {
      RemoveAfterWithout(v, Removed(i), Punctuation[i]);
      RemovedStep(i);
      r := Text.RemoveChar(r, Punctuation[i]);
    }
    assert Punctuation[..3] == ['[', ']', '\''];
    assert Removed(3) == {'[', ']', '\''};
  }

  /** The characters deleted by the first `i` passes. */
  ghost function Removed(i: nat): set<char>
    requires i <= |Punctuation|
  {
    set c | c in Punctuation[..i]
  }

  lemma RemovedStep(i: nat)
    requires i < |Punctuation|
    ensures Removed(i + 1) == Removed(i) + {Punctuation[i]}
  {
    assert Punctuation[..i + 1] == Punctuation[..i] + [Punctuation[i]];
  }

  /** `a` can be obtained from `b` by deleting characters. */
  predicate IsSubsequence(a: string, b: string)
    decreases |b|
  {
    if |a| == 0 then true
    else if |b| == 0 then false
    else if a[0] == b[0] then IsSubsequence(a[1..], b[1..])
    else IsSubsequence(a, b[1..])
  }

  /**
   * The filter deletes exactly the characters of `bad`: none of them is
   * left, every other character keeps its number of occurrences, and the
   * survivors keep their original order.
   */
  lemma {:induction false} WithoutSpec(s: string, bad: set<char>)
    ensures forall c :: c in bad ==> c !in Without(s, bad)
    ensures forall c :: c !in bad ==> multiset(Without(s, bad))[c] == multiset(s)[c]
    ensures IsSubsequence(Without(s, bad), s)
  {
    if |s| > 0 {
      var tail := Without(s[1..], bad);
      WithoutSpec(s[1..], bad);
      assert s == [s[0]] + s[1..];
      assert multiset(s) == multiset{s[0]} + multiset(s[1..]);
      if s[0] in bad {
        assert Without(s, bad) == tail;
        SubsequenceOfTail(tail, s);
      } else {
        var t := Without(s, bad);
        assert t == [s[0]] + tail;
        assert multiset(t) == multiset{s[0]} + multiset(tail);
        assert t[0] == s[0] && t[1..] == tail;
      }
    }
  }

  lemma {:induction false} SubsequenceOfTail(a: string, b: string)
    requires |b| > 0 && IsSubsequence(a, b[1..])
    ensures IsSubsequence(a, b)
    decreases 2 * |b|
  {
    if |a| > 0 && a[0] == b[0] {
      SubsequenceDropHead(a, b[1..]);
    }
  }

  lemma {:induction false} SubsequenceDropHead(a: string, c: string)
    requires |a| > 0 && IsSubsequence(a, c)
    ensures IsSubsequence(a[1..], c)
    decreases 2 * |c| + 1
  {
    if a[0] == c[0] {
      SubsequenceOfTail(a[1..], c);
    } else {
      SubsequenceDropHead(a, c[1..]);
      SubsequenceOfTail(a[1..], c);
    }
  }

  /** Filtering twice by the same set changes nothing the second time. */
  lemma {:induction false} WithoutIdempotent(s: string, bad: set<char>)
    ensures Without(Without(s, bad), bad) == Without(s, bad)
  {
    if |s| > 0 {
      WithoutIdempotent(s[1..], bad);
      if s[0] !in bad {
        var t := Without(s, bad);
        assert t == [s[0]] + Without(s[1..], bad);
        assert |t| > 0 && t[0] == s[0] && t[1..] == Without(s[1..], bad);
        assert Without(t, bad) == [t[0]] + Without(t[1..], bad);
      } else {
        assert Without(s, bad) == Without(s[1..], bad);
      }
    }
  }

  /** The categories validator removes all punctuation, keeps the rest in order, and is idempotent. */
  lemma CleanCategoriesSpec(s: string)
    ensures '[' !in CleanCategories(s) && ']' !in CleanCategories(s) && '\'' !in CleanCategories(s)
    ensures forall c :: c !in {'[', ']', '\''} ==> multiset(CleanCategories(s))[c] == multiset(s)[c]
    ensures IsSubsequence(CleanCategories(s), s)
    ensures CleanCategories(CleanCategories(s)) == CleanCategories(s)
  {
    WithoutSpec(s, {'[', ']', '\''});
    WithoutIdempotent(s, {'[', ']', '\''});
  }

  // ----------------------------------------------------------------------- ids

  /** A raw catalog id as the table reader delivers it: a number or a string. */
  datatype RawId = Numeric(n: int) | Textual(s: string)

  /** `str(v)`. */
  function Str(raw: RawId): string
  {
    match raw
    case Numeric(n) => Text.IntToString(n)
    case Textual(s) => s
  }

  /** `t` is `s` with a (possibly empty) run of leading `'0'` removed, and does not itself start with `'0'`. */
  ghost predicate IsZeroStripped(t: string, s: string)
  {
    && 0 < |t| <= |s|
    && t[0] != '0'
    && s[|s| - |t|..] == t
    && forall i :: 0 <= i < |s| - |t| ==> s[i] == '0'
  }

  /**
   * The canonical id: leading zeros stripped. The source indexes `v[0]`
   * until it is not `'0'`, so a string that is empty or all zeros raises
   * `IndexError` instead of producing `""`.
   */
  function CanonicalId(s: string): (r: Result<string, Error>)
    ensures r.Success? <==> exists i :: 0 <= i < |s| && s[i] != '0'
    ensures r.Success? ==> IsZeroStripped(r.value, s)
    ensures r.Failure? ==> r.error == Error(IndexError, StringIndexOutOfRange)
    decreases |s|
  {
    if |s| == 0 then Failure(Error(IndexError, StringIndexOutOfRange))
    else if s[0] == '0' then
      var r := CanonicalId(s[1..]);
      assert forall i :: 1 <= i < |s| ==> s[i] == s[1..][i - 1];
      r
    else Success(s)
  }

  /** An id without a leading zero is already canonical, and canonical ids are fixed points. */
  lemma CanonicalIdFixes(s: string)
    requires |s| > 0 && s[0] != '0'
    ensures CanonicalId(s) == Success(s)
  {
  }

  /** The examples that pin the boundary: zeros are stripped, and an all-zero id fails. */
  lemma CanonicalIdExamples()
    ensures CanonicalId("0042") == Success("42")
    ensures CanonicalId("0").Failure? && CanonicalId("000").Failure? && CanonicalId("").Failure?
  {
    assert "0042"[1..] == "042";
    assert "042"[1..] == "42";
    assert "000"[1..] == "00";
    assert "00"[1..] == "0";
    assert "0"[1..] == "";
  }

  /** A positive numeric id is already its own canonical form; the number 0 fails. */
  lemma NumericIds(n: int)
    requires n >= 0
    ensures n > 0 ==> CanonicalId(Str(Numeric(n))) == Success(Text.NatToString(n))
    ensures n == 0 ==> CanonicalId(Str(Numeric(n))).Failure?
  {
    Text.NatToStringRoundTrip(n);
    if n == 0 {
      assert Str(Numeric(0)) == "0";
      assert "0"[1..] == "";
    }
  }

  /** `validate_ids`: `str(v)`, then drop the first character while it is `'0'`. */
  method ValidateIds(raw: RawId) returns (r: Result<string, Error>)
    ensures r == CanonicalId(Str(raw))
  {
    var v := Str(raw);
    while |v| > 0 && v[0] == '0'
      invariant CanonicalId(v) == CanonicalId(Str(raw))
      decreases |v|
    {
      v := v[1..];
    }
    if |v| == 0 {
      r := Failure(Error(IndexError, StringIndexOutOfRange));
    } else {
      r := Success(v);
    }
  }

  // ---------------------------------------------------------------- validation

  /** A table cell after `fillna("")`: text, or a number the reader parsed. */
  datatype Cell = Text(s: string) | Number(n: int)

  /** One row of the item table, keyed by its raw id. */
  datatype ItemRow = ItemRow(itemId: RawId, title: string, categories: Cell, brand: Cell, salesType: Cell)

  /** What constructing a `MusicItem` from a row does. */
  datatype Validated =
    | Built(item: MusicItem)
    | Rejected             // a `ValidationError`: the loader skips the row
    | Raised(error: Error) // any other exception: it escapes the loader

  const CategoriesNotText := Error(AttributeError, "'int' object has no attribute 'replace'")

  /**
   * Field validation in declaration order. A validator that raises
   * something other than `ValueError` escapes as that exception; a
   * number in a string field is a `ValidationError`.
   */
  function Validate(row: ItemRow): (v: Validated)
    ensures v.Built? <==> CanonicalId(Str(row.itemId)).Success? && row.categories.Text? && row.brand.Text? && row.salesType.Text?
    ensures v.Built? ==>
      (&& CanonicalId(Str(row.itemId)).Success? && row.categories.Text?
       && v.item.id == CanonicalId(Str(row.itemId)).value
       && v.item.categories == CleanCategories(row.categories.s)
       && v.item.title == row.title
       && v.item.brand == row.brand.s && v.item.salesType == row.salesType.s)
    ensures v.Raised? <==> CanonicalId(Str(row.itemId)).Failure? || row.categories.Number?
    ensures v.Raised? ==> v.error == if CanonicalId(Str(row.itemId)).Failure? then CanonicalId(Str(row.itemId)).error else CategoriesNotText
  {
    match CanonicalId(Str(row.itemId))
    case Failure(e) => Raised(e)
    case Success(id) =>
      if row.categories.Number? then Raised(CategoriesNotText)
      else if row.brand.Number? || row.salesType.Number? then Rejected
      else Built(MusicItem(id, row.title, CleanCategories(row.categories.s), row.brand.s, row.salesType.s))
  }

  /** `MusicItem(id=..., title=..., categories=..., brand=..., sales_type=...)`, running both validators. */
  method BuildItem(row: ItemRow) returns (v: Validated)
    ensures v == Validate(row)
  {
    var id := ValidateIds(row.itemId);
    if id.Failure? {
      return Raised(id.error);
    }
    if row.categories.Number? {
      return Raised(CategoriesNotText);
    }
    var categories := ValidateCategories(row.categories.s);
    if row.brand.Number? || row.salesType.Number? {
      return Rejected;
    }
    v := Built(MusicItem(id.value, row.title, categories, row.brand.s, row.salesType.s));
  }
}
