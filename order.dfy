/** Python's ordering of strings and of tuples of strings.
    pandas' `groupby` lists its groups in ascending key order; for string keys
    that is Python's `<` on `str` (code point by code point), and for a key
    made of several columns it is `<` on tuples. Both are the lexicographic
    extension of an order on the elements, defined once here as `LexLt`. */
module Order {

  /** `lt` is irreflexive, transitive and total on distinct elements. */
  ghost predicate StrictTotalOrder<T(!new)>(lt: (T, T) -> bool)
  {
    && (forall x :: !lt(x, x))
    && (forall x, y, z :: lt(x, y) && lt(y, z) ==> lt(x, z))
    && (forall x, y :: x != y ==> lt(x, y) || lt(y, x))
  }

  /** Lexicographic `a < b`: the first differing element decides, and a proper
      prefix comes first. */
  predicate LexLt<T(==)>(a: seq<T>, b: seq<T>, lt: (T, T) -> bool)
  {
    |b| > 0 && (|a| == 0 || if a[0] == b[0] then LexLt(a[1..], b[1..], lt) else lt(a[0], b[0]))
  }

  lemma {:induction false} LexIrreflexive<T(!new)>(a: seq<T>, lt: (T, T) -> bool)
    requires StrictTotalOrder(lt)
    ensures !LexLt(a, a, lt)
  {
    if |a| > 0 {
      LexIrreflexive(a[1..], lt);
    }
  }

  lemma {:induction false} LexTransitive<T(!new)>(a: seq<T>, b: seq<T>, c: seq<T>, lt: (T, T) -> bool)
    requires StrictTotalOrder(lt)
    requires LexLt(a, b, lt) && LexLt(b, c, lt)
    ensures LexLt(a, c, lt)
  {
    if |a| > 0 && a[0] == b[0] && b[0] == c[0] {
      LexTransitive(a[1..], b[1..], c[1..], lt);
    }
  }

  lemma {:induction false} LexTotal<T(!new)>(a: seq<T>, b: seq<T>, lt: (T, T) -> bool)
    requires StrictTotalOrder(lt)
    requires a != b
    ensures LexLt(a, b, lt) || LexLt(b, a, lt)
  {
    if |a| > 0 && |b| > 0 && a[0] == b[0] {
      assert a == [a[0]] + a[1..] && b == [b[0]] + b[1..];
      LexTotal(a[1..], b[1..], lt);
    }
  }

  /** Every lexicographic order built from a strict total order is one. */
  lemma LexStrictTotal<T(!new)>(lt: (T, T) -> bool)
    requires StrictTotalOrder(lt)
    ensures forall a: seq<T> :: !LexLt(a, a, lt)
    ensures forall a: seq<T>, b, c :: LexLt(a, b, lt) && LexLt(b, c, lt) ==> LexLt(a, c, lt)
    ensures forall a: seq<T>, b :: a != b ==> LexLt(a, b, lt) || LexLt(b, a, lt)
  {
    forall a: seq<T> ensures !LexLt(a, a, lt) {
      LexIrreflexive(a, lt);
    }
    forall a: seq<T>, b, c | LexLt(a, b, lt) && LexLt(b, c, lt) ensures LexLt(a, c, lt) {
      LexTransitive(a, b, c, lt);
    }
    forall a: seq<T>, b | a != b ensures LexLt(a, b, lt) || LexLt(b, a, lt) {
      LexTotal(a, b, lt);
    }
  }

  /** Python `c < d` on one-character strings: code point order. */
  predicate CharLt(c: char, d: char)
  {
    c < d
  }

  /** Python `s < t` on `str`. */
  predicate StrLt(s: string, t: string)
  {
    LexLt(s, t, CharLt)
  }

  /** Python `<` on tuples of strings, the order of a multi-column group key. */
  predicate KeyLt(k: seq<string>, l: seq<string>)
  {
    LexLt(k, l, StrLt)
  }

  lemma StrLtIsStrictTotal()
    ensures StrictTotalOrder(StrLt)
  {
    assert StrictTotalOrder(CharLt);
    LexStrictTotal(CharLt);
  }

  lemma KeyLtIsStrictTotal()
    ensures StrictTotalOrder(KeyLt)
  {
    StrLtIsStrictTotal();
    LexStrictTotal(StrLt);
  }

  /** The three facts about `KeyLt` that sorting by group key relies on. */
  lemma KeyLtIrreflexive(k: seq<string>)
    ensures !KeyLt(k, k)
  {
    KeyLtIsStrictTotal();
  }

  lemma KeyLtTransitive(k: seq<string>, l: seq<string>, m: seq<string>)
    requires KeyLt(k, l) && KeyLt(l, m)
    ensures KeyLt(k, m)
  {
    KeyLtIsStrictTotal();
  }

  lemma KeyLtAsymmetric(k: seq<string>, l: seq<string>)
    ensures !(KeyLt(k, l) && KeyLt(l, k))
  {
    KeyLtIsStrictTotal();
  }

  lemma KeyLtTotal(k: seq<string>, l: seq<string>)
    requires k != l
    ensures KeyLt(k, l) || KeyLt(l, k)
  {
    KeyLtIsStrictTotal();
  }
}
