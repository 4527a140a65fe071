/**
 * The order of keys in `ORDER BY key ASC`: SQLite compares TEXT with the
 * BINARY collation, byte by byte over UTF-8, which is the lexicographic
 * order of code points (the order of Python's `str` comparison too).
 */
module KeyOrder {

  /** `a` sorts strictly before `b`. */
  predicate Below(a: string, b: string)
    decreases |a|
  {
    if |a| == 0 then |b| > 0
    else if |b| == 0 then false
    else if a[0] != b[0] then a[0] < b[0]
    else Below(a[1..], b[1..])
  }

  /** `a` sorts before `b` or is `b`. */
  predicate AtMost(a: string, b: string) {
    a == b || Below(a, b)
  }

  lemma {:induction false} BelowIrreflexive(a: string)
    ensures !Below(a, a)
    decreases |a|
  {
    if |a| > 0 {
      BelowIrreflexive(a[1..]);
    }
  }

  lemma {:induction false} BelowTransitive(a: string, b: string, c: string)
    requires Below(a, b) && Below(b, c)
    ensures Below(a, c)
    decreases |a|
  {
    if |a| > 0 && a[0] == b[0] && b[0] == c[0] {
      BelowTransitive(a[1..], b[1..], c[1..]);
    }
  }

  /** Any two distinct keys are ordered one way or the other. */
  lemma {:induction false} BelowTotal(a: string, b: string)
    requires a != b
    ensures Below(a, b) || Below(b, a)
    decreases |a|
  {
    if |a| > 0 && |b| > 0 && a[0] == b[0] {
      assert a == [a[0]] + a[1..] && b == [b[0]] + b[1..];
      BelowTotal(a[1..], b[1..]);
    }
  }

  /** Every non-empty finite set of keys has a least element. */
  lemma {:induction false} MinimumExists(s: set<string>)
    requires s != {}
    ensures exists m :: m in s && forall x :: x in s ==> AtMost(m, x)
    decreases |s|
  {
    var y :| y in s;
    if s == {y} {
      assert forall x :: x in s ==> x == y;
      assert AtMost(y, y);
    } else {
      var rest := s - {y};
      assert |rest| < |s|;
      MinimumExists(rest);
      var m :| m in rest && forall x :: x in rest ==> AtMost(m, x);
      if Below(y, m) {
        forall x | x in s
          ensures AtMost(y, x)
        {
          if x != y {
            assert AtMost(m, x);
            if x != m {
              BelowTransitive(y, m, x);
            }
          }
        }
      } else {
        BelowTotal(y, m);
        assert AtMost(m, y);
        assert forall x :: x in s ==> AtMost(m, x);
      }
    }
  }
}
