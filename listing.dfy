/** Sequences of keys as a scan produces them: each stored key exactly once. */
module Listing {
  import opened KeyOrder

  /** `ks` names every element of `s` exactly once and nothing else. */
  ghost predicate ListsEachOnce(ks: seq<string>, s: set<string>) {
    && (forall i, j :: 0 <= i < j < |ks| ==> ks[i] != ks[j])
    && (forall i :: 0 <= i < |ks| ==> ks[i] in s)
    && (forall k :: k in s ==> k in ks)
  }

  /** Every key of `ks` sorts before every later one. */
  ghost predicate StrictlyAscending(ks: seq<string>) {
    forall i, j :: 0 <= i < j < |ks| ==> Below(ks[i], ks[j])
  }

  /** Dropping the first key of a listing lists the set without that key. */
  lemma ListingTail(ks: seq<string>, s: set<string>)
    requires ListsEachOnce(ks, s) && |ks| > 0
    ensures ListsEachOnce(ks[1..], s - {ks[0]})
  {
  }

  /** A listing is as long as the set it lists: a scan yields `size()` keys. */
  lemma {:induction false} ListingLength(ks: seq<string>, s: set<string>)
    requires ListsEachOnce(ks, s)
    ensures |ks| == |s|
    decreases |ks|
  {
    if |ks| == 0 {
      assert forall k :: k !in s;
      assert s == {};
    } else {
      ListingTail(ks, s);
      ListingLength(ks[1..], s - {ks[0]});
    }
  }

  /** There is only one strictly ascending listing of a set. */
  lemma {:induction false} AscendingListingUnique(a: seq<string>, b: seq<string>, s: set<string>)
    requires StrictlyAscending(a) && ListsEachOnce(a, s)
    requires StrictlyAscending(b) && ListsEachOnce(b, s)
    ensures a == b
    decreases |a|
  {
    ListingLength(a, s);
    ListingLength(b, s);
    if |a| > 0 {
      assert a[0] == b[0] by {
        if a[0] != b[0] {
          var i :| 0 <= i < |a| && a[i] == b[0];
          var j :| 0 <= j < |b| && b[j] == a[0];
          assert Below(a[0], b[0]) && Below(b[0], a[0]);
          BelowTransitive(a[0], b[0], a[0]);
          BelowIrreflexive(a[0]);
        }
      }
      ListingTail(a, s);
      ListingTail(b, s);
      AscendingListingUnique(a[1..], b[1..], s - {a[0]});
      assert a == [a[0]] + a[1..] && b == [b[0]] + b[1..];
    }
  }
}
