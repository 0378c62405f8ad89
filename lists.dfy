/** The Python list operations the registration and wishlist workflows use
    on a profile's key lists: membership, `append` and `remove`. */
module KeyLists {

  /** No key occurs twice in the list. */
  predicate NoDuplicates(s: seq<string>)
  {
    forall i, j :: 0 <= i < j < |s| ==> s[i] != s[j]
  }

  /** Python's `list.remove(x)` on a list that holds `x`: drops the first
      occurrence of `x` and keeps everything else in order. A list without
      `x` is returned as it is. */
  function RemoveFirst(s: seq<string>, x: string): (r: seq<string>)
    ensures x in s ==> |r| == |s| - 1
    ensures x !in s ==> r == s
    ensures multiset(r) == multiset(s) - multiset{x}
  {
    if s == [] then []
    else
      assert s == [s[0]] + s[1..];
      if s[0] == x then s[1..]
      else [s[0]] + RemoveFirst(s[1..], x)
  }

  /** Removing an element keeps the relative order of the others: the result
      is the list up to the first `x` followed by the list after it. */
  lemma {:induction false} RemoveFirstSplits(s: seq<string>, x: string, k: nat)
    requires k < |s| && s[k] == x && x !in s[..k]
    ensures RemoveFirst(s, x) == s[..k] + s[k + 1..]
  {
    if k > 0 {
      assert s[0] in s[..k];
      assert s[1..][..k - 1] == s[..k][1..];
      RemoveFirstSplits(s[1..], x, k - 1);
      assert s[1..][k..] == s[k + 1..];
      assert [s[0]] + s[1..][..k - 1] == s[..k];
    }
  }

  /** `remove` undoes `append` for a key the list did not hold. */
  lemma {:induction false} RemoveFirstUndoesAppend(s: seq<string>, x: string)
    requires x !in s
    ensures RemoveFirst(s + [x], x) == s
  {
    RemoveFirstSplits(s + [x], x, |s|);
    assert (s + [x])[..|s|] == s;
  }

  /** Appending a key the list does not hold keeps it duplicate-free. */
  lemma AppendKeepsNoDuplicates(s: seq<string>, x: string)
    requires NoDuplicates(s) && x !in s
    ensures NoDuplicates(s + [x])
  {
  }

  /** Dropping the element at index `k` from a duplicate-free list leaves a
      duplicate-free list without that element. */
  lemma DropAtKeepsNoDuplicates(s: seq<string>, k: nat)
    requires NoDuplicates(s) && k < |s|
    ensures NoDuplicates(s[..k] + s[k + 1..])
    ensures s[k] !in s[..k] + s[k + 1..]
  {
    var r := s[..k] + s[k + 1..];
    forall i | 0 <= i < |r| ensures r[i] == s[if i < k then i else i + 1] {
    }
  }

  /** Removing a key keeps a duplicate-free list duplicate-free, and the key
      is then absent from it. */
  lemma RemoveFirstKeepsNoDuplicates(s: seq<string>, x: string)
    requires NoDuplicates(s)
    ensures NoDuplicates(RemoveFirst(s, x))
    ensures x !in RemoveFirst(s, x)
  {
    if x in s {
      var k :| 0 <= k < |s| && s[k] == x;
      assert x !in s[..k] by {
        forall i | 0 <= i < k ensures s[..k][i] != x {
          assert s[..k][i] == s[i];
        }
      }
      RemoveFirstSplits(s, x, k);
      DropAtKeepsNoDuplicates(s, k);
    }
  }
}
