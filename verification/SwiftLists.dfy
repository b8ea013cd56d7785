// The range edits of RealmSwift's List, made of single insertions and removals.
module SwiftLists {
  import opened Sequences

  /** The sequence with positions `lo` up to `hi` replaced. */
  function Splice<T>(s: seq<T>, lo: nat, hi: nat, added: seq<T>): seq<T>
    requires lo <= hi <= |s|
  {
    s[..lo] + added + s[hi..]
  }

  lemma InsertInFront<T>(s: seq<T>, i: nat, added: seq<T>, k: nat, before: seq<T>)
    requires i <= |s| && k < |added| && before == s[..i] + added[|added| - k..] + s[i..]
    ensures before[..i] + [added[|added| - 1 - k]] + before[i..] == s[..i] + added[|added| - (k + 1)..] + s[i..]
  {
    assert added[|added| - (k + 1)..] == [added[|added| - 1 - k]] + added[|added| - k..];
    assert before[..i] == s[..i] && before[i..] == added[|added| - k..] + s[i..];
  }

  class List<T> {
    var items: seq<T>

    /** `remove(at:)`; raises for an index out of bounds. */
    method RemoveAt(i: int) returns (ok: bool)
      modifies this
      ensures ok <==> 0 <= i < |old(items)|
      ensures items == if ok then old(items)[..i] + old(items)[i + 1..] else old(items)
    {
      ok := 0 <= i < |items|;
      if ok {
        items := items[..i] + items[i + 1..];
      }
    }

    /** `insert(_:at:)`; raises for an index out of bounds. */
    method InsertAt(x: T, i: int) returns (ok: bool)
      modifies this
      ensures ok <==> 0 <= i <= |old(items)|
      ensures items == if ok then old(items)[..i] + [x] + old(items)[i..] else old(items)
    {
      ok := 0 <= i <= |items|;
      if ok {
        items := items[..i] + [x] + items[i..];
      }
    }

    /** Removing `n` times at the same place: the positions from there on. A range that
        reaches beyond the end raises after the list has been cut off at `lo`. */
    method RemoveTimes(lo: int, n: nat) returns (ok: bool)
      modifies this
      ensures ok <==> n == 0 || (0 <= lo && lo + n <= |old(items)|)
      ensures ok && n > 0 ==> items == Splice(old(items), lo, lo + n, [])
      ensures ok && n == 0 ==> items == old(items)
      ensures !ok ==> items == if 0 <= lo <= |old(items)| then old(items)[..lo] else old(items)
    {
      ghost var s := items;
      var k := 0;
      ok := true;
      while k < n
        invariant 0 <= k <= n
        invariant k > 0 ==> 0 <= lo && lo + k <= |s| && items == s[..lo] + s[lo + k..]
        invariant k == 0 ==> items == s
      {
        assert k > 0 ==> lo < |items| ==> items[lo + 1..] == s[lo + k + 1..];
        ok := RemoveAt(lo);
        if !ok {
          assert k > 0 ==> s[..lo] + s[lo + k..] == s[..lo];
          return;
        }
        k := k + 1;
      }
    }

    /** `removeSubrange(_:)`. */
    method RemoveSubrange(lo: int, hi: int) returns (ok: bool)
      requires lo <= hi
      modifies this
      ensures ok <==> lo == hi || (0 <= lo && hi <= |old(items)|)
      ensures ok && lo < hi ==> items == Splice(old(items), lo, hi, [])
      ensures ok && lo == hi ==> items == old(items)
      ensures !ok ==> items == if 0 <= lo <= |old(items)| then old(items)[..lo] else old(items)
    {
      ok := RemoveTimes(lo, hi - lo);
    }

    /** `removeFirst(_:)`; raises, without an edit, when asked for more than there is. */
    method RemoveFirst(number: int) returns (ok: bool)
      modifies this
      ensures ok <==> 0 <= number <= |old(items)|
      ensures items == if ok then old(items)[number..] else old(items)
    {
      if number > |items| || number < 0 {
        return false;
      }
      ok := RemoveTimes(0, number);
    }

    /** `removeLast(_:)`. */
    method RemoveLast(number: int) returns (ok: bool)
      modifies this
      ensures ok <==> 0 <= number <= |old(items)|
      ensures items == if ok then old(items)[..|old(items)| - number] else old(items)
    {
      if number > |items| || number < 0 {
        return false;
      }
      ghost var s := items;
      var k := 0;
      while k < number
        invariant 0 <= k <= number
        invariant items == s[..|s| - k]
      {
        ok := RemoveAt(|items| - 1);
        k := k + 1;
      }
      ok := true;
    }

    /** `insert(contentsOf:at:)`: one insertion after the other, each one place further. */
    method InsertContents(added: seq<T>, i: int) returns (ok: bool)
      modifies this
      ensures ok <==> added == [] || 0 <= i <= |old(items)|
      ensures ok && added != [] ==> items == Splice(old(items), i, i, added)
      ensures added == [] || !ok ==> items == old(items)
    {
      ghost var s := items;
      var currentIndex := i;
      var k := 0;
      ok := true;
      while k < |added|
        invariant 0 <= k <= |added| && currentIndex == i + k
        invariant k > 0 ==> 0 <= i <= |s| && items == s[..i] + added[..k] + s[i..]
        invariant k == 0 ==> items == s
      {
        ghost var before := items;
        ok := InsertAt(added[k], currentIndex);
        if !ok {
          return;
        }
        assert added[..k + 1] == added[..k] + [added[k]];
        assert k > 0 ==> before[..currentIndex] == s[..i] + added[..k] && before[currentIndex..] == s[i..];
        currentIndex := currentIndex + 1;
        k := k + 1;
      }
      assert added[..k] == added;
    }

    /** The second loop of `replaceSubrange`: the elements in reverse order, each inserted
        at the same place. */
    method InsertReversed(added: seq<T>, i: int) returns (ok: bool)
      modifies this
      ensures ok <==> added == [] || 0 <= i <= |old(items)|
      ensures ok && added != [] ==> items == Splice(old(items), i, i, added)
      ensures added == [] || !ok ==> items == old(items)
    {
      ghost var s := items;
      var reversed := Reverse(added);
      assert 0 <= i <= |s| ==> s == s[..i] + added[|added|..] + s[i..];
      var k := 0;
      ok := true;
      while k < |reversed|
        invariant 0 <= k <= |reversed| == |added|
        invariant k > 0 ==> 0 <= i <= |s|
        invariant 0 <= i <= |s| ==> items == s[..i] + added[|added| - k..] + s[i..]
        invariant k == 0 ==> items == s
      {
        ghost var before := items;
        ok := InsertAt(reversed[k], i);
        if !ok {
          return;
        }
        assert reversed[k] == added[|added| - 1 - k];
        InsertInFront(s, i, added, k, before);
        k := k + 1;
      }
      assert added[0..] == added;
    }

    /** What replacing a range does: a splice if the range lies within the list; nothing
        if it is empty and there is nothing to insert; otherwise it raises, and if only the
        upper bound is out of range the tail is gone by then. */
    static ghost predicate Replaced(s: seq<T>, lo: int, hi: int, added: seq<T>, ok: bool, s': seq<T>)
      requires lo <= hi
    {
      && (ok <==> (0 <= lo && hi <= |s|) || (lo == hi && added == []))
      && (0 <= lo && hi <= |s| ==> s' == Splice(s, lo, hi, added))
      && (!(0 <= lo && hi <= |s|) ==> s' == if 0 <= lo <= |s| then s[..lo] else s)
    }

    /** `replaceSubrange(_:with:)`: remove the range, then insert the new elements at its
        lower bound in reverse order. */
    method ReplaceSubrange(lo: int, hi: int, added: seq<T>) returns (ok: bool)
      requires lo <= hi
      modifies this
      ensures Replaced(old(items), lo, hi, added, ok, items)
    {
      ghost var s := items;
      ok := RemoveTimes(lo, hi - lo);
      if !ok {
        return;
      }
      ghost var base := items;
      ok := InsertReversed(added, lo);
      if 0 <= lo && hi <= |s| {
        assert base[..lo] == s[..lo] && base[lo..] == s[hi..];
        assert added == [] ==> base == s[..lo] + [] + s[hi..];
      }
    }

    /** The older form of the same operation, which inserts in forward order: it does
        exactly the same. */
    method ReplaceSubrangeForward(lo: int, hi: int, added: seq<T>) returns (ok: bool)
      requires lo <= hi
      modifies this
      ensures Replaced(old(items), lo, hi, added, ok, items)
    {
      ghost var s := items;
      ok := RemoveSubrange(lo, hi);
      if !ok {
        return;
      }
      ghost var base := items;
      ok := InsertContents(added, lo);
      if 0 <= lo && hi <= |s| {
        assert base[..lo] == s[..lo] && base[lo..] == s[hi..];
        assert added == [] ==> base == s[..lo] + [] + s[hi..];
      }
    }
  }
}
