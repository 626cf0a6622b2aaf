/** Small value types and the Python list operations the widgets rely on. */
module Common {

  datatype Option<T> = None | Some(value: T)

  /** Python's `list.index(x)`: the position of the first occurrence of `x`. */
  function IndexOf<T(==)>(s: seq<T>, x: T): (i: nat)
    requires x in s
    ensures i < |s| && s[i] == x && x !in s[..i]
  {
    if s[0] == x then 0
    else
      var j := IndexOf(s[1..], x);
      assert s[..j + 1] == [s[0]] + s[1..][..j];
      j + 1
  }

  /** Any position holding the first occurrence is the one `IndexOf` finds. */
  lemma IndexOfIsFirst<T>(s: seq<T>, x: T, k: nat)
    requires k < |s| && s[k] == x && x !in s[..k]
    ensures IndexOf(s, x) == k
  {
  }

  /** Python's `list.insert(i, x)` for a non-negative `i`: a position past the end appends. */
  function Insert<T>(s: seq<T>, i: nat, x: T): (r: seq<T>)
    ensures |r| == |s| + 1
  {
    var k := if i <= |s| then i else |s|;
    s[..k] + [x] + s[k..]
  }

  /** Python's `list.remove(x)`: drops the first occurrence (a ValueError when `x` is absent). */
  function RemoveFirst<T(==)>(s: seq<T>, x: T): (r: seq<T>)
    requires x in s
    ensures |r| == |s| - 1
  {
    var i := IndexOf(s, x);
    s[..i] + s[i + 1..]
  }

  /** The idiom `l.insert(l.index(x), y); l.remove(x)` replaces the first `x` by `y` in place. */
  lemma {:induction false} InsertThenRemove<T>(s: seq<T>, x: T, y: T)
    requires x in s && y != x
    ensures x in Insert(s, IndexOf(s, x), y)
    ensures RemoveFirst(Insert(s, IndexOf(s, x), y), x) == s[IndexOf(s, x) := y]
  {
    var i := IndexOf(s, x);
    var u := Insert(s, i, y);
    assert u == s[..i] + [y] + s[i..];
    assert u[i + 1] == x;
    assert u[..i + 1] == s[..i] + [y];
    IndexOfIsFirst(u, x, i + 1);
    assert RemoveFirst(u, x) == u[..i + 1] + u[i + 2..];
    assert u[i + 2..] == s[i + 1..];
  }

  /** Python's `p in s` on strings: `p` occurs as a contiguous substring of `s`. */
  predicate Contains(s: string, p: string)
    decreases |s|
  {
    p <= s || (|s| > 0 && Contains(s[1..], p))
  }

  /** `p` occurs in `s` starting at position `i`. */
  predicate OccursAt(s: string, p: string, i: nat) {
    i + |p| <= |s| && s[i..i + |p|] == p
  }

  /** An occurrence in the tail of `s` is an occurrence in `s`, one position later. */
  lemma OccursInTail(s: string, p: string, i: nat)
    requires |s| > 0
    ensures OccursAt(s[1..], p, i) <==> OccursAt(s, p, i + 1)
  {
    if i + |p| <= |s| - 1 {
      assert s[1..][i..i + |p|] == s[i + 1..i + 1 + |p|];
    }
  }

  /** `Contains` is the substring test: `p` occurs at some position of `s`. */
  lemma {:induction false} ContainsAt(s: string, p: string)
    ensures Contains(s, p) <==> exists i: nat :: OccursAt(s, p, i)
    decreases |s|
  {
    if p <= s {
      assert OccursAt(s, p, 0);
    }
    if |s| > 0 {
      ContainsAt(s[1..], p);
      if Contains(s[1..], p) {
        var j: nat :| OccursAt(s[1..], p, j);
        OccursInTail(s, p, j);
      }
      if i: nat :| OccursAt(s, p, i) {
        if i > 0 {
          OccursInTail(s, p, i - 1);
        }
      }
    }
  }

  /** Filters out every occurrence of `x`, keeping the order of the rest. */
  function Without<T(==)>(s: seq<T>, x: T): (r: seq<T>)
    ensures |r| <= |s|
  {
    if s == [] then []
    else (if s[0] == x then [] else [s[0]]) + Without(s[1..], x)
  }

  lemma {:induction false} WithoutConcat<T>(a: seq<T>, b: seq<T>, x: T)
    ensures Without(a + b, x) == Without(a, x) + Without(b, x)
  {
    if a == [] {
      assert a + b == b;
    } else {
      assert (a + b)[1..] == a[1..] + b;
      WithoutConcat(a[1..], b, x);
    }
  }

  /** Inserting or removing `x` leaves every other item where it was relative to the rest. */
  lemma InsertKeepsOthers<T>(s: seq<T>, i: nat, x: T)
    ensures Without(Insert(s, i, x), x) == Without(s, x)
  {
    var k := if i <= |s| then i else |s|;
    var a, b := s[..k], s[k..];
    assert s == a + b;
    assert Insert(s, i, x) == (a + [x]) + b;
    WithoutConcat(a + [x], b, x);
    WithoutConcat(a, [x], x);
    WithoutConcat(a, b, x);
    assert Without([x], x) == [];
  }

  /** A prefix one longer is the prefix followed by the next item. */
  lemma PrefixStep<T>(s: seq<T>, i: nat)
    requires i < |s|
    ensures s[..i + 1] == s[..i] + [s[i]]
  {
  }

  lemma SplitAt<T>(s: seq<T>, i: nat)
    requires i < |s|
    ensures s == (s[..i] + [s[i]]) + s[i + 1..]
  {
  }

  lemma RemoveKeepsOthers<T>(s: seq<T>, x: T)
    requires x in s
    ensures Without(RemoveFirst(s, x), x) == Without(s, x)
  {
    var i := IndexOf(s, x);
    var a, b := s[..i], s[i + 1..];
    SplitAt(s, i);
    WithoutConcat(a + [x], b, x);
    WithoutConcat(a, [x], x);
    WithoutConcat(a, b, x);
    assert Without([x], x) == [];
    calc {
      Without(s, x);
      Without(a + [x], x) + Without(b, x);
      Without(a, x) + Without([x], x) + Without(b, x);
      Without(a, x) + Without(b, x);
      Without(a + b, x);
    }
  }

  // A combobox is modelled by its items and its current index (-1 when nothing is selected).

  /** `currentText()`: the selected item, or "" when nothing is selected. */
  function CurrentText(items: seq<string>, index: int): (r: string)
    ensures 0 <= index < |items| ==> r == items[index]
    ensures !(0 <= index < |items|) ==> r == ""
  {
    if 0 <= index < |items| then items[index] else ""
  }

  /**
   * The index after `setCurrentIndex(i)`: `i` when it names an item, otherwise no selection.
   * Filling an empty combobox also lands on `Select(items, 0)`.
   */
  function Select(items: seq<string>, i: int): (r: int)
    ensures -1 <= r < |items|
    ensures r == i || r == -1
    ensures 0 <= i < |items| ==> r == i
  {
    if 0 <= i < |items| then i else -1
  }

  /** `findText(text)`: the first item equal to `text`, or -1. */
  function FindText(items: seq<string>, text: string): (r: int)
    ensures -1 <= r < |items|
    ensures r >= 0 <==> text in items
    ensures r >= 0 ==> items[r] == text && text !in items[..r]
  {
    if text in items then IndexOf(items, text) else -1
  }
}
