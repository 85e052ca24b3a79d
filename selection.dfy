/** The list of selected media-type identifiers and the checkbox toggle that edits it. */
module Selection {
  import opened MediaTypes

  predicate NoDuplicates(s: seq<string>)
  {
    forall i, j :: 0 <= i < j < |s| ==> s[i] != s[j]
  }

  /** Every entry is one of the identifiers of the option table. */
  predicate WithinOptions(s: seq<string>)
  {
    forall i :: 0 <= i < |s| ==> IsMediaTypeId(s[i])
  }

  /** `s.filter((t) => t !== x)`: every occurrence of `x` dropped, the rest kept in order. */
  function Without(s: seq<string>, x: string): (r: seq<string>)
    ensures forall y :: y in r <==> y in s && y != x
    ensures x !in s ==> r == s
    ensures |r| <= |s|
  {
    if s == [] then []
    else if s[0] == x then Without(s[1..], x)
    else [s[0]] + Without(s[1..], x)
  }

  /** Dropping an id that occurs once, at index k, closes the gap and keeps the order of the rest. */
  lemma {:induction false} WithoutAt(s: seq<string>, k: nat)
    requires NoDuplicates(s) && k < |s|
    ensures Without(s, s[k]) == s[..k] + s[k + 1..]
  {
    if k == 0 {
      assert s[0] !in s[1..];
      assert Without(s[1..], s[0]) == s[1..];
    } else {
      assert NoDuplicates(s[1..]);
      WithoutAt(s[1..], k - 1);
      assert s[1..][k - 1] == s[k];
      assert s[0] != s[k];
      assert s[1..][..k - 1] == s[1..k];
      assert s[1..][k..] == s[k + 1..];
      assert [s[0]] + s[1..k] == s[..k];
    }
  }

  lemma {:induction false} WithoutKeepsNoDuplicates(s: seq<string>, x: string)
    requires NoDuplicates(s)
    ensures NoDuplicates(Without(s, x))
  {
    if s != [] {
      assert NoDuplicates(s[1..]);
      WithoutKeepsNoDuplicates(s[1..], x);
      if s[0] != x {
        assert s[0] !in s[1..];
        assert s[0] !in Without(s[1..], x);
      }
    }
  }

  /** `toggleMediaType`: remove the id when present, append it at the end when absent. */
  function Toggle(selected: seq<string>, t: string): (r: seq<string>)
    ensures t in r <==> t !in selected
    ensures forall y :: y != t ==> (y in r <==> y in selected)
    ensures t !in selected ==> r == selected + [t]
  {
    if t in selected then Without(selected, t) else selected + [t]
  }

  /** On a duplicate-free list the toggle of a present id removes exactly its one entry. */
  lemma ToggleRemovesEntry(selected: seq<string>, k: nat)
    requires NoDuplicates(selected) && k < |selected|
    ensures Toggle(selected, selected[k]) == selected[..k] + selected[k + 1..]
    ensures |Toggle(selected, selected[k])| == |selected| - 1
  {
    WithoutAt(selected, k);
  }

  /** Starting from a duplicate-free list of option ids, toggling an option id keeps both properties. */
  lemma ToggleKeepsSelectionValid(selected: seq<string>, t: string)
    requires NoDuplicates(selected) && WithinOptions(selected) && IsMediaTypeId(t)
    ensures NoDuplicates(Toggle(selected, t)) && WithinOptions(Toggle(selected, t))
  {
    var r := Toggle(selected, t);
    if t in selected {
      WithoutKeepsNoDuplicates(selected, t);
    }
    forall i | 0 <= i < |r| ensures IsMediaTypeId(r[i]) {
      assert r[i] in r;
      if r[i] != t {
        var j :| 0 <= j < |selected| && selected[j] == r[i];
      }
    }
  }

  /** Toggling twice restores membership; from "absent" it restores the list itself. */
  lemma ToggleTwice(selected: seq<string>, t: string)
    ensures forall y :: y in Toggle(Toggle(selected, t), t) <==> y in selected
    ensures t !in selected ==> Toggle(Toggle(selected, t), t) == selected
  {
    if t !in selected {
      assert Without(selected + [t], t) == Without(selected, t) + Without([t], t) by {
        WithoutConcat(selected, [t], t);
      }
      assert Without([t], t) == [];
    }
  }

  /** From "present" the id comes back at the END of the list: order is not restored. */
  lemma ToggleTwiceMovesToEnd(selected: seq<string>, k: nat)
    requires NoDuplicates(selected) && k < |selected|
    ensures Toggle(Toggle(selected, selected[k]), selected[k]) == selected[..k] + selected[k + 1..] + [selected[k]]
  {
    WithoutAt(selected, k);
  }

  lemma {:induction false} WithoutConcat(a: seq<string>, b: seq<string>, x: string)
    ensures Without(a + b, x) == Without(a, x) + Without(b, x)
  {
    if a != [] {
      assert (a + b)[1..] == a[1..] + b;
      WithoutConcat(a[1..], b, x);
    } else {
      assert a + b == b;
    }
  }

  /** The list after the user clicks the checkboxes of `clicks`, in order. */
  function ToggleAll(selected: seq<string>, clicks: seq<string>): (r: seq<string>)
    decreases |clicks|
  {
    if clicks == [] then selected else ToggleAll(Toggle(selected, clicks[0]), clicks[1..])
  }

  /** After any click sequence an id is selected exactly when it started selected XOR it was clicked an odd number of times. */
  lemma {:induction false} ToggleAllParity(selected: seq<string>, clicks: seq<string>, y: string)
    ensures y in ToggleAll(selected, clicks) <==> ((y in selected) != (multiset(clicks)[y] % 2 == 1))
    decreases |clicks|
  {
    if clicks != [] {
      ToggleAllParity(Toggle(selected, clicks[0]), clicks[1..], y);
      assert clicks == [clicks[0]] + clicks[1..];
      assert multiset(clicks) == multiset{clicks[0]} + multiset(clicks[1..]);
    }
  }

  /** Which ids end up selected does not depend on the order of the clicks. */
  lemma ToggleAllOrderIndependent(selected: seq<string>, clicks: seq<string>, reordered: seq<string>)
    requires multiset(clicks) == multiset(reordered)
    ensures forall y :: y in ToggleAll(selected, clicks) <==> y in ToggleAll(selected, reordered)
  {
    forall y ensures y in ToggleAll(selected, clicks) <==> y in ToggleAll(selected, reordered) {
      ToggleAllParity(selected, clicks, y);
      ToggleAllParity(selected, reordered, y);
    }
  }

  /** Clicking only checkboxes from the table keeps the list duplicate-free and within the table. */
  lemma {:induction false} ToggleAllKeepsSelectionValid(selected: seq<string>, clicks: seq<string>)
    requires NoDuplicates(selected) && WithinOptions(selected)
    requires forall i :: 0 <= i < |clicks| ==> IsMediaTypeId(clicks[i])
    ensures NoDuplicates(ToggleAll(selected, clicks)) && WithinOptions(ToggleAll(selected, clicks))
    decreases |clicks|
  {
    if clicks != [] {
      ToggleKeepsSelectionValid(selected, clicks[0]);
      ToggleAllKeepsSelectionValid(Toggle(selected, clicks[0]), clicks[1..]);
    }
  }
}
