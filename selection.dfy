/** The category filter of the component: a set of labels kept in insertion
    order (the order `Array.from` hands to the fetch), never empty. */
module Selection {

  /** The label the selection falls back to. */
  const DefaultCategory: string := "World"

  predicate NoDuplicates(s: seq<string>)
  {
    forall i, j :: 0 <= i < j < |s| ==> s[i] != s[j]
  }

  /** The labels of the selection, as a set. */
  function Members(s: seq<string>): set<string>
  {
    set c | c in s
  }

  /** `Set.delete`: the selection without `c`, the others in their order
      (`WithoutSplit`). */
  function Without(s: seq<string>, c: string): (r: seq<string>)
    ensures forall x :: x in r <==> x in s && x != c
    ensures NoDuplicates(s) ==> NoDuplicates(r)
    ensures c in s && NoDuplicates(s) ==> |r| == |s| - 1
    ensures c !in s ==> r == s
  {
    if s == [] then []
    else if s[0] == c then Without(s[1..], c)
    else
      var rest := Without(s[1..], c);
      assert NoDuplicates(s) ==> s[0] !in s[1..] && NoDuplicates(s[1..]);
      [s[0]] + rest
  }

  /** The selection after `toggleCategory(c)`: `c` removed if present, added
      at the end if absent, and the default label when the removal empties it. */
  function Toggle(s: seq<string>, c: string): (r: seq<string>)
    ensures |r| > 0
    ensures NoDuplicates(s) ==> NoDuplicates(r)
    ensures c !in s ==> r == s + [c]
    ensures c in s ==> Members(r) == if Members(s) == {c} then {DefaultCategory} else Members(s) - {c}
  {
    var next := if c in s then Without(s, c) else s + [c];
    assert c in s ==> Members(next) == Members(s) - {c};
    assert next != [] ==> next[0] in Members(next);
    if next == [] then [DefaultCategory] else next
  }

  /** A selection without duplicates has as many labels as elements, so the
      sequence length is the size of the set it stands for. */
  lemma {:induction false} SizeIsLength(s: seq<string>)
    requires NoDuplicates(s)
    ensures |Members(s)| == |s|
  {
    if s != [] {
      SizeIsLength(s[1..]);
      assert Members(s) == {s[0]} + Members(s[1..]);
      assert s[0] !in Members(s[1..]);
    }
  }

  /** Toggling the last remaining label leaves exactly the default selection. */
  lemma ToggleLastLabel(c: string)
    ensures Toggle([c], c) == [DefaultCategory]
  {
  }

  /** Toggling an absent label and then the same label again restores a
      (non-empty) selection. */
  lemma {:induction false} ToggleTwiceRestores(s: seq<string>, c: string)
    requires s != [] && c !in s
    ensures Toggle(Toggle(s, c), c) == s
  {
    WithoutSplit(s, [], c);
    assert s + [c] + [] == s + [c];
  }

  /** Removing a label that occurs once keeps the labels before it and the
      labels after it, each in their order. A duplicate-free selection that
      holds `c` always splits this way, so this fixes `Without` exactly. */
  lemma {:induction false} WithoutSplit(before: seq<string>, after: seq<string>, c: string)
    requires c !in before && c !in after
    ensures Without(before + [c] + after, c) == before + after
  {
    if before == [] {
      assert ([c] + after)[1..] == after;
    } else {
      WithoutSplit(before[1..], after, c);
      assert (before + [c] + after)[1..] == before[1..] + [c] + after;
      assert before + after == [before[0]] + (before[1..] + after);
    }
  }
}
