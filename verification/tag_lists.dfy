/** The selected-tag list operations of the settings forms and the tag picker. */
module TagLists {
  import opened Seqs
  import opened Text

  /** Pressing a tag in a list where new tags go to the front. */
  function TogglePrepend(s: seq<string>, t: string): (r: seq<string>)
    ensures t in r <==> t !in s
    ensures forall x :: x != t ==> (x in r <==> x in s)
    ensures t !in s ==> |r| == |s| + 1 && r[0] == t && r[1..] == s
  {
    if t in s then RemoveAll(s, t) else [t] + s
  }

  /** Pressing a tag in a list where new tags go to the end. */
  function ToggleAppend(s: seq<string>, t: string): (r: seq<string>)
    ensures t in r <==> t !in s
    ensures forall x :: x != t ==> (x in r <==> x in s)
    ensures t !in s ==> |r| == |s| + 1 && r[|s|] == t && r[..|s|] == s
  {
    if t in s then RemoveAll(s, t) else s + [t]
  }

  /** Adding a tag to the front and pressing it again gives the list back. */
  lemma TogglePrependTwice(s: seq<string>, t: string)
    requires t !in s
    ensures TogglePrepend(TogglePrepend(s, t), t) == s
  {
    RemoveAllAppend([t], s, t);
    assert RemoveAll([t], t) == [];
    RemoveAbsent(s, t);
  }

  /** Adding a tag to the end and pressing it again gives the list back. */
  lemma ToggleAppendTwice(s: seq<string>, t: string)
    requires t !in s
    ensures ToggleAppend(ToggleAppend(s, t), t) == s
  {
    RemoveAllAppend(s, [t], t);
    assert RemoveAll([t], t) == [];
    RemoveAbsent(s, t);
  }

  /** Pressing tags never creates a duplicate in the list. */
  lemma ToggleAppendDistinct(s: seq<string>, t: string)
    requires Distinct(s)
    ensures Distinct(ToggleAppend(s, t))
  {
    if t in s {
      RemoveAllDistinct(s, t);
    } else {
      var r := s + [t];
      forall i, j | 0 <= i < j < |r| ensures r[i] != r[j] {
        if j == |s| {
          assert r[i] == s[i];
        }
      }
    }
  }

  /** The same for the front-inserting list. */
  lemma TogglePrependDistinct(s: seq<string>, t: string)
    requires Distinct(s)
    ensures Distinct(TogglePrepend(s, t))
  {
    if t in s {
      RemoveAllDistinct(s, t);
    } else {
      var r := [t] + s;
      forall i, j | 0 <= i < j < |r| ensures r[i] != r[j] {
        if i == 0 {
          assert r[j] == s[j - 1];
        } else {
          assert r[i] == s[i - 1] && r[j] == s[j - 1];
        }
      }
    }
  }

  /** `tags.filter(tag => tag.toLowerCase().includes(search.toLowerCase()))`. */
  function Search(tags: seq<string>, search: string): (r: seq<string>)
    ensures |r| <= |tags|
    ensures forall x :: x in r <==> x in tags && Matches(x, search)
  {
    Filter(tags, x => Matches(x, search))
  }

  /** An empty search shows every tag, in order. */
  lemma EmptySearchShowsAll(tags: seq<string>)
    ensures Search(tags, "") == tags
  {
    forall x | x in tags ensures Matches(x, "") {
      assert Lower("") == "";
      IncludesEmpty(Lower(x));
    }
    FilterKeepsAll(tags, x => Matches(x, ""));
  }
}
