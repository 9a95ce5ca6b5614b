/** Editor tab bookkeeping: the ordered list of open files and the current
    file. */
module Tabs {
  import opened Wrappers

  /** No file is listed twice. */
  predicate Distinct(s: seq<string>)
  {
    forall i, j :: 0 <= i < j < |s| ==> s[i] != s[j]
  }

  /** `[...new Set(s)]`: the first occurrence of each element, in order
      (the order is `DedupKeepsFirstOccurrenceOrder`). */
  function Dedup(s: seq<string>): (r: seq<string>)
    ensures Distinct(r)
    ensures forall x :: x in r <==> x in s
    decreases |s|
  {
    if |s| == 0 then []
    else
      var d := Dedup(s[..|s| - 1]);
      var last := s[|s| - 1];
      assert forall x :: x in s <==> x in s[..|s| - 1] || x == last;
      if last in d then d else d + [last]
  }

  /** Where `x` first occurs in `s`. */
  function FirstIndex(s: seq<string>, x: string): (k: nat)
    requires x in s
    ensures k < |s| && s[k] == x && x !in s[..k]
  {
    if s[0] == x then 0
    else
      var k := 1 + FirstIndex(s[1..], x);
      assert s[..k] == [s[0]] + s[1..][..k - 1];
      k
  }

  /** A first occurrence inside a prefix is the first occurrence in the
      whole list. */
  lemma FirstIndexOfPrefix(s: seq<string>, n: nat, x: string)
    requires n <= |s| && x in s[..n]
    ensures FirstIndex(s, x) == FirstIndex(s[..n], x)
  {
    var k1, k2 := FirstIndex(s, x), FirstIndex(s[..n], x);
    assert s[..n][..k2] == s[..k2];
  }

  /** `[...new Set(s)]` lists the elements in the order of their first
      occurrence in `s`. */
  lemma {:induction false} DedupKeepsFirstOccurrenceOrder(s: seq<string>)
    ensures forall i, j :: 0 <= i < j < |Dedup(s)| ==> FirstIndex(s, Dedup(s)[i]) < FirstIndex(s, Dedup(s)[j])
    decreases |s|
  {
    if |s| > 0 {
      var n := |s| - 1;
      var init, last := s[..n], s[n];
      var d, r := Dedup(init), Dedup(s);
      DedupKeepsFirstOccurrenceOrder(init);
      forall i | 0 <= i < |d|
        ensures FirstIndex(s, d[i]) == FirstIndex(init, d[i])
      {
        FirstIndexOfPrefix(s, n, d[i]);
      }
      if last !in d {
        assert last !in init;
        assert FirstIndex(s, last) == n by {
          assert s[..n] == init;
        }
        assert r == d + [last];
        forall i, j | 0 <= i < j < |r|
          ensures FirstIndex(s, r[i]) < FirstIndex(s, r[j])
        {
          assert r[i] == d[i] && d[i] in init;
          if j < |d| {
            assert r[j] == d[j];
          } else {
            assert r[j] == last;
            assert FirstIndex(init, d[i]) < |init|;
          }
        }
      } else {
        assert r == d;
      }
    }
  }

  /** A list without repetitions is its own `Set`. */
  lemma {:induction false} DedupOfDistinct(s: seq<string>)
    requires Distinct(s)
    ensures Dedup(s) == s
    decreases |s|
  {
    if |s| > 0 {
      var init := s[..|s| - 1];
      assert Distinct(init);
      DedupOfDistinct(init);
      assert s[|s| - 1] !in init;
      assert init + [s[|s| - 1]] == s;
    }
  }

  /** `[...new Set([...open, file])]`: the file opened as a tab. */
  function AddTab(open: seq<string>, file: string): (r: seq<string>)
    ensures Distinct(r)
    ensures file in r
    ensures forall x :: x in r <==> x in open || x == file
  {
    Dedup(open + [file])
  }

  /** On a list of distinct tabs, opening a file already open changes
      nothing and opening another one appends it; either way it is listed
      exactly once. */
  lemma {:induction false} AddTabToDistinct(open: seq<string>, file: string)
    ensures Distinct(open) ==> AddTab(open, file) == if file in open then open else open + [file]
    ensures Distinct(open) ==> multiset(AddTab(open, file))[file] == 1
  {
    if Distinct(open) {
      assert (open + [file])[..|open|] == open;
      DedupOfDistinct(open);
      var r := AddTab(open, file);
      DistinctCountsOne(r, file);
    }
  }

  /** An element of a list without repetitions occurs once. */
  lemma {:induction false} DistinctCountsOne(s: seq<string>, x: string)
    requires Distinct(s)
    requires x in s
    ensures multiset(s)[x] == 1
    decreases |s|
  {
    var init := s[..|s| - 1];
    assert s == init + [s[|s| - 1]];
    assert Distinct(init);
    if x == s[|s| - 1] {
      assert x !in init;
    } else {
      DistinctCountsOne(init, x);
    }
  }

  /** `open.filter(f => f !== file)`. */
  function RemoveAll(open: seq<string>, file: string): (r: seq<string>)
    ensures file !in r
    ensures forall x :: x != file ==> multiset(r)[x] == multiset(open)[x]
    ensures |r| <= |open|
    decreases |open|
  {
    if |open| == 0 then []
    else
      var init := open[..|open| - 1];
      var last := open[|open| - 1];
      assert open == init + [last];
      if last == file then RemoveAll(init, file) else RemoveAll(init, file) + [last]
  }

  /** Removal works piecewise, so the remaining files keep their order. */
  lemma {:induction false} RemoveAllAppend(a: seq<string>, b: seq<string>, file: string)
    ensures RemoveAll(a + b, file) == RemoveAll(a, file) + RemoveAll(b, file)
    decreases |b|
  {
    if |b| == 0 {
      assert a + b == a;
    } else {
      var b' := b[..|b| - 1];
      assert (a + b)[..|a + b| - 1] == a + b';
      RemoveAllAppend(a, b', file);
    }
  }

  /** Removing from a list without repetitions leaves one. */
  lemma {:induction false} RemoveAllDistinct(open: seq<string>, file: string)
    requires Distinct(open)
    ensures Distinct(RemoveAll(open, file))
    decreases |open|
  {
    if |open| > 0 {
      var init := open[..|open| - 1];
      assert Distinct(init);
      RemoveAllDistinct(init, file);
      var last := open[|open| - 1];
      if last != file {
        assert last !in init;
        var r := RemoveAll(init, file);
        assert multiset(r)[last] == 0;
        assert last !in r;
      }
    }
  }

  /** `newOpenFiles[0] || null`: the first remaining tab, unless none is
      left or its name is the (falsy) empty string. */
  function FirstTab(open: seq<string>): (r: Option<string>)
    ensures r.Some? ==> r.value in open
    ensures r.Some? ==> r.value == open[0]
    ensures r.Some? <==> |open| > 0 && open[0] != ""
  {
    if |open| > 0 && open[0] != "" then Some(open[0]) else None
  }

  /** The tab state after `handleCloseFile(file)`. */
  datatype TabState = TabState(open: seq<string>, current: Option<string>)

  /** Every occurrence of the file leaves the list; a closed current file
      hands over to the first remaining tab; any other current file stays. */
  function Close(t: TabState, file: string): (r: TabState)
    ensures file !in r.open
    ensures r.open == RemoveAll(t.open, file)
    ensures t.current != Some(file) ==> r.current == t.current
    ensures t.current == Some(file) ==> r.current == FirstTab(r.open)
    ensures r.current != Some(file)
  {
    var rest := RemoveAll(t.open, file);
    TabState(rest, if t.current == Some(file) then FirstTab(rest) else t.current)
  }

  /** Closing the current first tab of three hands over to the next one,
      and the remaining tabs keep their order. */
  lemma CloseFirstOfThree()
    ensures Close(TabState(["a", "b", "c"], Some("a")), "a") == TabState(["b", "c"], Some("b"))
  {
    var s := ["a", "b", "c"];
    assert s[..2] == ["a", "b"] && s[..2][..1] == ["a"] && s[..2][..1][..0] == [];
    assert RemoveAll(["a"], "a") == [];
    assert RemoveAll(["a", "b"], "a") == ["b"];
  }

  /** Setting a file current and adding its tab (file explorer click, new
      file, generated UI). */
  function Open(t: TabState, file: string): (r: TabState)
    ensures r.current == Some(file)
    ensures r.open == AddTab(t.open, file)
  {
    TabState(AddTab(t.open, file), Some(file))
  }

  /** Tabs are distinct and the current file, if any, has a tab. */
  predicate Valid(t: TabState)
  {
    Distinct(t.open) && (t.current.Some? ==> t.current.value in t.open)
  }

  /** Closing a file keeps the tabs distinct and the current file among
      them. */
  lemma CloseKeepsValid(t: TabState, file: string)
    ensures Valid(t) ==> Valid(Close(t, file))
  {
    if Valid(t) {
      RemoveAllDistinct(t.open, file);
      if t.current.Some? && t.current.value != file {
        var c := t.current.value;
        assert multiset(t.open)[c] > 0;
      }
    }
  }
}
