/**
 * Sorting a listing (file/dir_list.c): the two qsort comparators and
 * `dir_list_sort`, which reorders the used part of the element array in place.
 * qsort's own algorithm is not specified by C, so the model sorts by selection;
 * what it promises is what qsort promises: a permutation ordered by the comparator.
 */
module DirSort {
  import opened StringLists

  /** ASCII `tolower`, as `strcasecmp` applies it in the C locale. */
  function ToLower(c: char): char
  {
    if 'A' <= c <= 'Z' then (c as int + 32) as char else c
  }

  /** A string with every letter lowered. */
  function LowerStr(s: string): (r: string)
    ensures |r| == |s|
  {
    if s == [] then [] else [ToLower(s[0])] + LowerStr(s[1..])
  }

  /**
   * The sign of `strcasecmp(a, b)`: characters are compared after lowering,
   * and a string that ends first is the smaller.
   */
  function CaseCmp(a: string, b: string): (r: int)
    ensures -1 <= r <= 1
  {
    if a == [] && b == [] then 0
    else if a == [] then -1
    else if b == [] then 1
    else if ToLower(a[0]) < ToLower(b[0]) then -1
    else if ToLower(a[0]) > ToLower(b[0]) then 1
    else CaseCmp(a[1..], b[1..])
  }

  /** Swapping the operands flips the sign. */
  lemma {:induction false} CaseCmpFlip(a: string, b: string)
    ensures CaseCmp(b, a) == -CaseCmp(a, b)
  {
    if a != [] && b != [] && ToLower(a[0]) == ToLower(b[0]) {
      CaseCmpFlip(a[1..], b[1..]);
    }
  }

  /** Two strings compare equal exactly when they agree once lowered. */
  lemma {:induction false} CaseCmpZero(a: string, b: string)
    ensures CaseCmp(a, b) == 0 <==> LowerStr(a) == LowerStr(b)
  {
    if a != [] && b != [] {
      CaseCmpZero(a[1..], b[1..]);
      assert LowerStr(a)[0] == ToLower(a[0]) && LowerStr(b)[0] == ToLower(b[0]);
      assert LowerStr(a)[1..] == LowerStr(a[1..]) && LowerStr(b)[1..] == LowerStr(b[1..]);
    } else if a != [] {
      assert |LowerStr(a)| > 0;
    } else if b != [] {
      assert |LowerStr(b)| > 0;
    }
  }

  /** "Not greater" is transitive. */
  lemma {:induction false} CaseCmpTrans(a: string, b: string, c: string)
    requires CaseCmp(a, b) <= 0 && CaseCmp(b, c) <= 0
    ensures CaseCmp(a, c) <= 0
  {
    if a != [] && b != [] && c != [] && ToLower(a[0]) == ToLower(b[0]) == ToLower(c[0]) {
      CaseCmpTrans(a[1..], b[1..], c[1..]);
    }
  }

  /** `qstrcmp_plain`: case-insensitive order of the paths. */
  function ComparePlain(a: Elem, b: Elem): (r: int)
    ensures -1 <= r <= 1
    // paths tie exactly when they differ only in letter case
    ensures r == 0 <==> LowerStr(a.data) == LowerStr(b.data)
  {
    CaseCmpZero(a.data, b.data);
    CaseCmp(a.data, b.data)
  }

  /**
   * `qstrcmp_dir`: descending attribute (`b_type - a_type`), so that the
   * highest code, DIRECTORY, comes first; equal attributes fall back to the
   * case-insensitive order of the paths.
   */
  function CompareDir(a: Elem, b: Elem): (r: int)
    // a higher attribute code sorts first, whatever the paths
    ensures a.attr > b.attr ==> r < 0
    ensures a.attr < b.attr ==> r > 0
    ensures a.attr == DIRECTORY && 0 <= b.attr < DIRECTORY ==> r < 0
    // within one attribute the plain order decides
    ensures a.attr == b.attr ==> (r == 0 <==> LowerStr(a.data) == LowerStr(b.data))
    ensures a.attr == b.attr ==> r == ComparePlain(a, b)
  {
    CaseCmpZero(a.data, b.data);
    if a.attr != b.attr then b.attr - a.attr else CaseCmp(a.data, b.data)
  }

  /** The comparator `dir_list_sort` hands to qsort. */
  function Compare(dirFirst: bool, a: Elem, b: Elem): int
  {
    if dirFirst then CompareDir(a, b) else ComparePlain(a, b)
  }

  lemma CompareFlip(dirFirst: bool, a: Elem, b: Elem)
    ensures Compare(dirFirst, b, a) < 0 <==> Compare(dirFirst, a, b) > 0
  {
    CaseCmpFlip(a.data, b.data);
  }

  lemma CompareTrans(dirFirst: bool, a: Elem, b: Elem, c: Elem)
    requires Compare(dirFirst, a, b) <= 0 && Compare(dirFirst, b, c) <= 0
    ensures Compare(dirFirst, a, c) <= 0
  {
    if !dirFirst || (a.attr == b.attr == c.attr) {
      CaseCmpTrans(a.data, b.data, c.data);
    }
  }

  /** `s` is ordered by the comparator: no element compares greater than a later one. */
  ghost predicate SortedBy(dirFirst: bool, s: seq<Elem>)
  {
    forall i, j :: 0 <= i < j < |s| ==> Compare(dirFirst, s[i], s[j]) <= 0
  }

  /**
   * What a listing sorted with `dir_first` looks like: attributes never
   * increase, within one attribute paths are in case-insensitive order, and,
   * as DIRECTORY is the highest attribute a listing holds, every directory
   * precedes every other entry.
   */
  lemma SortedDirFirst(s: seq<Elem>)
    requires SortedBy(true, s)
    requires forall k :: 0 <= k < |s| ==> s[k].attr <= DIRECTORY
    ensures forall i, j :: 0 <= i < j < |s| ==> s[i].attr >= s[j].attr
    ensures forall i, j :: 0 <= i < j < |s| && s[i].attr == s[j].attr ==> CaseCmp(s[i].data, s[j].data) <= 0
    ensures forall i, j :: 0 <= i < j < |s| && s[j].attr == DIRECTORY ==> s[i].attr == DIRECTORY
  {
    forall i, j | 0 <= i < j < |s|
      ensures s[i].attr >= s[j].attr
    {
      assert Compare(true, s[i], s[j]) <= 0;
    }
  }

  /** Without `dir_first` only the case-insensitive order of the paths counts. */
  lemma SortedPlain(s: seq<Elem>)
    requires SortedBy(false, s)
    ensures forall i, j :: 0 <= i < j < |s| ==> CaseCmp(s[i].data, s[j].data) <= 0
  {
    forall i, j | 0 <= i < j < |s|
      ensures CaseCmp(s[i].data, s[j].data) <= 0
    {
      assert Compare(false, s[i], s[j]) <= 0;
    }
  }

  /**
   * The qsort call: sorts `a[..n]` in place by the comparator, leaving the
   * elements beyond `n` alone.
   */
  method SortElems(a: array<Elem>, n: nat, dirFirst: bool)
    requires n <= a.Length
    modifies a
    ensures SortedBy(dirFirst, a[..n])
    ensures multiset(a[..n]) == multiset(old(a[..n]))
    ensures a[n..] == old(a[n..])
  {
    var i := 0;
    while i < n
      invariant 0 <= i <= n
      invariant SortedBy(dirFirst, a[..i])
      invariant Partitioned(dirFirst, a[..], i, n)
      invariant multiset(a[..n]) == multiset(old(a[..n]))
      invariant a[n..] == old(a[n..])
    {
      var m := MinIndex(a, i, n, dirFirst);
      ghost var prev := a[..];
      Swap(a, n, i, m);
      SelectionStep(dirFirst, prev, a[..], i, m, n);
      i := i + 1;
    }
  }

  /** Everything before `i` is no greater than anything in `s[i..n]`. */
  ghost predicate Partitioned(dirFirst: bool, s: seq<Elem>, i: nat, n: nat)
    requires i <= n <= |s|
  {
    forall x, y :: 0 <= x < i <= y < n ==> Compare(dirFirst, s[x], s[y]) <= 0
  }

  /** One step of selection sort: moving a least element of `s[i..n]` to `i` extends the sorted prefix. */
  lemma SelectionStep(dirFirst: bool, prev: seq<Elem>, cur: seq<Elem>, i: nat, m: nat, n: nat)
    requires i <= m < n <= |prev|
    requires cur == prev[i := prev[m]][m := prev[i]]
    requires SortedBy(dirFirst, prev[..i]) && Partitioned(dirFirst, prev, i, n)
    requires forall k :: i <= k < n ==> Compare(dirFirst, prev[m], prev[k]) <= 0
    ensures SortedBy(dirFirst, cur[..i + 1]) && Partitioned(dirFirst, cur, i + 1, n)
  {
    assert cur[i] == prev[m];
    assert forall k :: 0 <= k < i ==> cur[k] == prev[k];
    forall x, y | 0 <= x < y < i + 1
      ensures Compare(dirFirst, cur[x], cur[y]) <= 0
    {
      if y < i {
        assert prev[..i][x] == prev[x] && prev[..i][y] == prev[y];
      } else {
        assert Compare(dirFirst, prev[x], prev[m]) <= 0;
      }
    }
    forall x, y | 0 <= x < i + 1 <= y < n
      ensures Compare(dirFirst, cur[x], cur[y]) <= 0
    {
      assert cur[y] == prev[y] || (y == m && cur[y] == prev[i]);
    }
  }

  /** An index of a least element of `a[lo..n]` under the comparator. */
  method MinIndex(a: array<Elem>, lo: nat, n: nat, dirFirst: bool) returns (m: nat)
    requires lo < n <= a.Length
    ensures lo <= m < n
    ensures forall k :: lo <= k < n ==> Compare(dirFirst, a[m], a[k]) <= 0
  {
    m := lo;
    var j := lo + 1;
    CompareFlip(dirFirst, a[lo], a[lo]);
    while j < n
      invariant lo <= m < n && lo + 1 <= j <= n
      invariant forall k :: lo <= k < j ==> Compare(dirFirst, a[m], a[k]) <= 0
    {
      if Compare(dirFirst, a[j], a[m]) < 0 {
        CompareFlip(dirFirst, a[j], a[j]);
        forall k | lo <= k < j
          ensures Compare(dirFirst, a[j], a[k]) <= 0
        {
          CompareTrans(dirFirst, a[j], a[m], a[k]);
        }
        m := j;
      } else {
        CompareFlip(dirFirst, a[m], a[j]);
      }
      j := j + 1;
    }
  }

  /** Exchanges `a[i]` and `a[j]` inside `a[..n]`. */
  method Swap(a: array<Elem>, n: nat, i: nat, j: nat)
    requires i < n && j < n && n <= a.Length
    modifies a
    ensures a[..] == old(a[..])[i := old(a[j])][j := old(a[i])]
    ensures multiset(a[..n]) == multiset(old(a[..n]))
    ensures a[n..] == old(a[n..])
  {
    ghost var s := a[..];
    a[i], a[j] := a[j], a[i];
    SwapPermutes(s, a[..], n, i, j);
  }

  /** Exchanging two elements inside the first `n` permutes them and leaves the rest. */
  lemma SwapPermutes(s: seq<Elem>, t: seq<Elem>, n: nat, i: nat, j: nat)
    requires i < n && j < n && n <= |s|
    requires t == s[i := s[j]][j := s[i]]
    ensures multiset(t[..n]) == multiset(s[..n])
    ensures t[n..] == s[n..]
  {
    assert t[..n] == s[..n][i := s[j]][j := s[i]];
  }

  /**
   * `dir_list_sort`: a NULL list is left alone; otherwise the used elements
   * become a permutation of what they were, ordered by the chosen comparator.
   */
  method DirListSort(list: StringList?, dirFirst: bool)
    requires list != null ==> list.Valid()
    modifies if list != null then {list.elems} else {}
    ensures list != null ==>
      && list.Valid()
      && SortedBy(dirFirst, list.Contents())
      && multiset(list.Contents()) == multiset(old(list.Contents()))
  {
    if list != null {
      SortElems(list.elems, list.size, dirFirst);
    }
  }
}
