// The slideshow's favorites (slideshow/src/slideshow/favorites.py): indices
// of images kept in `favorites.txt` in the image folder, one per line.
//
// The file is its text, or `None` when it does not exist. Lines are the
// fields between newlines; `strip` removes the newline a line ends with, so
// the two views agree on every line that matters.

module SlideshowFavorites {
  import opened Wrappers
  import opened Text

  const FavoritesFilename := "favorites.txt"

  /* ---------------- sorting integers ---------------- */

  predicate SortedInts(s: seq<int>)
  {
    forall i, j :: 0 <= i < j < |s| ==> s[i] <= s[j]
  }

  predicate NoDuplicates(s: seq<int>)
  {
    forall i, j :: 0 <= i < j < |s| ==> s[i] != s[j]
  }

  /** Placing `x` before the first entry not below it. */
  function InsertInt(s: seq<int>, x: int): seq<int>
  {
    if s == [] then [x]
    else if x <= s[0] then [x] + s
    else [s[0]] + InsertInt(s[1..], x)
  }

  /** The numbers in ascending order. */
  function SortInts(s: seq<int>): seq<int>
  {
    if s == [] then [] else InsertInt(SortInts(s[1..]), s[0])
  }

  lemma {:induction false} InsertIntPermutes(s: seq<int>, x: int)
    ensures multiset(InsertInt(s, x)) == multiset(s) + multiset{x}
  {
    if s != [] && x > s[0] {
      InsertIntPermutes(s[1..], x);
      assert s == [s[0]] + s[1..];
    }
  }

  lemma {:induction false} InsertIntSorted(s: seq<int>, x: int)
    requires SortedInts(s)
    ensures SortedInts(InsertInt(s, x))
  {
    if s != [] && x > s[0] {
      InsertIntSorted(s[1..], x);
      InsertIntPermutes(s[1..], x);
      var r := InsertInt(s[1..], x);
      forall k | 0 <= k < |r|
        ensures s[0] <= r[k]
      {
        assert r[k] in multiset(s[1..]) + multiset{x};
      }
    }
  }

  /** `sorted` returns its input reordered, in non-decreasing order. */
  lemma {:induction false} SortIntsSpec(s: seq<int>)
    ensures multiset(SortInts(s)) == multiset(s)
    ensures SortedInts(SortInts(s))
  {
    if s != [] {
      SortIntsSpec(s[1..]);
      InsertIntPermutes(SortInts(s[1..]), s[0]);
      InsertIntSorted(SortInts(s[1..]), s[0]);
      assert s == [s[0]] + s[1..];
    }
  }

  /** Two sorted sequences with the same elements are equal. */
  lemma {:induction false} SortedUnique(a: seq<int>, b: seq<int>)
    requires SortedInts(a) && SortedInts(b) && multiset(a) == multiset(b)
    ensures a == b
  {
    if a != [] {
      assert |b| == |multiset(b)| == |a|;
      assert b[0] in multiset(a) && a[0] in multiset(b);
      SortedHeadLeast(a, b[0]);
      SortedHeadLeast(b, a[0]);
      assert a[0] == b[0];
      assert multiset(a[1..]) == multiset(b[1..]) by {
        DropHead(a);
        DropHead(b);
      }
      assert SortedInts(a[1..]) && SortedInts(b[1..]);
      SortedUnique(a[1..], b[1..]);
      assert a == [a[0]] + a[1..] && b == [b[0]] + b[1..];
    } else {
      assert |b| == |multiset(b)| == 0;
    }
  }

  /** The head of a sorted sequence is at most any of its elements. */
  lemma SortedHeadLeast(a: seq<int>, y: int)
    requires SortedInts(a) && y in multiset(a)
    ensures a[0] <= y
  {
    var j :| 0 <= j < |a| && a[j] == y;
  }

  /** Dropping the head removes one copy of it. */
  lemma DropHead(a: seq<int>)
    requires a != []
    ensures multiset(a[1..]) == multiset(a) - multiset{a[0]}
  {
    assert a == [a[0]] + a[1..];
  }

  /** Sorting what is already sorted changes nothing. */
  lemma SortSorted(s: seq<int>)
    requires SortedInts(s)
    ensures SortInts(s) == s
  {
    SortIntsSpec(s);
    SortedUnique(SortInts(s), s);
  }

  /** One entry per value, in the order of their last occurrences. */
  function Dedup(s: seq<int>): (r: seq<int>)
    ensures forall x :: x in r <==> x in s
    ensures NoDuplicates(r)
  {
    if s == [] then []
    else if s[0] in s[1..] then Dedup(s[1..])
    else [s[0]] + Dedup(s[1..])
  }

  /** The distinct numbers in ascending order. */
  function SortedSet(s: seq<int>): (r: seq<int>)
    ensures forall i, j :: 0 <= i < j < |r| ==> r[i] < r[j]
    ensures forall x :: x in r <==> x in s
  {
    var d := Dedup(s);
    SortedSetSpec(d);
    SortInts(d)
  }

  lemma SortedSetSpec(d: seq<int>)
    requires NoDuplicates(d)
    ensures forall i, j :: 0 <= i < j < |SortInts(d)| ==> SortInts(d)[i] < SortInts(d)[j]
    ensures forall x :: x in SortInts(d) <==> x in d
  {
    SortIntsSpec(d);
    var r := SortInts(d);
    assert forall x :: x in r <==> x in multiset(d);
    forall i, j | 0 <= i < j < |r|
      ensures r[i] < r[j]
    {
      NoDuplicatesCount(d, r[i]);
      if r[i] == r[j] {
        RepeatCount(r, i, j);
      }
    }
  }

  lemma RepeatCount(r: seq<int>, i: nat, j: nat)
    requires i < j < |r| && r[i] == r[j]
    ensures multiset(r)[r[i]] >= 2
  {
    assert r == r[..j] + [r[j]] + r[j + 1..];
    assert r[..j] == r[..i] + [r[i]] + r[i + 1..j];
  }

  lemma {:induction false} NoDuplicatesCount(s: seq<int>, x: int)
    requires NoDuplicates(s)
    ensures multiset(s)[x] <= 1
  {
    if s != [] {
      NoDuplicatesCount(s[1..], x);
      assert s == [s[0]] + s[1..];
      assert s[0] !in s[1..];
    }
  }

  /* ---------------- load_favorites ---------------- */

  /** The entries of `s` that are valid positions below `n`, in order. */
  function InRange(s: seq<int>, n: int): (r: seq<int>)
    ensures forall x :: x in r <==> x in s && 0 <= x < n
    ensures forall x :: 0 <= x < n ==> multiset(r)[x] == multiset(s)[x]
    ensures forall x :: !(0 <= x < n) ==> multiset(r)[x] == 0
  {
    if s == [] then []
    else
      assert s == [s[0]] + s[1..];
      (if 0 <= s[0] < n then [s[0]] else []) + InRange(s[1..], n)
  }

  /** The value of every line that is all digits once blanks are stripped, in order. */
  function ParseLines(lines: seq<string>): (r: seq<int>)
    ensures forall x :: x in r ==> x >= 0
  {
    if lines == [] then []
    else
      var t := Strip(lines[0]);
      (if AllDigits(t) then [DigitsValue(t)] else []) + ParseLines(lines[1..])
  }

  /** `load_favorites`: the valid indices of the file, sorted, or none. */
  function LoadFavorites(file: Option<string>, numImages: int): (r: seq<int>)
  {
    if file.None? || numImages == 0 then []
    else SortInts(InRange(ParseLines(Split(file.value, '\n')), numImages))
  }

  /**
   * No file or no images gives no favorites; otherwise the result is every
   * in-range number on a line of its own, sorted, each as often as it
   * occurs in the file.
   */
  lemma LoadFavoritesSpec(file: Option<string>, numImages: int)
    ensures var r := LoadFavorites(file, numImages);
      (file.None? || numImages == 0 ==> r == [])
      && SortedInts(r)
      && (forall x :: x in r ==> 0 <= x < numImages)
      && (file.Some? && numImages != 0 ==>
            multiset(r) == multiset(InRange(ParseLines(Split(file.value, '\n')), numImages)))
  {
    if file.Some? && numImages != 0 {
      var v := InRange(ParseLines(Split(file.value, '\n')), numImages);
      SortIntsSpec(v);
      assert forall x :: x in LoadFavorites(file, numImages) ==> x in multiset(v);
    }
  }

  /* ---------------- save_favorites ---------------- */

  /** The text written for `indices`: one `f"{index}\n"` each. */
  function LinesOf(indices: seq<int>): string
    requires forall x :: x in indices ==> x >= 0
  {
    if indices == [] then ""
    else
      assert indices[0] in indices;
      assert forall x :: x in indices[1..] ==> x in indices;
      NatToString(indices[0]) + "\n" + LinesOf(indices[1..])
  }

  /** The indices `save_favorites` writes: the in-range ones, de-duplicated and sorted. */
  function SavedIndices(favorites: seq<int>, numImages: int): (r: seq<int>)
    ensures forall x :: x in r <==> x in favorites && 0 <= x < numImages
    ensures forall i, j :: 0 <= i < j < |r| ==> r[i] < r[j]
  {
    SortedSet(InRange(favorites, numImages))
  }

  /**
   * `save_favorites`: the new text of the file, or `None` when the image
   * folder is missing and cannot be created, in which case nothing is
   * written.
   */
  function SaveFavorites(folderUsable: bool, favorites: seq<int>, numImages: int): (r: Option<string>)
    ensures r.Some? <==> folderUsable
  {
    if !folderUsable then None
    else Some(LinesOf(SavedIndices(favorites, numImages)))
  }

  /** Stripping leaves a string of digits as it is. */
  lemma StripDigits(s: string)
    requires AllDigits(s)
    ensures Strip(s) == s
  {
    assert TrimLeft(s) == s;
    assert TrimRight(s) == s;
  }

  /** Reading back the lines written for non-negative indices gives those indices. */
  lemma {:induction false} ParseLinesOf(indices: seq<int>)
    requires forall x :: x in indices ==> x >= 0
    ensures ParseLines(Split(LinesOf(indices), '\n')) == indices
  {
    if indices == [] {
      assert Split("", '\n') == [""];
      assert Strip("") == "";
    } else {
      assert indices[0] in indices;
      assert forall x :: x in indices[1..] ==> x in indices;
      var t := NatToString(indices[0]);
      ParseLinesOf(indices[1..]);
      SplitAtFirst(t, LinesOf(indices[1..]), '\n');
      assert LinesOf(indices) == t + ['\n'] + LinesOf(indices[1..]);
      StripDigits(t);
      DigitsValueOfNatToString(indices[0]);
      var lines := Split(LinesOf(indices), '\n');
      assert lines == [t] + Split(LinesOf(indices[1..]), '\n');
      assert lines[1..] == Split(LinesOf(indices[1..]), '\n');
      assert indices == [indices[0]] + indices[1..];
    }
  }

  /**
   * Loading what was saved gives the saved favorites that were in range,
   * sorted and without repeats.
   */
  lemma SaveLoadRoundTrip(favorites: seq<int>, numImages: int)
    ensures LoadFavorites(SaveFavorites(true, favorites, numImages), numImages)
         == SavedIndices(favorites, numImages)
  {
    var saved := SavedIndices(favorites, numImages);
    if numImages != 0 {
      ParseLinesOf(saved);
      var kept := InRange(saved, numImages);
      assert kept == saved by {
        InRangeAll(saved, numImages);
      }
      SortSorted(saved);
    } else {
      InRangeEmpty(favorites, numImages);
    }
  }

  lemma {:induction false} InRangeEmpty(s: seq<int>, n: int)
    requires n <= 0
    ensures InRange(s, n) == []
  {
    if s != [] {
      InRangeEmpty(s[1..], n);
    }
  }

  lemma {:induction false} InRangeAll(s: seq<int>, n: int)
    requires forall x :: x in s ==> 0 <= x < n
    ensures InRange(s, n) == s
  {
    if s != [] {
      assert s[0] in s;
      assert forall x :: x in s[1..] ==> x in s;
      InRangeAll(s[1..], n);
      assert s == [s[0]] + s[1..];
    }
  }

  /* ---------------- toggle_favorite ---------------- */

  /** The position of the first occurrence of `x` in `s`. */
  function FirstIndex(s: seq<int>, x: int): (i: nat)
    requires x in s
    ensures i < |s| && s[i] == x && x !in s[..i]
  {
    if s[0] == x then 0
    else
      var i := FirstIndex(s[1..], x);
      assert s[..i + 1] == [s[0]] + s[1..][..i];
      i + 1
  }

  /** `s` without the first occurrence of `x`. */
  function RemoveFirst(s: seq<int>, x: int): seq<int>
    requires x in s
  {
    var i := FirstIndex(s, x);
    s[..i] + s[i + 1..]
  }

  lemma RemoveFirstCounts(s: seq<int>, x: int)
    requires x in s
    ensures multiset(RemoveFirst(s, x)) == multiset(s) - multiset{x}
  {
    var i := FirstIndex(s, x);
    assert s == s[..i] + [x] + s[i + 1..];
  }

  /** The list `toggle_favorite` leaves its argument as. */
  function Toggled(currentIndex: int, favorites: seq<int>): seq<int>
  {
    if currentIndex in favorites then RemoveFirst(favorites, currentIndex)
    else favorites + [currentIndex]
  }

  /** What `toggle_favorite` returns. */
  function ToggleResult(currentIndex: int, favorites: seq<int>): seq<int>
  {
    SortInts(Toggled(currentIndex, favorites))
  }

  /**
   * `toggle_favorite`: `favorites` is changed in place (the first occurrence
   * of the index removed, or the index appended) and a sorted copy returned.
   */
  method ToggleFavorite(currentIndex: int, favorites: seq<int>) returns (changed: seq<int>, r: seq<int>)
    ensures currentIndex in favorites ==> multiset(changed) == multiset(favorites) - multiset{currentIndex}
    ensures currentIndex !in favorites ==> changed == favorites + [currentIndex]
    ensures SortedInts(r) && multiset(r) == multiset(changed)
    ensures r == ToggleResult(currentIndex, favorites)
  {
    if currentIndex in favorites {
      changed := RemoveFirst(favorites, currentIndex);
      RemoveFirstCounts(favorites, currentIndex);
    } else {
      changed := favorites + [currentIndex];
    }
    r := SortInts(changed);
    SortIntsSpec(changed);
  }

  /**
   * Toggling flips membership when the index occurs at most once, and
   * leaves the number of occurrences of every other index as it was.
   */
  lemma ToggleFlips(currentIndex: int, favorites: seq<int>)
    requires multiset(favorites)[currentIndex] <= 1
    ensures currentIndex in ToggleResult(currentIndex, favorites) <==> currentIndex !in favorites
    ensures forall y :: y != currentIndex ==>
      multiset(ToggleResult(currentIndex, favorites))[y] == multiset(favorites)[y]
  {
    var t := Toggled(currentIndex, favorites);
    SortIntsSpec(t);
    if currentIndex in favorites {
      RemoveFirstCounts(favorites, currentIndex);
    }
    assert currentIndex in ToggleResult(currentIndex, favorites) <==> currentIndex in multiset(t);
  }

  /** On a list without repeats, toggling the same index twice gives the list back, sorted. */
  lemma ToggleTwice(currentIndex: int, favorites: seq<int>)
    requires NoDuplicates(favorites)
    ensures ToggleResult(currentIndex, ToggleResult(currentIndex, favorites)) == SortInts(favorites)
  {
    var once := ToggleResult(currentIndex, favorites);
    var twice := ToggleResult(currentIndex, once);
    NoDuplicatesCount(favorites, currentIndex);
    ToggleFlips(currentIndex, favorites);
    SortIntsSpec(Toggled(currentIndex, favorites));
    SortIntsSpec(Toggled(currentIndex, once));
    SortIntsSpec(favorites);
    if currentIndex in favorites {
      RemoveFirstCounts(favorites, currentIndex);
      assert currentIndex !in once;
      assert multiset(twice) == multiset(once) + multiset{currentIndex};
    } else {
      RemoveFirstCounts(once, currentIndex);
      assert multiset(twice) == multiset(once) - multiset{currentIndex};
    }
    assert multiset(twice) == multiset(favorites);
    SortedUnique(twice, SortInts(favorites));
  }
}
