// The slideshow's image list and preload cache
// (slideshow/src/slideshow/image_loader.py).
//
// A path is the sequence of its parts, which is how pathlib orders paths. The
// directory walk is the sequence of entries `rglob('*')` yields, modification
// times are a map from path to time, and decoding is a map from path to the
// decoded picture: a path missing from it is a file Pillow cannot open.

module SlideshowImages {
  import opened Wrappers
  import opened Text
  import opened Sorting

  type Path = seq<string>

  /** `path.name`: the last part. */
  function Name(p: Path): string
  {
    if p == [] then "" else p[|p| - 1]
  }

  const SupportedExtensions: seq<string> := [".png", ".jpg", ".jpeg", ".gif", ".bmp", ".tiff", ".webp"]

  /** One entry of the recursive directory walk. */
  datatype Entry = Entry(path: Path, isFile: bool)

  /* ---------------- load_images_from_folder ---------------- */

  /** A name ending, in any letter case, with one of the supported extensions. */
  predicate HasImageExtension(name: string)
  {
    exists e :: e in SupportedExtensions && EndsWith(LowerStr(name), e)
  }

  /** A regular file with a supported extension whose name does not start with a dot. */
  predicate IsImageFile(e: Entry)
  {
    e.isFile && HasImageExtension(Name(e.path)) && !StartsWith(Name(e.path), ".")
  }

  /** `raw_image_list`: the image files in walk order. */
  function ImageFiles(entries: seq<Entry>): (r: seq<Path>)
    ensures forall p :: p in r <==> exists e :: e in entries && IsImageFile(e) && e.path == p
    decreases |entries|
  {
    if entries == [] then []
    else
      var n := |entries|;
      var e := entries[n - 1];
      assert forall x :: x in entries <==> x in entries[..n - 1] || x == e;
      ImageFiles(entries[..n - 1]) + (if IsImageFile(e) then [e.path] else [])
  }

  /** Each path keyed by itself, for `sorted`. */
  function ByPath(paths: seq<Path>): (r: seq<Keyed<Path>>)
    ensures |r| == |paths|
    ensures forall i :: 0 <= i < |r| ==> r[i] == Keyed(paths[i], paths[i])
    decreases |paths|
  {
    if paths == [] then [] else var n := |paths|; ByPath(paths[..n - 1]) + [Keyed(paths[n - 1], paths[n - 1])]
  }

  /** `load_images_from_folder`: `None` is a folder that is not a directory. */
  function LoadImagesFromFolder(folder: Option<seq<Entry>>): seq<Path>
  {
    if folder.None? then []
    else Items(SortKeyed(ByPath(ImageFiles(folder.value))))
  }

  lemma ByPathItems(paths: seq<Path>)
    ensures Items(ByPath(paths)) == paths
  {
  }

  /**
   * A folder that is not a directory gives no images. Otherwise the result
   * holds exactly the image files of the walk, each as often as the walk
   * yields it, ordered by path.
   */
  lemma LoadImagesSpec(folder: Option<seq<Entry>>)
    ensures var r := LoadImagesFromFolder(folder);
      (folder.None? ==> r == [])
      && (folder.Some? ==> multiset(r) == multiset(ImageFiles(folder.value)))
      && (forall i, j :: 0 <= i < j < |r| ==> !KeyBelow(r[j], r[i]))
  {
    if folder.Some? {
      var k := ByPath(ImageFiles(folder.value));
      var sorted := SortKeyed(k);
      SortPermutes(k);
      SortOrders(k);
      ItemsPermute(sorted, k);
      ByPathItems(ImageFiles(folder.value));
      forall i | 0 <= i < |sorted|
        ensures sorted[i].key == sorted[i].item
      {
        assert sorted[i] in multiset(k);
      }
    }
  }

  /** Distinct paths, as a walk yields them, come out in strictly increasing order. */
  lemma LoadImagesStrictlyOrdered(entries: seq<Entry>)
    requires forall i, j :: 0 <= i < j < |entries| ==> entries[i].path != entries[j].path
    ensures var r := LoadImagesFromFolder(Some(entries));
      forall i, j :: 0 <= i < j < |r| ==> KeyBelow(r[i], r[j])
  {
    var r := LoadImagesFromFolder(Some(entries));
    LoadImagesSpec(Some(entries));
    DistinctPaths(entries);
    forall i, j | 0 <= i < j < |r|
      ensures KeyBelow(r[i], r[j])
    {
      KeyBelowTotal(r[i], r[j]);
      NoRepeat(r, i, j);
    }
  }

  /** In a sequence holding each value at most once, distinct positions hold distinct values. */
  lemma NoRepeat<T>(r: seq<T>, i: nat, j: nat)
    requires i < j < |r| && forall p :: multiset(r)[p] <= 1
    ensures r[i] != r[j]
  {
    var x := r[i];
    assert r == r[..i] + [x] + r[i + 1..j] + [r[j]] + r[j + 1..];
    assert multiset(r)[x] >= 1 + multiset{r[j]}[x];
  }

  lemma {:induction false} DistinctPaths(entries: seq<Entry>)
    requires forall i, j :: 0 <= i < j < |entries| ==> entries[i].path != entries[j].path
    ensures forall p :: multiset(ImageFiles(entries))[p] <= 1
    decreases |entries|
  {
    if entries != [] {
      var n := |entries|;
      var e := entries[n - 1];
      DistinctPaths(entries[..n - 1]);
      assert e.path !in ImageFiles(entries[..n - 1]);
    }
  }

  /* ---------------- shuffle_images ---------------- */

  /**
   * `shuffle_images`: the current image first, then the others in the order
   * the random shuffle put them in (`shuffled`, a rearrangement of the
   * others), and the new index 0.
   */
  function ShuffleImages(images: seq<Path>, currentIndex: int, shuffled: seq<Path>): (r: (seq<Path>, int))
    requires images != [] ==> 0 <= currentIndex < |images|
    requires images != [] ==> multiset(shuffled) == multiset(images[..currentIndex] + images[currentIndex + 1..])
    ensures images == [] ==> r == ([], 0)
    ensures images != [] ==> r.1 == 0 && |r.0| == |images| && r.0[0] == images[currentIndex]
    ensures multiset(r.0) == multiset(images)
  {
    if images == [] then ([], 0)
    else
      assert images == images[..currentIndex] + [images[currentIndex]] + images[currentIndex + 1..];
      assert |shuffled| == |multiset(shuffled)| == |images| - 1;
      ([images[currentIndex]] + shuffled, 0)
  }

  /* ---------------- sort_images_by_time ---------------- */

  /** The modification time of `p` (0.0 for a file that is gone; never used then). */
  function MTime(mtimes: map<Path, real>, p: Path): real
  {
    if p in mtimes then mtimes[p] else 0.0
  }

  /** `a` sorts strictly before `b`, in the requested direction. */
  predicate TimeBefore(a: real, b: real, ascending: bool)
  {
    if ascending then a < b else b < a
  }

  predicate TimeOrdered(s: seq<Path>, mtimes: map<Path, real>, ascending: bool)
  {
    forall i, j :: 0 <= i < j < |s| ==> !TimeBefore(MTime(mtimes, s[j]), MTime(mtimes, s[i]), ascending)
  }

  /** The paths of `s` whose time is `t`, in their order. */
  function AtTime(s: seq<Path>, mtimes: map<Path, real>, t: real): seq<Path>
    decreases |s|
  {
    if s == [] then []
    else
      var n := |s|;
      AtTime(s[..n - 1], mtimes, t) + (if MTime(mtimes, s[n - 1]) == t then [s[n - 1]] else [])
  }

  function InsertByTime(s: seq<Path>, x: Path, mtimes: map<Path, real>, ascending: bool): seq<Path>
    decreases |s|
  {
    if s == [] then [x]
    else
      var n := |s|;
      if TimeBefore(MTime(mtimes, x), MTime(mtimes, s[n - 1]), ascending)
      then InsertByTime(s[..n - 1], x, mtimes, ascending) + [s[n - 1]]
      else s + [x]
  }

  /** The images by modification time, oldest first when ascending and newest first otherwise; a stable sort either way. */
  function SortByTime(s: seq<Path>, mtimes: map<Path, real>, ascending: bool): seq<Path>
    decreases |s|
  {
    if s == [] then []
    else var n := |s|; InsertByTime(SortByTime(s[..n - 1], mtimes, ascending), s[n - 1], mtimes, ascending)
  }

  /** Every image still has a modification time (no `FileNotFoundError`). */
  predicate AllStamped(images: seq<Path>, mtimes: map<Path, real>)
  {
    forall i :: 0 <= i < |images| ==> images[i] in mtimes
  }

  /** `sort_images_by_time` */
  function SortImagesByTime(images: seq<Path>, mtimes: map<Path, real>, ascending: bool): seq<Path>
  {
    if images == [] then []
    else if !AllStamped(images, mtimes) then images
    else SortByTime(images, mtimes, ascending)
  }

  lemma {:induction false} InsertByTimePermutes(s: seq<Path>, x: Path, mtimes: map<Path, real>, ascending: bool)
    ensures multiset(InsertByTime(s, x, mtimes, ascending)) == multiset(s) + multiset{x}
    decreases |s|
  {
    if s != [] {
      var n := |s|;
      InsertByTimePermutes(s[..n - 1], x, mtimes, ascending);
      assert s == s[..n - 1] + [s[n - 1]];
    }
  }

  lemma {:induction false} InsertByTimeOrdered(s: seq<Path>, x: Path, mtimes: map<Path, real>, ascending: bool)
    requires TimeOrdered(s, mtimes, ascending)
    ensures TimeOrdered(InsertByTime(s, x, mtimes, ascending), mtimes, ascending)
    decreases |s|
  {
    if s != [] {
      var n := |s|;
      var last := s[n - 1];
      if TimeBefore(MTime(mtimes, x), MTime(mtimes, last), ascending) {
        var front := InsertByTime(s[..n - 1], x, mtimes, ascending);
        InsertByTimeOrdered(s[..n - 1], x, mtimes, ascending);
        InsertByTimePermutes(s[..n - 1], x, mtimes, ascending);
        forall i | 0 <= i < |front|
          ensures !TimeBefore(MTime(mtimes, last), MTime(mtimes, front[i]), ascending)
        {
          assert front[i] in multiset(s[..n - 1]) + multiset{x};
        }
      }
    }
  }

  lemma {:induction false} AtTimeAppend(s: seq<Path>, t: seq<Path>, mtimes: map<Path, real>, v: real)
    ensures AtTime(s + t, mtimes, v) == AtTime(s, mtimes, v) + AtTime(t, mtimes, v)
    decreases |t|
  {
    if t != [] {
      var n := |t|;
      AtTimeAppend(s, t[..n - 1], mtimes, v);
      assert (s + t)[..|s + t| - 1] == s + t[..n - 1];
    } else {
      assert s + t == s;
    }
  }

  lemma {:induction false} InsertByTimeStable(s: seq<Path>, x: Path, mtimes: map<Path, real>, ascending: bool, v: real)
    ensures AtTime(InsertByTime(s, x, mtimes, ascending), mtimes, v) == AtTime(s + [x], mtimes, v)
    decreases |s|
  {
    if s != [] {
      var n := |s|;
      var last := s[n - 1];
      if TimeBefore(MTime(mtimes, x), MTime(mtimes, last), ascending) {
        var front := InsertByTime(s[..n - 1], x, mtimes, ascending);
        var before := AtTime(s[..n - 1], mtimes, v);
        calc {
          AtTime(InsertByTime(s, x, mtimes, ascending), mtimes, v);
          AtTime(front + [last], mtimes, v);
          { AtTimeAppend(front, [last], mtimes, v); }
          AtTime(front, mtimes, v) + AtTime([last], mtimes, v);
          { InsertByTimeStable(s[..n - 1], x, mtimes, ascending, v);
            AtTimeAppend(s[..n - 1], [x], mtimes, v); }
          before + AtTime([x], mtimes, v) + AtTime([last], mtimes, v);
          { DistinctTimesCommute(x, last, mtimes, v); }
          before + AtTime([last], mtimes, v) + AtTime([x], mtimes, v);
          { AtTimeAppend(s[..n - 1], [last], mtimes, v); assert s == s[..n - 1] + [last]; }
          AtTime(s, mtimes, v) + AtTime([x], mtimes, v);
          { AtTimeAppend(s, [x], mtimes, v); }
          AtTime(s + [x], mtimes, v);
        }
      }
    }
  }

  /** Two single paths with different times: at most one of them has time `v`. */
  lemma DistinctTimesCommute(x: Path, y: Path, mtimes: map<Path, real>, v: real)
    requires MTime(mtimes, x) != MTime(mtimes, y)
    ensures AtTime([x], mtimes, v) + AtTime([y], mtimes, v) == AtTime([y], mtimes, v) + AtTime([x], mtimes, v)
  {
    assert [x][..0] == [] && [y][..0] == [];
  }

  lemma {:induction false} SortByTimePermutes(s: seq<Path>, mtimes: map<Path, real>, ascending: bool)
    ensures multiset(SortByTime(s, mtimes, ascending)) == multiset(s)
    decreases |s|
  {
    if s != [] {
      var n := |s|;
      SortByTimePermutes(s[..n - 1], mtimes, ascending);
      InsertByTimePermutes(SortByTime(s[..n - 1], mtimes, ascending), s[n - 1], mtimes, ascending);
      assert s == s[..n - 1] + [s[n - 1]];
    }
  }

  lemma {:induction false} SortByTimeOrdered(s: seq<Path>, mtimes: map<Path, real>, ascending: bool)
    ensures TimeOrdered(SortByTime(s, mtimes, ascending), mtimes, ascending)
    decreases |s|
  {
    if s != [] {
      var n := |s|;
      SortByTimeOrdered(s[..n - 1], mtimes, ascending);
      InsertByTimeOrdered(SortByTime(s[..n - 1], mtimes, ascending), s[n - 1], mtimes, ascending);
    }
  }

  lemma {:induction false} SortByTimeStable(s: seq<Path>, mtimes: map<Path, real>, ascending: bool, v: real)
    ensures AtTime(SortByTime(s, mtimes, ascending), mtimes, v) == AtTime(s, mtimes, v)
    decreases |s|
  {
    if s != [] {
      var n := |s|;
      var front := SortByTime(s[..n - 1], mtimes, ascending);
      calc {
        AtTime(SortByTime(s, mtimes, ascending), mtimes, v);
        { InsertByTimeStable(front, s[n - 1], mtimes, ascending, v); }
        AtTime(front + [s[n - 1]], mtimes, v);
        { AtTimeAppend(front, [s[n - 1]], mtimes, v); }
        AtTime(front, mtimes, v) + AtTime([s[n - 1]], mtimes, v);
        { SortByTimeStable(s[..n - 1], mtimes, ascending, v); }
        AtTime(s[..n - 1], mtimes, v) + AtTime([s[n - 1]], mtimes, v);
        { AtTimeAppend(s[..n - 1], [s[n - 1]], mtimes, v); assert s == s[..n - 1] + [s[n - 1]]; }
        AtTime(s, mtimes, v);
      }
    }
  }

  /**
   * The result is always a rearrangement of the input. When every file
   * still has a time it is ordered by time (oldest first when ascending,
   * newest first otherwise) and images with equal times keep their order;
   * when a file is gone the input comes back unchanged.
   */
  lemma SortImagesByTimeSpec(images: seq<Path>, mtimes: map<Path, real>, ascending: bool)
    ensures var r := SortImagesByTime(images, mtimes, ascending);
      multiset(r) == multiset(images)
      && (!AllStamped(images, mtimes) ==> r == images)
      && (AllStamped(images, mtimes) ==>
            (forall i, j :: 0 <= i < j < |r| ==>
               if ascending then MTime(mtimes, r[i]) <= MTime(mtimes, r[j])
               else MTime(mtimes, r[i]) >= MTime(mtimes, r[j]))
            && forall v :: AtTime(r, mtimes, v) == AtTime(images, mtimes, v))
  {
    var r := SortImagesByTime(images, mtimes, ascending);
    if images != [] && AllStamped(images, mtimes) {
      SortByTimePermutes(images, mtimes, ascending);
      SortByTimeOrdered(images, mtimes, ascending);
      forall v
        ensures AtTime(r, mtimes, v) == AtTime(images, mtimes, v)
      {
        SortByTimeStable(images, mtimes, ascending, v);
      }
    }
  }

  /* ---------------- preload_images ---------------- */

  const DefaultPreloadCount := 5

  /** The position `i` steps after `currentIndex`, wrapping round the list. */
  function Ahead(currentIndex: int, i: int, n: int): (k: int)
    requires n > 0
    ensures 0 <= k < n
  {
    (currentIndex + i) % n
  }

  /** The position `d` steps from `currentIndex`, either way, wrapping round the list. */
  function Around(currentIndex: int, d: int, n: int): (k: int)
    requires n > 0
    ensures 0 <= k < n
  {
    (currentIndex + d + n) % n
  }

  /** Every index of `indices` is a position of a list of length `n`. */
  predicate InBounds(indices: seq<int>, n: int)
  {
    forall j :: 0 <= j < |indices| ==> 0 <= indices[j] < n
  }

  /**
   * The indices `(current_index + i) % n` for the steps `i` from `step` to
   * `count` that are not cached, stopping after the step that reaches the
   * last image when not looping.
   */
  function Candidates(currentIndex: int, n: int, count: int, loop: bool, cached: set<int>, step: int): (r: seq<int>)
    requires n > 0
    ensures InBounds(r, n)
    ensures forall k :: k in r ==> k !in cached
    decreases count - step + 1
  {
    if step > count then []
    else
      var next := Ahead(currentIndex, step, n);
      var here := if next in cached then [] else [next];
      if !loop && currentIndex + step >= n - 1 then here
      else here + Candidates(currentIndex, n, count, loop, cached, step + 1)
  }

  /** Loading `indices` in order: a picture that decodes is cached, one that does not is dropped. */
  function LoadInto<P>(cache: map<int, P>, indices: seq<int>, images: seq<Path>, decoded: map<Path, P>): map<int, P>
    requires InBounds(indices, |images|)
    decreases |indices|
  {
    if indices == [] then cache
    else
      var n := |indices|;
      var c := LoadInto(cache, indices[..n - 1], images, decoded);
      var k := indices[n - 1];
      if images[k] in decoded then c[k := decoded[images[k]]] else c - {k}
  }

  /** `keys_to_keep`: the indices at most `2 * count` steps either side of the current one. */
  function KeepWindow(currentIndex: int, count: int, n: int): set<int>
    requires n > 0
  {
    set d | -2 * count <= d <= 2 * count :: Around(currentIndex, d, n)
  }

  /** The entries of `m` whose keys are in `keep`. */
  function Restrict<P>(m: map<int, P>, keep: set<int>): map<int, P>
  {
    map k | k in m && k in keep :: m[k]
  }

  /** The cache `preload_images` leaves behind. */
  function Preloaded<P>(images: seq<Path>, currentIndex: int, cache: map<int, P>, loop: bool, count: int,
                        decoded: map<Path, P>): map<int, P>
  {
    if images == [] then map[]
    else
      var n := |images|;
      var indices := Candidates(currentIndex, n, count, loop, cache.Keys, 1);
      Restrict(LoadInto(cache, indices, images, decoded), KeepWindow(currentIndex, count, n))
  }

  /** `preload_images`; the returned map is the cache after the call. */
  method PreloadImages<P>(images: seq<Path>, currentIndex: int, cache: map<int, P>, loop: bool, count: int,
                          decoded: map<Path, P>) returns (r: map<int, P>)
    ensures r == Preloaded(images, currentIndex, cache, loop, count, decoded)
  {
    if images == [] {
      return map[];
    }
    var n := |images|;
    var indices := CollectCandidates(currentIndex, n, count, loop, cache);
    r := LoadCandidates(cache, indices, images, decoded);
    var keep := KeysToKeep(currentIndex, count, n);
    r := Evict(r, keep);
  }

  /** The loop over the steps 1 to `count` that picks the indices to load. */
  method CollectCandidates<P>(currentIndex: int, n: int, count: int, loop: bool, cache: map<int, P>)
    returns (indices: seq<int>)
    requires n > 0
    ensures indices == Candidates(currentIndex, n, count, loop, cache.Keys, 1)
  {
    indices := [];
    var i := 1;
    while i <= count
      invariant 1 <= i && (i == 1 || i <= count + 1)
      invariant indices + Candidates(currentIndex, n, count, loop, cache.Keys, i)
             == Candidates(currentIndex, n, count, loop, cache.Keys, 1)
      decreases count - i
    {
      var next := Ahead(currentIndex, i, n);
      ghost var here := if next in cache then [] else [next];
      ghost var before := indices;
      if next !in cache {
        indices := indices + [next];
      }
      assert indices == before + here;
      if !loop && currentIndex + i >= n - 1 {
        assert Candidates(currentIndex, n, count, loop, cache.Keys, i) == here;
        return;
      }
      ghost var rest := Candidates(currentIndex, n, count, loop, cache.Keys, i + 1);
      assert Candidates(currentIndex, n, count, loop, cache.Keys, i) == here + rest;
      AppendAssoc(before, here, rest);
      i := i + 1;
    }
  }

  lemma AppendAssoc<T>(a: seq<T>, b: seq<T>, c: seq<T>)
    ensures a + (b + c) == (a + b) + c
  {
  }

  /** The loading loop over the chosen indices. */
  method LoadCandidates<P>(cache: map<int, P>, indices: seq<int>, images: seq<Path>, decoded: map<Path, P>)
    returns (c: map<int, P>)
    requires InBounds(indices, |images|)
    ensures c == LoadInto(cache, indices, images, decoded)
  {
    c := cache;
    var j := 0;
    while j < |indices|
      invariant 0 <= j <= |indices|
      invariant c == LoadInto(cache, indices[..j], images, decoded)
    {
      var k := indices[j];
      assert indices[..j + 1][..j] == indices[..j];
      if images[k] in decoded {
        c := c[k := decoded[images[k]]];
      } else if k in c {
        c := c - {k};
      }
      j := j + 1;
    }
    assert indices[..j] == indices;
  }

  /** The loop over the offsets from minus the window size to plus the window size. */
  method KeysToKeep(currentIndex: int, count: int, n: int) returns (keep: set<int>)
    requires n > 0
    ensures keep == KeepWindow(currentIndex, count, n)
  {
    var w := count * 2;
    keep := {};
    var i := -w;
    while i <= w
      invariant -w <= i && (i == -w || i <= w + 1)
      invariant keep == set d | -w <= d < i :: Around(currentIndex, d, n)
      decreases w - i
    {
      keep := keep + {Around(currentIndex, i, n)};
      i := i + 1;
    }
  }

  /** The eviction loop over a snapshot of the cache's keys. */
  method Evict<P>(cache: map<int, P>, keep: set<int>) returns (c: map<int, P>)
    ensures c == Restrict(cache, keep)
  {
    c := cache;
    var pending := cache.Keys;
    while pending != {}
      invariant pending <= cache.Keys
      invariant forall k :: k in c <==> k in cache && (k in keep || k in pending)
      invariant forall k :: k in c ==> c[k] == cache[k]
      decreases |pending|
    {
      assert (forall k :: k !in pending) ==> pending == {};
      var visit :| visit in pending;
      if visit !in keep {
        c := c - {visit};
      }
      pending := pending - {visit};
    }
    ghost var r := Restrict(cache, keep);
    assert forall k :: k in c <==> k in r;
    assert forall k :: k in c ==> c[k] == r[k];
  }

  /* ---------------- properties of the preload cache ---------------- */

  /** Every candidate is one of the next `count` images, not cached yet. */
  lemma {:induction false} CandidateSteps(currentIndex: int, n: int, count: int, loop: bool, cached: set<int>, step: int)
    requires n > 0 && step >= 1
    ensures var r := Candidates(currentIndex, n, count, loop, cached, step);
      |r| <= (if count >= step then count - step + 1 else 0)
      && forall k :: k in r ==> exists i :: step <= i <= count && k == Ahead(currentIndex, i, n)
    decreases count - step + 1
  {
    if step <= count {
      CandidateSteps(currentIndex, n, count, loop, cached, step + 1);
    }
  }

  /**
   * Without looping, from an image before the last one, only the images up
   * to the last are candidates: the scan does not wrap round.
   */
  lemma {:induction false} NoWrapWithoutLoop(currentIndex: int, n: int, count: int, cached: set<int>, step: int)
    requires n > 0 && 0 <= currentIndex && step >= 1 && currentIndex + step <= n - 1
    ensures forall k :: k in Candidates(currentIndex, n, count, false, cached, step) ==> currentIndex < k < n
    decreases count - step + 1
  {
    if step <= count && currentIndex + step < n - 1 {
      NoWrapWithoutLoop(currentIndex, n, count, cached, step + 1);
    }
  }

  /**
   * Without looping, at the last image the scan stops after one step, which
   * wraps round to the first image: index 0 is preloaded if it is not cached.
   */
  lemma LastImageWithoutLoop(n: int, count: int, cached: set<int>)
    requires n > 0 && count >= 1
    ensures Candidates(n - 1, n, count, false, cached, 1) == if 0 in cached then [] else [0]
  {
  }

  /** After preloading, every cached index is in range and within the keep window. */
  lemma PreloadWithinWindow<P>(images: seq<Path>, currentIndex: int, cache: map<int, P>, loop: bool, count: int,
                               decoded: map<Path, P>)
    requires images != []
    ensures forall k :: k in Preloaded(images, currentIndex, cache, loop, count, decoded) ==>
      0 <= k < |images| && exists d :: -2 * count <= d <= 2 * count && k == Around(currentIndex, d, |images|)
  {
  }

  /** A cached picture inside the window stays, unchanged. */
  lemma PreloadKeepsCached<P>(images: seq<Path>, currentIndex: int, cache: map<int, P>, loop: bool, count: int,
                              decoded: map<Path, P>, k: int)
    requires images != [] && k in cache && k in KeepWindow(currentIndex, count, |images|)
    ensures var r := Preloaded(images, currentIndex, cache, loop, count, decoded);
      k in r && r[k] == cache[k]
  {
    var indices := Candidates(currentIndex, |images|, count, loop, cache.Keys, 1);
    LoadIntoOthers(cache, indices, images, decoded, k);
  }

  /**
   * A candidate is cached afterwards exactly when its file decodes, and then
   * holds the decoded picture; nothing outside the cache and the candidates
   * is added.
   */
  lemma PreloadLoadsCandidates<P>(images: seq<Path>, currentIndex: int, cache: map<int, P>, loop: bool, count: int,
                                  decoded: map<Path, P>)
    requires images != [] && count >= 0
    ensures var r := Preloaded(images, currentIndex, cache, loop, count, decoded);
      var indices := Candidates(currentIndex, |images|, count, loop, cache.Keys, 1);
      (forall k :: k in indices ==>
         (k in r <==> images[k] in decoded) && (k in r ==> r[k] == decoded[images[k]]))
      && (forall k :: k in r ==> k in cache || k in indices)
  {
    var n := |images|;
    var indices := Candidates(currentIndex, n, count, loop, cache.Keys, 1);
    CandidateSteps(currentIndex, n, count, loop, cache.Keys, 1);
    forall k | k in indices
      ensures k in KeepWindow(currentIndex, count, n)
    {
      var i :| 1 <= i <= count && k == Ahead(currentIndex, i, n);
      assert -2 * count <= i <= 2 * count;
      ModShift(currentIndex + i, n);
      assert k == Around(currentIndex, i, n);
    }
    forall k | k in indices
      ensures k in LoadInto(cache, indices, images, decoded) <==> images[k] in decoded
      ensures k in LoadInto(cache, indices, images, decoded) ==>
        LoadInto(cache, indices, images, decoded)[k] == decoded[images[k]]
    {
      LoadIntoCandidate(cache, indices, images, decoded, k);
    }
    LoadIntoKeys(cache, indices, images, decoded);
  }

  /** Every cached picture is the decoded picture of the image at its index. */
  predicate CacheMatches<P(==)>(cache: map<int, P>, images: seq<Path>, decoded: map<Path, P>)
  {
    forall k :: k in cache ==> 0 <= k < |images| && images[k] in decoded && cache[k] == decoded[images[k]]
  }

  /** Preloading from the decoded pictures keeps a cache that matches the images matching. */
  lemma PreloadKeepsMatching<P>(images: seq<Path>, currentIndex: int, cache: map<int, P>, loop: bool, count: int,
                                decoded: map<Path, P>)
    requires CacheMatches(cache, images, decoded)
    ensures CacheMatches(Preloaded(images, currentIndex, cache, loop, count, decoded), images, decoded)
  {
    if images != [] && count < 0 {
      assert Candidates(currentIndex, |images|, count, loop, cache.Keys, 1) == [];
    } else if images != [] {
      var r := Preloaded(images, currentIndex, cache, loop, count, decoded);
      var indices := Candidates(currentIndex, |images|, count, loop, cache.Keys, 1);
      PreloadLoadsCandidates(images, currentIndex, cache, loop, count, decoded);
      forall k | k in r
        ensures 0 <= k < |images| && images[k] in decoded && r[k] == decoded[images[k]]
      {
        if k !in indices {
          LoadIntoOthers(cache, indices, images, decoded, k);
        }
      }
    }
  }

  lemma ModShift(x: int, n: int)
    requires n > 0
    ensures (x + n) % n == x % n
  {
    var q := x / n;
    var r := x % n;
    assert x + n == (q + 1) * n + r;
    ModUnique(x + n, n, q + 1, r);
  }

  /** The remainder is the unique `r` in `[0, n)` with `y == q * n + r`. */
  lemma ModUnique(y: int, n: int, q: int, r: int)
    requires n > 0 && 0 <= r < n && y == q * n + r
    ensures y % n == r
  {
    var q' := y / n;
    var r' := y % n;
    assert (q - q') * n == r' - r;
    MulSign(q - q', n);
  }

  lemma MulSign(a: int, n: int)
    requires n > 0
    ensures a >= 1 ==> a * n >= n
    ensures a <= -1 ==> a * n <= -n
  {
  }

  lemma {:induction false} LoadIntoOthers<P>(cache: map<int, P>, indices: seq<int>, images: seq<Path>,
                                             decoded: map<Path, P>, k: int)
    requires InBounds(indices, |images|)
    requires k in cache && k !in indices
    ensures k in LoadInto(cache, indices, images, decoded) && LoadInto(cache, indices, images, decoded)[k] == cache[k]
    decreases |indices|
  {
    if indices != [] {
      var n := |indices|;
      assert indices[n - 1] in indices;
      assert forall j :: j in indices[..n - 1] ==> j in indices;
      LoadIntoOthers(cache, indices[..n - 1], images, decoded, k);
    }
  }

  lemma {:induction false} LoadIntoCandidate<P>(cache: map<int, P>, indices: seq<int>, images: seq<Path>,
                                                decoded: map<Path, P>, k: int)
    requires InBounds(indices, |images|)
    requires k in indices
    ensures var c := LoadInto(cache, indices, images, decoded);
      (k in c <==> images[k] in decoded) && (k in c ==> c[k] == decoded[images[k]])
    decreases |indices|
  {
    var n := |indices|;
    assert forall j :: j in indices[..n - 1] ==> j in indices;
    if indices[n - 1] != k {
      assert k in indices[..n - 1] by {
        assert indices == indices[..n - 1] + [indices[n - 1]];
      }
      LoadIntoCandidate(cache, indices[..n - 1], images, decoded, k);
    }
  }

  lemma {:induction false} LoadIntoKeys<P>(cache: map<int, P>, indices: seq<int>, images: seq<Path>,
                                           decoded: map<Path, P>)
    requires InBounds(indices, |images|)
    ensures forall k :: k in LoadInto(cache, indices, images, decoded) ==> k in cache || k in indices
    decreases |indices|
  {
    if indices != [] {
      var n := |indices|;
      assert forall j :: j in indices[..n - 1] ==> j in indices;
      LoadIntoKeys(cache, indices[..n - 1], images, decoded);
    }
  }
}
