/** The subtask generator (src/task.py): from a centre point, a zoom
    multiplier and a window [offset, offset + count) of frame indices it
    produces one GeomandelData record per frame, in frame order. */
module Task {
  import opened Core
  import Decimal

  /** Absolute path of the image of frame `index`. `root` is the project's
      root directory (utils.PROJECT_ROOT), whose value is not part of this
      model. */
  function LocalOutputPath(root: string, index: int): (path: string)
    ensures |path| >= |root| + 20
    ensures path[..|root| + 8] == root + "/output/" && path[|path| - 4..] == ".png"
  {
    root + "/output/output-" + Decimal.IntToString(index) + ".png"
  }

  /** Two frames share an output file exactly when they are the same frame. */
  lemma LocalOutputPathInjective(root: string, a: int, b: int)
    ensures LocalOutputPath(root, a) == LocalOutputPath(root, b) <==> a == b
  {
    var path := LocalOutputPath(root, a);
    if path == LocalOutputPath(root, b) {
      var prefix := root + "/output/output-";
      var sa, sb := Decimal.IntToString(a), Decimal.IntToString(b);
      assert path == prefix + sa + ".png" == prefix + sb + ".png";
      assert |sa| == |sb|;
      assert sa == path[|prefix|..|prefix| + |sa|] == sb;
      Decimal.IntToStringInjective(a, b);
    }
  }

  /** Zoom factor of frame n: the n-th power of the multiplier. */
  function ZoomAt(multiplier: real, n: nat): (z: real)
    decreases n
  {
    if n == 0 then 1.0 else ZoomAt(multiplier, n - 1) * multiplier
  }

  /** Powers add: the zoom of frame a + b is the zoom of frame a scaled by b
      further steps. */
  lemma {:induction false} ZoomAtAdd(multiplier: real, a: nat, b: nat)
    ensures ZoomAt(multiplier, a + b) == ZoomAt(multiplier, a) * ZoomAt(multiplier, b)
    decreases b
  {
    if b > 0 {
      ZoomAtAdd(multiplier, a, b - 1);
    }
  }

  /** With multiplier 1 every frame has zoom 1. */
  lemma {:induction false} ZoomAtOne(n: nat)
    ensures ZoomAt(1.0, n) == 1.0
  {
    if n > 0 {
      ZoomAtOne(n - 1);
    }
  }

  /** A positive multiplier gives a positive zoom in every frame. */
  lemma {:induction false} ZoomAtPositive(multiplier: real, n: nat)
    requires multiplier > 0.0
    ensures ZoomAt(multiplier, n) > 0.0
  {
    if n > 0 {
      ZoomAtPositive(multiplier, n - 1);
    }
  }

  /** A multiplier of at least 1 never zooms out from one frame to a later one. */
  lemma {:induction false} ZoomAtMonotone(multiplier: real, a: nat, b: nat)
    requires multiplier >= 1.0 && a <= b
    ensures 1.0 <= ZoomAt(multiplier, a) <= ZoomAt(multiplier, b)
    decreases b
  {
    if a < b {
      ZoomAtMonotone(multiplier, a, b - 1);
      var z := ZoomAt(multiplier, b - 1);
      assert z * multiplier - z == z * (multiplier - 1.0) >= 0.0;
    } else if a > 0 {
      ZoomAtMonotone(multiplier, a - 1, a - 1);
      var z := ZoomAt(multiplier, a - 1);
      assert z * multiplier - z == z * (multiplier - 1.0) >= 0.0;
    }
  }

  /** The first n values yielded by the infinite zoom generator
      _zoom_sequence: it yields a running product that starts at 1.0 and is
      multiplied by `multiplier` after each yield. */
  method ZoomSequence(multiplier: real, n: nat) returns (zooms: seq<real>)
    ensures |zooms| == n
    ensures forall k :: 0 <= k < n ==> zooms[k] == ZoomAt(multiplier, k)
  {
    var currentZoom := 1.0;
    zooms := [];
    while |zooms| < n
      invariant |zooms| <= n
      invariant currentZoom == ZoomAt(multiplier, |zooms|)
      invariant forall k :: 0 <= k < |zooms| ==> zooms[k] == ZoomAt(multiplier, k)
    {
      zooms := zooms + [currentZoom];
      currentZoom := currentZoom * multiplier;
    }
  }

  /** A generator that never stops, seen as the value it yields at each position. */
  type Stream = nat -> real

  /** The zoom generator as a stream: position n holds the n-th power of the multiplier. */
  function ZoomStream(multiplier: real): (stream: Stream)
    ensures stream(0) == 1.0
    ensures forall n: nat :: stream(n + 1) == stream(n) * multiplier
  {
    (n: nat) => ZoomAt(multiplier, n)
  }

  /** itertools.islice(stream, start, stop) over an infinite stream: the
      values at positions start .. stop - 1, and nothing when stop <= start. */
  function Islice(stream: Stream, start: nat, stop: nat): (window: seq<real>)
    ensures |window| == if start <= stop then stop - start else 0
    ensures forall i :: 0 <= i < |window| ==> window[i] == stream(start + i)
  {
    if stop <= start then [] else seq(stop - start, i requires 0 <= i => stream(start + i))
  }

  /** Adjacent slices of one stream concatenate to the slice that covers both. */
  lemma IsliceConcat(stream: Stream, a: nat, b: nat, c: nat)
    requires a <= b <= c
    ensures Islice(stream, a, b) + Islice(stream, b, c) == Islice(stream, a, c)
  {
  }

  /** sys.maxsize on a 64-bit platform: the largest index islice accepts. */
  const MaxSize: int := 0x7fff_ffff_ffff_ffff

  /** What islice accepts: a start and a stop between 0 and sys.maxsize (it
      raises ValueError otherwise; nothing in the generator catches it). */
  predicate ValidWindow(offset: int, count: int) {
    0 <= offset <= MaxSize && 0 <= offset + count <= MaxSize
  }

  /** _zoom_sequence_limited: the zoom factors of frames offset .. offset + count - 1. */
  function ZoomSequenceLimited(offset: int, count: int, multiplier: real): (zooms: seq<real>)
    requires ValidWindow(offset, count)
    ensures |zooms| == if count >= 0 then count else 0
    ensures forall i :: 0 <= i < |zooms| ==> zooms[i] == ZoomAt(multiplier, offset + i)
  {
    Islice(ZoomStream(multiplier), offset, offset + count)
  }

  /** The records create_geomandel_tasks yields, in order: record i belongs
      to frame offset + i, keeps the centre point and carries that frame's
      zoom and output path. A negative count yields nothing. */
  function GeomandelTasks(p: MandelbrotGenerationParameters, root: string): (tasks: seq<GeomandelData>)
    requires ValidWindow(p.offset, p.count)
    ensures |tasks| == if p.count >= 0 then p.count else 0
    ensures forall i :: 0 <= i < |tasks| ==>
      tasks[i] == GeomandelData(p.x, p.y, ZoomAt(p.multiplier, p.offset + i), LocalOutputPath(root, p.offset + i))
  {
    var zooms := ZoomSequenceLimited(p.offset, p.count, p.multiplier);
    seq(|zooms|, i requires 0 <= i < |zooms| =>
      GeomandelData(p.x, p.y, zooms[i], LocalOutputPath(root, p.offset + i)))
  }

  /** The records of one run name pairwise distinct output files. */
  lemma OutputPathsDistinct(p: MandelbrotGenerationParameters, root: string, i: nat, j: nat)
    requires ValidWindow(p.offset, p.count)
    requires i < |GeomandelTasks(p, root)| && j < |GeomandelTasks(p, root)|
    ensures GeomandelTasks(p, root)[i].outputPath == GeomandelTasks(p, root)[j].outputPath <==> i == j
  {
    LocalOutputPathInjective(root, p.offset + i, p.offset + j);
  }

  /** Windows compose: frames [o, o + c) followed by frames [o + c, o + c + k)
      are exactly the frames [o, o + c + k), so a run can be resumed where
      the previous one stopped. */
  lemma WindowsCompose(p: MandelbrotGenerationParameters, root: string, c: nat, k: nat)
    requires ValidWindow(p.offset, c + k)
    ensures GeomandelTasks(p.(count := c), root) + GeomandelTasks(p.(offset := p.offset + c, count := k), root)
         == GeomandelTasks(p.(count := c + k), root)
  {
  }

  /** With multiplier 1 every record has zoom 1. */
  lemma ConstantZoomForUnitMultiplier(p: MandelbrotGenerationParameters, root: string)
    requires ValidWindow(p.offset, p.count) && p.multiplier == 1.0
    ensures forall i :: 0 <= i < |GeomandelTasks(p, root)| ==> GeomandelTasks(p, root)[i].zoom == 1.0
  {
    forall i | 0 <= i < |GeomandelTasks(p, root)|
      ensures GeomandelTasks(p, root)[i].zoom == 1.0
    {
      ZoomAtOne(p.offset + i);
    }
  }

  /** With a multiplier of at least 1 the zoom never decreases along the records
      and is at least 1 (so positive). */
  lemma ZoomNonDecreasing(p: MandelbrotGenerationParameters, root: string, i: nat, j: nat)
    requires ValidWindow(p.offset, p.count) && p.multiplier >= 1.0
    requires i <= j < |GeomandelTasks(p, root)|
    ensures 1.0 <= GeomandelTasks(p, root)[i].zoom <= GeomandelTasks(p, root)[j].zoom
  {
    var tasks := GeomandelTasks(p, root);
    assert tasks[i].zoom == ZoomAt(p.multiplier, p.offset + i);
    assert tasks[j].zoom == ZoomAt(p.multiplier, p.offset + j);
    ZoomAtMonotone(p.multiplier, p.offset + i, p.offset + j);
  }

  /** SubtaskGenerator: holds no state; its one method runs the generator. */
  class SubtaskGenerator {

    constructor () {}

    /** create_geomandel_tasks: pulls the zoom window out of the running-product
        generator, numbers its elements with enumerate and turns each into a
        record for the global frame index offset + inner index. */
    method CreateGeomandelTasks(p: MandelbrotGenerationParameters, root: string) returns (tasks: seq<GeomandelData>)
      requires ValidWindow(p.offset, p.count)
      ensures tasks == GeomandelTasks(p, root)
    {
      var window: seq<real> := [];
      if p.count > 0 {
        // islice advances the generator to the end of the window and keeps its tail
        var generated := ZoomSequence(p.multiplier, p.offset + p.count);
        window := generated[p.offset..];
      }
      tasks := [];
      for innerIndex := 0 to |window|
        invariant |tasks| == innerIndex
        invariant forall i :: 0 <= i < innerIndex ==>
          tasks[i] == GeomandelData(p.x, p.y, ZoomAt(p.multiplier, p.offset + i), LocalOutputPath(root, p.offset + i))
      {
        var frameIndex := p.offset + innerIndex;
        tasks := tasks + [GeomandelData(p.x, p.y, window[innerIndex], LocalOutputPath(root, frameIndex))];
      }
    }
  }
}
