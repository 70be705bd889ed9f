# Geomandel subtask generator

A Dafny model of the subtask generator of golem-geomandel, a requestor that
renders Mandelbrot zoom sequences on the Golem compute marketplace. Given a
centre point `(x, y)`, a zoom `multiplier`, a first frame index `offset` and a
frame `count`, the generator yields one `GeomandelData` record per frame of the
window `[offset, offset + count)`: the unchanged centre point, the frame's zoom
and the local path its image is downloaded to.

- `core.dfy` (module `Core`): the records `GeomandelData` and
  `MandelbrotGenerationParameters` of `src/core.py`, as datatypes.
- `decimal.dfy` (module `Decimal`): Python's `str()` of an int, which names
  each frame's output file, with its read-back and injectivity.
- `task.dfy` (module `Task`): `src/task.py`. The infinite zoom generator is a
  method whose loop keeps the running product (`ZoomSequence`) and is proved
  equal to the closed form `ZoomAt(m, n) = m^n`; `islice` is a function on a
  stream seen as an index function; `create_geomandel_tasks` is a method whose
  `for` loop numbers the zoom window and is proved equal to the specification
  function `GeomandelTasks`, about which the remaining lemmas are stated.

Python floats are modelled as exact reals, so the running product and the
power agree exactly. `utils.PROJECT_ROOT` is not part of this model: it is the
`root` parameter of every operation that builds a path, and every property
holds for any value of it.

The model follows the code in three places:
- the zoom is a running product recomputed from frame 0 on every call;
  `ZoomSequence` proves it equals multiplier^n over exact reals;
- nothing rejects a non-positive multiplier, so no operation does;
  positivity of the zoom is a lemma that assumes a positive multiplier;
- `offset` and `count` are not validated; `islice` raises `ValueError` for a
  start or stop below 0 or above `sys.maxsize` (2^63 - 1 on a 64-bit
  platform), and nothing in the generator catches it, so the model requires
  `0 <= offset <= MaxSize` and `0 <= offset + count <= MaxSize`
  (`ValidWindow`). A negative `count` within those bounds yields no records,
  as `islice` does when stop is below start.

## Model

| member | source | states |
|---|---|---|
| `Decimal.Digits` | src/task.py:13 | the numeral of a non-negative frame index is a non-empty string of decimal digits with no leading zero (0 is written "0") |
| `Decimal.DigitsRoundTrip` | src/task.py:13 | reading back the digits of n gives n |
| `Decimal.IntToString` | src/task.py:13 | `str()` of an int is non-empty, starts with `-` exactly when the int is negative, and is otherwise all decimal digits |
| `Decimal.IntToStringInjective` | src/task.py:13 | `str()` of two ints is equal exactly when the ints are equal |
| `Task.LocalOutputPath` | src/task.py:11-13 | the output path lies in the `output` directory under the project root (`root + "/output/"`) and ends in `.png` |
| `Task.ZoomStream` | src/task.py:15-20 | the zoom generator yields 1.0 first and each later value is the previous one times the multiplier |
| `Task.LocalOutputPathInjective` | src/task.py:11-13 | two frame indices share an output path exactly when they are equal |
| `Task.ZoomSequence` | src/task.py:15-20 | the first n values of the running product starting at 1.0 and multiplied by the multiplier after each yield are multiplier^0 .. multiplier^(n-1) |
| `Task.ZoomAtAdd` | src/task.py:17-20 | the zoom of frame a + b is the zoom of frame a times b further multiplications |
| `Task.ZoomAtOne` | src/task.py:17-20 | with multiplier 1 the generator yields 1 at every position |
| `Task.ZoomAtPositive` | src/task.py:17-20 | a positive multiplier gives a positive zoom at every position |
| `Task.ZoomAtMonotone` | src/task.py:17-20 | with a multiplier of at least 1 the zoom is at least 1 and never decreases from a position to a later one |
| `Task.Islice` | src/task.py:24 | `islice` of an infinite stream has stop - start elements (none when stop <= start) and element i is the stream's element start + i |
| `Task.IsliceConcat` | src/task.py:22-24 | adjacent slices of one stream concatenate to the slice covering both |
| `Task.ZoomSequenceLimited` | src/task.py:22-24 | the limited zoom sequence has count elements (none for a negative count) and element i is multiplier^(offset + i) |
| `Task.GeomandelTasks` | src/task.py:38-41 | exactly count records; record i keeps x and y, has zoom multiplier^(offset + i) and the output path of global frame offset + i |
| `Task.SubtaskGenerator.CreateGeomandelTasks` | src/task.py:26-41 | the loop over the enumerated zoom window yields exactly the records `GeomandelTasks` describes |
| `Task.OutputPathsDistinct` | src/task.py:38-41 | two records of one run have the same output path exactly when they are the same record |
| `Task.WindowsCompose` | src/task.py:22-41 | the records of frames [o, o + c) followed by those of [o + c, o + c + k) are the records of [o, o + c + k) |
| `Task.ConstantZoomForUnitMultiplier` | src/task.py:17-24 | with multiplier 1 every record has zoom 1 |
| `Task.ZoomNonDecreasing` | src/task.py:17-24 | with a multiplier of at least 1 the records' zooms are at least 1 and never decrease along the run |

## Left out

- IEEE-754 arithmetic of the running product: zoom is an exact real, so neither the rounding drift of a long float product, nor overflow to infinity (multiplier 2.0 reaches `inf` at frame 1024), nor underflow to zero (multiplier 0.5 reaches 0.0 at frame 1075) is modelled; `ZoomAtPositive`, `ZoomAtMonotone` and `ZoomNonDecreasing` hold of exact reals only.
- Laziness of the Python generators: the infinite stream is an index function and each window a finite sequence; when elements are computed is not modelled.
- `utils.PROJECT_ROOT`: the utils module is not part of this model; its value is the `root` parameter.
- The `ValueError` that `islice` raises for an offset or offset + count below 0 or above `sys.maxsize` is not modelled as a result; it is excluded by a precondition, since nothing in the generator catches it.
- `src/engine.py`: asynchronous dispatch of the records to the external Golem engine (sending JSON, running the renderer remotely, downloading files); networked calls into a library that is not part of this model.
- `src/requestor.py`: command-line parsing, conversion of arguments to numbers, process exit and event-loop setup; I/O and library plumbing.
- `docker/scripts/mandel.py` and `docker/scripts/golem-mandel.py`: reading the JSON subtask on the worker and building a shell command for the external geomandel renderer; floating-point formatting into a foreign call.
