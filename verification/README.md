# Gradient-table check, modelled in Dafny

A model of the small check script of the MRtrix3 preprocessing app
(`test/check.py`). The script reads a diffusion gradient table, one line per
volume with a direction `(x, y, z)` and a b-value. It splits the table into
two halves and asks, for each line `v` of the first half, whether it describes
the same diffusion gradient as line `v + n/2` of the second half. The
matching predicate `grads_match` was taken from MRtrix3's `dwipreproc`.

Two modules:

- `Gradients` (`gradients.dfy`) holds the predicate at two levels.
  `GradsMatch` works on a four-field `Gradient` record over `real`: zero
  directions match only zero directions; two non-zero directions need
  `|dot| >= 0.999`; b-values may differ by at most `10`.
  `GradsMatchList` models the code of `grads_match` over the parsed list of
  numbers (type `Line`). It
  includes the index error that a line with fewer than three or four numbers
  raises when no earlier test has already returned. The two levels are proved
  to agree on every record of four or more numbers. Entries after the fourth
  are proved never to matter.
- `Driver` (`driver.dfy`) holds the main loop. `Pairs(n)` gives the index
  pairs `(v, v + n/2)` for `v < n/2`. Python 2 `/` on the non-negative length
  is floor division, which is Dafny's `/` on `nat`. `CheckTable` runs the
  loop over a parsed table and returns the comparisons it made. It returns
  `Aborted` at the first pair whose comparison raises an index error, since
  the script does not catch that error.

It is tempting to read the loop as failing with an out-of-range access when the
number of lines is odd. The code does not do that, and the model follows the
code. With floor division, `v + n/2 <= 2*(n/2) - 1 <= n - 1` for
every `v < n/2`, so no access is out of range and the last line is never read.
`Pairs` and `PairsPartition` prove this.

## Model

| member | source | states |
|---|---|---|
| Gradients.GradsMatch | test/check.py:4-38 | the verdict is true iff the directions are both zero, or both non-zero with \|dot\| >= 0.999, and the b-values differ by at most 10; hence a zero/non-zero mix is rejected whatever the b-values, two zero directions are decided by the b-values alone, a non-zero pair with \|dot\| < 0.999 is rejected, and b-values more than 10 apart are rejected |
| Gradients.GradsMatchSymmetric | test/check.py:16-36 | swapping the two gradients never changes the verdict |
| Gradients.GradsMatchAntipodal | test/check.py:22-26 | negating either direction vector (the antipodal direction) never changes the verdict, because only \|dot\| is tested |
| Gradients.GradsMatchReflexive | test/check.py:16-38 | a gradient matches itself iff its direction is zero or its squared norm is at least 0.999, so every unit direction and every zero-direction volume (the usual encoding of a b=0 volume) matches itself |
| Gradients.ToGradient | test/check.py:16-30 | reading a list of four or more numbers as a record: `any(s[0:3])` is false exactly when the record's direction is zero |
| Gradients.GradsMatchList | test/check.py:4-38 | over parsed lists: with four or more numbers on both sides the outcome is the record verdict; an index error only arises when a list has fewer than four numbers; a true verdict has read both b-values; a zero/non-zero mix returns false without any indexing |
| Gradients.GradsMatchListFirstFour | test/check.py:16-34 | entries after index 3 of either list never change the outcome, short lists included |
| Gradients.GradsMatchListSymmetric | test/check.py:16-38 | over lists, swapping the arguments keeps the outcome, index errors included |
| Driver.PairsBelow | test/check.py:54-57 | the first `k` iterations of the loop read exactly the index pairs `(v, v + h)` for `v < k`, in order |
| Driver.Pairs | test/check.py:54-57 | a table of `n` lines gives `n/2` pairs (floor division); every first index is in `[0, n/2)`, every second index in `[n/2, n)`, both are below `n`, the two are `n/2` apart, and for odd `n` line `n-1` is never read |
| Driver.PairsPartition | test/check.py:54-57 | no line is read by two comparisons, and a line is read exactly when its index is below `2*(n/2)`: all lines for even `n`, all but the last for odd `n` |
| Driver.CheckTable | test/check.py:54-60 | the run compares the pairs of `Pairs(n)` in order, each verdict being the list predicate's on the two lines; it completes with `n/2` verdicts unless a comparison raises an index error, in which case it stops at that pair; it always completes when every line has four or more numbers |
| Driver.CheckWellFormedTable | test/check.py:54-60 | on a table whose lines all have four or more numbers there are `n/2` verdicts and verdict `v` is the record predicate on lines `v` and `v + n/2` |
| Driver.FourLineExample | test/check.py:54-60 | the table `1 0 0 1000`, `0 0 0 0`, `1 0 0 1005`, `0 0 0 0` gives the two comparisons (0, 2) and (1, 3), both true |

## Left out

- Reading the file `grad` and stripping its lines (test/check.py:44-48): file I/O. The model starts from the table as a sequence of parsed lines.
- Converting tokens with `float(...)` (test/check.py:56-57): a library routine. A line is modelled as the list of reals it parses to, and a malformed token is outside the model. A short line is modelled, through the index error it raises in the predicate.
- Printing the index pair, the two records and the verdict (test/check.py:55, 58, 60): console output. The printed verdicts and pairs appear as the `comparisons` of the returned `Trace`. The index line and records line printed before an aborting comparison are not modelled.
- IEEE-754 arithmetic: the model uses exact reals. Rounding of the dot product, `-0.0` (falsy in `any`), NaN (truthy in `any`, never `< 0.999`) and infinities are not modelled. Symmetry and antipodal invariance do not depend on rounding: a floating-point product commutes, and negation is exact.
- Python 3's `len(content)/2`, which would be a float and fail in `range`: the script's `#!/usr/bin/python` line selects Python 2, whose integer division is modelled.
