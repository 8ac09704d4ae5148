/**
 * The work vectors `sample()` fills before the driver's own draws
 * (src/analyze.cpp:2136-2140 and 2150-2157): the ragged arrays of splice
 * parameters laid out row after row in a vector preallocated by `run()`
 * (src/analyze.cpp:1899-1913) to exactly the flattened size.
 */
module Flatten {
  import opened Params

  /** The rows of `rows` one after the other. */
  function Flatten(rows: seq<seq<real>>): (r: seq<real>)
    decreases |rows|
  {
    if rows == [] then [] else Flatten(rows[..|rows| - 1]) + rows[|rows| - 1]
  }

  /** Where row `j` starts in `Flatten(rows)`. */
  function Offset(rows: seq<seq<real>>, j: nat): nat
    requires j <= |rows|
  {
    |Flatten(rows[..j])|
  }

  /** The flattening of a prefix of the rows is a prefix of the flattening. */
  lemma {:induction false} FlattenPrefix(rows: seq<seq<real>>, j: nat)
    requires j <= |rows|
    ensures Flatten(rows[..j]) <= Flatten(rows)
    decreases |rows| - j
  {
    if j < |rows| {
      FlattenPrefix(rows, j + 1);
      assert rows[..j + 1][..j] == rows[..j];
    } else {
      assert rows[..j] == rows;
    }
  }

  /** Entry k of row j lands at `Offset(rows, j) + k`. */
  lemma FlattenAt(rows: seq<seq<real>>, j: nat, k: nat)
    requires j < |rows| && k < |rows[j]|
    ensures Offset(rows, j) + k < |Flatten(rows)|
    ensures Flatten(rows)[Offset(rows, j) + k] == rows[j][k]
  {
    assert rows[..j + 1][..j] == rows[..j];
    assert Flatten(rows[..j + 1]) == Flatten(rows[..j]) + rows[j];
    FlattenPrefix(rows, j + 1);
  }

  /** Rows of the same lengths flatten to the same length, and their rows start at the same offsets. */
  lemma {:induction false} FlattenSameShape(a: seq<seq<real>>, b: seq<seq<real>>, j: nat)
    requires |a| == |b| && j <= |a| && forall g :: 0 <= g < |a| ==> |a[g]| == |b[g]|
    ensures |Flatten(a[..j])| == |Flatten(b[..j])|
  {
    if j > 0 {
      FlattenSameShape(a, b, j - 1);
      assert a[..j][..j - 1] == a[..j - 1] && b[..j][..j - 1] == b[..j - 1];
    }
  }

  /** `flattened_sigma_size` after the first `j` spliced tgroups: their transcript counts summed. */
  function FlattenedSize(l: Layout, j: nat): nat
    requires l.Valid() && j <= l.S()
  {
    if j == 0 then 0 else FlattenedSize(l, j - 1) + |l.Tids(j - 1)|
  }

  /** Rows with one entry per transcript of each spliced tgroup flatten to `FlattenedSize`. */
  lemma {:induction false} FlattenSize(l: Layout, rows: seq<seq<real>>, j: nat)
    requires l.Valid() && j <= l.S() && |rows| == l.S()
    requires forall g :: 0 <= g < l.S() ==> |rows[g]| == |l.Tids(g)|
    ensures |Flatten(rows[..j])| == FlattenedSize(l, j)
  {
    if j > 0 {
      FlattenSize(l, rows, j - 1);
      assert rows[..j][..j - 1] == rows[..j - 1];
    }
  }

  /** The whole of such rows flattens to `flattened_sigma_size`. */
  lemma FlattenWhole(l: Layout, rows: seq<seq<real>>)
    requires l.Valid() && |rows| == l.S()
    requires forall g :: 0 <= g < l.S() ==> |rows[g]| == |l.Tids(g)|
    ensures |Flatten(rows)| == FlattenedSize(l, l.S())
  {
    FlattenSize(l, rows, l.S());
    assert rows[..l.S()] == rows;
  }

  /**
   * The double loop that copies row after row into the buffer with a
   * running index: from index 0, `work[i++] = rows[j][k]`.
   */
  method CopyRows(buf: seq<real>, rows: seq<seq<real>>) returns (work: seq<real>)
    requires |buf| == |Flatten(rows)|
    ensures work == Flatten(rows) && |work| == |buf|
  {
    work := buf;
    var i := 0;
    for j := 0 to |rows|
      invariant |work| == |buf| && i == Offset(rows, j) && i <= |work|
      invariant work[..i] == Flatten(rows[..j])
    {
      ghost var pre := work[..i];
      assert rows[..j + 1][..j] == rows[..j];
      assert Flatten(rows[..j + 1]) == pre + rows[j];
      FlattenPrefix(rows, j + 1);
      for k := 0 to |rows[j]|
        invariant |work| == |buf| && i == Offset(rows, j) + k
        invariant work[..i] == pre + rows[j][..k]
      {
        FlattenAt(rows, j, k);
        work := work[i := rows[j][k]];
        assert rows[j][..k + 1] == rows[j][..k] + [rows[j][k]];
        i := i + 1;
      }
      assert rows[j][..|rows[j]|] == rows[j];
    }
    assert rows[..|rows|] == rows;
  }

  /** Condition `c`'s deviations `condition_splice_mu[c][j][k] - experiment_splice_mu[j][k]`, tgroup by tgroup. */
  function ResidualRows(l: Layout, csm: seq<seq<seq<real>>>, esmu: seq<seq<real>>, c: nat): (r: seq<seq<real>>)
    requires l.Valid() && CsmShaped(l, csm) && EsmuShaped(l, esmu) && c < l.c
    ensures |r| == |esmu| && forall j :: 0 <= j < |esmu| ==> |r[j]| == |esmu[j]|
    ensures forall j, k :: 0 <= j < |esmu| && 0 <= k < |esmu[j]| ==> r[j][k] == csm[j][c][k] - esmu[j][k]
  {
    seq(|esmu|, j requires 0 <= j < |esmu| =>
      seq(|esmu[j]|, k requires 0 <= k < |esmu[j]| => csm[j][c][k] - esmu[j][k]))
  }

  /** Every condition's block of deviations, condition after condition. */
  function ResidualBlocks(l: Layout, csm: seq<seq<seq<real>>>, esmu: seq<seq<real>>): (r: seq<seq<real>>)
    requires l.Valid() && CsmShaped(l, csm) && EsmuShaped(l, esmu)
    ensures |r| == l.c && forall c :: 0 <= c < l.c ==> r[c] == Flatten(ResidualRows(l, csm, esmu, c))
  {
    seq(l.c, c requires 0 <= c < l.c => Flatten(ResidualRows(l, csm, esmu, c)))
  }

  /** Each condition's block is as long as the flattened `experiment_splice_mu`. */
  lemma BlockSizes(l: Layout, csm: seq<seq<seq<real>>>, esmu: seq<seq<real>>)
    requires l.Valid() && CsmShaped(l, csm) && EsmuShaped(l, esmu)
    ensures Uniform(ResidualBlocks(l, csm, esmu), |Flatten(esmu)|)
  {
    forall c | 0 <= c < l.c
      ensures |ResidualBlocks(l, csm, esmu)[c]| == |Flatten(esmu)|
    {
      var rows := ResidualRows(l, csm, esmu, c);
      FlattenSameShape(rows, esmu, |esmu|);
      assert rows[..|rows|] == rows && esmu[..|esmu|] == esmu;
    }
  }

  /** Every block has size `z`. */
  ghost predicate Uniform(blocks: seq<seq<real>>, z: nat)
  {
    forall g :: 0 <= g < |blocks| ==> |blocks[g]| == z
  }

  /** Blocks of equal size `z` start at multiples of `z`. */
  lemma {:induction false} UniformOffset(blocks: seq<seq<real>>, z: nat, c: nat)
    requires c <= |blocks| && Uniform(blocks, z)
    ensures Offset(blocks, c) == c * z
  {
    if c > 0 {
      UniformOffset(blocks, z, c - 1);
      assert blocks[..c][..c - 1] == blocks[..c - 1];
    }
  }

  /** With blocks of equal size `z`, entry x of block c lands at `c * z + x`. */
  lemma UniformAt(blocks: seq<seq<real>>, z: nat, c: nat, x: nat)
    requires c < |blocks| && x < z && Uniform(blocks, z)
    ensures c * z + x < |Flatten(blocks)| && Flatten(blocks)[c * z + x] == blocks[c][x]
  {
    UniformOffset(blocks, z, c);
    FlattenAt(blocks, c, x);
  }

  /** The flattened deviations: condition after condition, tgroup after tgroup. */
  function Residuals(l: Layout, csm: seq<seq<seq<real>>>, esmu: seq<seq<real>>): seq<real>
    requires l.Valid() && CsmShaped(l, csm) && EsmuShaped(l, esmu)
  {
    Flatten(ResidualBlocks(l, csm, esmu))
  }

  /** Where the deviation of (c, j, k) goes: after c whole blocks of the flattened `esmu` size, then as in `esmu`. */
  function ResidualIndex(esmu: seq<seq<real>>, c: nat, j: nat, k: nat): nat
    requires j <= |esmu|
  {
    c * |Flatten(esmu)| + Offset(esmu, j) + k
  }

  /** Within condition c's block, the deviation of (j, k) is where `esmu[j][k]` is in the flattened `esmu`. */
  lemma BlockAt(l: Layout, csm: seq<seq<seq<real>>>, esmu: seq<seq<real>>, c: nat, j: nat, k: nat)
    requires l.Valid() && CsmShaped(l, csm) && EsmuShaped(l, esmu)
    requires c < l.c && j < l.S() && k < |esmu[j]|
    ensures Offset(esmu, j) + k < |Flatten(ResidualRows(l, csm, esmu, c))|
    ensures Flatten(ResidualRows(l, csm, esmu, c))[Offset(esmu, j) + k] == csm[j][c][k] - esmu[j][k]
  {
    var rows := ResidualRows(l, csm, esmu, c);
    FlattenAt(rows, j, k);
    FlattenSameShape(rows, esmu, j);
  }

  /** The deviation of (c, j, k) is at `ResidualIndex(esmu, c, j, k)`. */
  lemma ResidualAt(l: Layout, csm: seq<seq<seq<real>>>, esmu: seq<seq<real>>, c: nat, j: nat, k: nat)
    requires l.Valid() && CsmShaped(l, csm) && EsmuShaped(l, esmu)
    requires c < l.c && j < l.S() && k < |esmu[j]|
    ensures ResidualIndex(esmu, c, j, k) < |Residuals(l, csm, esmu)|
    ensures Residuals(l, csm, esmu)[ResidualIndex(esmu, c, j, k)] == csm[j][c][k] - esmu[j][k]
  {
    var blocks, z, inner := ResidualBlocks(l, csm, esmu), |Flatten(esmu)|, Offset(esmu, j) + k;
    BlockAt(l, csm, esmu, c, j, k);
    BlockSizes(l, csm, esmu);
    UniformAt(blocks, z, c, inner);
    assert blocks[c] == Flatten(ResidualRows(l, csm, esmu, c));
    assert ResidualIndex(esmu, c, j, k) == c * z + inner;
  }

  /**
   * `experiment_splice_sigma_work`: for each condition c, then each spliced
   * tgroup j, then each transcript k of it, the deviation of the condition
   * mu from the experiment mu, as `ResidualAt` places them.
   */
  method FlattenResiduals(buf: seq<real>, l: Layout, csm: seq<seq<seq<real>>>, esmu: seq<seq<real>>) returns (work: seq<real>)
    requires l.Valid() && CsmShaped(l, csm) && EsmuShaped(l, esmu)
    requires |buf| == l.c * |Flatten(esmu)|
    ensures work == Residuals(l, csm, esmu) && |work| == |buf|
  {
    var blocks := ResidualBlocks(l, csm, esmu);
    BlockSizes(l, csm, esmu);
    UniformOffset(blocks, |Flatten(esmu)|, |blocks|);
    assert blocks[..|blocks|] == blocks;
    work := CopyRows(buf, blocks);
  }

  /**
   * Both work vectors of `sample()` filled from buffers of the sizes `run()`
   * gives them (src/analyze.cpp:1899-1913): each keeps its size.
   * `condition_splice_sigma_work` holds every spliced tgroup's sigmas, tgroup
   * after tgroup (src/analyze.cpp:2136-2140); by `FlattenAt` the k-th sigma of
   * tgroup j is at `Offset(sigma, j) + k`.
   */
  method FillWork(l: Layout, sigma: seq<seq<real>>, csm: seq<seq<seq<real>>>, esmu: seq<seq<real>>,
                  sigmaBuf: seq<real>, residualBuf: seq<real>) returns (sigmaWork: seq<real>, residualWork: seq<real>)
    requires l.Valid() && CsmShaped(l, csm) && EsmuShaped(l, esmu)
    requires |sigma| == l.S() && forall g :: 0 <= g < l.S() ==> |sigma[g]| == |l.Tids(g)|
    requires |sigmaBuf| == FlattenedSize(l, l.S()) && |residualBuf| == l.c * FlattenedSize(l, l.S())
    ensures sigmaWork == Flatten(sigma) && residualWork == Residuals(l, csm, esmu)
    ensures |sigmaWork| == |sigmaBuf| && |residualWork| == |residualBuf|
  {
    FlattenWhole(l, sigma);
    FlattenWhole(l, esmu);
    sigmaWork := CopyRows(sigmaBuf, sigma);
    residualWork := FlattenResiduals(residualBuf, l, csm, esmu);
  }
}
