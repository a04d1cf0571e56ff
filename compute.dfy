/**
 * Shared vocabulary of the three scene scripts: optional values, compute-shader
 * dispatches and the two ways the scripts size a dispatch from a thread-group size.
 */
module Compute {
  import opened Arith

  datatype Option<T> = None | Some(value: T)

  /** A thread-group size as reported by GetKernelThreadGroupSizes: at least one thread. */
  type BlockSize = b: nat | 0 < b witness 1

  /** One ComputeShader.Dispatch call: the kernel and its thread-group counts. */
  datatype Dispatch<K> = Dispatch(kernel: K, groupsX: nat, groupsY: nat, groupsZ: nat)

  /** Number of dispatches of `kernel` in a command stream. */
  function CountKernel<K(==)>(log: seq<Dispatch<K>>, kernel: K): nat
  {
    if log == [] then 0
    else CountKernel(log[..|log| - 1], kernel) + (if log[|log| - 1].kernel == kernel then 1 else 0)
  }

  lemma {:induction false} CountKernelAppend<K>(a: seq<Dispatch<K>>, b: seq<Dispatch<K>>, kernel: K)
    ensures CountKernel(a + b, kernel) == CountKernel(a, kernel) + CountKernel(b, kernel)
    decreases |b|
  {
    if b == [] {
      assert a + b == a;
    } else {
      var last := |b| - 1;
      assert (a + b)[..|a + b| - 1] == a + b[..last];
      assert (a + b)[|a + b| - 1] == b[last];
      CountKernelAppend(a, b[..last], kernel);
    }
  }

  lemma CountKernelSingleton<K>(d: Dispatch<K>, kernel: K)
    ensures CountKernel([d], kernel) == if d.kernel == kernel then 1 else 0
  {
    assert [d][..0] == [];
  }

  /**
   * getGridDimFor: thread groups along one axis so that every one of the
   * resN cells gets a thread, computed as (resN + (B - 1)) / B.
   * It is the ceiling of resN / B: enough groups, and one group fewer would not be.
   */
  function GridDimFor(resN: nat, blockDim: BlockSize): (g: nat)
    ensures g * blockDim >= resN
    ensures (g - 1) * blockDim < resN
  {
    var a := resN + (blockDim - 1);
    assert a == blockDim * (a / blockDim) + a % blockDim;
    a / blockDim
  }

  /**
   * The grass dispatch count Mathf.CeilToInt(triangleCount / threadGroupSize):
   * both operands are integers, so the division truncates before CeilToInt sees it,
   * and CeilToInt of a whole number is that number.  The count rounds down.
   */
  function GrassThreadGroups(triangleCount: nat, groupSize: BlockSize): (g: nat)
    ensures g * groupSize <= triangleCount < (g + 1) * groupSize
  {
    assert triangleCount == groupSize * (triangleCount / groupSize) + triangleCount % groupSize;
    triangleCount / groupSize
  }

  /** The grass dispatch gives every triangle a thread exactly when the group size divides the count. */
  lemma GrassThreadGroupsCoverAll(triangleCount: nat, groupSize: BlockSize)
    ensures GrassThreadGroups(triangleCount, groupSize) * groupSize == triangleCount
            <==> triangleCount % groupSize == 0
  {
    var g := GrassThreadGroups(triangleCount, groupSize);
    assert triangleCount == groupSize * g + triangleCount % groupSize;
  }

  /** Where the two sizings differ: the grid rounding rounds up, the grass rounding down. */
  lemma {:induction false} GridDimExceedsGrassGroupsOnRemainder(n: nat, b: BlockSize)
    ensures n % b == 0 ==> GridDimFor(n, b) == GrassThreadGroups(n, b)
    ensures n % b != 0 ==> GridDimFor(n, b) == GrassThreadGroups(n, b) + 1
  {
    var f, r := n / b, n % b;
    assert n == f * b + r;
    if r == 0 {
      DivModOf(b, f, b - 1);
    } else {
      assert n + (b - 1) == (f + 1) * b + (r - 1);
      DivModOf(b, f + 1, r - 1);
    }
  }
}
