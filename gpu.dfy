/**
 * What the fluid simulation sees of the GPU: the device whose calls may fail, 32-bit floats kept
 * as bit patterns, the uniform data pushed to a kernel, workgroup counts, and the contents of a
 * 3D texture as a term over uninterpreted compute kernels.
 */
module Gpu {
  import opened Wrappers

  /** A C++ `float`, kept as its IEEE-754 binary32 bit pattern; the model never computes with one. */
  datatype Float = Float(bits: bv32)

  const Zero := Float(0x0000_0000)       // 0.0f
  const One := Float(0x3F80_0000)        // 1.0f
  const Hundredth := Float(0x3C23_D70A)  // 0.01f

  /** A block of uniform data pushed with SDL_PushGPUComputeUniformData. */
  datatype Uniform =
    | UInt(i: int)                       // an `int` (a boundary type, or a velocity axis)
    | UFloat(f: Float)                   // a `float` (a coefficient, or an injected value)
    | UPosition(x: int, y: int, z: int)  // a `glm::ivec3`
    | UDt(ticks: nat)                    // the global `dt`: the milliseconds of the last frame

  /** The workgroup counts of one SDL_DispatchGPUCompute. */
  datatype Groups = Groups(x: int, y: int, z: int)

  /** The compute kernels. Their shader code is not part of this model: each one is uninterpreted. */
  datatype Kernel =
    | Add1 | Add2 | Diffuse | Project1 | Project2 | Project3 | Advect1 | Advect2
    | Bnd1 | Bnd2 | Bnd3 | Bnd4 | Bnd5

  /**
   * The contents of a 3D texture. A kernel dispatch writes `Out(kernel, output, targets, samples,
   * uniforms, groups)` into the `output`-th texture it bound for reading and writing, where
   * `targets` are the contents of all such textures before the dispatch and `samples` are the
   * contents of the textures it sampled. Clear is the one kernel the model interprets: it fills the
   * texture with its value.
   */
  datatype Grid =
    | Undefined                 // a freshly created texture
    | Unbound                   // what a kernel sees through a null texture handle
    | Filled(value: Float)
    | Out(kernel: Kernel, output: nat, targets: seq<Grid>, samples: seq<Grid>,
          uniforms: seq<Uniform>, groups: Groups)

  /** A created `size`³ R32_FLOAT texture and what it holds. */
  datatype Volume = Volume(size: int, cells: Grid)

  /** The contents behind a texture handle; a null handle holds nothing. */
  function Cells(t: Option<Volume>): (g: Grid)
    ensures t.None? ==> g == Unbound
    ensures t.Some? ==> g == t.value.cells
  {
    if t.Some? then t.value.cells else Unbound
  }

  /** A texture handle after a kernel wrote `g` into it: a null handle stays null. */
  function Stored(t: Option<Volume>, g: Grid): (r: Option<Volume>)
    ensures r.Some? <==> t.Some?
    ensures r.Some? ==> r.value.size == t.value.size && r.value.cells == g
  {
    if t.Some? then Some(Volume(t.value.size, g)) else None
  }

  /** C++ `/` on `int` with a positive divisor: the quotient is truncated toward zero. */
  function Quotient(a: int, b: int): (q: int)
    requires b > 0
    ensures 0 <= a ==> 0 <= q * b <= a < q * b + b
    ensures a < 0 ==> q * b - b < a <= q * b <= 0
  {
    if a >= 0 then
      EuclideanBounds(a, b);
      a / b
    else
      EuclideanBounds(-a, b);
      NegatedProduct(-a / b, b);
      -((-a) / b)
  }

  lemma EuclideanBounds(n: int, b: int)
    requires n >= 0 && b > 0
    ensures 0 <= (n / b) * b <= n < (n / b) * b + b
  {
  }

  lemma NegatedProduct(x: int, b: int)
    ensures (-x) * b == -(x * b)
  {
  }

  /**
   * The workgroup count `(size + threads - 1) / threads` of every full-volume dispatch: the number
   * of `threads`-wide groups that covers `size` cells, and no group at all for an empty volume. A
   * `size` below `1 - 2 * threads` gives a negative count.
   */
  function GroupCount(size: int, threads: int): (g: int)
    requires threads >= 1
    ensures size >= 1 ==> g >= 1 && g * threads >= size && (g - 1) * threads < size
    ensures 1 - 2 * threads < size <= 0 ==> g == 0
    ensures size <= 1 - 2 * threads ==> g < 0
  {
    var q := Quotient(size + threads - 1, threads);
    assert size >= 1 ==> (q - 1) * threads == q * threads - threads;
    q
  }

  /** No smaller count covers the volume: `GroupCount` is the least covering one. */
  lemma GroupCountIsLeast(size: int, threads: int, h: int)
    requires threads >= 1 && size >= 1 && h * threads >= size
    ensures h >= GroupCount(size, threads)
  {
    var g := GroupCount(size, threads);
    if h < g {
      MultiplyMonotone(h, g - 1, threads);
      assert false;
    }
  }

  lemma MultiplyMonotone(a: int, b: int, t: int)
    requires a <= b && t >= 0
    ensures a * t <= b * t
  {
    assert b * t - a * t == (b - a) * t;
  }

  /** The same count on all three axes. */
  function Cube(size: int, threads: int): (groups: Groups)
    requires threads >= 1
    ensures groups.x == groups.y == groups.z == GroupCount(size, threads)
  {
    var g := GroupCount(size, threads);
    Groups(g, g, g)
  }

  /**
   * The SDL GPU device. Every call that can fail (acquiring a command buffer or a swapchain
   * texture, beginning a compute pass, creating a texture) takes the next of the device's answers;
   * which answers it gives is outside the program, so the model leaves it open.
   */
  class Device {
    const answer: nat -> bool
    var calls: nat

    constructor (answer: nat -> bool)
      ensures this.answer == answer && calls == 0
    {
      this.answer := answer;
      calls := 0;
    }

    /** One fallible call: it succeeds as the device's next answer says. */
    method Call() returns (ok: bool)
      modifies this
      ensures ok == answer(old(calls)) && calls == old(calls) + 1
    {
      ok := answer(calls);
      calls := calls + 1;
    }
  }
}
