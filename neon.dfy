/**
 * The NEON vector types and intrinsics the kernels use, over exact reals.
 * A float32x4_t is four real lanes, a float32x2_t two; loads and stores
 * move lanes between a vector and consecutive cells of a flat buffer.
 * Over reals a fused multiply-add and a multiply followed by an add give
 * the same value, so `vfmaq_f32`, `vmlaq_f32` and `vaddq(c, vmulq(a, b))`
 * all become `Fma4`.
 */
module Neon {

  /** float32x4_t */
  datatype Vec4 = Vec4(x0: real, x1: real, x2: real, x3: real)
  {
    function Lane(l: int): real
      requires 0 <= l < 4
    {
      if l == 0 then x0 else if l == 1 then x1 else if l == 2 then x2 else x3
    }
  }

  /** float32x2_t */
  datatype Vec2 = Vec2(y0: real, y1: real)

  /** vdupq_n_f32 */
  function Dup4(x: real): Vec4 { Vec4(x, x, x, x) }

  /** vdup_n_f32 */
  function Dup2(x: real): Vec2 { Vec2(x, x) }

  /** vaddq_f32 */
  function Add4(u: Vec4, v: Vec4): Vec4 { Vec4(u.x0 + v.x0, u.x1 + v.x1, u.x2 + v.x2, u.x3 + v.x3) }

  /** vmulq_f32 */
  function Mul4(u: Vec4, v: Vec4): Vec4 { Vec4(u.x0 * v.x0, u.x1 * v.x1, u.x2 * v.x2, u.x3 * v.x3) }

  /** vadd_f32 */
  function Add2(u: Vec2, v: Vec2): Vec2 { Vec2(u.y0 + v.y0, u.y1 + v.y1) }

  /** vmul_f32 */
  function Mul2(u: Vec2, v: Vec2): Vec2 { Vec2(u.y0 * v.y0, u.y1 * v.y1) }

  /** vmuladdq_f32(c, a, b): c + a * b in every lane. */
  function Fma4(c: Vec4, a: Vec4, b: Vec4): Vec4 { Add4(c, Mul4(a, b)) }

  /** vfmaq_lane_f32(c, b, v, lane) with x the selected lane of v: c + b * x in every lane. */
  function FmaLane4(c: Vec4, b: Vec4, x: real): Vec4 { Fma4(c, b, Dup4(x)) }

  /** vget_low_f32 */
  function Low(v: Vec4): Vec2 { Vec2(v.x0, v.x1) }

  /** vget_high_f32 */
  function High(v: Vec4): Vec2 { Vec2(v.x2, v.x3) }

  /** vld1q_f32 / vld1q_f32_aligned from a read-only buffer. */
  function Load4(s: seq<real>, p: nat): Vec4
    requires p + 4 <= |s|
  {
    Vec4(s[p], s[p + 1], s[p + 2], s[p + 3])
  }

  /** vld1q_f32 / vld1q_f32_aligned from the output buffer. */
  function Load4At(c: array<real>, p: nat): Vec4
    reads c
    requires p + 4 <= c.Length
  {
    Vec4(c[p], c[p + 1], c[p + 2], c[p + 3])
  }

  /** vld1_f32 from the output buffer. */
  function Load2At(c: array<real>, p: nat): Vec2
    reads c
    requires p + 2 <= c.Length
  {
    Vec2(c[p], c[p + 1])
  }

  /** vld1_dup_f32 from the output buffer. */
  function LoadDup2At(c: array<real>, p: nat): Vec2
    reads c
    requires p + 1 <= c.Length
  {
    Vec2(c[p], c[p])
  }

  /** vst1q_f32: the four lanes go to c[p .. p + 4); nothing else changes. */
  method Store4(c: array<real>, p: nat, v: Vec4)
    requires p + 4 <= c.Length
    modifies c
    ensures forall idx :: 0 <= idx < c.Length ==>
      c[idx] == if p <= idx < p + 4 then v.Lane(idx - p) else old(c[idx])
  {
    c[p] := v.x0;
    c[p + 1] := v.x1;
    c[p + 2] := v.x2;
    c[p + 3] := v.x3;
  }

  /** vst1_f32: the two lanes go to c[p], c[p + 1]; nothing else changes. */
  method Store2(c: array<real>, p: nat, v: Vec2)
    requires p + 2 <= c.Length
    modifies c
    ensures forall idx :: 0 <= idx < c.Length ==>
      c[idx] == if idx == p then v.y0 else if idx == p + 1 then v.y1 else old(c[idx])
  {
    c[p] := v.y0;
    c[p + 1] := v.y1;
  }

  /** vst1_lane_f32(p, v, 0): lane 0 goes to c[p]; nothing else changes. */
  method StoreLane0(c: array<real>, p: nat, v: Vec2)
    requires p < c.Length
    modifies c
    ensures forall idx :: 0 <= idx < c.Length ==>
      c[idx] == if idx == p then v.y0 else old(c[idx])
  {
    c[p] := v.y0;
  }
}
