/**
 * The memory layout of `ConstantType`, the payload of the engine's constant
 * buffer: seven members placed in declaration order, each at the next offset
 * its alignment allows, with the whole struct declared 16-byte aligned so that
 * its size is padded to the 16-byte registers the GPU reads constants in.
 *
 * `Matrix4x4` is not part of this model; its size is a parameter `m`, a
 * multiple of 4 with 4-byte alignment (a matrix of `float`s).
 */
module ConstantLayout {

  // Every member is aligned to 4 bytes: each is made of 4-byte `float`s or is
  // an `unsigned int`. `__declspec(align(16))` aligns the struct to 16 bytes.
  // Both appear below as literals.

  /** A multiple of `a` leaves no remainder. */
  lemma MultipleMod(q: nat, a: nat)
    requires a > 0
    ensures (q * a) % a == 0
  {
    var m, d := (q * a) % a, (q * a) / a;
    assert q * a == d * a + m;
    ProductSign(q - d, a);
  }

  lemma ProductSign(k: int, a: int)
    requires a > 0
    ensures k >= 1 ==> k * a >= a
    ensures k <= -1 ==> k * a <= -a
  {
  }

  /**
   * The least multiple of `a` that is not smaller than `x`: `x` itself when it
   * is aligned, otherwise the padding up to the next multiple is added (and the
   * result is aligned).
   */
  function AlignUp(x: nat, a: nat): (r: nat)
    requires a > 0
    ensures r % a == 0
    ensures x <= r < x + a
  {
    if x % a == 0 then x
    else
      var q := x / a;
      assert x + (a - x % a) == (q + 1) * a;
      MultipleMod(q + 1, a);
      x + (a - x % a)
  }

  /**
   * The offset of member `i`: the first 4-aligned offset at or after the end
   * of member `i - 1`; the first member is at 0.
   */
  function Offset(members: seq<nat>, i: nat): (o: nat)
    requires i < |members|
    ensures o % 4 == 0
  {
    if i == 0 then AlignUp(0, 4)
    else AlignUp(Offset(members, i - 1) + members[i - 1], 4)
  }

  /** Where the last member ends (0 for an empty struct). */
  function EndOf(members: seq<nat>): nat
  {
    if members == [] then 0 else Offset(members, |members| - 1) + members[|members| - 1]
  }

  /** `sizeof` of a struct with these members and the declared 16-byte alignment. */
  function SizeOf(members: seq<nat>): (n: nat)
    ensures n % 16 == 0
    ensures EndOf(members) <= n < EndOf(members) + 16
  {
    AlignUp(EndOf(members), 16)
  }

  /** Every member starts after all earlier ones have ended: no two members overlap. */
  lemma {:induction false} MembersDisjoint(members: seq<nat>, i: nat, j: nat)
    requires i < j < |members|
    ensures Offset(members, i) + members[i] <= Offset(members, j)
    decreases j - i
  {
    if i + 1 < j {
      MembersDisjoint(members, i + 1, j);
    }
  }

  /** Every member lies inside the payload. */
  lemma {:induction false} MemberInside(members: seq<nat>, i: nat)
    requires i < |members|
    ensures Offset(members, i) + members[i] <= EndOf(members)
  {
    if i + 1 < |members| {
      MembersDisjoint(members, i, |members| - 1);
    }
  }

  /**
   * The member sizes of `ConstantType` in declaration order, for a matrix of
   * `m` bytes: `m_world`, `m_view`, `m_proj` (matrices), `m_time` (an
   * `unsigned int`), `ambientColor` (a `Vector3D`), `ambientPower` (a
   * `float`) and `m_vectorLight` (a `Vector3D`).
   */
  function ConstantType(m: nat): seq<nat>
  {
    [m, m, m, 4, 12, 4, 12]
  }

  /** A member whose predecessor ends at an aligned offset starts right there. */
  lemma NoPadding(members: seq<nat>, i: nat)
    requires 0 < i < |members|
    requires (Offset(members, i - 1) + members[i - 1]) % 4 == 0
    ensures Offset(members, i) == Offset(members, i - 1) + members[i - 1]
  {
  }

  /**
   * Where the members of `ConstantType` lie for a 4-aligned matrix size: the
   * three matrices one after another, then the time, colour, power and light
   * direction at 0, 4, 16 and 20 bytes past them.
   */
  function ConstantTypeOffsets(m: nat): seq<nat>
  {
    [0, m, 2 * m, 3 * m, 3 * m + 4, 3 * m + 16, 3 * m + 20]
  }

  /** Each expected offset is aligned and is where the previous member ends. */
  lemma ExpectedOffsetsChain(m: nat, i: nat)
    requires m % 4 == 0 && 0 < i < 7
    ensures ConstantTypeOffsets(m)[i - 1] + ConstantType(m)[i - 1] == ConstantTypeOffsets(m)[i]
    ensures ConstantTypeOffsets(m)[i] % 4 == 0
  {
  }

  /** No padding is needed anywhere: every member of `ConstantType` lies where the previous one ends. */
  lemma {:induction false} ConstantTypeOffset(m: nat, i: nat)
    requires m % 4 == 0 && i < 7
    ensures Offset(ConstantType(m), i) == ConstantTypeOffsets(m)[i]
  {
    if i > 0 {
      ConstantTypeOffset(m, i - 1);
      ExpectedOffsetsChain(m, i);
      NoPadding(ConstantType(m), i);
    }
  }

  /** The payload ends 32 bytes past the three matrices. */
  lemma ConstantTypeEnd(m: nat)
    requires m % 4 == 0
    ensures EndOf(ConstantType(m)) == 3 * m + 32
  {
    ConstantTypeOffset(m, 6);
  }

  /** The struct is the payload rounded up to the next multiple of 16. */
  lemma ConstantTypeSize(m: nat)
    requires m % 4 == 0
    ensures SizeOf(ConstantType(m)) == AlignUp(3 * m + 32, 16)
    ensures SizeOf(ConstantType(m)) % 16 == 0
    ensures 3 * m + 32 <= SizeOf(ConstantType(m)) < 3 * m + 48
  {
    ConstantTypeEnd(m);
  }

  /** The members lie in declaration order at strictly increasing offsets, each right after the previous one. */
  lemma ConstantTypeOrdered(m: nat)
    requires m % 4 == 0 && m > 0
    ensures forall i, j | 0 <= i < j < 7 :: Offset(ConstantType(m), i) < Offset(ConstantType(m), j)
    ensures forall i | 0 <= i < 6 :: Offset(ConstantType(m), i) + ConstantType(m)[i] == Offset(ConstantType(m), i + 1)
  {
    forall i | 0 <= i < 7 {
      ConstantTypeOffset(m, i);
    }
  }

  /** For a matrix of sixteen floats (64 bytes) the struct is 224 bytes: fourteen 16-byte registers. */
  lemma ConstantTypeWithFloatMatrices()
    ensures SizeOf(ConstantType(64)) == 224 == 14 * 16
  {
    ConstantTypeSize(64);
    var size := SizeOf(ConstantType(64));
    assert 224 <= size < 240 && size % 16 == 0;
  }
}
