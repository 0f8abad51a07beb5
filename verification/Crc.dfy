/** The table-driven CRC-32 hash and bit-at-a-time division by its generator polynomial. */
module Crc {

  /** The generator of section 3.2.9 of IEEE 802.3, most significant bit first, without its leading term. */
  const GENERATOR: bv32 := 0x04C1_1DB7

  const ROW0: seq<bv32> := [
    0x0000_0000, 0x04c1_1db7, 0x0982_3b6e, 0x0d43_26d9, 0x1304_76dc, 0x17c5_6b6b, 0x1a86_4db2, 0x1e47_5005,
    0x2608_edb8, 0x22c9_f00f, 0x2f8a_d6d6, 0x2b4b_cb61, 0x350c_9b64, 0x31cd_86d3, 0x3c8e_a00a, 0x384f_bdbd]
  const ROW1: seq<bv32> := [
    0x4c11_db70, 0x48d0_c6c7, 0x4593_e01e, 0x4152_fda9, 0x5f15_adac, 0x5bd4_b01b, 0x5697_96c2, 0x5256_8b75,
    0x6a19_36c8, 0x6ed8_2b7f, 0x639b_0da6, 0x675a_1011, 0x791d_4014, 0x7ddc_5da3, 0x709f_7b7a, 0x745e_66cd]
  const ROW2: seq<bv32> := [
    0x9823_b6e0, 0x9ce2_ab57, 0x91a1_8d8e, 0x9560_9039, 0x8b27_c03c, 0x8fe6_dd8b, 0x82a5_fb52, 0x8664_e6e5,
    0xbe2b_5b58, 0xbaea_46ef, 0xb7a9_6036, 0xb368_7d81, 0xad2f_2d84, 0xa9ee_3033, 0xa4ad_16ea, 0xa06c_0b5d]
  const ROW3: seq<bv32> := [
    0xd432_6d90, 0xd0f3_7027, 0xddb0_56fe, 0xd971_4b49, 0xc736_1b4c, 0xc3f7_06fb, 0xceb4_2022, 0xca75_3d95,
    0xf23a_8028, 0xf6fb_9d9f, 0xfbb8_bb46, 0xff79_a6f1, 0xe13e_f6f4, 0xe5ff_eb43, 0xe8bc_cd9a, 0xec7d_d02d]
  const ROW4: seq<bv32> := [
    0x3486_7077, 0x3047_6dc0, 0x3d04_4b19, 0x39c5_56ae, 0x2782_06ab, 0x2343_1b1c, 0x2e00_3dc5, 0x2ac1_2072,
    0x128e_9dcf, 0x164f_8078, 0x1b0c_a6a1, 0x1fcd_bb16, 0x018a_eb13, 0x054b_f6a4, 0x0808_d07d, 0x0cc9_cdca]
  const ROW5: seq<bv32> := [
    0x7897_ab07, 0x7c56_b6b0, 0x7115_9069, 0x75d4_8dde, 0x6b93_dddb, 0x6f52_c06c, 0x6211_e6b5, 0x66d0_fb02,
    0x5e9f_46bf, 0x5a5e_5b08, 0x571d_7dd1, 0x53dc_6066, 0x4d9b_3063, 0x495a_2dd4, 0x4419_0b0d, 0x40d8_16ba]
  const ROW6: seq<bv32> := [
    0xaca5_c697, 0xa864_db20, 0xa527_fdf9, 0xa1e6_e04e, 0xbfa1_b04b, 0xbb60_adfc, 0xb623_8b25, 0xb2e2_9692,
    0x8aad_2b2f, 0x8e6c_3698, 0x832f_1041, 0x87ee_0df6, 0x99a9_5df3, 0x9d68_4044, 0x902b_669d, 0x94ea_7b2a]
  const ROW7: seq<bv32> := [
    0xe0b4_1de7, 0xe475_0050, 0xe936_2689, 0xedf7_3b3e, 0xf3b0_6b3b, 0xf771_768c, 0xfa32_5055, 0xfef3_4de2,
    0xc6bc_f05f, 0xc27d_ede8, 0xcf3e_cb31, 0xcbff_d686, 0xd5b8_8683, 0xd179_9b34, 0xdc3a_bded, 0xd8fb_a05a]
  const ROW8: seq<bv32> := [
    0x690c_e0ee, 0x6dcd_fd59, 0x608e_db80, 0x644f_c637, 0x7a08_9632, 0x7ec9_8b85, 0x738a_ad5c, 0x774b_b0eb,
    0x4f04_0d56, 0x4bc5_10e1, 0x4686_3638, 0x4247_2b8f, 0x5c00_7b8a, 0x58c1_663d, 0x5582_40e4, 0x5143_5d53]
  const ROW9: seq<bv32> := [
    0x251d_3b9e, 0x21dc_2629, 0x2c9f_00f0, 0x285e_1d47, 0x3619_4d42, 0x32d8_50f5, 0x3f9b_762c, 0x3b5a_6b9b,
    0x0315_d626, 0x07d4_cb91, 0x0a97_ed48, 0x0e56_f0ff, 0x1011_a0fa, 0x14d0_bd4d, 0x1993_9b94, 0x1d52_8623]
  const ROW10: seq<bv32> := [
    0xf12f_560e, 0xf5ee_4bb9, 0xf8ad_6d60, 0xfc6c_70d7, 0xe22b_20d2, 0xe6ea_3d65, 0xeba9_1bbc, 0xef68_060b,
    0xd727_bbb6, 0xd3e6_a601, 0xdea5_80d8, 0xda64_9d6f, 0xc423_cd6a, 0xc0e2_d0dd, 0xcda1_f604, 0xc960_ebb3]
  const ROW11: seq<bv32> := [
    0xbd3e_8d7e, 0xb9ff_90c9, 0xb4bc_b610, 0xb07d_aba7, 0xae3a_fba2, 0xaafb_e615, 0xa7b8_c0cc, 0xa379_dd7b,
    0x9b36_60c6, 0x9ff7_7d71, 0x92b4_5ba8, 0x9675_461f, 0x8832_161a, 0x8cf3_0bad, 0x81b0_2d74, 0x8571_30c3]
  const ROW12: seq<bv32> := [
    0x5d8a_9099, 0x594b_8d2e, 0x5408_abf7, 0x50c9_b640, 0x4e8e_e645, 0x4a4f_fbf2, 0x470c_dd2b, 0x43cd_c09c,
    0x7b82_7d21, 0x7f43_6096, 0x7200_464f, 0x76c1_5bf8, 0x6886_0bfd, 0x6c47_164a, 0x6104_3093, 0x65c5_2d24]
  const ROW13: seq<bv32> := [
    0x119b_4be9, 0x155a_565e, 0x1819_7087, 0x1cd8_6d30, 0x029f_3d35, 0x065e_2082, 0x0b1d_065b, 0x0fdc_1bec,
    0x3793_a651, 0x3352_bbe6, 0x3e11_9d3f, 0x3ad0_8088, 0x2497_d08d, 0x2056_cd3a, 0x2d15_ebe3, 0x29d4_f654]
  const ROW14: seq<bv32> := [
    0xc5a9_2679, 0xc168_3bce, 0xcc2b_1d17, 0xc8ea_00a0, 0xd6ad_50a5, 0xd26c_4d12, 0xdf2f_6bcb, 0xdbee_767c,
    0xe3a1_cbc1, 0xe760_d676, 0xea23_f0af, 0xeee2_ed18, 0xf0a5_bd1d, 0xf464_a0aa, 0xf927_8673, 0xfde6_9bc4]
  const ROW15: seq<bv32> := [
    0x89b8_fd09, 0x8d79_e0be, 0x803a_c667, 0x84fb_dbd0, 0x9abc_8bd5, 0x9e7d_9662, 0x933e_b0bb, 0x97ff_ad0c,
    0xafb0_10b1, 0xab71_0d06, 0xa632_2bdf, 0xa2f3_3668, 0xbcb4_666d, 0xb875_7bda, 0xb536_5d03, 0xb1f7_40b4]

  const ROWS := [ROW0, ROW1, ROW2, ROW3, ROW4, ROW5, ROW6, ROW7, ROW8, ROW9, ROW10, ROW11, ROW12, ROW13, ROW14, ROW15]

  /** The table, sixteen entries a row. */
  function TableAt(n: nat): bv32
    requires n < 256
  {
    assert |ROWS| == 16 && |ROWS[n / 16]| == 16 by {
      RowLength(n / 16);
    }
    ROWS[n / 16][n % 16]
  }

  lemma RowLength(h: nat)
    requires h < 16
    ensures |ROWS| == 16 && |ROWS[h]| == 16
  {
  }

  // ----- the reference: long division, one bit at a time -----

  predicate Top(r: bv32) {
    r & 0x8000_0000 != 0
  }

  function Left(r: bv32): bv32 {
    r << 1
  }

  function Left8(r: bv32): bv32 {
    r << 8
  }

  /** The byte about to leave the register. */
  function LastByte(r: bv32): bv32 {
    r >> 24
  }

  function Rest(r: bv32): bv32 {
    r & 0x00FF_FFFF
  }

  function Raised(i: bv32): bv32 {
    i << 24
  }

  /** Subtraction of polynomials over the two-element field. */
  function Xor(a: bv32, b: bv32): bv32 {
    a ^ b
  }

  /** One step of the division: the bit that leaves the register, with the bit that comes in, decides whether
      the generator is subtracted. */
  function DivideStep(r: bv32, bit: bool): bv32 {
    if Top(r) != bit then Xor(Left(r), GENERATOR) else Left(r)
  }

  function Divide(r: bv32, bits: seq<bool>): bv32
    decreases |bits|
  {
    if bits == [] then r else Divide(DivideStep(r, bits[0]), bits[1..])
  }

  /** The bits of a byte, most significant first. */
  function Bits(b: bv8): seq<bool> {
    [b & 0x80 != 0, b & 0x40 != 0, b & 0x20 != 0, b & 0x10 != 0, b & 8 != 0, b & 4 != 0, b & 2 != 0, b & 1 != 0]
  }

  function Message(bytes: seq<bv8>): seq<bool> {
    if bytes == [] then [] else Bits(bytes[0]) + Message(bytes[1..])
  }

  /** The hash: the register is preset to ones, and complemented at the end. */
  function CrcOf(bytes: seq<bv8>): bv32 {
    !Divide(0xFFFF_FFFF, Message(bytes))
  }

  // ----- the table-driven loop -----

  method CrcHash(bytes: seq<bv8>) returns (crc: bv32)
    ensures crc == CrcOf(bytes)
  {
    crc := 0xFFFF_FFFF;
    var p := 0;
    while p < |bytes|
      invariant p <= |bytes| && Divide(crc, Message(bytes[p..])) == Divide(0xFFFF_FFFF, Message(bytes))
    {
      ByteStep(crc, bytes, p);
      crc := TableStep(crc, bytes[p]);
      p := p + 1;
    }
    crc := !crc;
  }

  function Index(r: bv32, b: bv8): (i: bv32)
    ensures i < 256
  {
    Xor(LastByte(r), b as bv32)
  }

  function TableStep(r: bv32, b: bv8): bv32 {
    Xor(Left8(r), TableAt(Index(r, b) as int))
  }

  lemma ByteStep(r: bv32, bytes: seq<bv8>, p: nat)
    requires p < |bytes|
    ensures Divide(r, Message(bytes[p..])) == Divide(TableStep(r, bytes[p]), Message(bytes[p + 1..]))
  {
    hide TableStep, Bits;
    var b := bytes[p];
    TableStepDivides(r, b);
    assert bytes[p..][1..] == bytes[p + 1..];
    DivideConcat(r, Bits(b), Message(bytes[p + 1..]));
  }

  lemma {:induction false} DivideConcat(r: bv32, a: seq<bool>, b: seq<bool>)
    ensures Divide(r, a + b) == Divide(Divide(r, a), b)
    decreases |a|
  {
    hide DivideStep;
    if a == [] {
      assert a + b == b;
    } else {
      assert (a + b)[0] == a[0] && (a + b)[1..] == a[1..] + b;
      DivideConcat(DivideStep(r, a[0]), a[1..], b);
    }
  }

  // ----- shifting is linear -----

  function Shift(r: bv32): bv32 {
    DivideStep(r, false)
  }

  function Shift8(r: bv32): bv32 {
    Shift(Shift(Shift(Shift(Shift(Shift(Shift(Shift(r))))))))
  }

  lemma TopOfXor(x: bv32, y: bv32)
    ensures Top(Xor(x, y)) == (Top(x) != Top(y))
  {
  }

  lemma LeftOfXor(x: bv32, y: bv32)
    ensures Left(Xor(x, y)) == Xor(Left(x), Left(y))
  {
  }

  lemma XorAssociates(a: bv32, b: bv32, c: bv32)
    ensures Xor(Xor(a, b), c) == Xor(a, Xor(b, c))
  {
  }

  lemma XorCommutes(a: bv32, b: bv32)
    ensures Xor(a, b) == Xor(b, a)
  {
  }

  lemma XorUndoes(a: bv32)
    ensures Xor(a, a) == 0 && Xor(0, a) == a == Xor(a, 0)
  {
  }

  lemma XorRegroup(a: bv32, b: bv32, g: bv32)
    ensures Xor(Xor(a, g), Xor(b, g)) == Xor(a, b)
    ensures Xor(Xor(a, g), b) == Xor(Xor(a, b), g) == Xor(a, Xor(b, g))
  {
    hide Xor;
    XorCommutes(b, g);
    XorAssociates(a, b, g);
    XorAssociates(a, g, b);
    XorAssociates(a, g, Xor(g, b));
    XorAssociates(g, g, b);
    XorUndoes(g);
    XorUndoes(b);
  }

  lemma ShiftIsLinear(x: bv32, y: bv32)
    ensures Shift(Xor(x, y)) == Xor(Shift(x), Shift(y))
  {
    hide Top, Left, Xor;
    TopOfXor(x, y);
    LeftOfXor(x, y);
    XorRegroup(Left(x), Left(y), GENERATOR);
  }

  lemma Shift8IsLinear(x: bv32, y: bv32)
    ensures Shift8(Xor(x, y)) == Xor(Shift8(x), Shift8(y))
  {
    hide Shift, Xor;
    ShiftIsLinear(x, y);
    var x1, y1 := Shift(x), Shift(y);
    ShiftIsLinear(x1, y1);
    var x2, y2 := Shift(x1), Shift(y1);
    ShiftIsLinear(x2, y2);
    var x3, y3 := Shift(x2), Shift(y2);
    ShiftIsLinear(x3, y3);
    var x4, y4 := Shift(x3), Shift(y3);
    ShiftIsLinear(x4, y4);
    var x5, y5 := Shift(x4), Shift(y4);
    ShiftIsLinear(x5, y5);
    var x6, y6 := Shift(x5), Shift(y5);
    ShiftIsLinear(x6, y6);
    var x7, y7 := Shift(x6), Shift(y6);
    ShiftIsLinear(x7, y7);
  }

  /** Bits still to come may be added to the register in advance. */
  lemma ShiftTakesBitIn(r: bv32, m: bv32)
    ensures Shift(Xor(r, m)) == Xor(DivideStep(r, Top(m)), Left(m))
  {
    hide Top, Left, Xor;
    TopOfXor(r, m);
    LeftOfXor(r, m);
    XorRegroup(Left(r), Left(m), GENERATOR);
  }

  /** Eight message bits may be added at the top of the register at once, and shifted through it. */
  lemma Shift8TakesByteIn(r: bv32, b: bv8)
    ensures Shift8(Xor(r, AtTop(b))) == Divide(r, Bits(b))
  {
    hide Top, Left, Xor, DivideStep, Shift, Bits, AtTop, Divide;
    var m0 := AtTop(b);
    var m1 := Left(m0);
    var m2 := Left(m1);
    var m3 := Left(m2);
    var m4 := Left(m3);
    var m5 := Left(m4);
    var m6 := Left(m5);
    var m7 := Left(m6);
    var r1 := DivideStep(r, Top(m0));
    var r2 := DivideStep(r1, Top(m1));
    var r3 := DivideStep(r2, Top(m2));
    var r4 := DivideStep(r3, Top(m3));
    var r5 := DivideStep(r4, Top(m4));
    var r6 := DivideStep(r5, Top(m5));
    var r7 := DivideStep(r6, Top(m6));
    var r8 := DivideStep(r7, Top(m7));
    ShiftTakesBitIn(r, m0);
    ShiftTakesBitIn(r1, m1);
    ShiftTakesBitIn(r2, m2);
    ShiftTakesBitIn(r3, m3);
    ShiftTakesBitIn(r4, m4);
    ShiftTakesBitIn(r5, m5);
    ShiftTakesBitIn(r6, m6);
    ShiftTakesBitIn(r7, m7);
    BitsOf(b);
    DivideEight(r, Top(m0), Top(m1), Top(m2), Top(m3), Top(m4), Top(m5), Top(m6), Top(m7));
    XorUndoes(r8);
  }

  /** A byte in the top of a register. */
  function AtTop(b: bv8): bv32 {
    Raised(b as bv32)
  }

  lemma BitsOf(b: bv8)
    ensures var m := AtTop(b);
            Bits(b) == [Top(m), Top(Left(m)), Top(Left(Left(m))), Top(Left(Left(Left(m)))),
                        Top(Left(Left(Left(Left(m))))), Top(Left(Left(Left(Left(Left(m)))))),
                        Top(Left(Left(Left(Left(Left(Left(m))))))), Top(Left(Left(Left(Left(Left(Left(Left(m))))))))]
    ensures Left(Left(Left(Left(Left(Left(Left(Left(AtTop(b))))))))) == 0
  {
  }

  lemma DivideEight(r: bv32, b0: bool, b1: bool, b2: bool, b3: bool, b4: bool, b5: bool, b6: bool, b7: bool)
    ensures Divide(r, [b0, b1, b2, b3, b4, b5, b6, b7])
         == DivideStep(DivideStep(DivideStep(DivideStep(DivideStep(DivideStep(DivideStep(DivideStep(
              r, b0), b1), b2), b3), b4), b5), b6), b7)
  {
    hide DivideStep, Divide;
    var r1 := DivideStep(r, b0);
    var r2 := DivideStep(r1, b1);
    var r3 := DivideStep(r2, b2);
    var r4 := DivideStep(r3, b3);
    DivideFour(r, b0, b1, b2, b3);
    DivideFour(r4, b4, b5, b6, b7);
    DivideConcat(r, [b0, b1, b2, b3], [b4, b5, b6, b7]);
    assert [b0, b1, b2, b3] + [b4, b5, b6, b7] == [b0, b1, b2, b3, b4, b5, b6, b7];
  }

  lemma DivideOne(r: bv32, b: bool, bits: seq<bool>)
    ensures Divide(r, [b] + bits) == Divide(DivideStep(r, b), bits)
  {
    hide DivideStep;
    assert ([b] + bits)[1..] == bits;
  }

  lemma DivideFour(r: bv32, b0: bool, b1: bool, b2: bool, b3: bool)
    ensures Divide(r, [b0, b1, b2, b3]) == DivideStep(DivideStep(DivideStep(DivideStep(r, b0), b1), b2), b3)
  {
    hide DivideStep;
    var r1 := DivideStep(r, b0);
    var r2 := DivideStep(r1, b1);
    var r3 := DivideStep(r2, b2);
    DivideOne(r, b0, [b1, b2, b3]);
    DivideOne(r1, b1, [b2, b3]);
    DivideOne(r2, b2, [b3]);
    DivideOne(r3, b3, []);
    assert [b0, b1, b2, b3] == [b0] + [b1, b2, b3];
    assert [b1, b2, b3] == [b1] + [b2, b3];
    assert [b2, b3] == [b2] + [b3];
    assert [b3] == [b3] + [];
    assert Divide(DivideStep(r3, b3), []) == DivideStep(r3, b3);
  }

  // ----- the table -----

  /** The entries for one bit, by evaluation; linearity gives the others. */
  lemma LowBits()
    ensures Shift8(0) == ROW0[0]
    ensures Shift8(0x0100_0000) == ROW0[1] && Shift8(0x0200_0000) == ROW0[2]
  {
  }

  lemma MoreLowBits()
    ensures Shift8(0x0400_0000) == ROW0[4] && Shift8(0x0800_0000) == ROW0[8]
  {
  }

  lemma HighBits()
    ensures Shift8(0x1000_0000) == ROW1[0] && Shift8(0x2000_0000) == ROW2[0]
    ensures Shift8(0x4000_0000) == ROW4[0] && Shift8(0x8000_0000) == ROW8[0]
  {
  }

  lemma FirstRow()
    ensures Shift8(0x0000_0000) == ROW0[0] && Shift8(0x0100_0000) == ROW0[1] && Shift8(0x0200_0000) == ROW0[2] && Shift8(0x0300_0000) == ROW0[3]
    ensures Shift8(0x0400_0000) == ROW0[4] && Shift8(0x0500_0000) == ROW0[5] && Shift8(0x0600_0000) == ROW0[6] && Shift8(0x0700_0000) == ROW0[7]
    ensures Shift8(0x0800_0000) == ROW0[8] && Shift8(0x0900_0000) == ROW0[9] && Shift8(0x0A00_0000) == ROW0[10] && Shift8(0x0B00_0000) == ROW0[11]
    ensures Shift8(0x0C00_0000) == ROW0[12] && Shift8(0x0D00_0000) == ROW0[13] && Shift8(0x0E00_0000) == ROW0[14] && Shift8(0x0F00_0000) == ROW0[15]
  {
    hide Shift8;
    LowBits();
    MoreLowBits();
    Shift8IsLinear(0x0100_0000, 0x0200_0000);
    Shift8IsLinear(0x0100_0000, 0x0400_0000);
    Shift8IsLinear(0x0200_0000, 0x0400_0000);
    Shift8IsLinear(0x0100_0000, 0x0600_0000);
    Shift8IsLinear(0x0100_0000, 0x0800_0000);
    Shift8IsLinear(0x0200_0000, 0x0800_0000);
    Shift8IsLinear(0x0100_0000, 0x0A00_0000);
    Shift8IsLinear(0x0400_0000, 0x0800_0000);
    Shift8IsLinear(0x0100_0000, 0x0C00_0000);
    Shift8IsLinear(0x0200_0000, 0x0C00_0000);
    Shift8IsLinear(0x0100_0000, 0x0E00_0000);
  }

  lemma FirstColumn()
    ensures Shift8(0x0000_0000) == ROW0[0] && Shift8(0x1000_0000) == ROW1[0] && Shift8(0x2000_0000) == ROW2[0] && Shift8(0x3000_0000) == ROW3[0]
    ensures Shift8(0x4000_0000) == ROW4[0] && Shift8(0x5000_0000) == ROW5[0] && Shift8(0x6000_0000) == ROW6[0] && Shift8(0x7000_0000) == ROW7[0]
    ensures Shift8(0x8000_0000) == ROW8[0] && Shift8(0x9000_0000) == ROW9[0] && Shift8(0xA000_0000) == ROW10[0] && Shift8(0xB000_0000) == ROW11[0]
    ensures Shift8(0xC000_0000) == ROW12[0] && Shift8(0xD000_0000) == ROW13[0] && Shift8(0xE000_0000) == ROW14[0] && Shift8(0xF000_0000) == ROW15[0]
  {
    hide Shift8;
    LowBits();
    HighBits();
    Shift8IsLinear(0x1000_0000, 0x2000_0000);
    Shift8IsLinear(0x1000_0000, 0x4000_0000);
    Shift8IsLinear(0x2000_0000, 0x4000_0000);
    Shift8IsLinear(0x1000_0000, 0x6000_0000);
    Shift8IsLinear(0x1000_0000, 0x8000_0000);
    Shift8IsLinear(0x2000_0000, 0x8000_0000);
    Shift8IsLinear(0x1000_0000, 0xA000_0000);
    Shift8IsLinear(0x4000_0000, 0x8000_0000);
    Shift8IsLinear(0x1000_0000, 0xC000_0000);
    Shift8IsLinear(0x2000_0000, 0xC000_0000);
    Shift8IsLinear(0x1000_0000, 0xE000_0000);
  }

  lemma FirstRowAt(i: bv32)
    requires i < 16
    ensures ROW0[i as int] == Shift8(i << 24)
  {
    hide Shift8;
    FirstRow();
    assert i == 0x0 || i == 0x1 || i == 0x2 || i == 0x3 || i == 0x4 || i == 0x5 || i == 0x6 || i == 0x7
        || i == 0x8 || i == 0x9 || i == 0xA || i == 0xB || i == 0xC || i == 0xD || i == 0xE || i == 0xF;
  }

  /** Each entry of a row is the row's first one less the entry above it in the first row. */
  predicate FromFirst(row: seq<bv32>) {
    |row| == 16
    && row[0] == Xor(row[0], ROW0[0]) && row[1] == Xor(row[0], ROW0[1]) && row[2] == Xor(row[0], ROW0[2])
    && row[3] == Xor(row[0], ROW0[3]) && row[4] == Xor(row[0], ROW0[4]) && row[5] == Xor(row[0], ROW0[5])
    && row[6] == Xor(row[0], ROW0[6]) && row[7] == Xor(row[0], ROW0[7]) && row[8] == Xor(row[0], ROW0[8])
    && row[9] == Xor(row[0], ROW0[9]) && row[10] == Xor(row[0], ROW0[10]) && row[11] == Xor(row[0], ROW0[11])
    && row[12] == Xor(row[0], ROW0[12]) && row[13] == Xor(row[0], ROW0[13]) && row[14] == Xor(row[0], ROW0[14])
    && row[15] == Xor(row[0], ROW0[15])
  }

  lemma FirstRows()
    ensures FromFirst(ROW0) && FromFirst(ROW1) && FromFirst(ROW2) && FromFirst(ROW3)
  {
  }

  lemma SecondRows()
    ensures FromFirst(ROW4) && FromFirst(ROW5) && FromFirst(ROW6) && FromFirst(ROW7)
  {
  }

  lemma ThirdRows()
    ensures FromFirst(ROW8) && FromFirst(ROW9) && FromFirst(ROW10) && FromFirst(ROW11)
  {
  }

  lemma LastRows()
    ensures FromFirst(ROW12) && FromFirst(ROW13) && FromFirst(ROW14) && FromFirst(ROW15)
  {
  }

  lemma RowFromFirst(h: nat)
    requires h < 16
    ensures FromFirst(ROWS[h])
  {
    hide FromFirst;
    FirstRows();
    SecondRows();
    ThirdRows();
    LastRows();
  }

  lemma EntryFromFirst(row: seq<bv32>, l: nat)
    requires FromFirst(row) && l < 16
    ensures row[l] == Xor(row[0], ROW0[l])
  {
    hide Xor;
  }

  lemma FirstColumnAt(h: nat, i: bv32)
    requires h < 16 && i < 16 && i as int == h
    ensures ROWS[h][0] == Shift8(i << 28)
  {
    hide Shift8;
    FirstColumn();
  }

  lemma Nibbles(i: bv32)
    requires i < 256
    ensures i << 24 == Xor((i >> 4) << 28, (i & 0xF) << 24)
  {
  }

  lemma Halves(i: bv32)
    requires i < 256
    ensures (i as int) / 16 == (i >> 4) as int < 16 && (i as int) % 16 == (i & 0xF) as int < 16
  {
  }

  /** Every entry of the table is its index, shifted through the register. */
  lemma TableEntry(i: bv32)
    requires i < 256
    ensures TableAt(i as int) == Shift8(i << 24)
  {
    hide Shift8, Xor;
    var high, low := i >> 4, i & 0xF;
    Halves(i);
    FirstRowAt(low);
    FirstColumnAt(high as int, high);
    RowFromFirst(high as int);
    EntryFromFirst(ROWS[high as int], low as int);
    Nibbles(i);
    Shift8IsLinear(high << 28, low << 24);
  }

  /** One step of the table-driven loop divides eight bits. */
  lemma TableStepDivides(r: bv32, b: bv8)
    ensures TableStep(r, b) == Divide(r, Bits(b))
  {
    hide Shift8, Divide, Bits, Index, AtTop, Xor, Left8, Rest, Raised;
    var i := Index(r, b);
    Shift8TakesByteIn(r, b);
    Separates(r, b);
    Shift8IsLinear(Raised(i), Rest(r));
    Shift8OfRest(r);
    Entry(i);
    XorCommutes(Shift8(Raised(i)), Left8(r));
  }

  lemma Entry(i: bv32)
    requires i < 256
    ensures TableAt(i as int) == Shift8(Raised(i))
  {
    hide Shift8;
    TableEntry(i);
  }

  lemma Separates(r: bv32, b: bv8)
    ensures Xor(r, AtTop(b)) == Xor(Raised(Index(r, b)), Rest(r))
  {
    hide Xor, LastByte, Raised, Rest;
    var x := b as bv32;
    LastAndRest(r);
    RaisedXor(LastByte(r), x);
    XorRegroup(Raised(LastByte(r)), Raised(x), Rest(r));
  }

  lemma LastAndRest(r: bv32)
    ensures Xor(Raised(LastByte(r)), Rest(r)) == r
  {
  }

  lemma RaisedXor(x: bv32, y: bv32)
    ensures Raised(Xor(x, y)) == Xor(Raised(x), Raised(y))
  {
  }

  lemma Shift8OfRest(r: bv32)
    ensures Shift8(Rest(r)) == Left8(r)
  {
  }
}
