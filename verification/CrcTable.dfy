// The table behind the NameServer's string hash, and the generator it comes
// from: the reflected CRC-32 of section 8 of RFC 1952, one bit at a time.

module CrcTable {

  // ----- stringCrcTab, in rows of sixteen -----

  const ROW_0: seq<bv32> := [
    0x0000_0000, 0x7707_3096, 0xEE0E_612C, 0x9909_51BA, 0x076D_C419, 0x706A_F48F, 0xE963_A535, 0x9E64_95A3,
    0x0EDB_8832, 0x79DC_B8A4, 0xE0D5_E91E, 0x97D2_D988, 0x09B6_4C2B, 0x7EB1_7CBD, 0xE7B8_2D07, 0x90BF_1D91]

  const ROW_1: seq<bv32> := [
    0x1DB7_1064, 0x6AB0_20F2, 0xF3B9_7148, 0x84BE_41DE, 0x1ADA_D47D, 0x6DDD_E4EB, 0xF4D4_B551, 0x83D3_85C7,
    0x136C_9856, 0x646B_A8C0, 0xFD62_F97A, 0x8A65_C9EC, 0x1401_5C4F, 0x6306_6CD9, 0xFA0F_3D63, 0x8D08_0DF5]

  const ROW_2: seq<bv32> := [
    0x3B6E_20C8, 0x4C69_105E, 0xD560_41E4, 0xA267_7172, 0x3C03_E4D1, 0x4B04_D447, 0xD20D_85FD, 0xA50A_B56B,
    0x35B5_A8FA, 0x42B2_986C, 0xDBBB_C9D6, 0xACBC_F940, 0x32D8_6CE3, 0x45DF_5C75, 0xDCD6_0DCF, 0xABD1_3D59]

  const ROW_3: seq<bv32> := [
    0x26D9_30AC, 0x51DE_003A, 0xC8D7_5180, 0xBFD0_6116, 0x21B4_F4B5, 0x56B3_C423, 0xCFBA_9599, 0xB8BD_A50F,
    0x2802_B89E, 0x5F05_8808, 0xC60C_D9B2, 0xB10B_E924, 0x2F6F_7C87, 0x5868_4C11, 0xC161_1DAB, 0xB666_2D3D]

  const ROW_4: seq<bv32> := [
    0x76DC_4190, 0x01DB_7106, 0x98D2_20BC, 0xEFD5_102A, 0x71B1_8589, 0x06B6_B51F, 0x9FBF_E4A5, 0xE8B8_D433,
    0x7807_C9A2, 0x0F00_F934, 0x9609_A88E, 0xE10E_9818, 0x7F6A_0DBB, 0x086D_3D2D, 0x9164_6C97, 0xE663_5C01]

  const ROW_5: seq<bv32> := [
    0x6B6B_51F4, 0x1C6C_6162, 0x8565_30D8, 0xF262_004E, 0x6C06_95ED, 0x1B01_A57B, 0x8208_F4C1, 0xF50F_C457,
    0x65B0_D9C6, 0x12B7_E950, 0x8BBE_B8EA, 0xFCB9_887C, 0x62DD_1DDF, 0x15DA_2D49, 0x8CD3_7CF3, 0xFBD4_4C65]

  const ROW_6: seq<bv32> := [
    0x4DB2_6158, 0x3AB5_51CE, 0xA3BC_0074, 0xD4BB_30E2, 0x4ADF_A541, 0x3DD8_95D7, 0xA4D1_C46D, 0xD3D6_F4FB,
    0x4369_E96A, 0x346E_D9FC, 0xAD67_8846, 0xDA60_B8D0, 0x4404_2D73, 0x3303_1DE5, 0xAA0A_4C5F, 0xDD0D_7CC9]

  const ROW_7: seq<bv32> := [
    0x5005_713C, 0x2702_41AA, 0xBE0B_1010, 0xC90C_2086, 0x5768_B525, 0x206F_85B3, 0xB966_D409, 0xCE61_E49F,
    0x5EDE_F90E, 0x29D9_C998, 0xB0D0_9822, 0xC7D7_A8B4, 0x59B3_3D17, 0x2EB4_0D81, 0xB7BD_5C3B, 0xC0BA_6CAD]

  const ROW_8: seq<bv32> := [
    0xEDB8_8320, 0x9ABF_B3B6, 0x03B6_E20C, 0x74B1_D29A, 0xEAD5_4739, 0x9DD2_77AF, 0x04DB_2615, 0x73DC_1683,
    0xE363_0B12, 0x9464_3B84, 0x0D6D_6A3E, 0x7A6A_5AA8, 0xE40E_CF0B, 0x9309_FF9D, 0x0A00_AE27, 0x7D07_9EB1]

  const ROW_9: seq<bv32> := [
    0xF00F_9344, 0x8708_A3D2, 0x1E01_F268, 0x6906_C2FE, 0xF762_575D, 0x8065_67CB, 0x196C_3671, 0x6E6B_06E7,
    0xFED4_1B76, 0x89D3_2BE0, 0x10DA_7A5A, 0x67DD_4ACC, 0xF9B9_DF6F, 0x8EBE_EFF9, 0x17B7_BE43, 0x60B0_8ED5]

  const ROW_A: seq<bv32> := [
    0xD6D6_A3E8, 0xA1D1_937E, 0x38D8_C2C4, 0x4FDF_F252, 0xD1BB_67F1, 0xA6BC_5767, 0x3FB5_06DD, 0x48B2_364B,
    0xD80D_2BDA, 0xAF0A_1B4C, 0x3603_4AF6, 0x4104_7A60, 0xDF60_EFC3, 0xA867_DF55, 0x316E_8EEF, 0x4669_BE79]

  const ROW_B: seq<bv32> := [
    0xCB61_B38C, 0xBC66_831A, 0x256F_D2A0, 0x5268_E236, 0xCC0C_7795, 0xBB0B_4703, 0x2202_16B9, 0x5505_262F,
    0xC5BA_3BBE, 0xB2BD_0B28, 0x2BB4_5A92, 0x5CB3_6A04, 0xC2D7_FFA7, 0xB5D0_CF31, 0x2CD9_9E8B, 0x5BDE_AE1D]

  const ROW_C: seq<bv32> := [
    0x9B64_C2B0, 0xEC63_F226, 0x756A_A39C, 0x026D_930A, 0x9C09_06A9, 0xEB0E_363F, 0x7207_6785, 0x0500_5713,
    0x95BF_4A82, 0xE2B8_7A14, 0x7BB1_2BAE, 0x0CB6_1B38, 0x92D2_8E9B, 0xE5D5_BE0D, 0x7CDC_EFB7, 0x0BDB_DF21]

  const ROW_D: seq<bv32> := [
    0x86D3_D2D4, 0xF1D4_E242, 0x68DD_B3F8, 0x1FDA_836E, 0x81BE_16CD, 0xF6B9_265B, 0x6FB0_77E1, 0x18B7_4777,
    0x8808_5AE6, 0xFF0F_6A70, 0x6606_3BCA, 0x1101_0B5C, 0x8F65_9EFF, 0xF862_AE69, 0x616B_FFD3, 0x166C_CF45]

  const ROW_E: seq<bv32> := [
    0xA00A_E278, 0xD70D_D2EE, 0x4E04_8354, 0x3903_B3C2, 0xA767_2661, 0xD060_16F7, 0x4969_474D, 0x3E6E_77DB,
    0xAED1_6A4A, 0xD9D6_5ADC, 0x40DF_0B66, 0x37D8_3BF0, 0xA9BC_AE53, 0xDEBB_9EC5, 0x47B2_CF7F, 0x30B5_FFE9]

  const ROW_F: seq<bv32> := [
    0xBDBD_F21C, 0xCABA_C28A, 0x53B3_9330, 0x24B4_A3A6, 0xBAD0_3605, 0xCDD7_0693, 0x54DE_5729, 0x23D9_67BF,
    0xB366_7A2E, 0xC461_4AB8, 0x5D68_1B02, 0x2A6F_2B94, 0xB40B_BE37, 0xC30C_8EA1, 0x5A05_DF1B, 0x2D02_EF8D]

  function Join(a: seq<bv32>, b: seq<bv32>, c: seq<bv32>, d: seq<bv32>): seq<bv32> { a + b + c + d }

  const QUARTER_0: seq<bv32> := Join(ROW_0, ROW_1, ROW_2, ROW_3)

  const QUARTER_1: seq<bv32> := Join(ROW_4, ROW_5, ROW_6, ROW_7)

  const QUARTER_2: seq<bv32> := Join(ROW_8, ROW_9, ROW_A, ROW_B)

  const QUARTER_3: seq<bv32> := Join(ROW_C, ROW_D, ROW_E, ROW_F)

  const STRING_CRC_TAB: seq<bv32> := Join(QUARTER_0, QUARTER_1, QUARTER_2, QUARTER_3)

  // ----- the generator -----

  /** One bit of section 8 of RFC 1952: c & 1 ? 0xedb88320 ^ (c >> 1) : c >> 1. */
  function Round(c: bv32): bv32 { if c & 1 != 0 then 0xEDB8_8320 ^ (c >> 1) else c >> 1 }

  function Crc(b: bv32): bv32 { Round(Round(Round(Round(Round(Round(Round(Round(b)))))))) }

  /** The top bytes of the 256 entries are a permutation: no two entries share one. */
  lemma TopByteInjective(a: bv32, b: bv32)
    requires a <= 0xFF && b <= 0xFF && Crc(a) >> 24 == Crc(b) >> 24
    ensures a == b
  {
  }

  // ----- every entry of the table is the generator's value -----

  lemma JoinAt(a: seq<bv32>, b: seq<bv32>, c: seq<bv32>, d: seq<bv32>, n: nat, i: nat)
    requires |a| == |b| == |c| == |d| == n && i < 4 * n
    ensures |Join(a, b, c, d)| == 4 * n
    ensures Join(a, b, c, d)[i] == if i < n then a[i] else if i < 2 * n then b[i - n] else if i < 3 * n then c[i - 2 * n] else d[i - 3 * n]
  {
  }

  lemma TableLength()
    ensures |QUARTER_0| == |QUARTER_1| == |QUARTER_2| == |QUARTER_3| == 64 && |STRING_CRC_TAB| == 256
  {
    hide Join;
    JoinAt(ROW_0, ROW_1, ROW_2, ROW_3, 16, 0);
    JoinAt(ROW_4, ROW_5, ROW_6, ROW_7, 16, 0);
    JoinAt(ROW_8, ROW_9, ROW_A, ROW_B, 16, 0);
    JoinAt(ROW_C, ROW_D, ROW_E, ROW_F, 16, 0);
    JoinAt(QUARTER_0, QUARTER_1, QUARTER_2, QUARTER_3, 64, 0);
  }

  lemma Entry0(b: bv32)
    requires 0x00 <= b <= 0x0F
    ensures ROW_0[b as nat - 0] == Crc(b)
  {
    match b {
      case 0 => assert ROW_0[0] == Crc(0x00); case 1 => assert ROW_0[1] == Crc(0x01); case 2 => assert ROW_0[2] == Crc(0x02); case 3 => assert ROW_0[3] == Crc(0x03);
      case 4 => assert ROW_0[4] == Crc(0x04); case 5 => assert ROW_0[5] == Crc(0x05); case 6 => assert ROW_0[6] == Crc(0x06); case 7 => assert ROW_0[7] == Crc(0x07);
      case 8 => assert ROW_0[8] == Crc(0x08); case 9 => assert ROW_0[9] == Crc(0x09); case 10 => assert ROW_0[10] == Crc(0x0A); case 11 => assert ROW_0[11] == Crc(0x0B);
      case 12 => assert ROW_0[12] == Crc(0x0C); case 13 => assert ROW_0[13] == Crc(0x0D); case 14 => assert ROW_0[14] == Crc(0x0E); case _ => assert ROW_0[15] == Crc(0x0F);
    }
  }

  lemma Row0(b: bv32)
    requires 0x00 <= b <= 0x0F
    ensures |STRING_CRC_TAB| == 256 && STRING_CRC_TAB[b as nat] == Crc(b)
  {
    hide Join, Crc;
    TableLength();
    Entry0(b);
    JoinAt(ROW_0, ROW_1, ROW_2, ROW_3, 16, b as nat - 0);
    JoinAt(QUARTER_0, QUARTER_1, QUARTER_2, QUARTER_3, 64, b as nat);
  }

  lemma Entry1(b: bv32)
    requires 0x10 <= b <= 0x1F
    ensures ROW_1[b as nat - 16] == Crc(b)
  {
    match b {
      case 16 => assert ROW_1[0] == Crc(0x10); case 17 => assert ROW_1[1] == Crc(0x11); case 18 => assert ROW_1[2] == Crc(0x12); case 19 => assert ROW_1[3] == Crc(0x13);
      case 20 => assert ROW_1[4] == Crc(0x14); case 21 => assert ROW_1[5] == Crc(0x15); case 22 => assert ROW_1[6] == Crc(0x16); case 23 => assert ROW_1[7] == Crc(0x17);
      case 24 => assert ROW_1[8] == Crc(0x18); case 25 => assert ROW_1[9] == Crc(0x19); case 26 => assert ROW_1[10] == Crc(0x1A); case 27 => assert ROW_1[11] == Crc(0x1B);
      case 28 => assert ROW_1[12] == Crc(0x1C); case 29 => assert ROW_1[13] == Crc(0x1D); case 30 => assert ROW_1[14] == Crc(0x1E); case _ => assert ROW_1[15] == Crc(0x1F);
    }
  }

  lemma Row1(b: bv32)
    requires 0x10 <= b <= 0x1F
    ensures |STRING_CRC_TAB| == 256 && STRING_CRC_TAB[b as nat] == Crc(b)
  {
    hide Join, Crc;
    TableLength();
    Entry1(b);
    JoinAt(ROW_0, ROW_1, ROW_2, ROW_3, 16, b as nat - 0);
    JoinAt(QUARTER_0, QUARTER_1, QUARTER_2, QUARTER_3, 64, b as nat);
  }

  lemma Entry2(b: bv32)
    requires 0x20 <= b <= 0x2F
    ensures ROW_2[b as nat - 32] == Crc(b)
  {
    match b {
      case 32 => assert ROW_2[0] == Crc(0x20); case 33 => assert ROW_2[1] == Crc(0x21); case 34 => assert ROW_2[2] == Crc(0x22); case 35 => assert ROW_2[3] == Crc(0x23);
      case 36 => assert ROW_2[4] == Crc(0x24); case 37 => assert ROW_2[5] == Crc(0x25); case 38 => assert ROW_2[6] == Crc(0x26); case 39 => assert ROW_2[7] == Crc(0x27);
      case 40 => assert ROW_2[8] == Crc(0x28); case 41 => assert ROW_2[9] == Crc(0x29); case 42 => assert ROW_2[10] == Crc(0x2A); case 43 => assert ROW_2[11] == Crc(0x2B);
      case 44 => assert ROW_2[12] == Crc(0x2C); case 45 => assert ROW_2[13] == Crc(0x2D); case 46 => assert ROW_2[14] == Crc(0x2E); case _ => assert ROW_2[15] == Crc(0x2F);
    }
  }

  lemma Row2(b: bv32)
    requires 0x20 <= b <= 0x2F
    ensures |STRING_CRC_TAB| == 256 && STRING_CRC_TAB[b as nat] == Crc(b)
  {
    hide Join, Crc;
    TableLength();
    Entry2(b);
    JoinAt(ROW_0, ROW_1, ROW_2, ROW_3, 16, b as nat - 0);
    JoinAt(QUARTER_0, QUARTER_1, QUARTER_2, QUARTER_3, 64, b as nat);
  }

  lemma Entry3(b: bv32)
    requires 0x30 <= b <= 0x3F
    ensures ROW_3[b as nat - 48] == Crc(b)
  {
    match b {
      case 48 => assert ROW_3[0] == Crc(0x30); case 49 => assert ROW_3[1] == Crc(0x31); case 50 => assert ROW_3[2] == Crc(0x32); case 51 => assert ROW_3[3] == Crc(0x33);
      case 52 => assert ROW_3[4] == Crc(0x34); case 53 => assert ROW_3[5] == Crc(0x35); case 54 => assert ROW_3[6] == Crc(0x36); case 55 => assert ROW_3[7] == Crc(0x37);
      case 56 => assert ROW_3[8] == Crc(0x38); case 57 => assert ROW_3[9] == Crc(0x39); case 58 => assert ROW_3[10] == Crc(0x3A); case 59 => assert ROW_3[11] == Crc(0x3B);
      case 60 => assert ROW_3[12] == Crc(0x3C); case 61 => assert ROW_3[13] == Crc(0x3D); case 62 => assert ROW_3[14] == Crc(0x3E); case _ => assert ROW_3[15] == Crc(0x3F);
    }
  }

  lemma Row3(b: bv32)
    requires 0x30 <= b <= 0x3F
    ensures |STRING_CRC_TAB| == 256 && STRING_CRC_TAB[b as nat] == Crc(b)
  {
    hide Join, Crc;
    TableLength();
    Entry3(b);
    JoinAt(ROW_0, ROW_1, ROW_2, ROW_3, 16, b as nat - 0);
    JoinAt(QUARTER_0, QUARTER_1, QUARTER_2, QUARTER_3, 64, b as nat);
  }

  lemma Entry4(b: bv32)
    requires 0x40 <= b <= 0x4F
    ensures ROW_4[b as nat - 64] == Crc(b)
  {
    match b {
      case 64 => assert ROW_4[0] == Crc(0x40); case 65 => assert ROW_4[1] == Crc(0x41); case 66 => assert ROW_4[2] == Crc(0x42); case 67 => assert ROW_4[3] == Crc(0x43);
      case 68 => assert ROW_4[4] == Crc(0x44); case 69 => assert ROW_4[5] == Crc(0x45); case 70 => assert ROW_4[6] == Crc(0x46); case 71 => assert ROW_4[7] == Crc(0x47);
      case 72 => assert ROW_4[8] == Crc(0x48); case 73 => assert ROW_4[9] == Crc(0x49); case 74 => assert ROW_4[10] == Crc(0x4A); case 75 => assert ROW_4[11] == Crc(0x4B);
      case 76 => assert ROW_4[12] == Crc(0x4C); case 77 => assert ROW_4[13] == Crc(0x4D); case 78 => assert ROW_4[14] == Crc(0x4E); case _ => assert ROW_4[15] == Crc(0x4F);
    }
  }

  lemma Row4(b: bv32)
    requires 0x40 <= b <= 0x4F
    ensures |STRING_CRC_TAB| == 256 && STRING_CRC_TAB[b as nat] == Crc(b)
  {
    hide Join, Crc;
    TableLength();
    Entry4(b);
    JoinAt(ROW_4, ROW_5, ROW_6, ROW_7, 16, b as nat - 64);
    JoinAt(QUARTER_0, QUARTER_1, QUARTER_2, QUARTER_3, 64, b as nat);
  }

  lemma Entry5(b: bv32)
    requires 0x50 <= b <= 0x5F
    ensures ROW_5[b as nat - 80] == Crc(b)
  {
    match b {
      case 80 => assert ROW_5[0] == Crc(0x50); case 81 => assert ROW_5[1] == Crc(0x51); case 82 => assert ROW_5[2] == Crc(0x52); case 83 => assert ROW_5[3] == Crc(0x53);
      case 84 => assert ROW_5[4] == Crc(0x54); case 85 => assert ROW_5[5] == Crc(0x55); case 86 => assert ROW_5[6] == Crc(0x56); case 87 => assert ROW_5[7] == Crc(0x57);
      case 88 => assert ROW_5[8] == Crc(0x58); case 89 => assert ROW_5[9] == Crc(0x59); case 90 => assert ROW_5[10] == Crc(0x5A); case 91 => assert ROW_5[11] == Crc(0x5B);
      case 92 => assert ROW_5[12] == Crc(0x5C); case 93 => assert ROW_5[13] == Crc(0x5D); case 94 => assert ROW_5[14] == Crc(0x5E); case _ => assert ROW_5[15] == Crc(0x5F);
    }
  }

  lemma Row5(b: bv32)
    requires 0x50 <= b <= 0x5F
    ensures |STRING_CRC_TAB| == 256 && STRING_CRC_TAB[b as nat] == Crc(b)
  {
    hide Join, Crc;
    TableLength();
    Entry5(b);
    JoinAt(ROW_4, ROW_5, ROW_6, ROW_7, 16, b as nat - 64);
    JoinAt(QUARTER_0, QUARTER_1, QUARTER_2, QUARTER_3, 64, b as nat);
  }

  lemma Entry6(b: bv32)
    requires 0x60 <= b <= 0x6F
    ensures ROW_6[b as nat - 96] == Crc(b)
  {
    match b {
      case 96 => assert ROW_6[0] == Crc(0x60); case 97 => assert ROW_6[1] == Crc(0x61); case 98 => assert ROW_6[2] == Crc(0x62); case 99 => assert ROW_6[3] == Crc(0x63);
      case 100 => assert ROW_6[4] == Crc(0x64); case 101 => assert ROW_6[5] == Crc(0x65); case 102 => assert ROW_6[6] == Crc(0x66); case 103 => assert ROW_6[7] == Crc(0x67);
      case 104 => assert ROW_6[8] == Crc(0x68); case 105 => assert ROW_6[9] == Crc(0x69); case 106 => assert ROW_6[10] == Crc(0x6A); case 107 => assert ROW_6[11] == Crc(0x6B);
      case 108 => assert ROW_6[12] == Crc(0x6C); case 109 => assert ROW_6[13] == Crc(0x6D); case 110 => assert ROW_6[14] == Crc(0x6E); case _ => assert ROW_6[15] == Crc(0x6F);
    }
  }

  lemma Row6(b: bv32)
    requires 0x60 <= b <= 0x6F
    ensures |STRING_CRC_TAB| == 256 && STRING_CRC_TAB[b as nat] == Crc(b)
  {
    hide Join, Crc;
    TableLength();
    Entry6(b);
    JoinAt(ROW_4, ROW_5, ROW_6, ROW_7, 16, b as nat - 64);
    JoinAt(QUARTER_0, QUARTER_1, QUARTER_2, QUARTER_3, 64, b as nat);
  }

  lemma Entry7(b: bv32)
    requires 0x70 <= b <= 0x7F
    ensures ROW_7[b as nat - 112] == Crc(b)
  {
    match b {
      case 112 => assert ROW_7[0] == Crc(0x70); case 113 => assert ROW_7[1] == Crc(0x71); case 114 => assert ROW_7[2] == Crc(0x72); case 115 => assert ROW_7[3] == Crc(0x73);
      case 116 => assert ROW_7[4] == Crc(0x74); case 117 => assert ROW_7[5] == Crc(0x75); case 118 => assert ROW_7[6] == Crc(0x76); case 119 => assert ROW_7[7] == Crc(0x77);
      case 120 => assert ROW_7[8] == Crc(0x78); case 121 => assert ROW_7[9] == Crc(0x79); case 122 => assert ROW_7[10] == Crc(0x7A); case 123 => assert ROW_7[11] == Crc(0x7B);
      case 124 => assert ROW_7[12] == Crc(0x7C); case 125 => assert ROW_7[13] == Crc(0x7D); case 126 => assert ROW_7[14] == Crc(0x7E); case _ => assert ROW_7[15] == Crc(0x7F);
    }
  }

  lemma Row7(b: bv32)
    requires 0x70 <= b <= 0x7F
    ensures |STRING_CRC_TAB| == 256 && STRING_CRC_TAB[b as nat] == Crc(b)
  {
    hide Join, Crc;
    TableLength();
    Entry7(b);
    JoinAt(ROW_4, ROW_5, ROW_6, ROW_7, 16, b as nat - 64);
    JoinAt(QUARTER_0, QUARTER_1, QUARTER_2, QUARTER_3, 64, b as nat);
  }

  lemma Entry8(b: bv32)
    requires 0x80 <= b <= 0x8F
    ensures ROW_8[b as nat - 128] == Crc(b)
  {
    match b {
      case 128 => assert ROW_8[0] == Crc(0x80); case 129 => assert ROW_8[1] == Crc(0x81); case 130 => assert ROW_8[2] == Crc(0x82); case 131 => assert ROW_8[3] == Crc(0x83);
      case 132 => assert ROW_8[4] == Crc(0x84); case 133 => assert ROW_8[5] == Crc(0x85); case 134 => assert ROW_8[6] == Crc(0x86); case 135 => assert ROW_8[7] == Crc(0x87);
      case 136 => assert ROW_8[8] == Crc(0x88); case 137 => assert ROW_8[9] == Crc(0x89); case 138 => assert ROW_8[10] == Crc(0x8A); case 139 => assert ROW_8[11] == Crc(0x8B);
      case 140 => assert ROW_8[12] == Crc(0x8C); case 141 => assert ROW_8[13] == Crc(0x8D); case 142 => assert ROW_8[14] == Crc(0x8E); case _ => assert ROW_8[15] == Crc(0x8F);
    }
  }

  lemma Row8(b: bv32)
    requires 0x80 <= b <= 0x8F
    ensures |STRING_CRC_TAB| == 256 && STRING_CRC_TAB[b as nat] == Crc(b)
  {
    hide Join, Crc;
    TableLength();
    Entry8(b);
    JoinAt(ROW_8, ROW_9, ROW_A, ROW_B, 16, b as nat - 128);
    JoinAt(QUARTER_0, QUARTER_1, QUARTER_2, QUARTER_3, 64, b as nat);
  }

  lemma Entry9(b: bv32)
    requires 0x90 <= b <= 0x9F
    ensures ROW_9[b as nat - 144] == Crc(b)
  {
    match b {
      case 144 => assert ROW_9[0] == Crc(0x90); case 145 => assert ROW_9[1] == Crc(0x91); case 146 => assert ROW_9[2] == Crc(0x92); case 147 => assert ROW_9[3] == Crc(0x93);
      case 148 => assert ROW_9[4] == Crc(0x94); case 149 => assert ROW_9[5] == Crc(0x95); case 150 => assert ROW_9[6] == Crc(0x96); case 151 => assert ROW_9[7] == Crc(0x97);
      case 152 => assert ROW_9[8] == Crc(0x98); case 153 => assert ROW_9[9] == Crc(0x99); case 154 => assert ROW_9[10] == Crc(0x9A); case 155 => assert ROW_9[11] == Crc(0x9B);
      case 156 => assert ROW_9[12] == Crc(0x9C); case 157 => assert ROW_9[13] == Crc(0x9D); case 158 => assert ROW_9[14] == Crc(0x9E); case _ => assert ROW_9[15] == Crc(0x9F);
    }
  }

  lemma Row9(b: bv32)
    requires 0x90 <= b <= 0x9F
    ensures |STRING_CRC_TAB| == 256 && STRING_CRC_TAB[b as nat] == Crc(b)
  {
    hide Join, Crc;
    TableLength();
    Entry9(b);
    JoinAt(ROW_8, ROW_9, ROW_A, ROW_B, 16, b as nat - 128);
    JoinAt(QUARTER_0, QUARTER_1, QUARTER_2, QUARTER_3, 64, b as nat);
  }

  lemma EntryA(b: bv32)
    requires 0xA0 <= b <= 0xAF
    ensures ROW_A[b as nat - 160] == Crc(b)
  {
    match b {
      case 160 => assert ROW_A[0] == Crc(0xA0); case 161 => assert ROW_A[1] == Crc(0xA1); case 162 => assert ROW_A[2] == Crc(0xA2); case 163 => assert ROW_A[3] == Crc(0xA3);
      case 164 => assert ROW_A[4] == Crc(0xA4); case 165 => assert ROW_A[5] == Crc(0xA5); case 166 => assert ROW_A[6] == Crc(0xA6); case 167 => assert ROW_A[7] == Crc(0xA7);
      case 168 => assert ROW_A[8] == Crc(0xA8); case 169 => assert ROW_A[9] == Crc(0xA9); case 170 => assert ROW_A[10] == Crc(0xAA); case 171 => assert ROW_A[11] == Crc(0xAB);
      case 172 => assert ROW_A[12] == Crc(0xAC); case 173 => assert ROW_A[13] == Crc(0xAD); case 174 => assert ROW_A[14] == Crc(0xAE); case _ => assert ROW_A[15] == Crc(0xAF);
    }
  }

  lemma RowA(b: bv32)
    requires 0xA0 <= b <= 0xAF
    ensures |STRING_CRC_TAB| == 256 && STRING_CRC_TAB[b as nat] == Crc(b)
  {
    hide Join, Crc;
    TableLength();
    EntryA(b);
    JoinAt(ROW_8, ROW_9, ROW_A, ROW_B, 16, b as nat - 128);
    JoinAt(QUARTER_0, QUARTER_1, QUARTER_2, QUARTER_3, 64, b as nat);
  }

  lemma EntryB(b: bv32)
    requires 0xB0 <= b <= 0xBF
    ensures ROW_B[b as nat - 176] == Crc(b)
  {
    match b {
      case 176 => assert ROW_B[0] == Crc(0xB0); case 177 => assert ROW_B[1] == Crc(0xB1); case 178 => assert ROW_B[2] == Crc(0xB2); case 179 => assert ROW_B[3] == Crc(0xB3);
      case 180 => assert ROW_B[4] == Crc(0xB4); case 181 => assert ROW_B[5] == Crc(0xB5); case 182 => assert ROW_B[6] == Crc(0xB6); case 183 => assert ROW_B[7] == Crc(0xB7);
      case 184 => assert ROW_B[8] == Crc(0xB8); case 185 => assert ROW_B[9] == Crc(0xB9); case 186 => assert ROW_B[10] == Crc(0xBA); case 187 => assert ROW_B[11] == Crc(0xBB);
      case 188 => assert ROW_B[12] == Crc(0xBC); case 189 => assert ROW_B[13] == Crc(0xBD); case 190 => assert ROW_B[14] == Crc(0xBE); case _ => assert ROW_B[15] == Crc(0xBF);
    }
  }

  lemma RowB(b: bv32)
    requires 0xB0 <= b <= 0xBF
    ensures |STRING_CRC_TAB| == 256 && STRING_CRC_TAB[b as nat] == Crc(b)
  {
    hide Join, Crc;
    TableLength();
    EntryB(b);
    JoinAt(ROW_8, ROW_9, ROW_A, ROW_B, 16, b as nat - 128);
    JoinAt(QUARTER_0, QUARTER_1, QUARTER_2, QUARTER_3, 64, b as nat);
  }

  lemma EntryC(b: bv32)
    requires 0xC0 <= b <= 0xCF
    ensures ROW_C[b as nat - 192] == Crc(b)
  {
    match b {
      case 192 => assert ROW_C[0] == Crc(0xC0); case 193 => assert ROW_C[1] == Crc(0xC1); case 194 => assert ROW_C[2] == Crc(0xC2); case 195 => assert ROW_C[3] == Crc(0xC3);
      case 196 => assert ROW_C[4] == Crc(0xC4); case 197 => assert ROW_C[5] == Crc(0xC5); case 198 => assert ROW_C[6] == Crc(0xC6); case 199 => assert ROW_C[7] == Crc(0xC7);
      case 200 => assert ROW_C[8] == Crc(0xC8); case 201 => assert ROW_C[9] == Crc(0xC9); case 202 => assert ROW_C[10] == Crc(0xCA); case 203 => assert ROW_C[11] == Crc(0xCB);
      case 204 => assert ROW_C[12] == Crc(0xCC); case 205 => assert ROW_C[13] == Crc(0xCD); case 206 => assert ROW_C[14] == Crc(0xCE); case _ => assert ROW_C[15] == Crc(0xCF);
    }
  }

  lemma RowC(b: bv32)
    requires 0xC0 <= b <= 0xCF
    ensures |STRING_CRC_TAB| == 256 && STRING_CRC_TAB[b as nat] == Crc(b)
  {
    hide Join, Crc;
    TableLength();
    EntryC(b);
    JoinAt(ROW_C, ROW_D, ROW_E, ROW_F, 16, b as nat - 192);
    JoinAt(QUARTER_0, QUARTER_1, QUARTER_2, QUARTER_3, 64, b as nat);
  }

  lemma EntryD(b: bv32)
    requires 0xD0 <= b <= 0xDF
    ensures ROW_D[b as nat - 208] == Crc(b)
  {
    match b {
      case 208 => assert ROW_D[0] == Crc(0xD0); case 209 => assert ROW_D[1] == Crc(0xD1); case 210 => assert ROW_D[2] == Crc(0xD2); case 211 => assert ROW_D[3] == Crc(0xD3);
      case 212 => assert ROW_D[4] == Crc(0xD4); case 213 => assert ROW_D[5] == Crc(0xD5); case 214 => assert ROW_D[6] == Crc(0xD6); case 215 => assert ROW_D[7] == Crc(0xD7);
      case 216 => assert ROW_D[8] == Crc(0xD8); case 217 => assert ROW_D[9] == Crc(0xD9); case 218 => assert ROW_D[10] == Crc(0xDA); case 219 => assert ROW_D[11] == Crc(0xDB);
      case 220 => assert ROW_D[12] == Crc(0xDC); case 221 => assert ROW_D[13] == Crc(0xDD); case 222 => assert ROW_D[14] == Crc(0xDE); case _ => assert ROW_D[15] == Crc(0xDF);
    }
  }

  lemma RowD(b: bv32)
    requires 0xD0 <= b <= 0xDF
    ensures |STRING_CRC_TAB| == 256 && STRING_CRC_TAB[b as nat] == Crc(b)
  {
    hide Join, Crc;
    TableLength();
    EntryD(b);
    JoinAt(ROW_C, ROW_D, ROW_E, ROW_F, 16, b as nat - 192);
    JoinAt(QUARTER_0, QUARTER_1, QUARTER_2, QUARTER_3, 64, b as nat);
  }

  lemma EntryE(b: bv32)
    requires 0xE0 <= b <= 0xEF
    ensures ROW_E[b as nat - 224] == Crc(b)
  {
    match b {
      case 224 => assert ROW_E[0] == Crc(0xE0); case 225 => assert ROW_E[1] == Crc(0xE1); case 226 => assert ROW_E[2] == Crc(0xE2); case 227 => assert ROW_E[3] == Crc(0xE3);
      case 228 => assert ROW_E[4] == Crc(0xE4); case 229 => assert ROW_E[5] == Crc(0xE5); case 230 => assert ROW_E[6] == Crc(0xE6); case 231 => assert ROW_E[7] == Crc(0xE7);
      case 232 => assert ROW_E[8] == Crc(0xE8); case 233 => assert ROW_E[9] == Crc(0xE9); case 234 => assert ROW_E[10] == Crc(0xEA); case 235 => assert ROW_E[11] == Crc(0xEB);
      case 236 => assert ROW_E[12] == Crc(0xEC); case 237 => assert ROW_E[13] == Crc(0xED); case 238 => assert ROW_E[14] == Crc(0xEE); case _ => assert ROW_E[15] == Crc(0xEF);
    }
  }

  lemma RowE(b: bv32)
    requires 0xE0 <= b <= 0xEF
    ensures |STRING_CRC_TAB| == 256 && STRING_CRC_TAB[b as nat] == Crc(b)
  {
    hide Join, Crc;
    TableLength();
    EntryE(b);
    JoinAt(ROW_C, ROW_D, ROW_E, ROW_F, 16, b as nat - 192);
    JoinAt(QUARTER_0, QUARTER_1, QUARTER_2, QUARTER_3, 64, b as nat);
  }

  lemma EntryF(b: bv32)
    requires 0xF0 <= b <= 0xFF
    ensures ROW_F[b as nat - 240] == Crc(b)
  {
    match b {
      case 240 => assert ROW_F[0] == Crc(0xF0); case 241 => assert ROW_F[1] == Crc(0xF1); case 242 => assert ROW_F[2] == Crc(0xF2); case 243 => assert ROW_F[3] == Crc(0xF3);
      case 244 => assert ROW_F[4] == Crc(0xF4); case 245 => assert ROW_F[5] == Crc(0xF5); case 246 => assert ROW_F[6] == Crc(0xF6); case 247 => assert ROW_F[7] == Crc(0xF7);
      case 248 => assert ROW_F[8] == Crc(0xF8); case 249 => assert ROW_F[9] == Crc(0xF9); case 250 => assert ROW_F[10] == Crc(0xFA); case 251 => assert ROW_F[11] == Crc(0xFB);
      case 252 => assert ROW_F[12] == Crc(0xFC); case 253 => assert ROW_F[13] == Crc(0xFD); case 254 => assert ROW_F[14] == Crc(0xFE); case _ => assert ROW_F[15] == Crc(0xFF);
    }
  }

  lemma RowF(b: bv32)
    requires 0xF0 <= b <= 0xFF
    ensures |STRING_CRC_TAB| == 256 && STRING_CRC_TAB[b as nat] == Crc(b)
  {
    hide Join, Crc;
    TableLength();
    EntryF(b);
    JoinAt(ROW_C, ROW_D, ROW_E, ROW_F, 16, b as nat - 192);
    JoinAt(QUARTER_0, QUARTER_1, QUARTER_2, QUARTER_3, 64, b as nat);
  }

  /** The table is the CRC-32 table. */
  lemma TableIsCrc(b: bv32)
    requires b <= 0xFF
    ensures |STRING_CRC_TAB| == 256 && STRING_CRC_TAB[b as nat] == Crc(b)
  {
    hide Crc, Join;
    if b <= 0x0F { Row0(b); }
    else if b <= 0x1F { Row1(b); }
    else if b <= 0x2F { Row2(b); }
    else if b <= 0x3F { Row3(b); }
    else if b <= 0x4F { Row4(b); }
    else if b <= 0x5F { Row5(b); }
    else if b <= 0x6F { Row6(b); }
    else if b <= 0x7F { Row7(b); }
    else if b <= 0x8F { Row8(b); }
    else if b <= 0x9F { Row9(b); }
    else if b <= 0xAF { RowA(b); }
    else if b <= 0xBF { RowB(b); }
    else if b <= 0xCF { RowC(b); }
    else if b <= 0xDF { RowD(b); }
    else if b <= 0xEF { RowE(b); }
    else { RowF(b); }
  }
}
