/** Published values: a check value of CRC-32, of 64-bit FNV-1a, and the examples of section 10 of RFC 4648. */
module PublishedValues {
  import opened Checksums
  import B = Base64

  lemma Byte1()
    ensures BitSteps(0xFFFFFFCE, 8) == 0x7C231048
  {
    assert BitStep(0xFFFFFFCE) == 0x7FFFFFE7 && BitStep(0x7FFFFFE7) == 0xD2477CD3;
    assert BitStep(0xD2477CD3) == 0x849B3D49 && BitStep(0x849B3D49) == 0xAFF51D84;
    assert BitStep(0xAFF51D84) == 0x57FA8EC2 && BitStep(0x57FA8EC2) == 0x2BFD4761;
    assert BitStep(0x2BFD4761) == 0xF8462090 && BitStep(0xF8462090) == 0x7C231048;
    hide BitStep;
  }

  lemma Byte2()
    ensures BitSteps(0x7C23107A, 8) == 0xB0ACBB32
  {
    assert BitStep(0x7C23107A) == 0x3E11883D && BitStep(0x3E11883D) == 0xF2B0473E;
    assert BitStep(0xF2B0473E) == 0x7958239F && BitStep(0x7958239F) == 0xD11492EF;
    assert BitStep(0xD11492EF) == 0x8532CA57 && BitStep(0x8532CA57) == 0xAF21E60B;
    assert BitStep(0xAF21E60B) == 0xBA287025 && BitStep(0xBA287025) == 0xB0ACBB32;
    hide BitStep;
  }

  lemma Byte3()
    ensures BitSteps(0xB0ACBB01, 8) == 0x77B79C2D
  {
    assert BitStep(0xB0ACBB01) == 0xB5EEDEA0 && BitStep(0xB5EEDEA0) == 0x5AF76F50;
    assert BitStep(0x5AF76F50) == 0x2D7BB7A8 && BitStep(0x2D7BB7A8) == 0x16BDDBD4;
    assert BitStep(0x16BDDBD4) == 0xB5EEDEA && BitStep(0xB5EEDEA) == 0x5AF76F5;
    assert BitStep(0x5AF76F5) == 0xEF6F385A && BitStep(0xEF6F385A) == 0x77B79C2D;
    hide BitStep;
  }

  lemma Byte4()
    ensures BitSteps(0x77B79C19, 8) == 0x641C1F5C
  {
    assert BitStep(0x77B79C19) == 0xD6634D2C && BitStep(0xD6634D2C) == 0x6B31A696;
    assert BitStep(0x6B31A696) == 0x3598D34B && BitStep(0x3598D34B) == 0xF774EA85;
    assert BitStep(0xF774EA85) == 0x9602F662 && BitStep(0x9602F662) == 0x4B017B31;
    assert BitStep(0x4B017B31) == 0xC8383EB8 && BitStep(0xC8383EB8) == 0x641C1F5C;
    hide BitStep;
  }

  lemma Byte5()
    ensures BitSteps(0x641C1F69, 8) == 0x340AC5E3
  {
    assert BitStep(0x641C1F69) == 0xDFB68C94 && BitStep(0xDFB68C94) == 0x6FDB464A;
    assert BitStep(0x6FDB464A) == 0x37EDA325 && BitStep(0x37EDA325) == 0xF64E52B2;
    assert BitStep(0xF64E52B2) == 0x7B272959 && BitStep(0x7B272959) == 0xD02B178C;
    assert BitStep(0xD02B178C) == 0x68158BC6 && BitStep(0x68158BC6) == 0x340AC5E3;
    hide BitStep;
  }

  lemma Byte6()
    ensures BitSteps(0x340AC5D5, 8) == 0xF68D2C9E
  {
    assert BitStep(0x340AC5D5) == 0xF7BDE1CA && BitStep(0xF7BDE1CA) == 0x7BDEF0E5;
    assert BitStep(0x7BDEF0E5) == 0xD057FB52 && BitStep(0xD057FB52) == 0x682BFDA9;
    assert BitStep(0x682BFDA9) == 0xD9AD7DF4 && BitStep(0xD9AD7DF4) == 0x6CD6BEFA;
    assert BitStep(0x6CD6BEFA) == 0x366B5F7D && BitStep(0x366B5F7D) == 0xF68D2C9E;
    hide BitStep;
  }

  lemma Byte7()
    ensures BitSteps(0xF68D2CA9, 8) == 0xAFFC9660
  {
    assert BitStep(0xF68D2CA9) == 0x96FE1574 && BitStep(0x96FE1574) == 0x4B7F0ABA;
    assert BitStep(0x4B7F0ABA) == 0x25BF855D && BitStep(0x25BF855D) == 0xFF67418E;
    assert BitStep(0xFF67418E) == 0x7FB3A0C7 && BitStep(0x7FB3A0C7) == 0xD2615343;
    assert BitStep(0xD2615343) == 0x84882A81 && BitStep(0x84882A81) == 0xAFFC9660;
    hide BitStep;
  }

  lemma Byte8()
    ensures BitSteps(0xAFFC9658, 8) == 0x651F2550
  {
    assert BitStep(0xAFFC9658) == 0x57FE4B2C && BitStep(0x57FE4B2C) == 0x2BFF2596;
    assert BitStep(0x2BFF2596) == 0x15FF92CB && BitStep(0x15FF92CB) == 0xE7474A45;
    assert BitStep(0xE7474A45) == 0x9E1B2602 && BitStep(0x9E1B2602) == 0x4F0D9301;
    assert BitStep(0x4F0D9301) == 0xCA3E4AA0 && BitStep(0xCA3E4AA0) == 0x651F2550;
    hide BitStep;
  }

  lemma Byte9()
    ensures BitSteps(0x651F2569, 8) == 0x340BC6D9
  {
    assert BitStep(0x651F2569) == 0xDF371194 && BitStep(0xDF371194) == 0x6F9B88CA;
    assert BitStep(0x6F9B88CA) == 0x37CDC465 && BitStep(0x37CDC465) == 0xF65E6112;
    assert BitStep(0xF65E6112) == 0x7B2F3089 && BitStep(0x7B2F3089) == 0xD02F1B64;
    assert BitStep(0xD02F1B64) == 0x68178DB2 && BitStep(0x68178DB2) == 0x340BC6D9;
    hide BitStep;
  }

  /** One byte of a message, after `c`. */
  lemma FeedByte(c: bv32, b: bv8, more: Bytes, mixed: bv32, d: bv32)
    requires Xor(c, b as bv32) == mixed && BitSteps(mixed, 8) == d
    ensures Feed(c, [b] + more) == Feed(d, more)
  {
    hide BitSteps, Xor;
    assert ([b] + more)[1..] == more;
  }

  lemma FirstFour()
    ensures Feed(0xFFFFFFFF, [0x31, 0x32, 0x33, 0x34, 0x35, 0x36, 0x37, 0x38, 0x39])
      == Feed(0x641C1F5C, [0x35, 0x36, 0x37, 0x38, 0x39])
  {
    Byte1();
    Byte2();
    Byte3();
    Byte4();
    assert Xor(0xFFFFFFFF, 0x31) == 0xFFFFFFCE && Xor(0x7C231048, 0x32) == 0x7C23107A;
    assert Xor(0xB0ACBB32, 0x33) == 0xB0ACBB01 && Xor(0x77B79C2D, 0x34) == 0x77B79C19;
    hide BitSteps, Xor, Feed;
    FeedByte(0xFFFFFFFF, 0x31, [0x32, 0x33, 0x34, 0x35, 0x36, 0x37, 0x38, 0x39], 0xFFFFFFCE, 0x7C231048);
    FeedByte(0x7C231048, 0x32, [0x33, 0x34, 0x35, 0x36, 0x37, 0x38, 0x39], 0x7C23107A, 0xB0ACBB32);
    FeedByte(0xB0ACBB32, 0x33, [0x34, 0x35, 0x36, 0x37, 0x38, 0x39], 0xB0ACBB01, 0x77B79C2D);
    FeedByte(0x77B79C2D, 0x34, [0x35, 0x36, 0x37, 0x38, 0x39], 0x77B79C19, 0x641C1F5C);
  }

  lemma LastFive()
    ensures Feed(0x641C1F5C, [0x35, 0x36, 0x37, 0x38, 0x39]) == Feed(0x340BC6D9, [])
  {
    Byte5();
    Byte6();
    Byte7();
    Byte8();
    Byte9();
    assert Xor(0x641C1F5C, 0x35) == 0x641C1F69 && Xor(0x340AC5E3, 0x36) == 0x340AC5D5;
    assert Xor(0xF68D2C9E, 0x37) == 0xF68D2CA9 && Xor(0xAFFC9660, 0x38) == 0xAFFC9658;
    assert Xor(0x651F2550, 0x39) == 0x651F2569;
    hide BitSteps, Xor, Feed;
    FeedByte(0x641C1F5C, 0x35, [0x36, 0x37, 0x38, 0x39], 0x641C1F69, 0x340AC5E3);
    FeedByte(0x340AC5E3, 0x36, [0x37, 0x38, 0x39], 0x340AC5D5, 0xF68D2C9E);
    FeedByte(0xF68D2C9E, 0x37, [0x38, 0x39], 0xF68D2CA9, 0xAFFC9660);
    FeedByte(0xAFFC9660, 0x38, [0x39], 0xAFFC9658, 0x651F2550);
    FeedByte(0x651F2550, 0x39, [], 0x651F2569, 0x340BC6D9);
  }

  /** The bytes of `123456789`. */
  lemma CheckValue()
    ensures Crc32([0x31, 0x32, 0x33, 0x34, 0x35, 0x36, 0x37, 0x38, 0x39]) == 0xCBF43926
  {
    FirstFour();
    LastFive();
    hide BitSteps;
    assert Feed(0x340BC6D9, []) == 0x340BC6D9;
  }

  /** The bytes of `foobar`. */
  lemma FnvValue()
    ensures Fnv1a([]) == 0xCBF2_9CE4_8422_2325
    ensures Fnv1a([0x66, 0x6F, 0x6F, 0x62, 0x61, 0x72]) == 0x8594_4171_F739_67E8
  {
    assert FnvStep(0xCBF29CE484222325, 0x66) == 0xAF63DB4C8601EAD9;
    assert FnvStep(0xAF63DB4C8601EAD9, 0x6F) == 0x8985907B541D342;
    assert FnvStep(0x8985907B541D342, 0x6F) == 0xDCB27518FED9D577;
    assert FnvStep(0xDCB27518FED9D577, 0x62) == 0xDD120E790C2512AF;
    assert FnvStep(0xDD120E790C2512AF, 0x61) == 0xCAC165AFA2FEF40A;
    assert FnvStep(0xCAC165AFA2FEF40A, 0x72) == 0x85944171F73967E8;
    hide FnvStep;
    FnvByte(0xCBF29CE484222325, 0x66, [0x6F, 0x6F, 0x62, 0x61, 0x72]);
    FnvByte(0xAF63DB4C8601EAD9, 0x6F, [0x6F, 0x62, 0x61, 0x72]);
    FnvByte(0x8985907B541D342, 0x6F, [0x62, 0x61, 0x72]);
    FnvByte(0xDCB27518FED9D577, 0x62, [0x61, 0x72]);
    FnvByte(0xDD120E790C2512AF, 0x61, [0x72]);
    FnvByte(0xCAC165AFA2FEF40A, 0x72, []);
  }

  lemma FnvByte(h: bv64, b: bv8, more: Bytes)
    ensures FnvFrom(h, [b] + more) == FnvFrom(FnvStep(h, b), more)
  {
    hide FnvStep;
    assert ([b] + more)[1..] == more;
  }

  lemma Short64()
    ensures B.Encoded([0x66]) == "Zg==" && B.Encoded([0x66, 0x6F]) == "Zm8="
  {
    hide B.CharOf;
    B.CharIs(25);
    B.CharIs(32);
    B.CharIs(38);
    B.CharIs(60);
  }

  lemma Long64()
    ensures B.Encoded([0x66, 0x6F, 0x6F]) == "Zm9v" && B.Encoded([0x66, 0x6F, 0x6F, 0x62, 0x61, 0x72]) == "Zm9vYmFy"
  {
    hide B.CharOf;
    B.CharIs(25);
    B.CharIs(38);
    B.CharIs(61);
    B.CharIs(47);
    B.CharIs(24);
    B.CharIs(5);
    B.CharIs(50);
  }

  lemma Base64Values()
    ensures B.Encoded([0x66]) == "Zg==" && B.Encoded([0x66, 0x6F]) == "Zm8="
    ensures B.Encoded([0x66, 0x6F, 0x6F]) == "Zm9v" && B.Encoded([0x66, 0x6F, 0x6F, 0x62, 0x61, 0x72]) == "Zm9vYmFy"
  {
    hide *;
    Short64();
    Long64();
  }

  /** The last two characters of the alphabet. */
  lemma Base64Last()
    ensures B.Encoded([0xFB, 0xFF, 0xBF]) == "+/+/"
  {
    hide B.CharOf;
    B.CharIs(62);
    B.CharIs(63);
  }
}
