/**
 Known answers of SHA-1, from the appendix of FIPS PUB 180-1: the digests of a message of one block and of one of two,
 with every word of their schedules and every fifth row of their registers.
 */
module Sha1Answers {
  import opened Sha1Spec

  lemma Grow(b: seq<Byte>, t: nat)
    requires |b| == 64 && t >= 16
    ensures W(b, t) == Mix(W(b, t - 3), W(b, t - 8), W(b, t - 14), W(b, t - 16))
  {
  }

  lemma FromBlock(b: seq<Byte>, t: nat)
    requires |b| == 64 && t < 16
    ensures W(b, t) == BigEndian(b[4 * t], b[4 * t + 1], b[4 * t + 2], b[4 * t + 3])
  {
  }

  lemma NoRounds(h: Regs, b: seq<Byte>)
    requires |b| == 64
    ensures Rounds(h, b, 0) == h
  {
  }

  lemma Turn(h: Regs, b: seq<Byte>, t: nat)
    requires |b| == 64
    ensures Rounds(h, b, t + 1) == Step(Rounds(h, b, t), t, W(b, t))
  {
  }

  /** Five rounds. */
  lemma Five(h: Regs, b: seq<Byte>, t: nat)
    requires |b| == 64
    ensures
      Rounds(h, b, t + 5) ==
      Step(Step(Step(Step(Step(Rounds(h, b, t), t, W(b, t)), t + 1, W(b, t + 1)), t + 2, W(b, t + 2)),
                t + 3, W(b, t + 3)), t + 4, W(b, t + 4))
  {
    hide W, Rounds, Step;
    Turn(h, b, t);
    Turn(h, b, t + 1);
    Turn(h, b, t + 2);
    Turn(h, b, t + 3);
    Turn(h, b, t + 4);
  }

  // ----- the message "abc" -----

  ghost predicate AbcRow0(b: seq<Byte>)
    requires |b| == 64
  {
    && W(b, 0) == 0x61626380 && W(b, 1) == 0x00000000 && W(b, 2) == 0x00000000 && W(b, 3) == 0x00000000
    && W(b, 4) == 0x00000000 && W(b, 5) == 0x00000000 && W(b, 6) == 0x00000000 && W(b, 7) == 0x00000000
    && W(b, 8) == 0x00000000 && W(b, 9) == 0x00000000 && W(b, 10) == 0x00000000 && W(b, 11) == 0x00000000
    && W(b, 12) == 0x00000000 && W(b, 13) == 0x00000000 && W(b, 14) == 0x00000000 && W(b, 15) == 0x00000018
  }

  ghost predicate AbcRow1(b: seq<Byte>)
    requires |b| == 64
  {
    && W(b, 16) == 0xC2C4C700 && W(b, 17) == 0x00000000 && W(b, 18) == 0x00000030 && W(b, 19) == 0x85898E01
    && W(b, 20) == 0x00000000 && W(b, 21) == 0x00000060 && W(b, 22) == 0x0B131C03 && W(b, 23) == 0x00000030
    && W(b, 24) == 0x85898EC1 && W(b, 25) == 0x16263806 && W(b, 26) == 0x00000000 && W(b, 27) == 0x00000180
    && W(b, 28) == 0x2C4C700C && W(b, 29) == 0x000000F0 && W(b, 30) == 0x93AFB507 && W(b, 31) == 0x5898E048
  }

  ghost predicate AbcRow2(b: seq<Byte>)
    requires |b| == 64
  {
    && W(b, 32) == 0x8E9A9202 && W(b, 33) == 0x00000600 && W(b, 34) == 0xB131C0F0 && W(b, 35) == 0x16263BC6
    && W(b, 36) == 0x4EBED41E && W(b, 37) == 0x626380A1 && W(b, 38) == 0x16263806 && W(b, 39) == 0x000018C0
    && W(b, 40) == 0xD2E138C4 && W(b, 41) == 0x00000F00 && W(b, 42) == 0x3AFB5079 && W(b, 43) == 0x898E04E5
    && W(b, 44) == 0xE2BA3C2B && W(b, 45) == 0x000060C0 && W(b, 46) == 0x053A37CD && W(b, 47) == 0x74458547
  }

  ghost predicate AbcRow3(b: seq<Byte>)
    requires |b| == 64
  {
    && W(b, 48) == 0xDA9415ED && W(b, 49) == 0x26380A16 && W(b, 50) == 0x626383A1 && W(b, 51) == 0x4EBF54DE
    && W(b, 52) == 0x3835B44B && W(b, 53) == 0x0000F600 && W(b, 54) == 0x1E84C7A3 && W(b, 55) == 0x98E04D98
    && W(b, 56) == 0x651D16A0 && W(b, 57) == 0x62658CA1 && W(b, 58) == 0x458544D6 && W(b, 59) == 0x44584CB7
    && W(b, 60) == 0x7BA06619 && W(b, 61) == 0x6380AEA2 && W(b, 62) == 0x0AE55269 && W(b, 63) == 0x627B49A1
  }

  ghost predicate AbcRow4(b: seq<Byte>)
    requires |b| == 64
  {
    && W(b, 64) == 0x7CD45C9D && W(b, 65) == 0x000F0000 && W(b, 66) == 0xFB50753A && W(b, 67) == 0xEC6765E8
    && W(b, 68) == 0xBA3C2BE2 && W(b, 69) == 0x0060C000 && W(b, 70) == 0x3A37CD05 && W(b, 71) == 0x458546F4
    && W(b, 72) == 0xB8599DD6 && W(b, 73) == 0x380A1A26 && W(b, 74) == 0x01E02203 && W(b, 75) == 0xE7CC3456
    && W(b, 76) == 0xE6E60B69 && W(b, 77) == 0x00F60A00 && W(b, 78) == 0x5795EF4F && W(b, 79) == 0x822E0879
  }

  lemma AbcWords1(b: seq<Byte>)
    requires |b| == 64 && AbcRow0(b)
    ensures AbcRow1(b)
  {
    hide W;
    Grow(b, 16);
    Grow(b, 17);
    Grow(b, 18);
    Grow(b, 19);
    Grow(b, 20);
    Grow(b, 21);
    Grow(b, 22);
    Grow(b, 23);
    Grow(b, 24);
    Grow(b, 25);
    Grow(b, 26);
    Grow(b, 27);
    Grow(b, 28);
    Grow(b, 29);
    Grow(b, 30);
    Grow(b, 31);
  }

  lemma AbcWords2(b: seq<Byte>)
    requires |b| == 64 && AbcRow1(b)
    ensures AbcRow2(b)
  {
    hide W;
    Grow(b, 32);
    Grow(b, 33);
    Grow(b, 34);
    Grow(b, 35);
    Grow(b, 36);
    Grow(b, 37);
    Grow(b, 38);
    Grow(b, 39);
    Grow(b, 40);
    Grow(b, 41);
    Grow(b, 42);
    Grow(b, 43);
    Grow(b, 44);
    Grow(b, 45);
    Grow(b, 46);
    Grow(b, 47);
  }

  lemma AbcWords3(b: seq<Byte>)
    requires |b| == 64 && AbcRow2(b)
    ensures AbcRow3(b)
  {
    hide W;
    Grow(b, 48);
    Grow(b, 49);
    Grow(b, 50);
    Grow(b, 51);
    Grow(b, 52);
    Grow(b, 53);
    Grow(b, 54);
    Grow(b, 55);
    Grow(b, 56);
    Grow(b, 57);
    Grow(b, 58);
    Grow(b, 59);
    Grow(b, 60);
    Grow(b, 61);
    Grow(b, 62);
    Grow(b, 63);
  }

  lemma AbcWords4(b: seq<Byte>)
    requires |b| == 64 && AbcRow3(b)
    ensures AbcRow4(b)
  {
    hide W;
    Grow(b, 64);
    Grow(b, 65);
    Grow(b, 66);
    Grow(b, 67);
    Grow(b, 68);
    Grow(b, 69);
    Grow(b, 70);
    Grow(b, 71);
    Grow(b, 72);
    Grow(b, 73);
    Grow(b, 74);
    Grow(b, 75);
    Grow(b, 76);
    Grow(b, 77);
    Grow(b, 78);
    Grow(b, 79);
  }

  lemma AbcSchedule(b: seq<Byte>)
    requires |b| == 64 && AbcRow0(b)
    ensures AbcRow1(b) && AbcRow2(b) && AbcRow3(b) && AbcRow4(b)
  {
    hide AbcRow0, AbcRow1, AbcRow2, AbcRow3, AbcRow4;
    AbcWords1(b);
    AbcWords2(b);
    AbcWords3(b);
    AbcWords4(b);
  }

  lemma AbcRounds0(b: seq<Byte>)
    requires |b| == 64 && AbcRow0(b)
    ensures Rounds(INITIAL, b, 20) == Regs(0xFD9E1D7D, 0xDC64901D, 0x20AA99CA, 0xD3A49608, 0xC82F758B)
  {
    hide W, Rounds;
    AbcSchedule(b);
    NoRounds(INITIAL, b);
    Five(INITIAL, b, 0);
    assert Rounds(INITIAL, b, 5) == Regs(0xCFD499DE, 0xCDD8E11B, 0x284E43C2, 0x626414DB, 0xC045BF0C);
    Five(INITIAL, b, 5);
    assert Rounds(INITIAL, b, 10) == Regs(0x8351F929, 0x4B6AE328, 0x27A301F5, 0x664F8C30, 0x0FF1F290);
    Five(INITIAL, b, 10);
    assert Rounds(INITIAL, b, 15) == Regs(0x196BEE77, 0x9128F695, 0x1181ED99, 0x18C623F9, 0x7EF6A7A2);
    Five(INITIAL, b, 15);
    assert Rounds(INITIAL, b, 20) == Regs(0xFD9E1D7D, 0xDC64901D, 0x20AA99CA, 0xD3A49608, 0xC82F758B);
  }

  lemma AbcRounds1(b: seq<Byte>)
    requires |b| == 64 && AbcRow0(b)
    ensures Rounds(INITIAL, b, 40) == Regs(0x32DE1CBA, 0x4C986405, 0xF718E5CF, 0x03D447F6, 0xF72EEC32)
  {
    hide W, Rounds;
    AbcSchedule(b);
    AbcRounds0(b);
    Five(INITIAL, b, 20);
    assert Rounds(INITIAL, b, 25) == Regs(0xC7567DC6, 0xD541F12D, 0x884A0D21, 0x0CE88EFF, 0x868DEC32);
    Five(INITIAL, b, 25);
    assert Rounds(INITIAL, b, 30) == Regs(0xC5FBAF5D, 0x8370B52E, 0xD2AA1365, 0x6F8D7EF5, 0x12104EE9);
    Five(INITIAL, b, 30);
    assert Rounds(INITIAL, b, 35) == Regs(0x21796AD4, 0x2C0EBC11, 0x811BEA82, 0xCEE1174C, 0xC499ED01);
    Five(INITIAL, b, 35);
    assert Rounds(INITIAL, b, 40) == Regs(0x32DE1CBA, 0x4C986405, 0xF718E5CF, 0x03D447F6, 0xF72EEC32);
  }

  lemma AbcRounds2(b: seq<Byte>)
    requires |b| == 64 && AbcRow0(b)
    ensures Rounds(INITIAL, b, 60) == Regs(0x3F52DE5A, 0x09D785FD, 0x3498BFD4, 0xF211824F, 0xD79915AB)
  {
    hide W, Rounds;
    AbcSchedule(b);
    AbcRounds1(b);
    Five(INITIAL, b, 40);
    assert Rounds(INITIAL, b, 45) == Regs(0x40F28E09, 0xEE1B1AAF, 0x5FC64F71, 0x25C28357, 0xFF21F7B7);
    Five(INITIAL, b, 45);
    assert Rounds(INITIAL, b, 50) == Regs(0x120731C5, 0xBAF39337, 0xAFAB40B2, 0x2806E11B, 0x8714787C);
    Five(INITIAL, b, 50);
    assert Rounds(INITIAL, b, 55) == Regs(0x7B71F76D, 0x27E9F1D8, 0x792410DB, 0x8E11EB59, 0x99076CB3);
    Five(INITIAL, b, 55);
    assert Rounds(INITIAL, b, 60) == Regs(0x3F52DE5A, 0x09D785FD, 0x3498BFD4, 0xF211824F, 0xD79915AB);
  }

  lemma AbcRounds3(b: seq<Byte>)
    requires |b| == 64 && AbcRow0(b)
    ensures Rounds(INITIAL, b, 80) == Regs(0x42541B35, 0x5738D5E1, 0x21834873, 0x681E6DF6, 0xD8FDF6AD)
  {
    hide W, Rounds;
    AbcSchedule(b);
    AbcRounds2(b);
    Five(INITIAL, b, 60);
    assert Rounds(INITIAL, b, 65) == Regs(0x19DFA7AC, 0x6B61C9E1, 0xED9B0082, 0x9523272C, 0xF5D5B051);
    Five(INITIAL, b, 65);
    assert Rounds(INITIAL, b, 70) == Regs(0x3F2588C2, 0x497093C0, 0xDE37534A, 0x030F7CAD, 0x4405957E);
    Five(INITIAL, b, 70);
    assert Rounds(INITIAL, b, 75) == Regs(0x5EE76897, 0x11793F6F, 0x3B6D0B79, 0xCE616779, 0xF0667E31);
    Five(INITIAL, b, 75);
    assert Rounds(INITIAL, b, 80) == Regs(0x42541B35, 0x5738D5E1, 0x21834873, 0x681E6DF6, 0xD8FDF6AD);
  }

  lemma AbcCompressed(b: seq<Byte>)
    requires |b| == 64 && AbcRow0(b)
    ensures Compress(INITIAL, b) == Regs(0xA9993E36, 0x4706816A, 0xBA3E2571, 0x7850C26C, 0x9CD0D89D)
  {
    hide W, Rounds, AbcRow0;
    AbcRounds3(b);
  }

  const ABC: seq<Byte> := [0x61, 0x62, 0x63]

  lemma AbcBytes(b: seq<Byte>)
    requires |b| == 64 && b[0] == 0x61 && b[1] == 0x62 && b[2] == 0x63 && b[3] == 0x80
    requires (forall i | 4 <= i < 63 :: b[i] == 0) && b[63] == 0x18
    ensures AbcRow0(b)
  {
    hide W;
    forall t: nat | t < 16
      ensures W(b, t) == BigEndian(b[4 * t], b[4 * t + 1], b[4 * t + 2], b[4 * t + 3])
    {
      FromBlock(b, t);
    }
  }

  lemma AbcPadding()
    ensures Padding(3) == [0x80] + Zeros(52) + [0, 0, 0, 0, 0, 0, 0, 0x18]
  {
    AbcLength();
    hide NatBytes, Zeros;
    assert ZeroCount(3) == 52;
  }

  lemma AbcLength()
    ensures NatBytes(0) == [0, 0, 0, 0] && NatBytes(24) == [0, 0, 0, 0x18]
  {
  }

  lemma AbcPadded(b: seq<Byte>)
    requires b == ABC + Padding(3)
    ensures |b| == 64 && AbcRow0(b)
  {
    hide AbcRow0, Padding;
    AbcPadding();
    AbcBytes(b);
  }

  /** The digest of "abc". */
  lemma AbcDigest()
    ensures Sha1(ABC) ==
            [0xA9, 0x99, 0x3E, 0x36, 0x47, 0x06, 0x81, 0x6A, 0xBA, 0x3E, 0x25, 0x71, 0x78, 0x50, 0xC2, 0x6C,
             0x9C, 0xD0, 0xD8, 0x9D]
  {
    hide Compress, Padding, AbcRow0;
    var b := ABC + Padding(3);
    AbcPadded(b);
    AbcCompressed(b);
    BlocksSnoc([], b);
    assert [] + b == b;
  }

  // ----- the first block of a longer message -----

  ghost predicate FirstRow0(b: seq<Byte>)
    requires |b| == 64
  {
    && W(b, 0) == 0x61626364 && W(b, 1) == 0x62636465 && W(b, 2) == 0x63646566 && W(b, 3) == 0x64656667
    && W(b, 4) == 0x65666768 && W(b, 5) == 0x66676869 && W(b, 6) == 0x6768696A && W(b, 7) == 0x68696A6B
    && W(b, 8) == 0x696A6B6C && W(b, 9) == 0x6A6B6C6D && W(b, 10) == 0x6B6C6D6E && W(b, 11) == 0x6C6D6E6F
    && W(b, 12) == 0x6D6E6F70 && W(b, 13) == 0x6E6F7071 && W(b, 14) == 0x80000000 && W(b, 15) == 0x00000000
  }

  ghost predicate FirstRow1(b: seq<Byte>)
    requires |b| == 64
  {
    && W(b, 16) == 0x0A063A3E && W(b, 17) == 0xD8DADCDF && W(b, 18) == 0xDADCDEC0 && W(b, 19) == 0xC8D2B4BE
    && W(b, 20) == 0x6F757B5B && W(b, 21) == 0x757B5967 && W(b, 22) == 0x8DA16D70 && W(b, 23) == 0xDAEEFABA
    && W(b, 24) == 0xFAF6CAB6 && W(b, 25) == 0xA6FB675A && W(b, 26) == 0x0C604CC8 && W(b, 27) == 0x604CC02C
    && W(b, 28) == 0x49C0E6E2 && W(b, 29) == 0x2EE8CBBC && W(b, 30) == 0xCFD72EC4 && W(b, 31) == 0x97E9810E
  }

  ghost predicate FirstRow2(b: seq<Byte>)
    requires |b| == 64
  {
    && W(b, 32) == 0x0989CBE8 && W(b, 33) == 0xF24843FE && W(b, 34) == 0x5C40D0BA && W(b, 35) == 0xA8D9CC3B
    && W(b, 36) == 0xB2B9666E && W(b, 37) == 0xBA7B71B7 && W(b, 38) == 0x20B28A72 && W(b, 39) == 0xB28AF500
    && W(b, 40) == 0x8AC87842 && W(b, 41) == 0x289ADDF4 && W(b, 42) == 0x56D51F21 && W(b, 43) == 0xD96B7FD2
    && W(b, 44) == 0x3868E778 && W(b, 45) == 0xAB5E4848 && W(b, 46) == 0x7F0E2118 && W(b, 47) == 0xDE87A111
  }

  ghost predicate FirstRow3(b: seq<Byte>)
    requires |b| == 64
  {
    && W(b, 48) == 0xE8BE56B0 && W(b, 49) == 0x1A0AE652 && W(b, 50) == 0xCD5611C8 && W(b, 51) == 0x46EF29DC
    && W(b, 52) == 0x60D3DA6D && W(b, 53) == 0xDDF3BA6E && W(b, 54) == 0x2737F5E9 && W(b, 55) == 0x4888A710
    && W(b, 56) == 0xD2A1177B && W(b, 57) == 0x9999633B && W(b, 58) == 0xD6C69D03 && W(b, 59) == 0xCCF6127B
    && W(b, 60) == 0x7C58FE6D && W(b, 61) == 0xFDD99C68 && W(b, 62) == 0xF8E32074 && W(b, 63) == 0xE0BA3C7D
  }

  ghost predicate FirstRow4(b: seq<Byte>)
    requires |b| == 64
  {
    && W(b, 64) == 0x152198D6 && W(b, 65) == 0x7B3F1982 && W(b, 66) == 0x37F2D5B7 && W(b, 67) == 0x8596323E
    && W(b, 68) == 0x810790D6 && W(b, 69) == 0xBEA0A942 && W(b, 70) == 0x11C7E1B1 && W(b, 71) == 0x6158D101
    && W(b, 72) == 0x5FCD77D9 && W(b, 73) == 0x7F2F12E6 && W(b, 74) == 0xF868CFB1 && W(b, 75) == 0xD6E997E9
    && W(b, 76) == 0xF526B852 && W(b, 77) == 0xB7578DCC && W(b, 78) == 0x55D99DF4 && W(b, 79) == 0x1FF69958
  }

  lemma FirstWords1(b: seq<Byte>)
    requires |b| == 64 && FirstRow0(b)
    ensures FirstRow1(b)
  {
    hide W;
    Grow(b, 16);
    Grow(b, 17);
    Grow(b, 18);
    Grow(b, 19);
    Grow(b, 20);
    Grow(b, 21);
    Grow(b, 22);
    Grow(b, 23);
    Grow(b, 24);
    Grow(b, 25);
    Grow(b, 26);
    Grow(b, 27);
    Grow(b, 28);
    Grow(b, 29);
    Grow(b, 30);
    Grow(b, 31);
  }

  lemma FirstWords2(b: seq<Byte>)
    requires |b| == 64 && FirstRow1(b)
    ensures FirstRow2(b)
  {
    hide W;
    Grow(b, 32);
    Grow(b, 33);
    Grow(b, 34);
    Grow(b, 35);
    Grow(b, 36);
    Grow(b, 37);
    Grow(b, 38);
    Grow(b, 39);
    Grow(b, 40);
    Grow(b, 41);
    Grow(b, 42);
    Grow(b, 43);
    Grow(b, 44);
    Grow(b, 45);
    Grow(b, 46);
    Grow(b, 47);
  }

  lemma FirstWords3(b: seq<Byte>)
    requires |b| == 64 && FirstRow2(b)
    ensures FirstRow3(b)
  {
    hide W;
    Grow(b, 48);
    Grow(b, 49);
    Grow(b, 50);
    Grow(b, 51);
    Grow(b, 52);
    Grow(b, 53);
    Grow(b, 54);
    Grow(b, 55);
    Grow(b, 56);
    Grow(b, 57);
    Grow(b, 58);
    Grow(b, 59);
    Grow(b, 60);
    Grow(b, 61);
    Grow(b, 62);
    Grow(b, 63);
  }

  lemma FirstWords4(b: seq<Byte>)
    requires |b| == 64 && FirstRow3(b)
    ensures FirstRow4(b)
  {
    hide W;
    Grow(b, 64);
    Grow(b, 65);
    Grow(b, 66);
    Grow(b, 67);
    Grow(b, 68);
    Grow(b, 69);
    Grow(b, 70);
    Grow(b, 71);
    Grow(b, 72);
    Grow(b, 73);
    Grow(b, 74);
    Grow(b, 75);
    Grow(b, 76);
    Grow(b, 77);
    Grow(b, 78);
    Grow(b, 79);
  }

  lemma FirstSchedule(b: seq<Byte>)
    requires |b| == 64 && FirstRow0(b)
    ensures FirstRow1(b) && FirstRow2(b) && FirstRow3(b) && FirstRow4(b)
  {
    hide FirstRow0, FirstRow1, FirstRow2, FirstRow3, FirstRow4;
    FirstWords1(b);
    FirstWords2(b);
    FirstWords3(b);
    FirstWords4(b);
  }

  lemma FirstRounds0(b: seq<Byte>)
    requires |b| == 64 && FirstRow0(b)
    ensures Rounds(INITIAL, b, 20) == Regs(0x6C445652, 0x944B1BD1, 0x509AE70D, 0x1AC1A012, 0x5098DF8E)
  {
    hide W, Rounds;
    FirstSchedule(b);
    NoRounds(INITIAL, b);
    Five(INITIAL, b, 0);
    assert Rounds(INITIAL, b, 5) == Regs(0x33F4AE5B, 0x2C4F6EAC, 0x9442644E, 0xBAFCED14, 0xC045BF05);
    Five(INITIAL, b, 5);
    assert Rounds(INITIAL, b, 10) == Regs(0x6350AFDA, 0xC565C35E, 0xD160CFC3, 0x36C132D6, 0x65AE1462);
    Five(INITIAL, b, 10);
    assert Rounds(INITIAL, b, 15) == Regs(0xB2E7A8BE, 0x32F94A85, 0xA180D207, 0xB867B2A8, 0xE264FA9D);
    Five(INITIAL, b, 15);
    assert Rounds(INITIAL, b, 20) == Regs(0x6C445652, 0x944B1BD1, 0x509AE70D, 0x1AC1A012, 0x5098DF8E);
  }

  lemma FirstRounds1(b: seq<Byte>)
    requires |b| == 64 && FirstRow0(b)
    ensures Rounds(INITIAL, b, 40) == Regs(0xADEB7478, 0x24957F22, 0x50FE1EBA, 0x564CFF26, 0xAADF0CBB)
  {
    hide W, Rounds;
    FirstSchedule(b);
    FirstRounds0(b);
    Five(INITIAL, b, 20);
    assert Rounds(INITIAL, b, 25) == Regs(0xEEB82D9A, 0xFD224575, 0x38AE4B71, 0xC254445D, 0x6560DB69);
    Five(INITIAL, b, 25);
    assert Rounds(INITIAL, b, 30) == Regs(0x05B457B2, 0xE1122421, 0x3549A991, 0xCA5CBDF1, 0x96850B06);
    Five(INITIAL, b, 30);
    assert Rounds(INITIAL, b, 35) == Regs(0xE9AC987C, 0x31C756A9, 0x16BCC90B, 0x14B8C7D8, 0x2A7212FB);
    Five(INITIAL, b, 35);
    assert Rounds(INITIAL, b, 40) == Regs(0xADEB7478, 0x24957F22, 0x50FE1EBA, 0x564CFF26, 0xAADF0CBB);
  }

  lemma FirstRounds2(b: seq<Byte>)
    requires |b| == 64 && FirstRow0(b)
    ensures Rounds(INITIAL, b, 60) == Regs(0x9EF775C3, 0xF03D3782, 0xEB029E53, 0xE9A06DC8, 0x1DDB0E44)
  {
    hide W, Rounds;
    FirstSchedule(b);
    FirstRounds1(b);
    Five(INITIAL, b, 40);
    assert Rounds(INITIAL, b, 45) == Regs(0x98C1EA64, 0x633E9561, 0xBE6F2E37, 0x1E6F3EC2, 0x35C39404);
    Five(INITIAL, b, 45);
    assert Rounds(INITIAL, b, 50) == Regs(0x7E846F58, 0x88341600, 0x3229A424, 0xA8AB53C0, 0xB1BA8907);
    Five(INITIAL, b, 50);
    assert Rounds(INITIAL, b, 55) == Regs(0x36D1230A, 0xEDEA95B1, 0x33A24B84, 0x234B9DB2, 0xA1B8D62E);
    Five(INITIAL, b, 55);
    assert Rounds(INITIAL, b, 60) == Regs(0x9EF775C3, 0xF03D3782, 0xEB029E53, 0xE9A06DC8, 0x1DDB0E44);
  }

  lemma FirstRounds3(b: seq<Byte>)
    requires |b| == 64 && FirstRow0(b)
    ensures Rounds(INITIAL, b, 80) == Regs(0x8CE34517, 0xD3AD7C25, 0x6B4E1883, 0x74351CD2, 0x86838382)
  {
    hide W, Rounds;
    FirstSchedule(b);
    FirstRounds2(b);
    Five(INITIAL, b, 60);
    assert Rounds(INITIAL, b, 65) == Regs(0xE5895C81, 0x513F9CA0, 0x0AFEBDEA, 0x10203537, 0xCD8952C4);
    Five(INITIAL, b, 65);
    assert Rounds(INITIAL, b, 70) == Regs(0xFDF6EFFF, 0x2C7B07BD, 0x5B45F27F, 0x452A0B6A, 0x440DF4B5);
    Five(INITIAL, b, 70);
    assert Rounds(INITIAL, b, 75) == Regs(0x352D9F4B, 0xC5210E35, 0x6AE27EDC, 0xA10195C4, 0xC44AE5B8);
    Five(INITIAL, b, 75);
    assert Rounds(INITIAL, b, 80) == Regs(0x8CE34517, 0xD3AD7C25, 0x6B4E1883, 0x74351CD2, 0x86838382);
  }

  lemma FirstCompressed(b: seq<Byte>)
    requires |b| == 64 && FirstRow0(b)
    ensures Compress(INITIAL, b) == Regs(0xF4286818, 0xC37B27AE, 0x0408F581, 0x84677148, 0x4A566572)
  {
    hide W, Rounds, FirstRow0;
    FirstRounds3(b);
  }

  const MIDDLE := Regs(0xF4286818, 0xC37B27AE, 0x0408F581, 0x84677148, 0x4A566572)

  // ----- its second block -----

  ghost predicate SecondRow0(b: seq<Byte>)
    requires |b| == 64
  {
    && W(b, 0) == 0x00000000 && W(b, 1) == 0x00000000 && W(b, 2) == 0x00000000 && W(b, 3) == 0x00000000
    && W(b, 4) == 0x00000000 && W(b, 5) == 0x00000000 && W(b, 6) == 0x00000000 && W(b, 7) == 0x00000000
    && W(b, 8) == 0x00000000 && W(b, 9) == 0x00000000 && W(b, 10) == 0x00000000 && W(b, 11) == 0x00000000
    && W(b, 12) == 0x00000000 && W(b, 13) == 0x00000000 && W(b, 14) == 0x00000000 && W(b, 15) == 0x000001C0
  }

  ghost predicate SecondRow1(b: seq<Byte>)
    requires |b| == 64
  {
    && W(b, 16) == 0x00000000 && W(b, 17) == 0x00000000 && W(b, 18) == 0x00000380 && W(b, 19) == 0x00000000
    && W(b, 20) == 0x00000000 && W(b, 21) == 0x00000700 && W(b, 22) == 0x00000000 && W(b, 23) == 0x00000380
    && W(b, 24) == 0x00000E00 && W(b, 25) == 0x00000000 && W(b, 26) == 0x00000000 && W(b, 27) == 0x00001C00
    && W(b, 28) == 0x00000000 && W(b, 29) == 0x00000D80 && W(b, 30) == 0x00003800 && W(b, 31) == 0x00000480
  }

  ghost predicate SecondRow2(b: seq<Byte>)
    requires |b| == 64
  {
    && W(b, 32) == 0x00000000 && W(b, 33) == 0x00007000 && W(b, 34) == 0x00000E00 && W(b, 35) == 0x00003600
    && W(b, 36) == 0x0000E000 && W(b, 37) == 0x00000E00 && W(b, 38) == 0x00000000 && W(b, 39) == 0x0001CE00
    && W(b, 40) == 0x00000000 && W(b, 41) == 0x0000D800 && W(b, 42) == 0x00038000 && W(b, 43) == 0x00004F00
    && W(b, 44) == 0x00000000 && W(b, 45) == 0x00070E00 && W(b, 46) == 0x0000EE00 && W(b, 47) == 0x00037500
  }

  ghost predicate SecondRow3(b: seq<Byte>)
    requires |b| == 64
  {
    && W(b, 48) == 0x000E0000 && W(b, 49) == 0x0000E000 && W(b, 50) == 0x00003600 && W(b, 51) == 0x001CEE00
    && W(b, 52) == 0x00000000 && W(b, 53) == 0x000DF000 && W(b, 54) == 0x00380000 && W(b, 55) == 0x0004C600
    && W(b, 56) == 0x0000E000 && W(b, 57) == 0x0070EE00 && W(b, 58) == 0x000EE000 && W(b, 59) == 0x00369E00
    && W(b, 60) == 0x00E00000 && W(b, 61) == 0x000ED600 && W(b, 62) == 0x0000E000 && W(b, 63) == 0x01CEA600
  }

  ghost predicate SecondRow4(b: seq<Byte>)
    requires |b| == 64
  {
    && W(b, 64) == 0x00000000 && W(b, 65) == 0x00D80000 && W(b, 66) == 0x0380E000 && W(b, 67) == 0x004F0000
    && W(b, 68) == 0x00000000 && W(b, 69) == 0x070E0000 && W(b, 70) == 0x00EE0000 && W(b, 71) == 0x03751C00
    && W(b, 72) == 0x0E000000 && W(b, 73) == 0x00E0E000 && W(b, 74) == 0x00363800 && W(b, 75) == 0x1CEE9000
    && W(b, 76) == 0x00000000 && W(b, 77) == 0x0DF09000 && W(b, 78) == 0x3800E000 && W(b, 79) == 0x04C77400
  }

  lemma SecondWords1(b: seq<Byte>)
    requires |b| == 64 && SecondRow0(b)
    ensures SecondRow1(b)
  {
    hide W;
    Grow(b, 16);
    Grow(b, 17);
    Grow(b, 18);
    Grow(b, 19);
    Grow(b, 20);
    Grow(b, 21);
    Grow(b, 22);
    Grow(b, 23);
    Grow(b, 24);
    Grow(b, 25);
    Grow(b, 26);
    Grow(b, 27);
    Grow(b, 28);
    Grow(b, 29);
    Grow(b, 30);
    Grow(b, 31);
  }

  lemma SecondWords2(b: seq<Byte>)
    requires |b| == 64 && SecondRow1(b)
    ensures SecondRow2(b)
  {
    hide W;
    Grow(b, 32);
    Grow(b, 33);
    Grow(b, 34);
    Grow(b, 35);
    Grow(b, 36);
    Grow(b, 37);
    Grow(b, 38);
    Grow(b, 39);
    Grow(b, 40);
    Grow(b, 41);
    Grow(b, 42);
    Grow(b, 43);
    Grow(b, 44);
    Grow(b, 45);
    Grow(b, 46);
    Grow(b, 47);
  }

  lemma SecondWords3(b: seq<Byte>)
    requires |b| == 64 && SecondRow2(b)
    ensures SecondRow3(b)
  {
    hide W;
    Grow(b, 48);
    Grow(b, 49);
    Grow(b, 50);
    Grow(b, 51);
    Grow(b, 52);
    Grow(b, 53);
    Grow(b, 54);
    Grow(b, 55);
    Grow(b, 56);
    Grow(b, 57);
    Grow(b, 58);
    Grow(b, 59);
    Grow(b, 60);
    Grow(b, 61);
    Grow(b, 62);
    Grow(b, 63);
  }

  lemma SecondWords4(b: seq<Byte>)
    requires |b| == 64 && SecondRow3(b)
    ensures SecondRow4(b)
  {
    hide W;
    Grow(b, 64);
    Grow(b, 65);
    Grow(b, 66);
    Grow(b, 67);
    Grow(b, 68);
    Grow(b, 69);
    Grow(b, 70);
    Grow(b, 71);
    Grow(b, 72);
    Grow(b, 73);
    Grow(b, 74);
    Grow(b, 75);
    Grow(b, 76);
    Grow(b, 77);
    Grow(b, 78);
    Grow(b, 79);
  }

  lemma SecondSchedule(b: seq<Byte>)
    requires |b| == 64 && SecondRow0(b)
    ensures SecondRow1(b) && SecondRow2(b) && SecondRow3(b) && SecondRow4(b)
  {
    hide SecondRow0, SecondRow1, SecondRow2, SecondRow3, SecondRow4;
    SecondWords1(b);
    SecondWords2(b);
    SecondWords3(b);
    SecondWords4(b);
  }

  lemma SecondRounds0(b: seq<Byte>)
    requires |b| == 64 && SecondRow0(b)
    ensures Rounds(MIDDLE, b, 20) == Regs(0xD8992153, 0xC2EB709F, 0x2946D62F, 0x9541F6DB, 0x365DC8D8)
  {
    hide W, Rounds;
    SecondSchedule(b);
    NoRounds(MIDDLE, b);
    Five(MIDDLE, b, 0);
    assert Rounds(MIDDLE, b, 5) == Regs(0x41E34277, 0xEEF743C6, 0x70D4AEC1, 0xD34F7163, 0x4B7C95FA);
    Five(MIDDLE, b, 5);
    assert Rounds(MIDDLE, b, 10) == Regs(0xB8538ACA, 0xFDDE1DE1, 0xF1A51A04, 0xF9FE80DD, 0x1510E457);
    Five(MIDDLE, b, 10);
    assert Rounds(MIDDLE, b, 15) == Regs(0x258B0BAA, 0xA2604CA8, 0xFFB35EEF, 0xD0E89E4B, 0xDAEA53D8);
    Five(MIDDLE, b, 15);
    assert Rounds(MIDDLE, b, 20) == Regs(0xD8992153, 0xC2EB709F, 0x2946D62F, 0x9541F6DB, 0x365DC8D8);
  }

  lemma SecondRounds1(b: seq<Byte>)
    requires |b| == 64 && SecondRow0(b)
    ensures Rounds(MIDDLE, b, 40) == Regs(0x03BB6310, 0x84E2A5F2, 0x21F56E03, 0xB3BD6B84, 0x1A5B6901)
  {
    hide W, Rounds;
    SecondSchedule(b);
    SecondRounds0(b);
    Five(MIDDLE, b, 20);
    assert Rounds(MIDDLE, b, 25) == Regs(0x88FB5867, 0x8FBAA5B9, 0x66B5652E, 0x7BA1C02F, 0xCDD20BD7);
    Five(MIDDLE, b, 25);
    assert Rounds(MIDDLE, b, 30) == Regs(0x0A2FB108, 0x2429BE5F, 0xD7105B6B, 0x142F390D, 0x7BB14148);
    Five(MIDDLE, b, 30);
    assert Rounds(MIDDLE, b, 35) == Regs(0x295CC25B, 0xF15F04F3, 0xDAD8A664, 0x2292BCE1, 0xC5E61888);
    Five(MIDDLE, b, 35);
    assert Rounds(MIDDLE, b, 40) == Regs(0x03BB6310, 0x84E2A5F2, 0x21F56E03, 0xB3BD6B84, 0x1A5B6901);
  }

  lemma SecondRounds2(b: seq<Byte>)
    requires |b| == 64 && SecondRow0(b)
    ensures Rounds(MIDDLE, b, 60) == Regs(0xA65818F7, 0x5B086C42, 0xB9E15956, 0xEA1256A6, 0xDB69CB9F)
  {
    hide W, Rounds;
    SecondSchedule(b);
    SecondRounds1(b);
    Five(MIDDLE, b, 40);
    assert Rounds(MIDDLE, b, 45) == Regs(0x3CAED7AF, 0xEC1D3D61, 0x8A162454, 0x2FEC95DA, 0xF0B63DD7);
    Five(MIDDLE, b, 45);
    assert Rounds(MIDDLE, b, 50) == Regs(0x850D411C, 0xDC8E7F26, 0x11BE4EDA, 0x9CC5815A, 0xB0F40CFA);
    Five(MIDDLE, b, 50);
    assert Rounds(MIDDLE, b, 55) == Regs(0x2BDBB8CB, 0x431D65BC, 0x05E5F88A, 0x627EF507, 0x1F919CB0);
    Five(MIDDLE, b, 55);
    assert Rounds(MIDDLE, b, 60) == Regs(0xA65818F7, 0x5B086C42, 0xB9E15956, 0xEA1256A6, 0xDB69CB9F);
  }

  lemma SecondRounds3(b: seq<Byte>)
    requires |b| == 64 && SecondRow0(b)
    ensures Rounds(MIDDLE, b, 80) == Regs(0x906FD62C, 0x58C0AAC0, 0xB6A55520, 0x74E9B89D, 0x9AF00B7F)
  {
    hide W, Rounds;
    SecondSchedule(b);
    SecondRounds2(b);
    Five(MIDDLE, b, 60);
    assert Rounds(MIDDLE, b, 65) == Regs(0x60A9DA62, 0xD504902B, 0x3D9B66FD, 0x24D85327, 0xDEAAC406);
    Five(MIDDLE, b, 65);
    assert Rounds(MIDDLE, b, 70) == Regs(0x989DD165, 0x76C0563B, 0xFD889AEF, 0xC20FA430, 0x62DA1E06);
    Five(MIDDLE, b, 70);
    assert Rounds(MIDDLE, b, 75) == Regs(0xD28D83AD, 0x16F3BABB, 0xB2861037, 0xEB86E39E, 0xE2CB1D5C);
    Five(MIDDLE, b, 75);
    assert Rounds(MIDDLE, b, 80) == Regs(0x906FD62C, 0x58C0AAC0, 0xB6A55520, 0x74E9B89D, 0x9AF00B7F);
  }

  lemma SecondCompressed(b: seq<Byte>)
    requires |b| == 64 && SecondRow0(b)
    ensures Compress(MIDDLE, b) == Regs(0x84983E44, 0x1C3BD26E, 0xBAAE4AA1, 0xF95129E5, 0xE54670F1)
  {
    hide W, Rounds, SecondRow0;
    SecondRounds3(b);
  }

  /** Four letters from the t-th of the alphabet on. */
  function Letters(t: nat): seq<Byte>
    requires t < 14
  {
    [0x61 + t as Byte, 0x62 + t as Byte, 0x63 + t as Byte, 0x64 + t as Byte]
  }

  function Quads(n: nat): (m: seq<Byte>)
    requires n <= 14
    ensures |m| == 4 * n
  {
    if n == 0 then [] else Quads(n - 1) + Letters(n - 1)
  }

  /** The message "abcdbcdecdefdefgefghfghighijhijkijkljklmklmnlmnomnopnopq". */
  function Longer(): (m: seq<Byte>)
    ensures |m| == 56
  {
    Quads(14)
  }

  lemma {:induction false} QuadAt(n: nat, t: nat)
    requires t < n <= 14
    ensures var m := Quads(n); [m[4 * t], m[4 * t + 1], m[4 * t + 2], m[4 * t + 3]] == Letters(t)
  {
    if t < n - 1 {
      QuadAt(n - 1, t);
    }
  }

  lemma QuadWord(b: seq<Byte>, t: nat)
    requires |b| == 64 && b[..56] == Longer() && t < 14
    ensures W(b, t) == BigEndian(0x61 + t as Byte, 0x62 + t as Byte, 0x63 + t as Byte, 0x64 + t as Byte)
  {
    hide W, Quads, BigEndian;
    QuadAt(14, t);
    FromBlock(b, t);
    assert forall i | 4 * t <= i < 4 * t + 4 :: b[i] == b[..56][i];
  }

  lemma LongerFirst(b: seq<Byte>)
    requires |b| == 64 && b[..56] == Longer() && b[56] == 0x80 && forall i | 57 <= i < 64 :: b[i] == 0
    ensures FirstRow0(b)
  {
    hide W, Longer;
    forall t: nat | t < 14
      ensures W(b, t) == BigEndian(0x61 + t as Byte, 0x62 + t as Byte, 0x63 + t as Byte, 0x64 + t as Byte)
    {
      QuadWord(b, t);
    }
    FromBlock(b, 14);
    FromBlock(b, 15);
  }

  lemma LongerSecond(b: seq<Byte>)
    requires |b| == 64 && (forall i | 0 <= i < 62 :: b[i] == 0) && b[62] == 0x01 && b[63] == 0xC0
    ensures SecondRow0(b)
  {
    hide W;
    forall t: nat | t < 16
      ensures W(b, t) == BigEndian(b[4 * t], b[4 * t + 1], b[4 * t + 2], b[4 * t + 3])
    {
      FromBlock(b, t);
    }
  }

  lemma LongerCount()
    ensures NatBytes(0) == [0, 0, 0, 0] && NatBytes(448) == [0, 0, 0x01, 0xC0]
  {
  }

  lemma LongerPadding()
    ensures var p := Padding(56);
      && |p| == 72 && p[0] == 0x80 && (forall i | 1 <= i < 70 :: p[i] == 0) && p[70] == 0x01 && p[71] == 0xC0
  {
    hide NatBytes;
    LongerCount();
  }

  lemma LongerPadded(s: seq<Byte>)
    requires s == Longer() + Padding(56)
    ensures |s| == 128 && FirstRow0(s[..64]) && SecondRow0(s[64..])
  {
    hide W, FirstRow0, SecondRow0, Padding, Longer;
    LongerPadding();
    assert s[..64][..56] == Longer();
    LongerFirst(s[..64]);
    LongerSecond(s[64..]);
  }

  /** The digest of the longer message. */
  lemma LongerDigest()
    ensures Sha1(Longer()) ==
            [0x84, 0x98, 0x3E, 0x44, 0x1C, 0x3B, 0xD2, 0x6E, 0xBA, 0xAE, 0x4A, 0xA1, 0xF9, 0x51, 0x29, 0xE5,
             0xE5, 0x46, 0x70, 0xF1]
  {
    hide Compress, Padding, FirstRow0, SecondRow0, Longer;
    var s := Longer() + Padding(56);
    LongerPadded(s);
    FirstCompressed(s[..64]);
    SecondCompressed(s[64..]);
    BlocksSnoc([], s[..64]);
    BlocksSnoc(s[..64], s[64..]);
    assert [] + s[..64] == s[..64] && s[..64] + s[64..] == s;
  }
}
