/** A word published with BIP-173 (section "Test vectors"), which lists all thirty-two letters. */
module Published {
  import opened Options
  import opened Bech32
  import opened Lnurl

  // ----- feeding literal symbols -----

  predicate Follows(p: bv32, v: Byte, q: bv32) {
    PolymodStep(p) ^ (v as bv32) == q
  }

  lemma FeedOne(p: bv32, values: seq<Byte>, v: Byte, q: bv32, r: bv32)
    requires Feed(p, values) == q && Follows(q, v, r)
    ensures Feed(p, values + [v]) == r
  {
    hide PolymodStep;
    assert (values + [v])[..|values|] == values;
  }

  lemma Three(p: bv32, v: seq<Byte>, q: seq<bv32>)
    requires |v| == |q| == 3 && Follows(p, v[0], q[0]) && Follows(q[0], v[1], q[1]) && Follows(q[1], v[2], q[2])
    ensures Feed(p, v) == q[2]
  {
    hide Follows;
    assert Feed(p, []) == p;
    FeedOne(p, [], v[0], p, q[0]);
    FeedOne(p, [] + [v[0]], v[1], q[0], q[1]);
    FeedOne(p, [] + [v[0]] + [v[1]], v[2], q[1], q[2]);
    assert v == [] + [v[0]] + [v[1]] + [v[2]];
  }

  lemma Four(p: bv32, v: seq<Byte>, q: seq<bv32>)
    requires |v| == |q| == 4 && Follows(p, v[0], q[0]) && Follows(q[0], v[1], q[1])
    requires Follows(q[1], v[2], q[2]) && Follows(q[2], v[3], q[3])
    ensures Feed(p, v) == q[3]
  {
    hide Follows, Feed;
    Three(p, v[..3], q[..3]);
    FeedOne(p, v[..3], v[3], q[2], q[3]);
    assert v == v[..3] + [v[3]];
  }

  lemma Then(p: bv32, a: seq<Byte>, b: seq<Byte>, q: bv32, r: bv32)
    requires Feed(p, a) == q && Feed(q, b) == r
    ensures Feed(p, a + b) == r
  {
    hide Feed;
    FeedConcat(p, a, b);
  }

  lemma Block0()
    ensures Feed(0x00000001, [3, 3, 3, 3]) == 0x00118c63
  {
    Four(0x00000001, [3, 3, 3, 3], [0x00000023, 0x00000463, 0x00008c63, 0x00118c63]);
  }

  lemma Block1()
    ensures Feed(0x00118c63, [3, 3, 0, 1]) == 0x3dc7154c
  {
    Four(0x00118c63, [3, 3, 0, 1], [0x02318c63, 0x3d5bdbd1, 0x04dcbcd9, 0x3dc7154c]);
  }

  lemma Block2()
    ensures Feed(0x3dc7154c, [2, 3, 4, 5]) == 0x266635a8
  {
    Four(0x3dc7154c, [2, 3, 4, 5], [0x17456f7b, 0x08d50561, 0x0401b5de, 0x266635a8]);
  }

  lemma Block3()
    ensures Feed(0x266635a8, [6, 0, 1, 2]) == 0x1767cdec
  {
    Four(0x266635a8, [6, 0, 1, 2], [0x3be80e6a, 0x0f9cd266, 0x30018ce4, 0x1767cdec]);
  }

  lemma Block4()
    ensures Feed(0x1767cdec, [3, 4, 5, 6]) == 0x12be0710
  {
    Four(0x1767cdec, [3, 4, 5, 6], [0x0c815781, 0x28db67b3, 0x2fd98d2c, 0x12be0710]);
  }

  lemma Block5()
    ensures Feed(0x12be0710, [7, 8, 9, 10]) == 0x2e301b62
  {
    Four(0x12be0710, [7, 8, 9, 10], [0x11e88668, 0x0052fed5, 0x0a5fdaa9, 0x2e301b62]);
  }

  lemma Block6()
    ensures Feed(0x2e301b62, [11, 12, 13, 14]) == 0x0f95cffd
  {
    Four(0x2e301b62, [11, 12, 13, 14], [0x2f8ccedd, 0x1816793a, 0x212c0d6a, 0x0f95cffd]);
  }

  lemma Block7()
    ensures Feed(0x0f95cffd, [15, 16, 17, 18]) == 0x029be197
  {
    Four(0x0f95cffd, [15, 16, 17, 18], [0x31223f8a, 0x3311a03e, 0x0e08010d, 0x029be197]);
  }

  lemma Block8()
    ensures Feed(0x029be197, [19, 20, 21, 22]) == 0x0c8c6efb
  {
    Four(0x029be197, [19, 20, 21, 22], [0x28166541, 0x3679d37d, 0x0556e704, 0x0c8c6efb]);
  }

  lemma Block9()
    ensures Feed(0x0c8c6efb, [23, 24, 25, 26]) == 0x347f64d1
  {
    Four(0x0c8c6efb, [23, 24, 25, 26], [0x297c48e0, 0x1b3c6751, 0x3f0597ac, 0x347f64d1]);
  }

  lemma Block10()
    ensures Feed(0x347f64d1, [27, 28, 29, 30]) == 0x2975c268
  {
    Four(0x347f64d1, [27, 28, 29, 30], [0x3eea4538, 0x09853657, 0x2e07d307, 0x2975c268]);
  }

  lemma Block11()
    ensures Feed(0x2975c268, [31, 27, 0, 0]) == 0x1f82a53f
  {
    Four(0x2975c268, [31, 27, 0, 0], [0x1a0d3656, 0x192fb74e, 0x0615c3e7, 0x1f82a53f]);
  }

  lemma Block12()
    ensures Feed(0x1f82a53f, [0, 6, 14]) == 0x00000001
  {
    Three(0x1f82a53f, [0, 6, 14], [0x0e8d5418, 0x12314323, 0x00000001]);
  }

  // ----- the word -----

  const EXPANDED: seq<Byte> := [3, 3, 3, 3, 3, 3, 0, 1, 2, 3, 4, 5, 6]
  const ALL: seq<Byte> := seq(32, i requires 0 <= i < 32 => ByteOf(i))
  const LISTED: seq<Byte> := [0, 1, 2, 3, 4, 5, 6, 7, 8, 9, 10, 11, 12, 13, 14, 15,
                              16, 17, 18, 19, 20, 21, 22, 23, 24, 25, 26, 27, 28, 29, 30, 31]
  const CHECK: seq<Byte> := [27, 0, 0, 0, 6, 14]

  lemma FrontFed()
    ensures Feed(0x00000001, [3, 3, 3, 3, 3, 3, 0, 1, 2, 3, 4, 5, 6, 0, 1, 2, 3, 4, 5, 6, 7, 8, 9, 10]) == 0x2e301b62
  {
    hide Feed;
    var fed: seq<Byte> := [3, 3, 3, 3];
    Block0();
    Block1();
    Then(0x00000001, fed, [3, 3, 0, 1], 0x00118c63, 0x3dc7154c);
    fed := fed + [3, 3, 0, 1];
    Block2();
    Then(0x00000001, fed, [2, 3, 4, 5], 0x3dc7154c, 0x266635a8);
    fed := fed + [2, 3, 4, 5];
    Block3();
    Then(0x00000001, fed, [6, 0, 1, 2], 0x266635a8, 0x1767cdec);
    fed := fed + [6, 0, 1, 2];
    Block4();
    Then(0x00000001, fed, [3, 4, 5, 6], 0x1767cdec, 0x12be0710);
    fed := fed + [3, 4, 5, 6];
    Block5();
    Then(0x00000001, fed, [7, 8, 9, 10], 0x12be0710, 0x2e301b62);
    fed := fed + [7, 8, 9, 10];
    assert fed == [3, 3, 3, 3, 3, 3, 0, 1, 2, 3, 4, 5, 6, 0, 1, 2, 3, 4, 5, 6, 7, 8, 9, 10];
  }

  lemma BackFed()
    ensures Feed(0x2e301b62, [11, 12, 13, 14, 15, 16, 17, 18, 19, 20, 21, 22, 23, 24, 25, 26, 27, 28, 29, 30, 31, 27, 0, 0]
                 + [0, 6, 14]) == 0x00000001
  {
    hide Feed;
    var fed: seq<Byte> := [11, 12, 13, 14];
    Block6();
    Block7();
    Then(0x2e301b62, fed, [15, 16, 17, 18], 0x0f95cffd, 0x029be197);
    fed := fed + [15, 16, 17, 18];
    Block8();
    Then(0x2e301b62, fed, [19, 20, 21, 22], 0x029be197, 0x0c8c6efb);
    fed := fed + [19, 20, 21, 22];
    Block9();
    Then(0x2e301b62, fed, [23, 24, 25, 26], 0x0c8c6efb, 0x347f64d1);
    fed := fed + [23, 24, 25, 26];
    Block10();
    Then(0x2e301b62, fed, [27, 28, 29, 30], 0x347f64d1, 0x2975c268);
    fed := fed + [27, 28, 29, 30];
    Block11();
    Then(0x2e301b62, fed, [31, 27, 0, 0], 0x2975c268, 0x1f82a53f);
    fed := fed + [31, 27, 0, 0];
    Block12();
    Then(0x2e301b62, fed, [0, 6, 14], 0x1f82a53f, 0x00000001);
    fed := fed + [0, 6, 14];
    assert fed == [11, 12, 13, 14, 15, 16, 17, 18, 19, 20, 21, 22, 23, 24, 25, 26, 27, 28, 29, 30, 31, 27, 0, 0] + [0, 6, 14];
  }

  lemma Fed()
    ensures Feed(1, EXPANDED + (LISTED + CHECK)) == 1
  {
    hide Feed;
    FrontFed();
    BackFed();
    var front: seq<Byte>, back: seq<Byte> := [3, 3, 3, 3, 3, 3, 0, 1, 2, 3, 4, 5, 6, 0, 1, 2, 3, 4, 5, 6, 7, 8, 9, 10],
      [11, 12, 13, 14, 15, 16, 17, 18, 19, 20, 21, 22, 23, 24, 25, 26, 27, 28, 29, 30, 31, 27, 0, 0] + [0, 6, 14];
    Then(1, front, back, 0x2e301b62, 1);
    assert front + back == EXPANDED + (LISTED + CHECK);
  }

  /** A byte is known by its number. */
  lemma IsByte(b: Byte, n: nat)
    requires n < 256 && NatOf(b) == n
    ensures ByteOf(n) == b
  {
    hide ByteOf, NatOf;
    ByteOfSmall(n);
    NatInjective(ByteOf(n), b);
  }

  lemma LetterBytes()
    ensures ByteOf(97) == 97 && ByteOf(98) == 98 && ByteOf(99) == 99
    ensures ByteOf(100) == 100 && ByteOf(101) == 101 && ByteOf(102) == 102
  {
    hide ByteOf;
    IsByte(97, 97);
    IsByte(98, 98);
    IsByte(99, 99);
    IsByte(100, 100);
    IsByte(101, 101);
    IsByte(102, 102);
  }

  lemma LetterHalves()
    ensures High(97) == 3 && High(98) == 3 && High(99) == 3 && High(100) == 3 && High(101) == 3 && High(102) == 3
    ensures Low(97) == 1 && Low(98) == 2 && Low(99) == 3 && Low(100) == 4 && Low(101) == 5 && Low(102) == 6
  {
  }

  lemma PrefixBytes()
    ensures HrpExpand(Bytes(Nats("abcdef"))) == EXPANDED
  {
    hide ByteOf, High, Low;
    LetterBytes();
    LetterHalves();
    var t: Text := "abcdef";
    assert Nats(t) == [97, 98, 99, 100, 101, 102];
    var b: seq<Byte> := [97, 98, 99, 100, 101, 102];
    assert Bytes(Nats(t)) == b;
    assert HrpExpand(b) == EXPANDED;
  }

  lemma FrontListed(i: nat)
    requires 0 <= i < 16
    ensures LISTED[i] == ByteOf(i)
  {
    hide ByteOf;
    if i == 0 { IsByte(0, 0); }
    else if i == 1 { IsByte(1, 1); }
    else if i == 2 { IsByte(2, 2); }
    else if i == 3 { IsByte(3, 3); }
    else if i == 4 { IsByte(4, 4); }
    else if i == 5 { IsByte(5, 5); }
    else if i == 6 { IsByte(6, 6); }
    else if i == 7 { IsByte(7, 7); }
    else if i == 8 { IsByte(8, 8); }
    else if i == 9 { IsByte(9, 9); }
    else if i == 10 { IsByte(10, 10); }
    else if i == 11 { IsByte(11, 11); }
    else if i == 12 { IsByte(12, 12); }
    else if i == 13 { IsByte(13, 13); }
    else if i == 14 { IsByte(14, 14); }
    else if i == 15 { IsByte(15, 15); }
  }

  lemma BackListed(i: nat)
    requires 16 <= i < 32
    ensures LISTED[i] == ByteOf(i)
  {
    hide ByteOf;
    if i == 16 { IsByte(16, 16); }
    else if i == 17 { IsByte(17, 17); }
    else if i == 18 { IsByte(18, 18); }
    else if i == 19 { IsByte(19, 19); }
    else if i == 20 { IsByte(20, 20); }
    else if i == 21 { IsByte(21, 21); }
    else if i == 22 { IsByte(22, 22); }
    else if i == 23 { IsByte(23, 23); }
    else if i == 24 { IsByte(24, 24); }
    else if i == 25 { IsByte(25, 25); }
    else if i == 26 { IsByte(26, 26); }
    else if i == 27 { IsByte(27, 27); }
    else if i == 28 { IsByte(28, 28); }
    else if i == 29 { IsByte(29, 29); }
    else if i == 30 { IsByte(30, 30); }
    else if i == 31 { IsByte(31, 31); }
  }

  lemma AllListed()
    ensures ALL == LISTED
  {
    hide ByteOf, LISTED;
    ListedLength();
    forall i | 0 <= i < 32 ensures ALL[i] == LISTED[i] {
      if i < 16 { FrontListed(i); } else { BackListed(i); }
    }
  }

  lemma ListedLength()
    ensures |LISTED| == 32 == |CHARSET| && |CHECK| == 6
  {
  }

  /** Its checksum. */
  lemma ChecksumPublished()
    ensures Checksum(Bytes(Nats("abcdef")), ALL) == CHECK
  {
    hide Feed, HrpExpand, Checksum, LISTED, ALL, EXPANDED;
    Fed();
    AllListed();
    PrefixBytes();
    CheckLetters();
    ListedLength();
    ChecksumExact(Bytes(Nats("abcdef")), ALL, CHECK);
  }

  lemma AllLetters()
    ensures Symbols(ALL) && Letters(ALL) == CHARSET
  {
    hide CHARSET, ByteOf, NatOf;
    forall i | 0 <= i < 32 ensures ALL[i] < 32 && NatOf(ALL[i]) == i {
      ByteOfSmall(i);
      NatSmall(ALL[i]);
    }
    ListedLength();
  }

  lemma CheckLetters()
    ensures Symbols(CHECK) && Letters(CHECK) == "mqqqxw"
  {
    assert NatOf(27) == 27 && NatOf(0) == 0 && NatOf(6) == 6 && NatOf(14) == 14;
  }

  /** And its text. */
  lemma TextPublished()
    ensures Symbols(ALL) && Encoded("abcdef", ALL) == "abcdef" + "1" + "qpzry9x8gf2tvdw0s3jn54khce6mua7l" + "mqqqxw"
  {
    hide ALL, CHECK, Letter, NatOf, Checksum;
    AllLetters();
    CheckLetters();
    ChecksumPublished();
    WordIsSymbols("abcdef", ALL);
    assert Letters(ALL + CHECK) == Letters(ALL) + Letters(CHECK);
  }
}
