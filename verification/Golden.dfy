/** The repository's golden packets, from the sixteen bytes of the key to the thirteen bytes on
    the air: they fix every constant, shift and byte order of the cipher and the codec. */
module Golden {
  import opened Protocol
  import opened Xtea

  const KEY_BYTES: seq<Byte> :=
    [0x01, 0x02, 0x03, 0x04, 0x05, 0x06, 0x07, 0x08, 0x09, 0x0a, 0x0b, 0x0c, 0x0d, 0x0e, 0x0f, 0x10]
  const GOLDEN_KEY := Key(0x04030201, 0x08070605, 0x0c0b0a09, 0x100f0e0d)
  const SRC: Addr := [0xaa, 0xbb, 0xcc, 0xdd]

  // The bytes of a key make little-endian words.
  lemma GoldenKey()
    ensures KeyOf(KEY_BYTES) == GOLDEN_KEY
  {
    assert Word(0x01, 0x02, 0x03, 0x04) == 0x04030201;
    assert Word(0x05, 0x06, 0x07, 0x08) == 0x08070605;
    assert Word(0x09, 0x0a, 0x0b, 0x0c) == 0x0c0b0a09;
    assert Word(0x0d, 0x0e, 0x0f, 0x10) == 0x100f0e0d;
  }

  // The flag bytes of the repository's tests.
  lemma GoldenFlags()
    ensures FlagsWithGuard(0xff, 0) == FLAG_NULL && FlagsWithGuard(0xfe, 5) == 0x0a
    ensures FlagsWithGuard(FLAG_NULL, 255) == 0xff && GuardMillis(FlagsWithGuard(0, 200)) == MAX_GUARD_MILLIS
    ensures GuardMillis(0x28) == 20 && GuardFlags(0x29) == 0x28
  {
  }

  lemma OneMoreRound(b: Block, n: nat, x: Block, y: Block)
    requires Iterate(n, Encipher(GOLDEN_KEY), b) == x && Forward(x, GOLDEN_KEY) == y
    ensures Iterate(n + 1, Encipher(GOLDEN_KEY), b) == y
  {
  }

  // Sixteen rounds and sixteen more.
  lemma TwoHalves(b: Block, x: Block, y: Block)
    requires Iterate(16, Encipher(GOLDEN_KEY), b) == x && Iterate(16, Encipher(GOLDEN_KEY), x) == y
    ensures Iterate(ROUNDS, Encipher(GOLDEN_KEY), b) == y
  {
    IterateAdd(16, 16, Encipher(GOLDEN_KEY), b);
  }

  lemma GetFirstHalf()
    ensures Iterate(16, Encipher(GOLDEN_KEY), Block(0x12342800, 0x00000000, 0x00000000))
         == Block(0xd0db867d, 0xdf828236, 0xe3779b90)
  {
    var b := Block(0x12342800, 0x00000000, 0x00000000);
    OneMoreRound(b, 0, Block(0x12342800, 0x00000000, 0x00000000), Block(0x16372a01, 0xd7bcc487, 0x9e3779b9));
    OneMoreRound(b, 1, Block(0x16372a01, 0xd7bcc487, 0x9e3779b9), Block(0x09473766, 0xadb63ec1, 0x3c6ef372));
    OneMoreRound(b, 2, Block(0x09473766, 0xadb63ec1, 0x3c6ef372), Block(0xcd049942, 0xef4177dd, 0xdaa66d2b));
    OneMoreRound(b, 3, Block(0xcd049942, 0xef4177dd, 0xdaa66d2b), Block(0xd5202eb5, 0x446e681c, 0x78dde6e4));
    OneMoreRound(b, 4, Block(0xd5202eb5, 0x446e681c, 0x78dde6e4), Block(0xcaf4e12e, 0xb3855da5, 0x1715609d));
    OneMoreRound(b, 5, Block(0xcaf4e12e, 0xb3855da5, 0x1715609d), Block(0xb94809ee, 0x434e5ea3, 0xb54cda56));
    OneMoreRound(b, 6, Block(0xb94809ee, 0x434e5ea3, 0xb54cda56), Block(0x74621d25, 0x29b9e069, 0x5384540f));
    OneMoreRound(b, 7, Block(0x74621d25, 0x29b9e069, 0x5384540f), Block(0x1b80e905, 0x574b3439, 0xf1bbcdc8));
    OneMoreRound(b, 8, Block(0x1b80e905, 0x574b3439, 0xf1bbcdc8), Block(0x546b6aa8, 0x62c24a38, 0x8ff34781));
    OneMoreRound(b, 9, Block(0x546b6aa8, 0x62c24a38, 0x8ff34781), Block(0x5a7a1c37, 0x3084372b, 0x2e2ac13a));
    OneMoreRound(b, 10, Block(0x5a7a1c37, 0x3084372b, 0x2e2ac13a), Block(0x5af85dae, 0x04bf73e6, 0xcc623af3));
    OneMoreRound(b, 11, Block(0x5af85dae, 0x04bf73e6, 0xcc623af3), Block(0xe7dbce93, 0x19ba2f48, 0x6a99b4ac));
    OneMoreRound(b, 12, Block(0xe7dbce93, 0x19ba2f48, 0x6a99b4ac), Block(0xc391b282, 0x2bfb9ba4, 0x08d12e65));
    OneMoreRound(b, 13, Block(0xc391b282, 0x2bfb9ba4, 0x08d12e65), Block(0xbdcbe8ad, 0x640eac05, 0xa708a81e));
    OneMoreRound(b, 14, Block(0xbdcbe8ad, 0x640eac05, 0xa708a81e), Block(0xd296bbbf, 0xafe59639, 0x454021d7));
    OneMoreRound(b, 15, Block(0xd296bbbf, 0xafe59639, 0x454021d7), Block(0xd0db867d, 0xdf828236, 0xe3779b90));
  }

  lemma GetSecondHalf()
    ensures Iterate(16, Encipher(GOLDEN_KEY), Block(0xd0db867d, 0xdf828236, 0xe3779b90))
         == Block(0x3f124112, 0xdfb4dc43, 0xc6ef3720)
  {
    var b := Block(0xd0db867d, 0xdf828236, 0xe3779b90);
    OneMoreRound(b, 0, Block(0xd0db867d, 0xdf828236, 0xe3779b90), Block(0x0a07aab3, 0x070ae080, 0x81af1549));
    OneMoreRound(b, 1, Block(0x0a07aab3, 0x070ae080, 0x81af1549), Block(0x081ecf7d, 0xb53224af, 0x1fe68f02));
    OneMoreRound(b, 2, Block(0x081ecf7d, 0xb53224af, 0x1fe68f02), Block(0x286e690c, 0x2b636703, 0xbe1e08bb));
    OneMoreRound(b, 3, Block(0x286e690c, 0x2b636703, 0xbe1e08bb), Block(0x556c2dcf, 0xf4f0d61b, 0x5c558274));
    OneMoreRound(b, 4, Block(0x556c2dcf, 0xf4f0d61b, 0x5c558274), Block(0xb32f673d, 0xd4f35037, 0xfa8cfc2d));
    OneMoreRound(b, 5, Block(0xb32f673d, 0xd4f35037, 0xfa8cfc2d), Block(0xcf414f57, 0x3a7281c5, 0x98c475e6));
    OneMoreRound(b, 6, Block(0xcf414f57, 0x3a7281c5, 0x98c475e6), Block(0x14e2c523, 0x96df7e5d, 0x36fbef9f));
    OneMoreRound(b, 7, Block(0x14e2c523, 0x96df7e5d, 0x36fbef9f), Block(0x5c0d26f6, 0x59e4c06d, 0xd5336958));
    OneMoreRound(b, 8, Block(0x5c0d26f6, 0x59e4c06d, 0xd5336958), Block(0x8b5eb10f, 0xa4623402, 0x736ae311));
    OneMoreRound(b, 9, Block(0x8b5eb10f, 0xa4623402, 0x736ae311), Block(0x27721da3, 0x609f3659, 0x11a25cca));
    OneMoreRound(b, 10, Block(0x27721da3, 0x609f3659, 0x11a25cca), Block(0x9dadd24b, 0x20da333a, 0xafd9d683));
    OneMoreRound(b, 11, Block(0x9dadd24b, 0x20da333a, 0xafd9d683), Block(0x3016c42e, 0x8bfa15e4, 0x4e11503c));
    OneMoreRound(b, 12, Block(0x3016c42e, 0x8bfa15e4, 0x4e11503c), Block(0x4603bb1c, 0xe83abeb2, 0xec48c9f5));
    OneMoreRound(b, 13, Block(0x4603bb1c, 0xe83abeb2, 0xec48c9f5), Block(0xdf6eed99, 0x294297ec, 0x8a8043ae));
    OneMoreRound(b, 14, Block(0xdf6eed99, 0x294297ec, 0x8a8043ae), Block(0x079c3d75, 0xe2a05730, 0x28b7bd67));
    OneMoreRound(b, 15, Block(0x079c3d75, 0xe2a05730, 0x28b7bd67), Block(0x3f124112, 0xdfb4dc43, 0xc6ef3720));
  }

  lemma GetWords()
    ensures Head(TYPE_GET, 0x28, 0x1234) == 0x12342800
    ensures Word(0x12, 0x41, 0x12, 0x3f) == 0x3f124112 && Word(0x43, 0xdc, 0xb4, 0xdf) == 0xdfb4dc43
  {
  }

  lemma GoldenGet()
    ensures Wire(KeyOf(KEY_BYTES), Message(SRC, TYPE_GET, 0x28, 0x1234, 0x00000000))
         == SRC + [0x01, 0x12, 0x41, 0x12, 0x3f, 0x43, 0xdc, 0xb4, 0xdf]
  {
    hide Encipher, Iterate, Word, ByteAt, Bytes, Head, KeyOf;
    GoldenKey();
    GetFirstHalf();
    GetSecondHalf();
    TwoHalves(Block(0x12342800, 0x00000000, 0x00000000), Block(0xd0db867d, 0xdf828236, 0xe3779b90),
              Block(0x3f124112, 0xdfb4dc43, 0xc6ef3720));
    GetWords();
    BytesOfWord(0x12, 0x41, 0x12, 0x3f);
    BytesOfWord(0x43, 0xdc, 0xb4, 0xdf);
  }

  lemma ValueFirstHalf()
    ensures Iterate(16, Encipher(GOLDEN_KEY), Block(0x12342901, 0xf8a432eb, 0x00000000))
         == Block(0xfdbd4f0b, 0x70cd82db, 0xe3779b90)
  {
    var b := Block(0x12342901, 0xf8a432eb, 0x00000000);
    OneMoreRound(b, 0, Block(0x12342901, 0xf8a432eb, 0x00000000), Block(0x945d6914, 0x743b97c5, 0x9e3779b9));
    OneMoreRound(b, 1, Block(0x945d6914, 0x743b97c5, 0x9e3779b9), Block(0xa6c7b021, 0xcca8aa8e, 0x3c6ef372));
    OneMoreRound(b, 2, Block(0xa6c7b021, 0xcca8aa8e, 0x3c6ef372), Block(0x78a9155a, 0xaff8ebe2, 0xdaa66d2b));
    OneMoreRound(b, 3, Block(0x78a9155a, 0xaff8ebe2, 0xdaa66d2b), Block(0xb90833b3, 0xe2ac3267, 0x78dde6e4));
    OneMoreRound(b, 4, Block(0xb90833b3, 0xe2ac3267, 0x78dde6e4), Block(0x256ac662, 0x4a95c752, 0x1715609d));
    OneMoreRound(b, 5, Block(0x256ac662, 0x4a95c752, 0x1715609d), Block(0x0fed8b30, 0x16644a3c, 0xb54cda56));
    OneMoreRound(b, 6, Block(0x0fed8b30, 0x16644a3c, 0xb54cda56), Block(0xcbf9bac2, 0xf0958cdc, 0x5384540f));
    OneMoreRound(b, 7, Block(0xcbf9bac2, 0xf0958cdc, 0x5384540f), Block(0x68dc4760, 0xff319532, 0xf1bbcdc8));
    OneMoreRound(b, 8, Block(0x68dc4760, 0xff319532, 0xf1bbcdc8), Block(0x6a8902d2, 0x84ecb6bc, 0x8ff34781));
    OneMoreRound(b, 9, Block(0x6a8902d2, 0x84ecb6bc, 0x8ff34781), Block(0xc2ab8b89, 0x62616a2a, 0x2e2ac13a));
    OneMoreRound(b, 10, Block(0xc2ab8b89, 0x62616a2a, 0x2e2ac13a), Block(0x7ffe6ae1, 0x02c7eb52, 0xcc623af3));
    OneMoreRound(b, 11, Block(0x7ffe6ae1, 0x02c7eb52, 0xcc623af3), Block(0x733fa7ad, 0xd7cf7c81, 0x6a99b4ac));
    OneMoreRound(b, 12, Block(0x733fa7ad, 0xd7cf7c81, 0x6a99b4ac), Block(0xafc52e85, 0x8ff95844, 0x08d12e65));
    OneMoreRound(b, 13, Block(0xafc52e85, 0x8ff95844, 0x08d12e65), Block(0x4b00c131, 0xe254d0ad, 0xa708a81e));
    OneMoreRound(b, 14, Block(0x4b00c131, 0xe254d0ad, 0xa708a81e), Block(0x02a89056, 0x465cc28d, 0x454021d7));
    OneMoreRound(b, 15, Block(0x02a89056, 0x465cc28d, 0x454021d7), Block(0xfdbd4f0b, 0x70cd82db, 0xe3779b90));
  }

  lemma ValueSecondHalf()
    ensures Iterate(16, Encipher(GOLDEN_KEY), Block(0xfdbd4f0b, 0x70cd82db, 0xe3779b90))
         == Block(0x36d573fc, 0x118607be, 0xc6ef3720)
  {
    var b := Block(0xfdbd4f0b, 0x70cd82db, 0xe3779b90);
    OneMoreRound(b, 0, Block(0xfdbd4f0b, 0x70cd82db, 0xe3779b90), Block(0x650ea81b, 0xa6390534, 0x81af1549));
    OneMoreRound(b, 1, Block(0x650ea81b, 0xa6390534, 0x81af1549), Block(0xea7b63ee, 0x52c5e21e, 0x1fe68f02));
    OneMoreRound(b, 2, Block(0xea7b63ee, 0x52c5e21e, 0x1fe68f02), Block(0x94f7cbf3, 0x79bda5c0, 0xbe1e08bb));
    OneMoreRound(b, 3, Block(0x94f7cbf3, 0x79bda5c0, 0xbe1e08bb), Block(0x74f00c19, 0x1b8d703c, 0x5c558274));
    OneMoreRound(b, 4, Block(0x74f00c19, 0x1b8d703c, 0x5c558274), Block(0x28b06821, 0xd3fcd384, 0xfa8cfc2d));
    OneMoreRound(b, 5, Block(0x28b06821, 0xd3fcd384, 0xfa8cfc2d), Block(0x388c1873, 0x395a530d, 0x98c475e6));
    OneMoreRound(b, 6, Block(0x388c1873, 0x395a530d, 0x98c475e6), Block(0xa191632d, 0xbc093c5f, 0x36fbef9f));
    OneMoreRound(b, 7, Block(0xa191632d, 0xbc093c5f, 0x36fbef9f), Block(0x6807990a, 0xf284668e, 0xd5336958));
    OneMoreRound(b, 8, Block(0x6807990a, 0xf284668e, 0xd5336958), Block(0x63687245, 0xe0eda5a3, 0x736ae311));
    OneMoreRound(b, 9, Block(0x63687245, 0xe0eda5a3, 0x736ae311), Block(0xf523a81b, 0x4bf3d57f, 0x11a25cca));
    OneMoreRound(b, 10, Block(0xf523a81b, 0x4bf3d57f, 0x11a25cca), Block(0x0a1fa024, 0x5c225568, 0xafd9d683));
    OneMoreRound(b, 11, Block(0x0a1fa024, 0x5c225568, 0xafd9d683), Block(0xad2e1d27, 0x3acd3aed, 0x4e11503c));
    OneMoreRound(b, 12, Block(0xad2e1d27, 0x3acd3aed, 0x4e11503c), Block(0x62f570f0, 0xb647157a, 0xec48c9f5));
    OneMoreRound(b, 13, Block(0x62f570f0, 0xb647157a, 0xec48c9f5), Block(0x4f3abc6f, 0x85d69fa7, 0x8a8043ae));
    OneMoreRound(b, 14, Block(0x4f3abc6f, 0x85d69fa7, 0x8a8043ae), Block(0x98d15ff2, 0xa038be4c, 0x28b7bd67));
    OneMoreRound(b, 15, Block(0x98d15ff2, 0xa038be4c, 0x28b7bd67), Block(0x36d573fc, 0x118607be, 0xc6ef3720));
  }

  lemma ValueWords()
    ensures Head(TYPE_VALUE, 0x29, 0x1234) == 0x12342901
    ensures Word(0xfc, 0x73, 0xd5, 0x36) == 0x36d573fc && Word(0xbe, 0x07, 0x86, 0x11) == 0x118607be
  {
  }

  lemma GoldenValue()
    ensures Wire(KeyOf(KEY_BYTES), Message(SRC, TYPE_VALUE, 0x29, 0x1234, 0xf8a432eb))
         == SRC + [0x01, 0xfc, 0x73, 0xd5, 0x36, 0xbe, 0x07, 0x86, 0x11]
  {
    hide Encipher, Iterate, Word, ByteAt, Bytes, Head, KeyOf;
    GoldenKey();
    ValueFirstHalf();
    ValueSecondHalf();
    TwoHalves(Block(0x12342901, 0xf8a432eb, 0x00000000), Block(0xfdbd4f0b, 0x70cd82db, 0xe3779b90),
              Block(0x36d573fc, 0x118607be, 0xc6ef3720));
    ValueWords();
    BytesOfWord(0xfc, 0x73, 0xd5, 0x36);
    BytesOfWord(0xbe, 0x07, 0x86, 0x11);
  }

  lemma SetFirstHalf()
    ensures Iterate(16, Encipher(GOLDEN_KEY), Block(0xbeef2802, 0x10203040, 0x00000000))
         == Block(0x8181c8c9, 0x1230799c, 0xe3779b90)
  {
    var b := Block(0xbeef2802, 0x10203040, 0x00000000);
    OneMoreRound(b, 0, Block(0xbeef2802, 0x10203040, 0x00000000), Block(0xd5905fc5, 0xab9f89f5, 0x9e3779b9));
    OneMoreRound(b, 1, Block(0xd5905fc5, 0xab9f89f5, 0x9e3779b9), Block(0xa40df26f, 0x4e14509e, 0x3c6ef372));
    OneMoreRound(b, 2, Block(0xa40df26f, 0x4e14509e, 0x3c6ef372), Block(0x1d3df3e8, 0x60ee06d5, 0xdaa66d2b));
    OneMoreRound(b, 3, Block(0x1d3df3e8, 0x60ee06d5, 0xdaa66d2b), Block(0xa19e52eb, 0x2356cecc, 0x78dde6e4));
    OneMoreRound(b, 4, Block(0xa19e52eb, 0x2356cecc, 0x78dde6e4), Block(0xcccc1452, 0xafc22a16, 0x1715609d));
    OneMoreRound(b, 5, Block(0xcccc1452, 0xafc22a16, 0x1715609d), Block(0x82ced136, 0x1e540992, 0xb54cda56));
    OneMoreRound(b, 6, Block(0x82ced136, 0x1e540992, 0xb54cda56), Block(0x482077d7, 0xb63db24f, 0x5384540f));
    OneMoreRound(b, 7, Block(0x482077d7, 0xb63db24f, 0x5384540f), Block(0xc75b9184, 0x795b37ec, 0xf1bbcdc8));
    OneMoreRound(b, 8, Block(0xc75b9184, 0x795b37ec, 0xf1bbcdc8), Block(0xc1c5a226, 0xc94b3001, 0x8ff34781));
    OneMoreRound(b, 9, Block(0xc1c5a226, 0xc94b3001, 0x8ff34781), Block(0x8d84663d, 0x24ce9426, 0x2e2ac13a));
    OneMoreRound(b, 10, Block(0x8d84663d, 0x24ce9426, 0x2e2ac13a), Block(0xd62c67e1, 0x0ba16036, 0xcc623af3));
    OneMoreRound(b, 11, Block(0xd62c67e1, 0x0ba16036, 0xcc623af3), Block(0xefc98978, 0xa8b63c2c, 0x6a99b4ac));
    OneMoreRound(b, 12, Block(0xefc98978, 0xa8b63c2c, 0x6a99b4ac), Block(0x4809a358, 0x82f26bc4, 0x08d12e65));
    OneMoreRound(b, 13, Block(0x4809a358, 0x82f26bc4, 0x08d12e65), Block(0x070551e0, 0x5b6f9410, 0xa708a81e));
    OneMoreRound(b, 14, Block(0x070551e0, 0x5b6f9410, 0xa708a81e), Block(0xc387b577, 0xa41b979a, 0x454021d7));
    OneMoreRound(b, 15, Block(0xc387b577, 0xa41b979a, 0x454021d7), Block(0x8181c8c9, 0x1230799c, 0xe3779b90));
  }

  lemma SetSecondHalf()
    ensures Iterate(16, Encipher(GOLDEN_KEY), Block(0x8181c8c9, 0x1230799c, 0xe3779b90))
         == Block(0xffe78e09, 0xbd1c75ff, 0xc6ef3720)
  {
    var b := Block(0x8181c8c9, 0x1230799c, 0xe3779b90);
    OneMoreRound(b, 0, Block(0x8181c8c9, 0x1230799c, 0xe3779b90), Block(0x543dd702, 0x2a30e464, 0x81af1549));
    OneMoreRound(b, 1, Block(0x543dd702, 0x2a30e464, 0x81af1549), Block(0x9964958b, 0x363b6904, 0x1fe68f02));
    OneMoreRound(b, 2, Block(0x9964958b, 0x363b6904, 0x1fe68f02), Block(0x4d17c292, 0x1c44c00a, 0xbe1e08bb));
    OneMoreRound(b, 3, Block(0x4d17c292, 0x1c44c00a, 0xbe1e08bb), Block(0x7bf7b2f4, 0x750981c8, 0x5c558274));
    OneMoreRound(b, 4, Block(0x7bf7b2f4, 0x750981c8, 0x5c558274), Block(0x24590917, 0xd8a0ea3d, 0xfa8cfc2d));
    OneMoreRound(b, 5, Block(0x24590917, 0xd8a0ea3d, 0xfa8cfc2d), Block(0x8c5195a3, 0xc1a2fdec, 0x98c475e6));
    OneMoreRound(b, 6, Block(0x8c5195a3, 0xc1a2fdec, 0x98c475e6), Block(0x055c4e97, 0x25ebaa2b, 0x36fbef9f));
    OneMoreRound(b, 7, Block(0x055c4e97, 0x25ebaa2b, 0x36fbef9f), Block(0xc7e7a637, 0xc3031550, 0xd5336958));
    OneMoreRound(b, 8, Block(0xc7e7a637, 0xc3031550, 0xd5336958), Block(0xe801afda, 0xdb345afa, 0x736ae311));
    OneMoreRound(b, 9, Block(0xe801afda, 0xdb345afa, 0x736ae311), Block(0xd3a33141, 0x0d14af06, 0x11a25cca));
    OneMoreRound(b, 10, Block(0xd3a33141, 0x0d14af06, 0x11a25cca), Block(0x973d940e, 0xc28f4fc8, 0xafd9d683));
    OneMoreRound(b, 11, Block(0x973d940e, 0xc28f4fc8, 0xafd9d683), Block(0xe5c4c664, 0xddcaac5a, 0x4e11503c));
    OneMoreRound(b, 12, Block(0xe5c4c664, 0xddcaac5a, 0x4e11503c), Block(0xcfe03585, 0x19ddecd5, 0xec48c9f5));
    OneMoreRound(b, 13, Block(0xcfe03585, 0x19ddecd5, 0xec48c9f5), Block(0x1281f676, 0xcf6c07bb, 0x8a8043ae));
    OneMoreRound(b, 14, Block(0x1281f676, 0xcf6c07bb, 0x8a8043ae), Block(0x692e6575, 0x91874a3f, 0x28b7bd67));
    OneMoreRound(b, 15, Block(0x692e6575, 0x91874a3f, 0x28b7bd67), Block(0xffe78e09, 0xbd1c75ff, 0xc6ef3720));
  }

  lemma SetWords()
    ensures Head(TYPE_SET, 0x28, 0xbeef) == 0xbeef2802
    ensures Word(0x09, 0x8e, 0xe7, 0xff) == 0xffe78e09 && Word(0xff, 0x75, 0x1c, 0xbd) == 0xbd1c75ff
  {
  }

  lemma GoldenSet()
    ensures Wire(KeyOf(KEY_BYTES), Message(SRC, TYPE_SET, 0x28, 0xbeef, 0x10203040))
         == SRC + [0x01, 0x09, 0x8e, 0xe7, 0xff, 0xff, 0x75, 0x1c, 0xbd]
  {
    hide Encipher, Iterate, Word, ByteAt, Bytes, Head, KeyOf;
    GoldenKey();
    SetFirstHalf();
    SetSecondHalf();
    TwoHalves(Block(0xbeef2802, 0x10203040, 0x00000000), Block(0x8181c8c9, 0x1230799c, 0xe3779b90),
              Block(0xffe78e09, 0xbd1c75ff, 0xc6ef3720));
    SetWords();
    BytesOfWord(0x09, 0x8e, 0xe7, 0xff);
    BytesOfWord(0xff, 0x75, 0x1c, 0xbd);
  }

  lemma AckFirstHalf()
    ensures Iterate(16, Encipher(GOLDEN_KEY), Block(0xbeef2903, 0x00000000, 0x00000000))
         == Block(0x7f423cb6, 0x9b5e0287, 0xe3779b90)
  {
    var b := Block(0xbeef2903, 0x00000000, 0x00000000);
    OneMoreRound(b, 0, Block(0xbeef2903, 0x00000000, 0x00000000), Block(0xc2f22b04, 0x4261cbda, 0x9e3779b9));
    OneMoreRound(b, 1, Block(0xc2f22b04, 0x4261cbda, 0x9e3779b9), Block(0x83412b6a, 0x3d91e1f8, 0x3c6ef372));
    OneMoreRound(b, 2, Block(0x83412b6a, 0x3d91e1f8, 0x3c6ef372), Block(0xe23ebb66, 0x23276e09, 0xdaa66d2b));
    OneMoreRound(b, 3, Block(0xe23ebb66, 0x23276e09, 0xdaa66d2b), Block(0x9e60ee37, 0x20e5a8e6, 0x78dde6e4));
    OneMoreRound(b, 4, Block(0x9e60ee37, 0x20e5a8e6, 0x78dde6e4), Block(0xeb04931f, 0xd9f372ff, 0x1715609d));
    OneMoreRound(b, 5, Block(0xeb04931f, 0xd9f372ff, 0x1715609d), Block(0x57f4d4e3, 0xeaafc818, 0xb54cda56));
    OneMoreRound(b, 6, Block(0x57f4d4e3, 0xeaafc818, 0xb54cda56), Block(0xb102f86a, 0x83d59fed, 0x5384540f));
    OneMoreRound(b, 7, Block(0xb102f86a, 0x83d59fed, 0x5384540f), Block(0x8f92886a, 0xf8f9e86d, 0xf1bbcdc8));
    OneMoreRound(b, 8, Block(0x8f92886a, 0xf8f9e86d, 0xf1bbcdc8), Block(0x04808633, 0xd8548d23, 0x8ff34781));
    OneMoreRound(b, 9, Block(0x04808633, 0xd8548d23, 0x8ff34781), Block(0xd0a5d52d, 0xc7a81fc0, 0x2e2ac13a));
    OneMoreRound(b, 10, Block(0xd0a5d52d, 0xc7a81fc0, 0x2e2ac13a), Block(0x4ef6ed2a, 0xa8093bb3, 0xcc623af3));
    OneMoreRound(b, 11, Block(0x4ef6ed2a, 0xa8093bb3, 0xcc623af3), Block(0x40a354ca, 0xe6805018, 0x6a99b4ac));
    OneMoreRound(b, 12, Block(0x40a354ca, 0xe6805018, 0x6a99b4ac), Block(0x7bd13a7f, 0x10c6ace0, 0x08d12e65));
    OneMoreRound(b, 13, Block(0x7bd13a7f, 0x10c6ace0, 0x08d12e65), Block(0x893cd6ac, 0xa09579e2, 0xa708a81e));
    OneMoreRound(b, 14, Block(0x893cd6ac, 0xa09579e2, 0xa708a81e), Block(0xa937f4a2, 0x16c343e1, 0x454021d7));
    OneMoreRound(b, 15, Block(0xa937f4a2, 0x16c343e1, 0x454021d7), Block(0x7f423cb6, 0x9b5e0287, 0xe3779b90));
  }

  lemma AckSecondHalf()
    ensures Iterate(16, Encipher(GOLDEN_KEY), Block(0x7f423cb6, 0x9b5e0287, 0xe3779b90))
         == Block(0xd61d9875, 0x91cf3539, 0xc6ef3720)
  {
    var b := Block(0x7f423cb6, 0x9b5e0287, 0xe3779b90);
    OneMoreRound(b, 0, Block(0x7f423cb6, 0x9b5e0287, 0xe3779b90), Block(0x2b248430, 0xeeedf68a, 0x81af1549));
    OneMoreRound(b, 1, Block(0x2b248430, 0xeeedf68a, 0x81af1549), Block(0x7c486b00, 0x532ec1e9, 0x1fe68f02));
    OneMoreRound(b, 2, Block(0x7c486b00, 0x532ec1e9, 0x1fe68f02), Block(0x249e1e83, 0xfe74fb70, 0xbe1e08bb));
    OneMoreRound(b, 3, Block(0x249e1e83, 0xfe74fb70, 0xbe1e08bb), Block(0x35ba3906, 0xee05fa4b, 0x5c558274));
    OneMoreRound(b, 4, Block(0x35ba3906, 0xee05fa4b, 0x5c558274), Block(0xeb273ade, 0x98d3bf79, 0xfa8cfc2d));
    OneMoreRound(b, 5, Block(0xeb273ade, 0x98d3bf79, 0xfa8cfc2d), Block(0x0b6c66b4, 0xff99d03f, 0x98c475e6));
    OneMoreRound(b, 6, Block(0x0b6c66b4, 0xff99d03f, 0x98c475e6), Block(0x64a14913, 0x9269e16e, 0x36fbef9f));
    OneMoreRound(b, 7, Block(0x64a14913, 0x9269e16e, 0x36fbef9f), Block(0x581f1008, 0x98d548c3, 0xd5336958));
    OneMoreRound(b, 8, Block(0x581f1008, 0x98d548c3, 0xd5336958), Block(0x53701468, 0x973c885c, 0x736ae311));
    OneMoreRound(b, 9, Block(0x53701468, 0x973c885c, 0x736ae311), Block(0xc94c1530, 0x11a2aa6a, 0x11a25cca));
    OneMoreRound(b, 10, Block(0xc94c1530, 0x11a2aa6a, 0x11a25cca), Block(0xfb334dbe, 0x1d671a31, 0xafd9d683));
    OneMoreRound(b, 11, Block(0xfb334dbe, 0x1d671a31, 0xafd9d683), Block(0x471c9f20, 0xfe79068d, 0x4e11503c));
    OneMoreRound(b, 12, Block(0x471c9f20, 0xfe79068d, 0x4e11503c), Block(0xd3e5946c, 0xf75d37c2, 0xec48c9f5));
    OneMoreRound(b, 13, Block(0xd3e5946c, 0xf75d37c2, 0xec48c9f5), Block(0x716e9706, 0xffb11633, 0x8a8043ae));
    OneMoreRound(b, 14, Block(0x716e9706, 0xffb11633, 0x8a8043ae), Block(0xdb83e309, 0xa251f018, 0x28b7bd67));
    OneMoreRound(b, 15, Block(0xdb83e309, 0xa251f018, 0x28b7bd67), Block(0xd61d9875, 0x91cf3539, 0xc6ef3720));
  }

  lemma AckWords()
    ensures Head(TYPE_ACK, 0x29, 0xbeef) == 0xbeef2903
    ensures Word(0x75, 0x98, 0x1d, 0xd6) == 0xd61d9875 && Word(0x39, 0x35, 0xcf, 0x91) == 0x91cf3539
  {
  }

  lemma GoldenAck()
    ensures Wire(KeyOf(KEY_BYTES), Message(SRC, TYPE_ACK, 0x29, 0xbeef, 0x00000000))
         == SRC + [0x01, 0x75, 0x98, 0x1d, 0xd6, 0x39, 0x35, 0xcf, 0x91]
  {
    hide Encipher, Iterate, Word, ByteAt, Bytes, Head, KeyOf;
    GoldenKey();
    AckFirstHalf();
    AckSecondHalf();
    TwoHalves(Block(0xbeef2903, 0x00000000, 0x00000000), Block(0x7f423cb6, 0x9b5e0287, 0xe3779b90),
              Block(0xd61d9875, 0x91cf3539, 0xc6ef3720));
    AckWords();
    BytesOfWord(0x75, 0x98, 0x1d, 0xd6);
    BytesOfWord(0x39, 0x35, 0xcf, 0x91);
  }
}
