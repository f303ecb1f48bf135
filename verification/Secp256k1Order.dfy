/** The order N of the group is prime, with a certificate like that of Secp256k1Prime. */
module Secp256k1Order {
  import opened NumberTheory
  import opened Params
  import opened Primality

  lemma Prime2()
    ensures Prime(2)
  {
    PrimeByTrial(2, 1);
  }

  lemma Prime3()
    ensures Prime(3)
  {
    PrimeByTrial(3, 1);
  }

  lemma Prime7()
    ensures Prime(7)
  {
    forall d | 2 <= d <= 2
      ensures 7 % d != 0
    {
      assert d == 2;
    }
    PrimeByTrial(7, 2);
  }

  lemma Prime19()
    ensures Prime(19)
  {
    forall d | 2 <= d <= 4
      ensures 19 % d != 0
    {
      assert d == 2 || d == 3 || d == 4;
    }
    PrimeByTrial(19, 4);
  }

  lemma Prime41()
    ensures Prime(41)
  {
    forall d | 2 <= d <= 6
      ensures 41 % d != 0
    {
      assert d == 2 || d == 3 || d == 4 || d == 5 || d == 6;
    }
    PrimeByTrial(41, 6);
  }

  lemma Prime113()
    ensures Prime(113)
  {
    forall d | 2 <= d <= 10
      ensures 113 % d != 0
    {
      assert d == 2 || d == 3 || d == 4 || d == 5 || d == 6 || d == 7 || d == 8 || d == 9 || d == 10;
    }
    PrimeByTrial(113, 10);
  }

  lemma Prime1409()
    ensures Prime(1409)
  {
    forall d | 2 <= d <= 37
      ensures 1409 % d != 0
    {
      assert d == 2 || d == 3 || d == 4 || d == 5 || d == 6 || d == 7 || d == 8 || d == 9 || d == 10 || d == 11 || d == 12 || d == 13 || d == 14 || d == 15 || d == 16 || d == 17 || d == 18 || d == 19 || d == 20 || d == 21 || d == 22 || d == 23 || d == 24 || d == 25 || d == 26 || d == 27 || d == 28 || d == 29 || d == 30 || d == 31 || d == 32 || d == 33 || d == 34 || d == 35 || d == 36 || d == 37;
    }
    PrimeByTrial(1409, 37);
  }

  lemma Prime1871()
    ensures Prime(1871)
  {
    forall d | 2 <= d <= 43
      ensures 1871 % d != 0
    {
      assert d == 2 || d == 3 || d == 4 || d == 5 || d == 6 || d == 7 || d == 8 || d == 9 || d == 10 || d == 11 || d == 12 || d == 13 || d == 14 || d == 15 || d == 16 || d == 17 || d == 18 || d == 19 || d == 20 || d == 21 || d == 22 || d == 23 || d == 24 || d == 25 || d == 26 || d == 27 || d == 28 || d == 29 || d == 30 || d == 31 || d == 32 || d == 33 || d == 34 || d == 35 || d == 36 || d == 37 || d == 38 || d == 39 || d == 40 || d == 41 || d == 42 || d == 43;
    }
    PrimeByTrial(1871, 43);
  }

  lemma Prime1627771()
    ensures Prime(1627771)
  {
    hide Pow;
    Prime1871();
    PowZero(0xde5cc, 0x18d67b);
    FourSteps(0xde5cc, 0x18d67b, 0, 1, false, 1, true, 0xde5cc, true, 0x43fdd, true, 0x11385b, 7);
    FourSteps(0xde5cc, 0x18d67b, 7, 0x11385b, false, 0x141678, true, 0x2f49f, false, 0xd88e9, false, 0x154b2c, 0x74);
    FourSteps(0xde5cc, 0x18d67b, 0x74, 0x154b2c, true, 0x596d5, true, 0x1276eb, true, 0x7cbf9, true, 1, 0x74f);
    PrimeByOneFactor(0x18d67b, 0x74f, 0xde5cc, 0x8ff8f);
  }

  lemma Prime28181()
    ensures Prime(28181)
  {
    hide Pow;
    Prime1409();
    PowZero(0x16f7, 0x6e15);
    FourSteps(0x16f7, 0x6e15, 0, 1, false, 1, true, 0x16f7, false, 0x31bf, true, 0x4acd, 5);
    FourSteps(0x16f7, 0x6e15, 5, 0x4acd, true, 0x516e, false, 0x1258, false, 0x3a1a, false, 0x3ab2, 0x58);
    FourSteps(0x16f7, 0x6e15, 0x58, 0x3ab2, false, 0x589d, false, 0x5e65, false, 0x2214, true, 1, 0x581);
    PrimeByOneFactor(0x6e15, 0x581, 0x16f7, 0x3f48);
  }

  lemma Prime9349()
    ensures Prime(9349)
  {
    hide Pow;
    Prime41();
    PowZero(0x7cb, 0x2485);
    FourSteps(0x7cb, 0x2485, 0, 1, false, 1, false, 1, true, 0x7cb, false, 0x1a2c, 2);
    FourSteps(0x7cb, 0x2485, 2, 0x1a2c, true, 0x742, false, 0x94f, false, 0xf06, true, 1, 0x29);
    Prime19();
    PowZero(0x1147, 0x2485);
    FourSteps(0x1147, 0x2485, 0, 1, false, 1, false, 1, false, 1, true, 0x1147, 1);
    FourSteps(0x1147, 0x2485, 1, 0x1147, false, 0x12d5, false, 0x1ab, true, 0x1690, true, 1, 0x13);
    Prime3();
    PowZero(0xfb4, 0x2485);
    FourSteps(0xfb4, 0x2485, 0, 1, false, 1, false, 1, true, 0xfb4, true, 1, 3);
    PrimeByThreeFactors(0x2485, 0x29, 0x7cb, 0x1cfe, 0x13, 0x1147, 0x5a4, 3, 0xfb4, 0x131c);
  }

  lemma PrimeOfQ4()
    ensures Prime(0x4530140875)
  {
    hide Pow;
    Prime1627771();
    PowZero(0x1a951d9805, 0x4530140875);
    FourSteps(0x1a951d9805, 0x4530140875, 0, 1, false, 1, false, 1, false, 1, true, 0x1a951d9805, 1);
    FourSteps(0x1a951d9805, 0x4530140875, 1, 0x1a951d9805, true, 0x1a5a190b95, false, 0x18a093c2ac, false, 0x3ed1f3646, false, 0x3ee384b57c, 0x18);
    FourSteps(0x1a951d9805, 0x4530140875, 0x18, 0x3ee384b57c, true, 0x442ac26d2e, true, 0x1c26aa2163, false, 0x16681c64b9, true, 0xd6126bdca, 0x18d);
    FourSteps(0x1a951d9805, 0x4530140875, 0x18d, 0xd6126bdca, false, 0x238a6f15ae, true, 0x187a5b6e35, true, 0x1aa1f63296, false, 0x3d3c9aa3d, 0x18d6);
    FourSteps(0x1a951d9805, 0x4530140875, 0x18d6, 0x3d3c9aa3d, false, 0x3df5aec0d2, true, 0x14114af479, true, 0x5291c51fe, true, 0x14317a68ed, 0x18d67);
    FourSteps(0x1a951d9805, 0x4530140875, 0x18d67, 0x14317a68ed, true, 0x1f839495a2, false, 0xcf9dde3b7, true, 0xca1b43d17, true, 1, 0x18d67b);
    PrimeByOneFactor(0x4530140875, 0x18d67b, 0x1a951d9805, 0xa48b1bca0);
  }

  lemma Prime545358713()
    ensures Prime(545358713)
  {
    hide Pow;
    Prime28181();
    PowZero(0x1909c92e, 0x20818379);
    FourSteps(0x1909c92e, 0x20818379, 0, 1, false, 1, true, 0x1909c92e, true, 0x1037804a, false, 0xdabd2c6, 6);
    FourSteps(0x1909c92e, 0x20818379, 6, 0xdabd2c6, true, 0x1e2787bf, true, 0x3572a66, true, 0x45a4dab, false, 0x81e98a1, 0x6e);
    FourSteps(0x1909c92e, 0x20818379, 0x6e, 0x81e98a1, false, 0x1eedd718, false, 0x9f80fc1, false, 0xb4c05be, true, 0x29328cc, 0x6e1);
    FourSteps(0x1909c92e, 0x20818379, 0x6e1, 0x29328cc, false, 0x6ae0b3a, true, 0x53dd3f6, false, 0x13600956, true, 1, 0x6e15);
    PrimeByOneFactor(0x20818379, 0x6e15, 0x1909c92e, 0x995918d);
  }

  lemma PrimeOfQ3()
    ensures Prime(0x5ddb9f12ef6348a3e23ba5e3)
  {
    hide Pow;
    PrimeOfQ4();
    PowZero(0x33e68e5c0f4c9f74cf1864bb, 0x5ddb9f12ef6348a3e23ba5e3);
    FourSteps(0x33e68e5c0f4c9f74cf1864bb, 0x5ddb9f12ef6348a3e23ba5e3, 0, 1, false, 1, true, 0x33e68e5c0f4c9f74cf1864bb, false, 0x2d1d71a287c764d605197f73, false, 0x474b4a42be2922d01dcf05dc, 4);
    FourSteps(0x33e68e5c0f4c9f74cf1864bb, 0x5ddb9f12ef6348a3e23ba5e3, 4, 0x474b4a42be2922d01dcf05dc, false, 0xe6d0f35d3abb4d570437b8d, true, 0xecb2f4de023980932152383, false, 0x40be0a3d4b0b2598ca52f1ce, true, 0x287636d73863fb3f6a6756e9, 0x45);
    FourSteps(0x33e68e5c0f4c9f74cf1864bb, 0x5ddb9f12ef6348a3e23ba5e3, 0x45, 0x287636d73863fb3f6a6756e9, false, 0x1b53773ce76100f27fe02330, false, 0x5491da05ea87867faaf2431e, true, 0x50cb75cd329f47cdcc475f, true, 0x43d08ead5342c0f7a07b4d52, 0x453);
    FourSteps(0x33e68e5c0f4c9f74cf1864bb, 0x5ddb9f12ef6348a3e23ba5e3, 0x453, 0x43d08ead5342c0f7a07b4d52, false, 0x352e96245c9c17d43d878fce, false, 0x38b2c8601d8b8e3ead3b2c05, false, 0x8397a174c96aa87dece6a16, false, 0x4aa0d90fb42c316d65de5655, 0x4530);
    FourSteps(0x33e68e5c0f4c9f74cf1864bb, 0x5ddb9f12ef6348a3e23ba5e3, 0x4530, 0x4aa0d90fb42c316d65de5655, false, 0x37d9ef9ce7858e4dd029650a, false, 0x17f7beab52a27a1ba4548de2, false, 0x3a338b08f3a5e3f59127f79c, true, 0x323d1376af0f1f13064ebe50, 0x45301);
    FourSteps(0x33e68e5c0f4c9f74cf1864bb, 0x5ddb9f12ef6348a3e23ba5e3, 0x45301, 0x323d1376af0f1f13064ebe50, false, 0x278c33e37d505cb1477338e7, true, 0x4edf6ff0795f62c3fdded369, false, 0x424402aa7c3c7b6a7e2d4919, false, 0x46d33525f55a2185edbdf667, 0x453014);
    FourSteps(0x33e68e5c0f4c9f74cf1864bb, 0x5ddb9f12ef6348a3e23ba5e3, 0x453014, 0x46d33525f55a2185edbdf667, false, 0x3ecb212dfcbb7219b763cea8, false, 0x8236f8108e62ee467578611, false, 0x55892d6a4f2f50e9104a8c7f, false, 0x44de710a6d4245e766d547c2, 0x4530140);
    FourSteps(0x33e68e5c0f4c9f74cf1864bb, 0x5ddb9f12ef6348a3e23ba5e3, 0x4530140, 0x44de710a6d4245e766d547c2, true, 0x21b5098b575b1660ba11ac53, false, 0x1e2755b7a5f64483ddfb832d, false, 0x429e0139947659d9cb85418e, false, 0x10a8c96096fa17a2526e952b, 0x45301408);
    FourSteps(0x33e68e5c0f4c9f74cf1864bb, 0x5ddb9f12ef6348a3e23ba5e3, 0x45301408, 0x10a8c96096fa17a2526e952b, false, 0x54dd4aaa3b78b157c632f2eb, true, 0x360fcea3ff5b7af01265c9a0, true, 0x1f145cc9af6334d146ff90fe, true, 0x31b5b059cdebe88cec9dea59, 0x453014087);
    FourSteps(0x33e68e5c0f4c9f74cf1864bb, 0x5ddb9f12ef6348a3e23ba5e3, 0x453014087, 0x31b5b059cdebe88cec9dea59, false, 0x2bca4a08a8f94656eae64f1d, true, 0x565a54f5c02fe16ede46a152, false, 0x2c0d411dda3cb351ce1ccdcb, true, 1, 0x4530140875);
    Prime545358713();
    PowZero(0x5010e22e6820a9a776987fc, 0x5ddb9f12ef6348a3e23ba5e3);
    FourSteps(0x5010e22e6820a9a776987fc, 0x5ddb9f12ef6348a3e23ba5e3, 0, 1, false, 1, false, 1, true, 0x5010e22e6820a9a776987fc, false, 0xbc7cc67762f7fad65b3a8f3, 2);
    FourSteps(0x5010e22e6820a9a776987fc, 0x5ddb9f12ef6348a3e23ba5e3, 2, 0xbc7cc67762f7fad65b3a8f3, false, 0x55fd557502d8fae0105b29ae, false, 0x79e9caafcb27127ed257504, false, 0x36d445de6ab14b820e863593, false, 0x26a9fa42e9a81635f0b1737e, 0x20);
    FourSteps(0x5010e22e6820a9a776987fc, 0x5ddb9f12ef6348a3e23ba5e3, 0x20, 0x26a9fa42e9a81635f0b1737e, true, 0x58ba15475c487c0889740110, false, 0x5c0d7d94baa86963641e6dc2, false, 0x505458e18ecea3277ee75fc, false, 0x4d2699d554300fef65fccd99, 0x208);
    FourSteps(0x5010e22e6820a9a776987fc, 0x5ddb9f12ef6348a3e23ba5e3, 0x208, 0x4d2699d554300fef65fccd99, false, 0x156e795eb2026dd4c360a838, false, 0x308cb6a2e15bf4d603955423, false, 0x51b33535bb7ca7feb76b3bd, true, 0x16d79fd8fea619c3227eaa77, 0x2081);
    FourSteps(0x5010e22e6820a9a776987fc, 0x5ddb9f12ef6348a3e23ba5e3, 0x2081, 0x16d79fd8fea619c3227eaa77, true, 0x1d6751339535722426072d3a, false, 0x25b53b7a8956da2a0155df68, false, 0x1c55776eb68a12ac3ea3fcbc, false, 0x4b3f7cc73eed40375c10fb3e, 0x20818);
    FourSteps(0x5010e22e6820a9a776987fc, 0x5ddb9f12ef6348a3e23ba5e3, 0x20818, 0x4b3f7cc73eed40375c10fb3e, false, 0x35aa9d7f00c6dfb96e328894, false, 0x45836a12410cfa040410f2e8, true, 0x19d335b145610c6bd5187fe5, true, 0x49440f5f06209abacd123467, 0x208183);
    FourSteps(0x5010e22e6820a9a776987fc, 0x5ddb9f12ef6348a3e23ba5e3, 0x208183, 0x49440f5f06209abacd123467, false, 0x588885c5df7e9533edc3a66a, true, 0x54f768f8d78b7d88dee9dd3, true, 0x37597164f06908a17ebcd8e1, true, 0x3db14dcf8804484a6a31c39d, 0x2081837);
    FourSteps(0x5010e22e6820a9a776987fc, 0x5ddb9f12ef6348a3e23ba5e3, 0x2081837, 0x3db14dcf8804484a6a31c39d, true, 0x2536746120f5091350ec93cf, false, 0x550378e205d3ede4e8f28a9d, false, 0x4e1dcd1645544e758bbac0d1, true, 1, 0x20818379);
    Prime2();
    PowZero(0x5ddb9f12ef6348a3e23ba5e2, 0x5ddb9f12ef6348a3e23ba5e3);
    FourSteps(0x5ddb9f12ef6348a3e23ba5e2, 0x5ddb9f12ef6348a3e23ba5e3, 0, 1, false, 1, false, 1, true, 0x5ddb9f12ef6348a3e23ba5e2, false, 1, 2);
    PrimeByThreeFactors(0x5ddb9f12ef6348a3e23ba5e3, 0x4530140875, 0x33e68e5c0f4c9f74cf1864bb, 0x19772c4448ea2e06c03560dd, 0x20818379, 0x5010e22e6820a9a776987fc, 0x1f290afd90303f0ce9efa9ef, 2, 0x5ddb9f12ef6348a3e23ba5e2, 0x2eedcf8977b1a451f11dd2f1);
  }

  lemma Prime44706919()
    ensures Prime(44706919)
  {
    hide Pow;
    Prime9349();
    PowZero(0x17a51a5, 0x2aa2c67);
    FourSteps(0x17a51a5, 0x2aa2c67, 0, 1, false, 1, false, 1, true, 0x17a51a5, false, 0x864c4b, 2);
    FourSteps(0x17a51a5, 0x2aa2c67, 2, 0x864c4b, false, 0x23713c0, true, 0x3d41b7, false, 0x9cd452, false, 0x1c4044a, 0x24);
    FourSteps(0x17a51a5, 0x2aa2c67, 0x24, 0x1c4044a, true, 0x2a74b95, false, 0x2404867, false, 0x11fb3b1, false, 0x1b6920, 0x248);
    FourSteps(0x17a51a5, 0x2aa2c67, 0x248, 0x1b6920, false, 0x51b66d, true, 0x1edebc8, false, 0x1493ad2, true, 1, 0x2485);
    PrimeByOneFactor(0x2aa2c67, 0x2485, 0x17a51a5, 0x22308de);
  }

  lemma Prime120233()
    ensures Prime(120233)
  {
    hide Pow;
    Prime113();
    PowZero(0x8090, 0x1d5a9);
    FourSteps(0x8090, 0x1d5a9, 0, 1, false, 1, true, 0x8090, true, 0x17c65, true, 0x16a0c, 7);
    FourSteps(0x8090, 0x1d5a9, 7, 0x16a0c, false, 0x8f61, false, 0xb4b4, false, 0x13b1a, true, 1, 0x71);
    Prime19();
    PowZero(0x129b9, 0x1d5a9);
    FourSteps(0x129b9, 0x1d5a9, 0, 1, false, 1, false, 1, false, 1, true, 0x129b9, 1);
    FourSteps(0x129b9, 0x1d5a9, 1, 0x129b9, false, 0x16ee7, false, 0xfcd1, true, 0xf0c7, true, 1, 0x13);
    Prime7();
    PowZero(0xa0cb, 0x1d5a9);
    FourSteps(0xa0cb, 0x1d5a9, 0, 1, false, 1, true, 0xa0cb, true, 0xb7bb, true, 1, 7);
    PrimeByThreeFactors(0x1d5a9, 0x71, 0x8090, 0x1cee9, 0x13, 0x129b9, 0x147d3, 7, 0xa0cb, 0x9671);
  }

  lemma PrimeOfQ2()
    ensures Prime(0x978c6f353c3889a79)
  {
    hide Pow;
    Prime44706919();
    PowZero(0x3c02f880550dc7bc9, 0x978c6f353c3889a79);
    FourSteps(0x3c02f880550dc7bc9, 0x978c6f353c3889a79, 0, 1, false, 1, false, 1, true, 0x3c02f880550dc7bc9, false, 0x86980d98ea45b09d6, 2);
    FourSteps(0x3c02f880550dc7bc9, 0x978c6f353c3889a79, 2, 0x86980d98ea45b09d6, true, 0x54367543f0823b75e, false, 0x34f4f16a8462aee06, true, 0x4f3837e2b6b65a8d3, false, 0x94ab8bebe031a6a14, 0x2a);
    FourSteps(0x3c02f880550dc7bc9, 0x978c6f353c3889a79, 0x2a, 0x94ab8bebe031a6a14, true, 0xe2e825c84bd7a66, false, 0x4c17e141d90a81b74, true, 0x584841b72f168e3ab, false, 0x472400c2e42910686, 0x2aa);
    FourSteps(0x3c02f880550dc7bc9, 0x978c6f353c3889a79, 0x2aa, 0x472400c2e42910686, false, 0x7542457f87d9c5179, false, 0x499e92a7c9e5457dd, true, 0x4d8aa8fe369090bcc, false, 0x316077267b2bf90f6, 0x2aa2);
    FourSteps(0x3c02f880550dc7bc9, 0x978c6f353c3889a79, 0x2aa2, 0x316077267b2bf90f6, true, 0x8d525ddc6416f4629, true, 0x2945b9db4355d788a, false, 0x1f703780a29adaabf, false, 0x2d8ac69e1d6428a02, 0x2aa2c);
    FourSteps(0x3c02f880550dc7bc9, 0x978c6f353c3889a79, 0x2aa2c, 0x2d8ac69e1d6428a02, false, 0x24aca073baf24c60d, true, 0x947683027a543ea77, true, 0x4b24886a953fabcd9, false, 0x31568cb92fd7501c4, 0x2aa2c6);
    FourSteps(0x3c02f880550dc7bc9, 0x978c6f353c3889a79, 0x2aa2c6, 0x31568cb92fd7501c4, false, 0x36d9d3dd53504a781, true, 0x8b8de6e302e0c89b5, true, 0x4a4bbddd70de4a5ea, true, 1, 0x2aa2c67);
    Prime120233();
    PowZero(0x54d08d619496f1ee4, 0x978c6f353c3889a79);
    FourSteps(0x54d08d619496f1ee4, 0x978c6f353c3889a79, 0, 1, false, 1, false, 1, false, 1, true, 0x54d08d619496f1ee4, 1);
    FourSteps(0x54d08d619496f1ee4, 0x978c6f353c3889a79, 1, 0x54d08d619496f1ee4, true, 0x17a2dec498bf7a5e5, true, 0x11588671774501040, false, 0x8b6112293700c9fc5, true, 0x8ec405612801973cf, 0x1d);
    FourSteps(0x54d08d619496f1ee4, 0x978c6f353c3889a79, 0x1d, 0x8ec405612801973cf, false, 0xb2a8b371f2cb4f7c, true, 0x2a2819674eb56a204, false, 0x7b7a1f3a06f1da43c, true, 0x421f6024d7ef3a557, 0x1d5);
    FourSteps(0x54d08d619496f1ee4, 0x978c6f353c3889a79, 0x1d5, 0x421f6024d7ef3a557, true, 0x93ce6d555fe244b62, false, 0x244b038697b3dfd38, true, 0x1dde210aa64b3fb03, false, 0x6fd54b4abec88c572, 0x1d5a);
    FourSteps(0x54d08d619496f1ee4, 0x978c6f353c3889a79, 0x1d5a, 0x6fd54b4abec88c572, true, 0x60a487bd3bde1bb39, false, 0x4e32e84bc04f263f5, false, 0x2dde575cd75d26a60, true, 1, 0x1d5a9);
    Prime2();
    PowZero(0x978c6f353c3889a78, 0x978c6f353c3889a79);
    FourSteps(0x978c6f353c3889a78, 0x978c6f353c3889a79, 0, 1, false, 1, false, 1, true, 0x978c6f353c3889a78, false, 1, 2);
    PrimeByThreeFactors(0x978c6f353c3889a79, 0x2aa2c67, 0x3c02f880550dc7bc9, 0x549464bf5eeee8eea, 0x1d5a9, 0x54d08d619496f1ee4, 0xc63ad50804f2104e, 2, 0x978c6f353c3889a78, 0x4bc6379a9e1c44d3c);
  }

  lemma PrimeOfQ1()
    ensures Prime(0x10dbff26eab8198050172ee03275)
  {
    hide Pow;
    PrimeOfQ3();
    PowZero(0xe62d151a1de8c23e34c03a81887, 0x10dbff26eab8198050172ee03275);
    FourSteps(0xe62d151a1de8c23e34c03a81887, 0x10dbff26eab8198050172ee03275, 0, 1, false, 1, true, 0xe62d151a1de8c23e34c03a81887, false, 0xc7dfd485a518fa187eb6039217b, true, 0xac25b5b2591b377698a687165ba, 5);
    FourSteps(0xe62d151a1de8c23e34c03a81887, 0x10dbff26eab8198050172ee03275, 5, 0xac25b5b2591b377698a687165ba, true, 0x85ade7a411545e2f010763aa27b, true, 0xa92d9a4a71ea4ba33bf800ec2a4, false, 0xdc3662278beb7cb3725c18889f2, true, 0xdd5c8556a990fec7a5316a4cc9c, 0x5d);
    FourSteps(0xe62d151a1de8c23e34c03a81887, 0x10dbff26eab8198050172ee03275, 0x5d, 0xdd5c8556a990fec7a5316a4cc9c, true, 0x279519bc955807b2978c8881cd6, true, 0x9a2ca38c92cd3242b991aa17ed6, false, 0xccc8828c05d48b20b54b98042, true, 0xd2a29964005c465bb42ac94e9f5, 0x5dd);
    FourSteps(0xe62d151a1de8c23e34c03a81887, 0x10dbff26eab8198050172ee03275, 0x5dd, 0xd2a29964005c465bb42ac94e9f5, true, 0x79d49797661585ddbaa265eb076, false, 0x7ed3d378fae620cd95f639aaa86, true, 0x9d3e0147e3b0155ea3e55763399, true, 0x7638c7db7ff9a42a7d8067e77ef, 0x5ddb);
    FourSteps(0xe62d151a1de8c23e34c03a81887, 0x10dbff26eab8198050172ee03275, 0x5ddb, 0x7638c7db7ff9a42a7d8067e77ef, true, 0xfde3d07611b5c9fdfa0e1bc6199, false, 0xeae82fab3b9f8ac1e964bdd6d41, false, 0x8893c2ae63f86a82dfef4397b28, true, 0x7d67f7ca3b5268397fdd52e93a3, 0x5ddb9);
    FourSteps(0xe62d151a1de8c23e34c03a81887, 0x10dbff26eab8198050172ee03275, 0x5ddb9, 0x7d67f7ca3b5268397fdd52e93a3, true, 0x3aa24335d40d5d2b12deac7397f, true, 0xefcd1a224dad0aa0226c1e2b56a, true, 0x2efd3a5c795c6b739399b55ac6d, true, 0xfd0a221121585f3246bb2a79168, 0x5ddb9f);
    FourSteps(0xe62d151a1de8c23e34c03a81887, 0x10dbff26eab8198050172ee03275, 0x5ddb9f, 0xfd0a221121585f3246bb2a79168, false, 0x10ffef5475b772313fea149123, false, 0x2d08a81b612d8e3c26cc8adbe87, false, 0xa4e03059d0077c56943deb6941b, true, 0x738b358b2f2cdc497f892366759, 0x5ddb9f1);
    FourSteps(0xe62d151a1de8c23e34c03a81887, 0x10dbff26eab8198050172ee03275, 0x5ddb9f1, 0x738b358b2f2cdc497f892366759, false, 0xba327a8e7569574cf9c4fb957ac, false, 0x5f6142d55bec77c842a03984d54, true, 0xa231349ba5b84f5237e6c6dfdd8, false, 0xd34505af9fbf14dd62f935a71e7, 0x5ddb9f12);
    FourSteps(0xe62d151a1de8c23e34c03a81887, 0x10dbff26eab8198050172ee03275, 0x5ddb9f12, 0xd34505af9fbf14dd62f935a71e7, true, 0xb8c906c632086badd6014c227dc, true, 0x5995af30362a1ee60837588c614, true, 0x53173c40846c54fc92b98badb1e, false, 0x6f961216f941ef675f5bc558652, 0x5ddb9f12e);
    FourSteps(0xe62d151a1de8c23e34c03a81887, 0x10dbff26eab8198050172ee03275, 0x5ddb9f12e, 0x6f961216f941ef675f5bc558652, true, 0xb222cadbf9f0dbaedb3be8175c9, true, 0x10275909fbf42a7869a7fedf3572, true, 0x9d7ca8abd237b944f51badffe25, true, 0x9798ed866bbb42b0bfa1b2cb4f6, 0x5ddb9f12ef);
    FourSteps(0xe62d151a1de8c23e34c03a81887, 0x10dbff26eab8198050172ee03275, 0x5ddb9f12ef, 0x9798ed866bbb42b0bfa1b2cb4f6, false, 0xb05620a31885ea4877b28c2d7b2, true, 0xc28a92082245ab2a9333c1617e, true, 0x14e5861195ac99bba501d0eab9d, false, 0xefbc108641c489cbcca66448f24, 0x5ddb9f12ef6);
    FourSteps(0xe62d151a1de8c23e34c03a81887, 0x10dbff26eab8198050172ee03275, 0x5ddb9f12ef6, 0xefbc108641c489cbcca66448f24, false, 0x9b6491391983078444ca09ad0d, false, 0xf4ab8a899cf8e70b8cf096048fd, true, 0xb2c8267280a336e8e46a3ca8608, true, 0x87cdbf41f307bd8b9a531051e5a, 0x5ddb9f12ef63);
    FourSteps(0xe62d151a1de8c23e34c03a81887, 0x10dbff26eab8198050172ee03275, 0x5ddb9f12ef63, 0x87cdbf41f307bd8b9a531051e5a, false, 0xe10ea47452fbe70e8d6c6ac951c, true, 0x94bd4e7ec84ce8514c4a1cb8e51, false, 0x5400f7dae5c1e7d3233f62ebd03, false, 0x78d8395d2ebad29ce0f22a560e0, 0x5ddb9f12ef634);
    FourSteps(0xe62d151a1de8c23e34c03a81887, 0x10dbff26eab8198050172ee03275, 0x5ddb9f12ef634, 0x78d8395d2ebad29ce0f22a560e0, true, 0x9261cb25289721a12543634a3e8, false, 0xd60ca4c8dc6c37031a0e888a9e2, false, 0x1d87576314a1a46bd94271840f1, false, 0xe9667f8d39af9913be6832003e0, 0x5ddb9f12ef6348);
    FourSteps(0xe62d151a1de8c23e34c03a81887, 0x10dbff26eab8198050172ee03275, 0x5ddb9f12ef6348, 0xe9667f8d39af9913be6832003e0, true, 0x5bbb06950c1b944b01835a42749, false, 0xbf9491ad28b1499f8f3ae3618ec, true, 0x34d084715d6769c84fcbc6a1e2b, false, 0x94c45a48c9127515f67efc68215, 0x5ddb9f12ef6348a);
    FourSteps(0xe62d151a1de8c23e34c03a81887, 0x10dbff26eab8198050172ee03275, 0x5ddb9f12ef6348a, 0x94c45a48c9127515f67efc68215, false, 0xd7d550e3de844cab2cbee1c6a7e, false, 0x10224b47869474e997a6ff9fa000, true, 0xaac354044d77c36589cb739a01a, true, 0xb6d7675b5266dee83386e2f978b, 0x5ddb9f12ef6348a3);
    FourSteps(0xe62d151a1de8c23e34c03a81887, 0x10dbff26eab8198050172ee03275, 0x5ddb9f12ef6348a3, 0xb6d7675b5266dee83386e2f978b, true, 0x5c203b1377282b737877de994de, true, 0xc10afe51af238e6e531f210a9ee, true, 0x249eb53b8b0cfada9cda6389bd4, false, 0x292ba8bd4a112bf5ef74b4b5550, 0x5ddb9f12ef6348a3e);
    FourSteps(0xe62d151a1de8c23e34c03a81887, 0x10dbff26eab8198050172ee03275, 0x5ddb9f12ef6348a3e, 0x292ba8bd4a112bf5ef74b4b5550, false, 0x68a4b83b9c55c8f3dcdfee3d56a, false, 0x6428eed3a0b5effe86a3dd1fa85, true, 0xdf0b4019e84f9fb76e2dde8df56, false, 0xdcac335adddba1038f8c552c676, 0x5ddb9f12ef6348a3e2);
    FourSteps(0xe62d151a1de8c23e34c03a81887, 0x10dbff26eab8198050172ee03275, 0x5ddb9f12ef6348a3e2, 0xdcac335adddba1038f8c552c676, false, 0xdc59350982c6b52416901fd9e01, false, 0xc23bd477a299dd74fb725032bc6, true, 0x6102226dee229d5616c30475489, true, 0x336b0093f1ebc15879a4229cd06, 0x5ddb9f12ef6348a3e23);
    FourSteps(0xe62d151a1de8c23e34c03a81887, 0x10dbff26eab8198050172ee03275, 0x5ddb9f12ef6348a3e23, 0x336b0093f1ebc15879a4229cd06, true, 0xe2896ea61eaf52a574084dc142a, false, 0xaa98578fe361781eb9fa28fff5d, true, 0x85644767ba60caefacaab6dd0da, true, 0x10a1cb1d1965b1426bdd0191fe6f, 0x5ddb9f12ef6348a3e23b);
    FourSteps(0xe62d151a1de8c23e34c03a81887, 0x10dbff26eab8198050172ee03275, 0x5ddb9f12ef6348a3e23b, 0x10a1cb1d1965b1426bdd0191fe6f, true, 0x91fbe8ec45cacd68de7c6cf895f, false, 0x10a42f5c3d985fa906e55f78c7cd, true, 0xfd9a868d218727f56fa8afbe530, false, 0x27ca5bd5147aa954b35bee208b8, 0x5ddb9f12ef6348a3e23ba);
    FourSteps(0xe62d151a1de8c23e34c03a81887, 0x10dbff26eab8198050172ee03275, 0x5ddb9f12ef6348a3e23ba, 0x27ca5bd5147aa954b35bee208b8, false, 0x102222d5ad77bacefe1f00baadb6, true, 0xe58ef3fd67e6fe641b5fd7a79cf, false, 0x106b4e18bbd4c722c3de897f33f5, true, 0x56f5650aca65b98a936eba97248, 0x5ddb9f12ef6348a3e23ba5);
    FourSteps(0xe62d151a1de8c23e34c03a81887, 0x10dbff26eab8198050172ee03275, 0x5ddb9f12ef6348a3e23ba5, 0x56f5650aca65b98a936eba97248, true, 0x7a45eefd2dbed6167ed85156240, true, 0xea1ee2adcc234352a8e9a9a24ea, true, 0x2c0199cc3e2e0571f154f61a688, false, 0x4fcc9c6c28826d0bfbe987ce9aa, 0x5ddb9f12ef6348a3e23ba5e);
    FourSteps(0xe62d151a1de8c23e34c03a81887, 0x10dbff26eab8198050172ee03275, 0x5ddb9f12ef6348a3e23ba5e, 0x4fcc9c6c28826d0bfbe987ce9aa, false, 0x31157d731dafe93a5c6f477ca6c, false, 0xa9bf4695140258af96aeb217099, true, 0xf8be8a87b3b5923cfb6438b391d, true, 1, 0x5ddb9f12ef6348a3e23ba5e3);
    PrimeByOneFactor(0x10dbff26eab8198050172ee03275, 0x5ddb9f12ef6348a3e23ba5e3, 0xe62d151a1de8c23e34c03a81887, 0xb628645e03e3bc891eeb6c2ac0a);
  }

  lemma PrimeOfN()
    ensures Prime(0xfffffffffffffffffffffffffffffffebaaedce6af48a03bbfd25e8cd0364141)
  {
    hide Pow;
    PrimeOfQ1();
    PowZero(0xbf8ef18068f2b95b4ec1d89e969aaaf80d6a55b047c0187ebebfa98b6a4e7de2, 0xfffffffffffffffffffffffffffffffebaaedce6af48a03bbfd25e8cd0364141);
    FourSteps(0xbf8ef18068f2b95b4ec1d89e969aaaf80d6a55b047c0187ebebfa98b6a4e7de2, 0xfffffffffffffffffffffffffffffffebaaedce6af48a03bbfd25e8cd0364141, 0, 1, false, 1, false, 1, false, 1, true, 0xbf8ef18068f2b95b4ec1d89e969aaaf80d6a55b047c0187ebebfa98b6a4e7de2, 1);
    FourSteps(0xbf8ef18068f2b95b4ec1d89e969aaaf80d6a55b047c0187ebebfa98b6a4e7de2, 0xfffffffffffffffffffffffffffffffebaaedce6af48a03bbfd25e8cd0364141, 1, 0xbf8ef18068f2b95b4ec1d89e969aaaf80d6a55b047c0187ebebfa98b6a4e7de2, false, 0xf6406626a7aaa0da613ceac2c0b47229fbc1b3de31f52ecb7d4a7ac89e505685, false, 0x5f5be6a4c6eda3053f086c765c0bfe6d44d8841319feed0dc6f29e079aefc79d, false, 0xed99786735f5ea13d958df6f69b30478f2e965b4865d8a5085d3ee57d5712505, false, 0x7d5ccead2a66f32e351da78afcc0cb55c2e2b5583b8b7bc4d4e7b4293745ba6d, 0x10);
    FourSteps(0xbf8ef18068f2b95b4ec1d89e969aaaf80d6a55b047c0187ebebfa98b6a4e7de2, 0xfffffffffffffffffffffffffffffffebaaedce6af48a03bbfd25e8cd0364141, 0x10, 0x7d5ccead2a66f32e351da78afcc0cb55c2e2b5583b8b7bc4d4e7b4293745ba6d, true, 0x2cff5fb19ced861cb38bfd7d98860606feaf349048896306c222b2727ac0c4a7, true, 0x5f2e8e6fbd6da80aad6cc82c2f0487b61e6011e67ba2b345d818db0fa8c63664, false, 0xdfd18f673bd0988938f7ca7fc4345d50be17d07eabba2dcb5c3445c29bb77a90, true, 0x84c94dc28fd457e8f9b7f21ce3a64c53172c221a98d3a9e915ccf307bdaabcd5, 0x10d);
    FourSteps(0xbf8ef18068f2b95b4ec1d89e969aaaf80d6a55b047c0187ebebfa98b6a4e7de2, 0xfffffffffffffffffffffffffffffffebaaedce6af48a03bbfd25e8cd0364141, 0x10d, 0x84c94dc28fd457e8f9b7f21ce3a64c53172c221a98d3a9e915ccf307bdaabcd5, true, 0x6fd68dcc47774d5cfb6abf657e90d9a74851b70ba8ef05218fe28f221fe3349, false, 0x4fb799a8e6e2e2ec47ac374fc98e4cfc80f140962d48d4d10d03d364dca9cb57, true, 0x77d190bff0d1acca0e9c41b4962c1564d658a9d1b37e4f0c23e827fab5aebaf9, true, 0xefcf44d64dd40556304f5bd2bfdd167b370a205ddd2c2634587cc7bef39cec03, 0x10db);
    FourSteps(0xbf8ef18068f2b95b4ec1d89e969aaaf80d6a55b047c0187ebebfa98b6a4e7de2, 0xfffffffffffffffffffffffffffffffebaaedce6af48a03bbfd25e8cd0364141, 0x10db, 0xefcf44d64dd40556304f5bd2bfdd167b370a205ddd2c2634587cc7bef39cec03, true, 0x82b6f559a221bbf678c51d83732a99559902ea153ace6b5340c0d50ebf04afc1, true, 0x27439970f4dfa2ed56a81baa0da403a9e31490bbf70a05dececabfb233544d29, true, 0x6aefa62f581f976486ac6d574dc760eba635a3b88e0b175c57713b4d1eeb9d89, true, 0x5a57aefb46b159922118970f4086a2e7716723538dde55a7545e692eaaeb09c7, 0x10dbf);
    FourSteps(0xbf8ef18068f2b95b4ec1d89e969aaaf80d6a55b047c0187ebebfa98b6a4e7de2, 0xfffffffffffffffffffffffffffffffebaaedce6af48a03bbfd25e8cd0364141, 0x10dbf, 0x5a57aefb46b159922118970f4086a2e7716723538dde55a7545e692eaaeb09c7, true, 0x3fc41d418a5d0f54a236d1f26a1c6bce6fa6d7700812f32df0e515ac1e534c32, true, 0x4b8e0fc7d7fe8062116fa36260f673d65c9925c7eb8170b8aae79266a910ba21, true, 0xdf3befcdd64d30a1d97d203665e11475274ca095f43260be11e93f5e4425397f, true, 0xb2ccf905f4bf474e2c310d4e8e52fe9cfb1d4e26932fb9e84361eee515ab50d7, 0x10dbff);
    FourSteps(0xbf8ef18068f2b95b4ec1d89e969aaaf80d6a55b047c0187ebebfa98b6a4e7de2, 0xfffffffffffffffffffffffffffffffebaaedce6af48a03bbfd25e8cd0364141, 0x10dbff, 0xb2ccf905f4bf474e2c310d4e8e52fe9cfb1d4e26932fb9e84361eee515ab50d7, false, 0xe1df80b780e377f451174a4b976b8e8a6f1c77f86a05cf4157ebfef0f66f46fe, false, 0x177576e99b26e876100a02f781a8fd316037ea9bfb41fe0b156bd2d7fe7996d1, true, 0x55052c099dc131df012b8501270bc9d52aba153a1b74e6f9d8ff2473514ec74b, false, 0x2ba7e1d5770d0d60430aa0ae1a32e04aef62802b2b29c75154598c5003d5a937, 0x10dbff2);
    FourSteps(0xbf8ef18068f2b95b4ec1d89e969aaaf80d6a55b047c0187ebebfa98b6a4e7de2, 0xfffffffffffffffffffffffffffffffebaaedce6af48a03bbfd25e8cd0364141, 0x10dbff2, 0x2ba7e1d5770d0d60430aa0ae1a32e04aef62802b2b29c75154598c5003d5a937, false, 0x523b298842121e84e77d5cfa92d5e8d9b0b277476bd5fcf3f33aa30e96b292c5, true, 0xa3decb801757507bdd15ed955caffcee60cd24bbc83d7aa8a4443147d18b86a7, true, 0x4cd82072bfe21cc8c774ecdcb9adbe5cac6c47e0d06876d3d070ad27576d9faa, false, 0x743999da34915cb6df7e3d608916d213e8ea0a3b1e7be595c8e727a2d25c4e3c, 0x10dbff26);
    FourSteps(0xbf8ef18068f2b95b4ec1d89e969aaaf80d6a55b047c0187ebebfa98b6a4e7de2, 0xfffffffffffffffffffffffffffffffebaaedce6af48a03bbfd25e8cd0364141, 0x10dbff26, 0x743999da34915cb6df7e3d608916d213e8ea0a3b1e7be595c8e727a2d25c4e3c, true, 0x70a1b77459f4f29ce17b766a5b241c21db20b79f76f25a0d8edf8251691a129e, true, 0x487dd0de7b1e03b25704c5630ed78bc156abbebd0e77cfcf7e7546bff37636e, true, 0x88ce690e4ab678a6b48f62cc91f979a07095cd93ba9f79648fbe6e41a0d327ee, false, 0x3bd4dc0b00966cda73ed072615aff02b5fc0e6d77772df2946586f64598ae418, 0x10dbff26e);
    FourSteps(0xbf8ef18068f2b95b4ec1d89e969aaaf80d6a55b047c0187ebebfa98b6a4e7de2, 0xfffffffffffffffffffffffffffffffebaaedce6af48a03bbfd25e8cd0364141, 0x10dbff26e, 0x3bd4dc0b00966cda73ed072615aff02b5fc0e6d77772df2946586f64598ae418, true, 0xae3229a57eb9a1f1ea48b5585aaa39a5451bb910ac91e40cbce980b99c30fdf4, false, 0xbbc95cb4948e03a6df34d2c01d03667a769ab4472cdaedbf250f6949fcea2c51, true, 0x483949691f908081c1d3658fa0cba77c1ab1b1ad956dc8cc7c91310b0806cd4b, false, 0xa37350ec8d3a2cd9862dc9ff4c222e0a7ff3f8be3982ff6b635540e82f0c0e06, 0x10dbff26ea);
    FourSteps(0xbf8ef18068f2b95b4ec1d89e969aaaf80d6a55b047c0187ebebfa98b6a4e7de2, 0xfffffffffffffffffffffffffffffffebaaedce6af48a03bbfd25e8cd0364141, 0x10dbff26ea, 0xa37350ec8d3a2cd9862dc9ff4c222e0a7ff3f8be3982ff6b635540e82f0c0e06, true, 0x7440c676b46e8eda54151c8c18bd26a91586d0b4aa25429a116034c123b60cc9, false, 0xdb8a4d062ebb3b0ef6f0086565299d1fc8bc7ee0dc5abd8a7bc466ba14927da7, true, 0x3045ed7086691cbd22dc005d465ca5306fd2cd08616c774b61436cc364647d34, true, 0x635794953d5c6fbb29b3f9d1810a64c7df77b21c5df719a83580de017934e43f, 0x10dbff26eab);
    FourSteps(0xbf8ef18068f2b95b4ec1d89e969aaaf80d6a55b047c0187ebebfa98b6a4e7de2, 0xfffffffffffffffffffffffffffffffebaaedce6af48a03bbfd25e8cd0364141, 0x10dbff26eab, 0x635794953d5c6fbb29b3f9d1810a64c7df77b21c5df719a83580de017934e43f, true, 0xe1cef14b1179385849bc49310eaf1d0fbcd50cc596fadfbdc4d34a9eee9fdcc9, false, 0x986f0c3d8969031eadd7513629be9ba4077dbfce9c6b799a29f32b5301d84b12, false, 0x90ac5849921e0e9eba3ffff5a374696d005302712dccef5c8e331de598f250ee, false, 0x1664ea7b139edacdff76ed064f1be2f4e5046e971fb0c3ca56ff64904825b3f2, 0x10dbff26eab8);
    FourSteps(0xbf8ef18068f2b95b4ec1d89e969aaaf80d6a55b047c0187ebebfa98b6a4e7de2, 0xfffffffffffffffffffffffffffffffebaaedce6af48a03bbfd25e8cd0364141, 0x10dbff26eab8, 0x1664ea7b139edacdff76ed064f1be2f4e5046e971fb0c3ca56ff64904825b3f2, false, 0xb5169b27674355cbb06b4db88455242f0684871f59025140a6e0d2a035e9aeb1, false, 0xb11cf5ec40a06e8c1398d978895ec5eb7ae48a1ba7d6e39527d6dca6794b5ca5, false, 0xd2c26e396902114fb09da26aebe977a3af2d316fb2656ffce7c951b8c65ce194, true, 0xc962f741005981782befccce0f3a5861838b5fc1fe45c7f2203e9e7685fdf5d4, 0x10dbff26eab81);
    FourSteps(0xbf8ef18068f2b95b4ec1d89e969aaaf80d6a55b047c0187ebebfa98b6a4e7de2, 0xfffffffffffffffffffffffffffffffebaaedce6af48a03bbfd25e8cd0364141, 0x10dbff26eab81, 0xc962f741005981782befccce0f3a5861838b5fc1fe45c7f2203e9e7685fdf5d4, true, 0x9ddbea86f39fba4a05d039fc253e0405ee400954ccf75cc0ef308a7751b5146d, false, 0x3b4676caae08d83440313267febc9d4d4e5a3e937c6b5a3cbe4a7992338b2430, false, 0xa03523a33a036ee99fa19ffd513bc0afc22e1bec29919c3573b421c00decaa67, true, 0x3ca53c62f47d302f6a12dceabd6733588a36dd77a5dc451ab2ad3d359b57a4e3, 0x10dbff26eab819);
    FourSteps(0xbf8ef18068f2b95b4ec1d89e969aaaf80d6a55b047c0187ebebfa98b6a4e7de2, 0xfffffffffffffffffffffffffffffffebaaedce6af48a03bbfd25e8cd0364141, 0x10dbff26eab819, 0x3ca53c62f47d302f6a12dceabd6733588a36dd77a5dc451ab2ad3d359b57a4e3, true, 0x6c4fb8f874baa4ff53267be0e4d74d965261d1b1122c953d5ef4eab1025a5e72, false, 0x484d6e42c654c8ee90b40394e87ccfd54e6004d0f4a901e01d32c735187bd53c, false, 0xc6b8b48a8759f59fcc5b0e1df7c389b667d5c4bfbfce76fad1230c5aec5d5364, false, 0xc5d2bf4e644d4e983aa042c09de2e6aeb47f3ca8caf172c72bac3c3ddf4e8e8, 0x10dbff26eab8198);
    FourSteps(0xbf8ef18068f2b95b4ec1d89e969aaaf80d6a55b047c0187ebebfa98b6a4e7de2, 0xfffffffffffffffffffffffffffffffebaaedce6af48a03bbfd25e8cd0364141, 0x10dbff26eab8198, 0xc5d2bf4e644d4e983aa042c09de2e6aeb47f3ca8caf172c72bac3c3ddf4e8e8, false, 0x320045dff473fa026432fc797d9d38690b6cdfb6907a8cee9963b5adb21f5c4e, false, 0xcdc7219dae4318bb8e3df20f73f526a4de9bd6aab58940e52b2c72086082c1eb, false, 0xc41d28df3860ad90f73f2d983d3a6c9c2e4a161d79474402e606d95dc6e5a451, false, 0x4492195a879dcbb960998fa0e83258b3bbc3df6860b9e7053d4f1ba9e150b243, 0x10dbff26eab81980);
    FourSteps(0xbf8ef18068f2b95b4ec1d89e969aaaf80d6a55b047c0187ebebfa98b6a4e7de2, 0xfffffffffffffffffffffffffffffffebaaedce6af48a03bbfd25e8cd0364141, 0x10dbff26eab81980, 0x4492195a879dcbb960998fa0e83258b3bbc3df6860b9e7053d4f1ba9e150b243, false, 0xad51e258ec0946f9eca4d09b670e45af36b9266d86ec6fcb8cdbf41de5f396d5, true, 0xfce4906da4bfab8050970225f40409c4fb57576642c05b74232c4e46414bb682, false, 0x5561c2a334c45ae2d0d098ab5310041c0adec785860688c0d22b48187f7e26a8, true, 0xe930f9ed3d35b59f9a1405513ab97c159489218f4cd458096d185140afe2345c, 0x10dbff26eab819805);
    FourSteps(0xbf8ef18068f2b95b4ec1d89e969aaaf80d6a55b047c0187ebebfa98b6a4e7de2, 0xfffffffffffffffffffffffffffffffebaaedce6af48a03bbfd25e8cd0364141, 0x10dbff26eab819805, 0xe930f9ed3d35b59f9a1405513ab97c159489218f4cd458096d185140afe2345c, false, 0x6daf718da1f1387e671ed8715695c113ccec2c79824eb67023440b91f70a8a74, false, 0xd9c03121ce759a5dadf28faa695af483bad9aea18ab6226ad58f8f3b33a7798e, false, 0x9f4198404524adeaa2a438437dfaf88d16b787309832ca1d65a7ab172bb01379, false, 0x6e5d585e0bf3932b26ceec453a12ac05a610eb374bf77b5b71966a3b3adcfab, 0x10dbff26eab8198050);
    FourSteps(0xbf8ef18068f2b95b4ec1d89e969aaaf80d6a55b047c0187ebebfa98b6a4e7de2, 0xfffffffffffffffffffffffffffffffebaaedce6af48a03bbfd25e8cd0364141, 0x10dbff26eab8198050, 0x6e5d585e0bf3932b26ceec453a12ac05a610eb374bf77b5b71966a3b3adcfab, false, 0x9ab1718a501db9795208261a2395da910a8e066f2580639a7ce6465ec4619540, false, 0x710b2940a35ef0bc46c714a0a4ba7a9f9e5b25bc2b725e459ac8b7abeef6b6a6, false, 0x9d12350619840171b8506f9bc5bade7e125e1ac885fd5475edcfdc7a13d5f177, true, 0xdf0aea03711fb46c5937d5bd5a9642c79d57293ad85ba0c2fd320fe535a8f72f, 0x10dbff26eab81980501);
    FourSteps(0xbf8ef18068f2b95b4ec1d89e969aaaf80d6a55b047c0187ebebfa98b6a4e7de2, 0xfffffffffffffffffffffffffffffffebaaedce6af48a03bbfd25e8cd0364141, 0x10dbff26eab81980501, 0xdf0aea03711fb46c5937d5bd5a9642c79d57293ad85ba0c2fd320fe535a8f72f, false, 0x3a5e6536f708e73a8e20fb40b5220555cbca1366332c083d4f1b2708f3bac9cd, true, 0x14a2d63300013ec07b762f906e7369de7a619473cdcb55fe0d248eeefe4d9353, true, 0xa712d99e6bacf12a08060d94d930cbb652800bd45fdabaa24c622412172e6d6e, true, 0x4d86d62a6c1e38f8224047add714beebf916892a04cba9d54116c184f5cc77b7, 0x10dbff26eab819805017);
    FourSteps(0xbf8ef18068f2b95b4ec1d89e969aaaf80d6a55b047c0187ebebfa98b6a4e7de2, 0xfffffffffffffffffffffffffffffffebaaedce6af48a03bbfd25e8cd0364141, 0x10dbff26eab819805017, 0x4d86d62a6c1e38f8224047add714beebf916892a04cba9d54116c184f5cc77b7, false, 0x4d909c49131b1a6bea28b7e4c59c809b81281a6d1da087c08e992a03b6acc92b, false, 0xdb6f4ee61786961ef2478eaf14327437e86d8d0deb271546563714c95f5027c6, true, 0x9bc6a7f8280d33a3a0c1f305fd4770a97a1cdcff6b81b5027d7edd6e549a642a, false, 0xec8275d3693dcf795d2ced4b0aa14040d4f7a8afdcfcb443147006dd8c4e0bf4, 0x10dbff26eab8198050172);
    FourSteps(0xbf8ef18068f2b95b4ec1d89e969aaaf80d6a55b047c0187ebebfa98b6a4e7de2, 0xfffffffffffffffffffffffffffffffebaaedce6af48a03bbfd25e8cd0364141, 0x10dbff26eab8198050172, 0xec8275d3693dcf795d2ced4b0aa14040d4f7a8afdcfcb443147006dd8c4e0bf4, true, 0x63d8b0e11204adfe165d2faa4b2e351cdf40767a6144d4f5576e7e2ede170173, true, 0x7b5cc9a959b624b9691e91dd7059d2f456bf49fd618a64e05cc04514b4d4cec8, true, 0x9fa09c0545000b39d53b3e27e441ab051711c09f81cafa61bdc4c9adbcb928c2, false, 0xdd3cdf500c1aa8be3ff0a334c47a31d620e309fa0c1f172aaf77eae880c8228c, 0x10dbff26eab8198050172e);
    FourSteps(0xbf8ef18068f2b95b4ec1d89e969aaaf80d6a55b047c0187ebebfa98b6a4e7de2, 0xfffffffffffffffffffffffffffffffebaaedce6af48a03bbfd25e8cd0364141, 0x10dbff26eab8198050172e, 0xdd3cdf500c1aa8be3ff0a334c47a31d620e309fa0c1f172aaf77eae880c8228c, true, 0xce1fef3215e39af2a625d60bddfbffcbc0ccab0e30247fbe35f13dc5719db875, true, 0xf32644fe7d61875f57fad7ff3da3fb8fd2578ba017af4526df61a29928950b91, true, 0x69773f1eed3f1f171461fb2834a62af30d1a750c9fd3f44390239dcb690dd751, false, 0x2ea604d9b2c8a283e867736248023e4f1b49bea506f9ed93b3c3ed753dd5f16b, 0x10dbff26eab8198050172ee);
    FourSteps(0xbf8ef18068f2b95b4ec1d89e969aaaf80d6a55b047c0187ebebfa98b6a4e7de2, 0xfffffffffffffffffffffffffffffffebaaedce6af48a03bbfd25e8cd0364141, 0x10dbff26eab8198050172ee, 0x2ea604d9b2c8a283e867736248023e4f1b49bea506f9ed93b3c3ed753dd5f16b, false, 0xb458f8fe926c8a8ad20a126b89fe809493446abd33467fedc0381926f9e52a95, false, 0x9c79a6c7ed57499f74f1b1f4f050107dc5346512314103d9d1941420693caaf, false, 0x56f1f9251e375135e6931c5f5ecee5888582ee7ec1ce22c3f9a6ef98c46bb16b, false, 0x4edeae43e1cd99a24833c59243a39a44e1d53dc7f5009bd33bdbe2130c7e2c3a, 0x10dbff26eab8198050172ee0);
    FourSteps(0xbf8ef18068f2b95b4ec1d89e969aaaf80d6a55b047c0187ebebfa98b6a4e7de2, 0xfffffffffffffffffffffffffffffffebaaedce6af48a03bbfd25e8cd0364141, 0x10dbff26eab8198050172ee0, 0x4edeae43e1cd99a24833c59243a39a44e1d53dc7f5009bd33bdbe2130c7e2c3a, false, 0xf38ac8bf4d2d3b1d87bc873dc3bd6bf918285b3ce2d524184a6ceca9fcd917ad, false, 0xeb3e6f964bca35f902f290719afcad12038f5ede5f4465fd15089cae75db21bc, true, 0xfc2cb3cb566ca4508eb7a156e2f4c77a6cead1100b3dfdf03fcbb9bd6d66137e, true, 0xccce520302ed062bd78942c2bac975dd1f642af8720b751838cdb76c7b16e9b, 0x10dbff26eab8198050172ee03);
    FourSteps(0xbf8ef18068f2b95b4ec1d89e969aaaf80d6a55b047c0187ebebfa98b6a4e7de2, 0xfffffffffffffffffffffffffffffffebaaedce6af48a03bbfd25e8cd0364141, 0x10dbff26eab8198050172ee03, 0xccce520302ed062bd78942c2bac975dd1f642af8720b751838cdb76c7b16e9b, false, 0x7c20b13c2e069bc9c960c3c4d85acfcb127e524d718f51ba5c3e26c199692f6e, false, 0xdd68937af036476ec720507fc726cef96769c1546a01fed2b684048be05e6e7b, true, 0x152b6d9827608470b2fd927ad93eb600d8aa21ec51bfa4e5158d0db116b580ee, false, 0x3a10959834bf1a3ba4a164e1c8c29483cc1a2c0d3b171a1476ed369b0fe82dde, 0x10dbff26eab8198050172ee032);
    FourSteps(0xbf8ef18068f2b95b4ec1d89e969aaaf80d6a55b047c0187ebebfa98b6a4e7de2, 0xfffffffffffffffffffffffffffffffebaaedce6af48a03bbfd25e8cd0364141, 0x10dbff26eab8198050172ee032, 0x3a10959834bf1a3ba4a164e1c8c29483cc1a2c0d3b171a1476ed369b0fe82dde, false, 0xdfd82ec0abb81c5913d038dfd6d6e465997d6071338dd55e202dbf9c18f81bad, true, 0x2b667e2ed23103e8f51cbcb39c02a509b605b05cee5292abdbd00d2b6a67439a, true, 0xf92dbb6cd253c9569edbee8d660c9acd2bac352c78a9d325ccd2be49ff88d56b, true, 0xbc9b30a75b346efd1f90abe1a0e7aada689e283b5a6039d83d71d2dbbf200952, 0x10dbff26eab8198050172ee0327);
    FourSteps(0xbf8ef18068f2b95b4ec1d89e969aaaf80d6a55b047c0187ebebfa98b6a4e7de2, 0xfffffffffffffffffffffffffffffffebaaedce6af48a03bbfd25e8cd0364141, 0x10dbff26eab8198050172ee0327, 0xbc9b30a75b346efd1f90abe1a0e7aada689e283b5a6039d83d71d2dbbf200952, false, 0xea89ccb6ef1d21ebb8731267c2269b8add08075d0a90e876a514108799f5b14b, true, 0x753918516a5a1d0983af1db27dfc270660dc3d21b73cc42b8d3239bbafa4e801, false, 0xc1910a297684907c66fa01d02c95975609657b9ee728d58be2fbe16725288c77, true, 1, 0x10dbff26eab8198050172ee03275);
    PrimeOfQ2();
    PowZero(0x80894521654e00cb538d9bbda87ca1924c43e68444848439d39a6b50ed475170, 0xfffffffffffffffffffffffffffffffebaaedce6af48a03bbfd25e8cd0364141);
    FourSteps(0x80894521654e00cb538d9bbda87ca1924c43e68444848439d39a6b50ed475170, 0xfffffffffffffffffffffffffffffffebaaedce6af48a03bbfd25e8cd0364141, 0, 1, true, 0x80894521654e00cb538d9bbda87ca1924c43e68444848439d39a6b50ed475170, false, 0x51e1d3bd6c6fcd3986aa6dd0d88ef8e8a00b10816bbddbbd0041feb4a28c8ad9, false, 0x62d5adf1391176f92967602d2e81a6bfb202338c0440c3611ba60be6aee7c827, true, 0x7810c254393dc61e2f967d3eea1bd3974a65c6b86a3b6e5262158b2601a38961, 9);
    FourSteps(0x80894521654e00cb538d9bbda87ca1924c43e68444848439d39a6b50ed475170, 0xfffffffffffffffffffffffffffffffebaaedce6af48a03bbfd25e8cd0364141, 9, 0x7810c254393dc61e2f967d3eea1bd3974a65c6b86a3b6e5262158b2601a38961, false, 0x7a512a0ba328a9dd74d2f621f29b18839c32b4464c3a42a47b75dce2937812cc, true, 0x4b5195775ebdafa00daa43d684b9ca705a86c2debc688fdc762b6b6a864227b, true, 0x3e8170c44affc87022043fb94090a36baa50b860b26540d2921d7630b5ad729e, true, 0x1bb0c26f2acdd5adce7d2e1623d59acb8d2bbdc89a65bbad43e7694377ce7d84, 0x97);
    FourSteps(0x80894521654e00cb538d9bbda87ca1924c43e68444848439d39a6b50ed475170, 0xfffffffffffffffffffffffffffffffebaaedce6af48a03bbfd25e8cd0364141, 0x97, 0x1bb0c26f2acdd5adce7d2e1623d59acb8d2bbdc89a65bbad43e7694377ce7d84, true, 0xaa5164a80e428aade2f2367ab796d0978220550f2a233d39b6e79b9d221e8625, false, 0x392166a510438384637197dfa76fceb958a900caecc095b4f42486f43e344eb7, false, 0x9932e20f46bcdd68ed5a95bf80dd0b83df1e0613fc86552b6e3f4f076521389d, false, 0xf193abd5f679934ada919aa8c990464c30f1afb139ee30d6d412d015b2c3a71b, 0x978);
    FourSteps(0x80894521654e00cb538d9bbda87ca1924c43e68444848439d39a6b50ed475170, 0xfffffffffffffffffffffffffffffffebaaedce6af48a03bbfd25e8cd0364141, 0x978, 0xf193abd5f679934ada919aa8c990464c30f1afb139ee30d6d412d015b2c3a71b, true, 0x22d358f290a71c908a4ba757557d2522c439d945a9e9d3abfb96bb73871b7158, true, 0xf2ffda96a56dea8645dd8249dba7a8065dbf5d16b246d655e52bbe93f466aa0e, false, 0xd1ae63f28821647967d0a7f2965a32be382f1b74c937a2dc8ac7ece5b2f1d654, false, 0xae5d30d4799f1df938185b16f555e16097e46e79933548ca869b78fbcb5edd91, 0x978c);
    FourSteps(0x80894521654e00cb538d9bbda87ca1924c43e68444848439d39a6b50ed475170, 0xfffffffffffffffffffffffffffffffebaaedce6af48a03bbfd25e8cd0364141, 0x978c, 0xae5d30d4799f1df938185b16f555e16097e46e79933548ca869b78fbcb5edd91, false, 0x27c5f9f05d31185d323fb578ccd6f7aaebc85f9ba7219d8cd9497d3660718282, true, 0xcdd8c31b8fe4cf7bab6cb52c91aa622d0eb7cade130a495f15740a171ef91d58, true, 0xb322268769978909274f56118802d89897c4209ed1129d0c1dbaff18832616ca, false, 0x5a7d2f1550b235b7092674a6ba106de384887235fd7d39006c80bc32bce1fd42, 0x978c6);
    FourSteps(0x80894521654e00cb538d9bbda87ca1924c43e68444848439d39a6b50ed475170, 0xfffffffffffffffffffffffffffffffebaaedce6af48a03bbfd25e8cd0364141, 0x978c6, 0x5a7d2f1550b235b7092674a6ba106de384887235fd7d39006c80bc32bce1fd42, true, 0x3ec6736f8e17d2d290ede99fdbff63846f6b8bf81d0b0750558ca42509045c20, true, 0x81655ba0b1c6f072f7a3c15f736e942c5622fa3b85e177f1d257ccd808f02a48, true, 0xc4cf74d52e2ee26ff31c0dc7cb2e1403870070213f50895ca48cf8d737307e55, true, 0x3d6b06dd14b00f204d1cac328bd7f35f880de6340aced911306f91dec4f28c9b, 0x978c6f);
    FourSteps(0x80894521654e00cb538d9bbda87ca1924c43e68444848439d39a6b50ed475170, 0xfffffffffffffffffffffffffffffffebaaedce6af48a03bbfd25e8cd0364141, 0x978c6f, 0x3d6b06dd14b00f204d1cac328bd7f35f880de6340aced911306f91dec4f28c9b, false, 0xc7a5b084bde1b62b15e26f28dc20cc18106600f3530dcb39ff1bf3e4dbfd611a, false, 0xb6f51f8189da0de03bb26af4cc26b90bb3ae829dfeac0be45b7e71c351079b33, true, 0x46d3597e8572e7a77517a022502c1d36f4c61cbea9147f9314e67422f73c2570, true, 0xfa07b598554eebf7c0fc647ebe34c335d2976af38061d1a78bb0f7113a55b21f, 0x978c6f3);
    FourSteps(0x80894521654e00cb538d9bbda87ca1924c43e68444848439d39a6b50ed475170, 0xfffffffffffffffffffffffffffffffebaaedce6af48a03bbfd25e8cd0364141, 0x978c6f3, 0xfa07b598554eebf7c0fc647ebe34c335d2976af38061d1a78bb0f7113a55b21f, false, 0x7896ce51d00b1eb1675b3056ec92d661af52b4cc4159b4ce176462200fe6b415, true, 0x3a41245d883ecf950b9f3625472c8361ab5f85699e69287eb0b6d6d8a6d34e46, false, 0xb8ee975988a1da5636f062f2b09efa931ca966dc7b5e2284270df59f1962055d, true, 0x46082a673db275e367c302341c5e0321f9b250f58661b83add1d554cd3da0d1c, 0x978c6f35);
    FourSteps(0x80894521654e00cb538d9bbda87ca1924c43e68444848439d39a6b50ed475170, 0xfffffffffffffffffffffffffffffffebaaedce6af48a03bbfd25e8cd0364141, 0x978c6f35, 0x46082a673db275e367c302341c5e0321f9b250f58661b83add1d554cd3da0d1c, false, 0x1d6feb6d6268f964b7a50b15e8c27ddd897735edefb54a8d504d6e32ba419ec0, false, 0x8298a9a8fccc81ead1cb49677e131720d8d9ec93e85dd8847f4cdf4df20eb289, true, 0xbd76f315e8889e4277ca702df4be29b7750f29afb00d5d422b40767e2923d46e, true, 0x6b2f91ccd77ff1e4dbca61b885407e74ce993b7db7019e2b1ca3246d16583d14, 0x978c6f353);
    FourSteps(0x80894521654e00cb538d9bbda87ca1924c43e68444848439d39a6b50ed475170, 0xfffffffffffffffffffffffffffffffebaaedce6af48a03bbfd25e8cd0364141, 0x978c6f353, 0x6b2f91ccd77ff1e4dbca61b885407e74ce993b7db7019e2b1ca3246d16583d14, true, 0x3f3bd2228dffcb41d61490311c6b5edd146751887a4787c1afbf7273c1b84fec, true, 0xc2a8f44480d65f09c4d0d8df404d5cd72d5524f6a47dd096da86262634d84ccd, false, 0x82c0a86bf58e1ad225f8099b42fa39514dcdade60b68033ba2a2141098d366f5, false, 0x967c0e50cc52b304f2cfb5c06e0cbd0d4371105ded44155dd1f42efb9dcb6a9f, 0x978c6f353c);
    FourSteps(0x80894521654e00cb538d9bbda87ca1924c43e68444848439d39a6b50ed475170, 0xfffffffffffffffffffffffffffffffebaaedce6af48a03bbfd25e8cd0364141, 0x978c6f353c, 0x967c0e50cc52b304f2cfb5c06e0cbd0d4371105ded44155dd1f42efb9dcb6a9f, false, 0x7199d5774a764c7edf08e1e67f62ca3fa2504ee6bc8f6a86ddf0ffd4c3de39d1, false, 0xfa6af2e0096dc8b6d242deedb509579ffc74298e48066af7b2eb33d313e1a026, true, 0xe673d04a870ad09950d893c58c6eda73f68c6a6a5ec9646b0324659f4736288f, true, 0x3c99eacd817fbc4b896072dd67e800813ad8e6dc5c02cb92ae5bb087ec9d0596, 0x978c6f353c3);
    FourSteps(0x80894521654e00cb538d9bbda87ca1924c43e68444848439d39a6b50ed475170, 0xfffffffffffffffffffffffffffffffebaaedce6af48a03bbfd25e8cd0364141, 0x978c6f353c3, 0x3c99eacd817fbc4b896072dd67e800813ad8e6dc5c02cb92ae5bb087ec9d0596, true, 0xd01e888ab546fb46331dbf1780e0d8381bfd8bd5d9f91b5cf13aba4b48c35f22, false, 0x36c0d964fd32e497293f065622d57c3ab027179b8a367d352c06fb858fdb9152, false, 0xd149ca873e37079ffc9c3243e24ea9943a83b916ce5f8d76980f436cf327f190, false, 0xbeb3e7b31f8fdda9e95ad598575dcaf7f68340b962c2867c792c157080715342, 0x978c6f353c38);
    FourSteps(0x80894521654e00cb538d9bbda87ca1924c43e68444848439d39a6b50ed475170, 0xfffffffffffffffffffffffffffffffebaaedce6af48a03bbfd25e8cd0364141, 0x978c6f353c38, 0xbeb3e7b31f8fdda9e95ad598575dcaf7f68340b962c2867c792c157080715342, true, 0x8439f97f35dc76d12bf8e35dda23bc754e64a52989650f703a14d02419d34815, false, 0x402a060a6c78b387a1484d7398ecb4dae53de08f115e42ede5ebb26df0e8901e, false, 0xd4f10d9b89e85569ab89141d02bc762e2625faad836271e0b9633aea98b87e7a, false, 0x97feb943fb894ba7635388dd166d0c9bc5111d5876d58ae83782e5a72d123b0c, 0x978c6f353c388);
    FourSteps(0x80894521654e00cb538d9bbda87ca1924c43e68444848439d39a6b50ed475170, 0xfffffffffffffffffffffffffffffffebaaedce6af48a03bbfd25e8cd0364141, 0x978c6f353c388, 0x97feb943fb894ba7635388dd166d0c9bc5111d5876d58ae83782e5a72d123b0c, true, 0xe58423ce85e74b606c1c09ee6b3c2e9d4fcfb766099b70b8d1ab482961d25522, false, 0x67ad793a14781a419eb228e206df9b250947c4425606de24814ba842b8f9990f, false, 0x2a9795ce88a12c72e669484bcf2a0de2d500698deb2efefd21991271ab2b1d58, true, 0x4c5b4faf155184c2668a908c194399ab114725d8c26194b0481987b2352fc2c4, 0x978c6f353c3889);
    FourSteps(0x80894521654e00cb538d9bbda87ca1924c43e68444848439d39a6b50ed475170, 0xfffffffffffffffffffffffffffffffebaaedce6af48a03bbfd25e8cd0364141, 0x978c6f353c3889, 0x4c5b4faf155184c2668a908c194399ab114725d8c26194b0481987b2352fc2c4, true, 0xf70d3b065253c2d2b12a3eb6a4cc7bfc88cba5e75e69deb50968038c134c9047, false, 0x269ffeee51f2ad8d584efe02c278c42c7970c0f139a0fee1b4e4ffb649585b1c, true, 0xc4c335165aebdcb08a2d0794c3b227349b783d1e698294260339da8292dbdfb9, false, 0xff72f2a76f92bd4fbc2f9d98c6d409274326b179c6eff6e118882090a3085246, 0x978c6f353c3889a);
    FourSteps(0x80894521654e00cb538d9bbda87ca1924c43e68444848439d39a6b50ed475170, 0xfffffffffffffffffffffffffffffffebaaedce6af48a03bbfd25e8cd0364141, 0x978c6f353c3889a, 0xff72f2a76f92bd4fbc2f9d98c6d409274326b179c6eff6e118882090a3085246, false, 0x4781e9f1c7201d313ce7ead3b24f687319afe7d7b39d755e38320e5319cc2b28, true, 0x560586c60f54387dc7e2fe665b309c0eabdd3f29e98cf39ef0fd459e1cb3b1a7, true, 0x5257e5c8c26f07eca603aa0586f946d87c729b8efecc3dd8f5beb4915310968d, true, 0x65618c73a87d7fde4f8a4de122662bd080c47d1d8c20a8d036c78631c842c027, 0x978c6f353c3889a7);
    FourSteps(0x80894521654e00cb538d9bbda87ca1924c43e68444848439d39a6b50ed475170, 0xfffffffffffffffffffffffffffffffebaaedce6af48a03bbfd25e8cd0364141, 0x978c6f353c3889a7, 0x65618c73a87d7fde4f8a4de122662bd080c47d1d8c20a8d036c78631c842c027, true, 0x71952aa2112c493c1779e74b161145643859c98a25f1c43a7faad1bf7971135, false, 0x2d39e26603f1a7b14736411db74cb793138ec45f27b9f919f3d9d87ce61117d4, false, 0x141a88b52ccba96d1a95b18972fc89341685c9e7216b648238c2cae541a93744, true, 1, 0x978c6f353c3889a79);
    Prime2();
    PowZero(0xfffffffffffffffffffffffffffffffebaaedce6af48a03bbfd25e8cd0364140, 0xfffffffffffffffffffffffffffffffebaaedce6af48a03bbfd25e8cd0364141);
    FourSteps(0xfffffffffffffffffffffffffffffffebaaedce6af48a03bbfd25e8cd0364140, 0xfffffffffffffffffffffffffffffffebaaedce6af48a03bbfd25e8cd0364141, 0, 1, false, 1, false, 1, true, 0xfffffffffffffffffffffffffffffffebaaedce6af48a03bbfd25e8cd0364140, false, 1, 2);
    PrimeByThreeFactors(0xfffffffffffffffffffffffffffffffebaaedce6af48a03bbfd25e8cd0364141, 0x10dbff26eab8198050172ee03275, 0xbf8ef18068f2b95b4ec1d89e969aaaf80d6a55b047c0187ebebfa98b6a4e7de2, 0x7e44a52d4b46b005ca417d91243e86645b66fffd04cce22537827794f1dcf541, 0x978c6f353c3889a79, 0x80894521654e00cb538d9bbda87ca1924c43e68444848439d39a6b50ed475170, 0xb71d6f711f135bed1fea75409caa7f11ceaae5f4618a3e28e0a0711f1f2d3d66, 2, 0xfffffffffffffffffffffffffffffffebaaedce6af48a03bbfd25e8cd0364140, 0x7fffffffffffffffffffffffffffffff5d576e7357a4501ddfe92f46681b20a0);
  }

  lemma NIsPrime()
    ensures Prime(N)
  {
    PrimeOfN();
  }
}
