/** The order P of the field is prime, and -7 is not a cube modulo P. The numbers are powers modulo the candidate:
    each line appends four bits to an exponent. */
module Secp256k1Prime {
  import opened NumberTheory
  import opened Params
  import opened Primality

  lemma Prime2()
    ensures Prime(2)
  {
    PrimeByTrial(2, 1);
  }

  lemma Prime7()
    ensures Prime(7)
  {
    forall d | 2 <= d <= 2
      ensures 7 % d != 0
    {
      assert d == 2;
    }
    PrimeByTrial(7, 2);
  }

  lemma Prime29()
    ensures Prime(29)
  {
    forall d | 2 <= d <= 5
      ensures 29 % d != 0
    {
      assert d == 2 || d == 3 || d == 4 || d == 5;
    }
    PrimeByTrial(29, 5);
  }

  lemma Prime53()
    ensures Prime(53)
  {
    forall d | 2 <= d <= 7
      ensures 53 % d != 0
    {
      assert d == 2 || d == 3 || d == 4 || d == 5 || d == 6 || d == 7;
    }
    PrimeByTrial(53, 7);
  }

  lemma Prime101()
    ensures Prime(101)
  {
    forall d | 2 <= d <= 10
      ensures 101 % d != 0
    {
      assert d == 2 || d == 3 || d == 4 || d == 5 || d == 6 || d == 7 || d == 8 || d == 9 || d == 10;
    }
    PrimeByTrial(101, 10);
  }

  lemma Prime239()
    ensures Prime(239)
  {
    forall d | 2 <= d <= 15
      ensures 239 % d != 0
    {
      assert d == 2 || d == 3 || d == 4 || d == 5 || d == 6 || d == 7 || d == 8 || d == 9 || d == 10 || d == 11 || d == 12 || d == 13 || d == 14 || d == 15;
    }
    PrimeByTrial(239, 15);
  }

  lemma Prime419()
    ensures Prime(419)
  {
    forall d | 2 <= d <= 20
      ensures 419 % d != 0
    {
      assert d == 2 || d == 3 || d == 4 || d == 5 || d == 6 || d == 7 || d == 8 || d == 9 || d == 10 || d == 11 || d == 12 || d == 13 || d == 14 || d == 15 || d == 16 || d == 17 || d == 18 || d == 19 || d == 20;
    }
    PrimeByTrial(419, 20);
  }

  lemma Prime20113()
    ensures Prime(20113)
  {
    hide Pow;
    Prime419();
    PowZero(0x3add, 0x4e91);
    FourSteps(0x3add, 0x4e91, 0, 1, false, 1, false, 1, false, 1, true, 0x3add, 1);
    FourSteps(0x3add, 0x4e91, 1, 0x3add, true, 0x327, false, 0x1dd1, true, 0x33bd, false, 0x1157, 0x1a);
    FourSteps(0x3add, 0x4e91, 0x1a, 0x1157, false, 0x370e, false, 0x12f0, true, 0x16f5, true, 1, 0x1a3);
    PrimeByOneFactor(0x4e91, 0x1a3, 0x3add, 0x42d7);
  }

  lemma Prime1206781()
    ensures Prime(1206781)
  {
    hide Pow;
    Prime20113();
    PowZero(0x13270, 0x1269fd);
    FourSteps(0x13270, 0x1269fd, 0, 1, false, 1, true, 0x13270, false, 0xadec1, false, 0x119ba0, 4);
    FourSteps(0x13270, 0x1269fd, 4, 0x119ba0, true, 0x113556, true, 0x7e83d, true, 0x106c48, false, 0x104f4d, 0x4e);
    FourSteps(0x13270, 0x1269fd, 0x4e, 0x104f4d, true, 0x97882, false, 0x53af2, false, 0x44bb1, true, 0xc965c, 0x4e9);
    FourSteps(0x13270, 0x1269fd, 0x4e9, 0xc965c, false, 0x99138, false, 0xbe9d2, false, 0x553b6, true, 1, 0x4e91);
    PrimeByOneFactor(0x1269fd, 0x4e91, 0x13270, 0xad2ef);
  }

  lemma Prime7240687()
    ensures Prime(7240687)
  {
    hide Pow;
    Prime1206781();
    PowZero(0x40, 0x6e7bef);
    FourSteps(0x40, 0x6e7bef, 0, 1, false, 1, false, 1, false, 1, true, 0x40, 1);
    FourSteps(0x40, 0x6e7bef, 1, 0x40, false, 0x1000, false, 0x230822, true, 0x1dc77e, false, 0x5417f, 0x12);
    FourSteps(0x40, 0x6e7bef, 0x12, 0x5417f, false, 0x4d8112, true, 0x2a557b, true, 0x585128, false, 0x47c241, 0x126);
    FourSteps(0x40, 0x6e7bef, 0x126, 0x47c241, true, 0x290a6, false, 0x4e26c2, false, 0x6b60a0, true, 0x46933c, 0x1269);
    FourSteps(0x40, 0x6e7bef, 0x1269, 0x46933c, true, 0x3c7f0e, true, 0x4b5b80, true, 0x3627e7, true, 0x6b3244, 0x1269f);
    FourSteps(0x40, 0x6e7bef, 0x1269f, 0x6b3244, true, 0x625074, true, 0x34f3fd, false, 0xdcf7e, true, 1, 0x1269fd);
    PrimeByOneFactor(0x6e7bef, 0x1269fd, 0x40, 0x57af91);
  }

  lemma Prime96557()
    ensures Prime(96557)
  {
    hide Pow;
    Prime239();
    PowZero(0x7392, 0x1792d);
    FourSteps(0x7392, 0x1792d, 0, 1, true, 0x7392, true, 0x113bb, true, 0xe30, false, 0xe918, 0xe);
    FourSteps(0x7392, 0x1792d, 0xe, 0xe918, true, 0x5fe1, true, 0xcba3, true, 0x8971, true, 1, 0xef);
    Prime101();
    PowZero(0xf659, 0x1792d);
    FourSteps(0xf659, 0x1792d, 0, 1, false, 1, true, 0xf659, true, 0xbd61, false, 0x41e3, 6);
    FourSteps(0xf659, 0x1792d, 6, 0x41e3, false, 0x976f, true, 0x73a1, false, 0xee37, true, 1, 0x65);
    Prime2();
    PowZero(0x1792c, 0x1792d);
    FourSteps(0x1792c, 0x1792d, 0, 1, false, 1, false, 1, true, 0x1792c, false, 1, 2);
    PrimeByThreeFactors(0x1792d, 0xef, 0x7392, 0x2089, 0x65, 0xf659, 0xc50d, 2, 0x1792c, 0xbc96);
  }

  lemma Prime107590001()
    ensures Prime(107590001)
  {
    hide Pow;
    Prime53();
    PowZero(0x19a6723, 0x669b171);
    FourSteps(0x19a6723, 0x669b171, 0, 1, false, 1, false, 1, true, 0x19a6723, true, 0x30ee811, 3);
    FourSteps(0x19a6723, 0x669b171, 3, 0x30ee811, false, 0x1106726, true, 0x24a5d36, false, 0x9e9b45, true, 1, 0x35);
    Prime29();
    PowZero(0x4113566, 0x669b171);
    FourSteps(0x4113566, 0x669b171, 0, 1, false, 1, false, 1, false, 1, true, 0x4113566, 1);
    FourSteps(0x4113566, 0x669b171, 1, 0x4113566, true, 0x291bb1e, true, 0x283e372, false, 0x4d0c68, true, 1, 0x1d);
    Prime7();
    PowZero(0x5b4ba30, 0x669b171);
    FourSteps(0x5b4ba30, 0x669b171, 0, 1, false, 1, true, 0x5b4ba30, true, 0x2bcdc24, true, 1, 7);
    PrimeByThreeFactors(0x669b171, 0x35, 0x19a6723, 0x48349cb, 0x1d, 0x4113566, 0x5f72de4, 7, 0x5b4ba30, 0x4b1e7e);
  }

  lemma PrimeOfQ2()
    ensures Prime(0xc03a94b2d3e64419a05cd8ccbf987069)
  {
    hide Pow;
    Prime107590001();
    PowZero(0x3dfa0b72ac4474248036ce39d059b84f, 0xc03a94b2d3e64419a05cd8ccbf987069);
    FourSteps(0x3dfa0b72ac4474248036ce39d059b84f, 0xc03a94b2d3e64419a05cd8ccbf987069, 0, 1, false, 1, true, 0x3dfa0b72ac4474248036ce39d059b84f, true, 0x78b5b11b59d04fb438bb8c77d4148a73, false, 0x47ac6d26aed2bfcdf22c139ce524ac40, 6);
    FourSteps(0x3dfa0b72ac4474248036ce39d059b84f, 0xc03a94b2d3e64419a05cd8ccbf987069, 6, 0x47ac6d26aed2bfcdf22c139ce524ac40, false, 0x4d92263d2a3a31fe01a8c29fc510b5d7, true, 0xfe0d39777112e9d362cab033b86a3b, true, 0x8e906d7e27755373c2f07ad9ba1b2fe2, false, 0x401458b3ce46976433c7957419a96854, 0x66);
    FourSteps(0x3dfa0b72ac4474248036ce39d059b84f, 0xc03a94b2d3e64419a05cd8ccbf987069, 0x66, 0x401458b3ce46976433c7957419a96854, true, 0x25e0fa459db8a36f3e192a2a455a2d82, false, 0x8ac1d6448143c36fb956b098df2796c6, false, 0x1a604593cec0000f7e72be3dae472ebd, true, 0xb4973bb996649c6b8ced394fa5c685f0, 0x669);
    FourSteps(0x3dfa0b72ac4474248036ce39d059b84f, 0xc03a94b2d3e64419a05cd8ccbf987069, 0x669, 0xb4973bb996649c6b8ced394fa5c685f0, true, 0x1a92ef4c78998e3bc0d75b71ec58676a, false, 0x646220782492a908621f1e8be3fc90e1, true, 0x220a98bf5a7e5a6a654d65d8e406e136, true, 0xb98e924fca8046c2f52fc39fd09d5e8b, 0x669b);
    FourSteps(0x3dfa0b72ac4474248036ce39d059b84f, 0xc03a94b2d3e64419a05cd8ccbf987069, 0x669b, 0xb98e924fca8046c2f52fc39fd09d5e8b, false, 0x7f09a9017e2205ac08f5923720c712a0, false, 0x6d41dd1b5b6f4e39168ad5bbaf1f60ee, false, 0x9ea68197966385d7ed2f277ade5d762c, true, 0x2e6f0b8264d3b04127323169465de72f, 0x669b1);
    FourSteps(0x3dfa0b72ac4474248036ce39d059b84f, 0xc03a94b2d3e64419a05cd8ccbf987069, 0x669b1, 0x2e6f0b8264d3b04127323169465de72f, false, 0x6432ef073f6bdcfa12a01ff86018b92, true, 0x4dda6434c76e8f8a0829472347c5cabd, true, 0x94786bd4f5fd1c82feb0eb2672af6c8d, true, 0x57d5db6e761949b7c9ae0d92b7b7cc84, 0x669b17);
    FourSteps(0x3dfa0b72ac4474248036ce39d059b84f, 0xc03a94b2d3e64419a05cd8ccbf987069, 0x669b17, 0x57d5db6e761949b7c9ae0d92b7b7cc84, false, 0x8512f366d97cc4be6a9a4b8b49baa2d, false, 0x307d3023c532cfce0aabf8d3261a491e, false, 0xb04efaee0b4c78ead30a64ebdcd3817f, true, 1, 0x669b171);
    Prime7240687();
    PowZero(0x53aedf869210fdb3043e6a09b8d8a514, 0xc03a94b2d3e64419a05cd8ccbf987069);
    FourSteps(0x53aedf869210fdb3043e6a09b8d8a514, 0xc03a94b2d3e64419a05cd8ccbf987069, 0, 1, false, 1, true, 0x53aedf869210fdb3043e6a09b8d8a514, true, 0x38a5d91f9687c1387fbcb9040e70ec5a, false, 0xb9bc7d18863f95d84815f245dec85eb3, 6);
    FourSteps(0x53aedf869210fdb3043e6a09b8d8a514, 0xc03a94b2d3e64419a05cd8ccbf987069, 6, 0xb9bc7d18863f95d84815f245dec85eb3, true, 0x4ca9a27f3735568b916dd504443b373, true, 0xc02b52932df46959a5e60af127aecbad, true, 0x56131d4531254a0fff96c84633399994, false, 0x139c7631eabfbadb058dd6d89b01cdb4, 0x6e);
    FourSteps(0x53aedf869210fdb3043e6a09b8d8a514, 0xc03a94b2d3e64419a05cd8ccbf987069, 0x6e, 0x139c7631eabfbadb058dd6d89b01cdb4, false, 0x95c5f282d9e5d8292428d32d20414285, true, 0x740d538af8ffee1c9b0c132577821112, true, 0x57e18ff844ce2dcbe10fdf3313101fbe, true, 0x63c8736b6bd0c9a097baee14252d09b, 0x6e7);
    FourSteps(0x53aedf869210fdb3043e6a09b8d8a514, 0xc03a94b2d3e64419a05cd8ccbf987069, 0x6e7, 0x63c8736b6bd0c9a097baee14252d09b, true, 0x74bcc64e37ad63ff451f8390ebf1b5e7, false, 0x8e1bf13e3a8a690f9faec698753f5924, true, 0x96715730232915c778ca8a5af6f01169, true, 0x4510d309ccbd840b05f73d2b1973dac7, 0x6e7b);
    FourSteps(0x53aedf869210fdb3043e6a09b8d8a514, 0xc03a94b2d3e64419a05cd8ccbf987069, 0x6e7b, 0x4510d309ccbd840b05f73d2b1973dac7, true, 0x8bc68e3c6860a90bca1db9dfc71b13ea, true, 0xbd35ce019fc154d383ee8c18a69e581, true, 0x5a41995dd091559629676773167345bb, false, 0x980d2120b33d9582744b5af15a40ec89, 0x6e7be);
    FourSteps(0x53aedf869210fdb3043e6a09b8d8a514, 0xc03a94b2d3e64419a05cd8ccbf987069, 0x6e7be, 0x980d2120b33d9582744b5af15a40ec89, true, 0x54c6be24f39404e1b4243ee16f3d338e, true, 0x3020fa3062cb57b038085f1f6fef170c, true, 0x54976a8e3a09d6c1784142d7b450471b, true, 1, 0x6e7bef);
    Prime96557();
    PowZero(0x23ac68c78f30cf7c8df9abfdec7d9f64, 0xc03a94b2d3e64419a05cd8ccbf987069);
    FourSteps(0x23ac68c78f30cf7c8df9abfdec7d9f64, 0xc03a94b2d3e64419a05cd8ccbf987069, 0, 1, false, 1, false, 1, false, 1, true, 0x23ac68c78f30cf7c8df9abfdec7d9f64, 1);
    FourSteps(0x23ac68c78f30cf7c8df9abfdec7d9f64, 0xc03a94b2d3e64419a05cd8ccbf987069, 1, 0x23ac68c78f30cf7c8df9abfdec7d9f64, false, 0xaa14df4df0b76191a5848cc2bb4f1ac8, true, 0x542dbb49d29759a66268e85c53399ef7, true, 0xa333c9aa0191e0c17ef030290b0342bd, true, 0x1966713f88a22e41ba1a1213162783cb, 0x17);
    FourSteps(0x23ac68c78f30cf7c8df9abfdec7d9f64, 0xc03a94b2d3e64419a05cd8ccbf987069, 0x17, 0x1966713f88a22e41ba1a1213162783cb, true, 0x7913514e01c3eabfa283d61c432d36a1, false, 0x394af79918617e998ec279403529e674, false, 0x230808773d22285706d00d65fd23870c, true, 0xa55ecb54d272450626c24c84d1b663d9, 0x179);
    FourSteps(0x23ac68c78f30cf7c8df9abfdec7d9f64, 0xc03a94b2d3e64419a05cd8ccbf987069, 0x179, 0xa55ecb54d272450626c24c84d1b663d9, false, 0xafd494ea764629938bff376c7bb25782, false, 0x42ebc4f4685ca9c0ae63a9f9717dc4ae, true, 0x21c183982bbfa78279c4e850eaeee75b, false, 0x7a301d840c3135c85a23581b6e92fe2c, 0x1792);
    FourSteps(0x23ac68c78f30cf7c8df9abfdec7d9f64, 0xc03a94b2d3e64419a05cd8ccbf987069, 0x1792, 0x7a301d840c3135c85a23581b6e92fe2c, true, 0x30f250c5e4b69e0da1ad64b9106b5109, true, 0x9f9df630dadf13872460af7fbf9eafe3, false, 0x603ef01af1a4f0d7856d745c3395112, true, 1, 0x1792d);
    PrimeByThreeFactors(0xc03a94b2d3e64419a05cd8ccbf987069, 0x669b171, 0x3dfa0b72ac4474248036ce39d059b84f, 0xb0db0609faeea74532ac512da850b227, 0x6e7bef, 0x53aedf869210fdb3043e6a09b8d8a514, 0x84109eda3ae1d0866772b20b1456e44d, 0x1792d, 0x23ac68c78f30cf7c8df9abfdec7d9f64, 0x275f06e520cf17b3013a76586486da13);
  }

  lemma PrimeOfQ1()
    ensures Prime(0x1db8260e5e3b460a46a0088fccf6a3a5936d75d89a776d4c0da4f338aafb)
  {
    hide Pow;
    PrimeOfQ2();
    PowZero(0x7b08ccbe4749ceb24c5edd1bcdf1f473d4aac9b13960ce85a31117c6622, 0x1db8260e5e3b460a46a0088fccf6a3a5936d75d89a776d4c0da4f338aafb);
    FourSteps(0x7b08ccbe4749ceb24c5edd1bcdf1f473d4aac9b13960ce85a31117c6622, 0x1db8260e5e3b460a46a0088fccf6a3a5936d75d89a776d4c0da4f338aafb, 0, 1, true, 0x7b08ccbe4749ceb24c5edd1bcdf1f473d4aac9b13960ce85a31117c6622, true, 0x1507822a81adcb3f784cf47f5ab7482b6ff9bab672f0d25ca10b2d4daf5e, false, 0xc2c2f007a20acccb560cced82337a62bdc0508930407ccc95372d40a042, false, 0x10df691d2c1007e565a341dded5c5b98c365e4241475181f34e41486d4dc, 0xc);
    FourSteps(0x7b08ccbe4749ceb24c5edd1bcdf1f473d4aac9b13960ce85a31117c6622, 0x1db8260e5e3b460a46a0088fccf6a3a5936d75d89a776d4c0da4f338aafb, 0xc, 0x10df691d2c1007e565a341dded5c5b98c365e4241475181f34e41486d4dc, false, 0xc905cdd02b233c77d7e4799bbcfa3ae99f29cab5e15a5f514a12021698f, false, 0x14cf455dfb9b8a6251be9fe13da13932327bcc4765c15b28bfa09f313ec5, false, 0x686a3c0456b6022393d4f9c4333b9450636865a88b2cfd8ac9f1eb915f1, false, 0x16d2016f7fb66f916be1fdc1978df5835345d54cb48f2ff9e86e1214cd4d, 0xc0);
    FourSteps(0x7b08ccbe4749ceb24c5edd1bcdf1f473d4aac9b13960ce85a31117c6622, 0x1db8260e5e3b460a46a0088fccf6a3a5936d75d89a776d4c0da4f338aafb, 0xc0, 0x16d2016f7fb66f916be1fdc1978df5835345d54cb48f2ff9e86e1214cd4d, false, 0x113afb02a9e7acd5d7cdc8fb21f18b4152406b0f2837d2f193d9ebb9f893, false, 0xdb5c8ccaf13d522982aa827e7592f917ec8cc2755e58382de4ec6a8f067, true, 0xb5bf9af1d51fc1c5e87e1fb1266153e696b1d4dafbe049bc9e4f0899ebd, true, 0xf0a3b7fe46fecb5f045b2414bbd212646ec2fdb4524276d439c8253a1e6, 0xc03);
    FourSteps(0x7b08ccbe4749ceb24c5edd1bcdf1f473d4aac9b13960ce85a31117c6622, 0x1db8260e5e3b460a46a0088fccf6a3a5936d75d89a776d4c0da4f338aafb, 0xc03, 0xf0a3b7fe46fecb5f045b2414bbd212646ec2fdb4524276d439c8253a1e6, true, 0x5c2310a28a1c0e86606be9fd85335fc344bb7e0bef8e422d1003e8e575f, false, 0x148510c2f99acd10aee5e4d41044f4c353a38d26e829bfe8a650302b0048, true, 0x8b0a2484f9d6365c96f4e5508250a9988a87c28660d5de22c7bfaa00623, false, 0xd4008209c1cf8e677fd86e2783dcd3e5b68e6c4d98bdc64f6978655b830, 0xc03a);
    FourSteps(0x7b08ccbe4749ceb24c5edd1bcdf1f473d4aac9b13960ce85a31117c6622, 0x1db8260e5e3b460a46a0088fccf6a3a5936d75d89a776d4c0da4f338aafb, 0xc03a, 0xd4008209c1cf8e677fd86e2783dcd3e5b68e6c4d98bdc64f6978655b830, true, 0x1994ed160204a7c9378d64291a629080448bda54e8af738c067b361e3a14, false, 0xe1ae136a2de814e24cef8e9def176b7d8d41f7c7b05d1956bf2bb25d1bc, false, 0x44e210c535e9dba5bfb0e60ba7a5c616c6b9ac9a2ca4589a8354ee5042d, true, 0x1a27400194477664aaeb1f8e55c5f8d9ae8655a4049f4878bc67ed7187ba, 0xc03a9);
    FourSteps(0x7b08ccbe4749ceb24c5edd1bcdf1f473d4aac9b13960ce85a31117c6622, 0x1db8260e5e3b460a46a0088fccf6a3a5936d75d89a776d4c0da4f338aafb, 0xc03a9, 0x1a27400194477664aaeb1f8e55c5f8d9ae8655a4049f4878bc67ed7187ba, false, 0xc67a4b6ba003b6cee3e46badcb20743566d674240bb8d646f4b464e04e8, true, 0x960acca505b0dd4163630b71579c913b4d5e90a7a0550af5e7550ba3eba, false, 0xb17494f76545bf4b467e768a8413841cb9f672989186f1a9203e0d77f, false, 0x9e9ceb197de7ec94228028babea91424ecd507578af6b7459f58b4ec015, 0xc03a94);
    FourSteps(0x7b08ccbe4749ceb24c5edd1bcdf1f473d4aac9b13960ce85a31117c6622, 0x1db8260e5e3b460a46a0088fccf6a3a5936d75d89a776d4c0da4f338aafb, 0xc03a94, 0x9e9ceb197de7ec94228028babea91424ecd507578af6b7459f58b4ec015, true, 0x4b738de5086d1b1ce70c03190083aca6d250b332426081cce602d270167, false, 0x32002a6e7ebf5968bd4039ff6fd1eecc9d4bdb1b88bf077a4edac4b2ec8, true, 0x1d058e65616745f94bf7cb157f3693af04db4d9d2218c2f8db37fa3fadf7, true, 0x306257d2e59f321d1135b3ad5cfee65f846afb182a8ac1f7a175ab92239, 0xc03a94b);
    FourSteps(0x7b08ccbe4749ceb24c5edd1bcdf1f473d4aac9b13960ce85a31117c6622, 0x1db8260e5e3b460a46a0088fccf6a3a5936d75d89a776d4c0da4f338aafb, 0xc03a94b, 0x306257d2e59f321d1135b3ad5cfee65f846afb182a8ac1f7a175ab92239, false, 0x298e7b96e78235310c062025cc49539c79924ef4814f8d513ebfe9269d9, false, 0xaa4ddba1ddfb73eaff6d2267b5b727855de31ce1dc7b74dcb497ecc8b4a, true, 0x16d03d9943d36ed3502c3226d2c23bd21bf9d9cf87c1f6fd6454a2aaa7b3, false, 0xafed515e28fc7eb12b1e43cdc73b3315b5654ec8d726d5d7db202b72baf, 0xc03a94b2);
    FourSteps(0x7b08ccbe4749ceb24c5edd1bcdf1f473d4aac9b13960ce85a31117c6622, 0x1db8260e5e3b460a46a0088fccf6a3a5936d75d89a776d4c0da4f338aafb, 0xc03a94b2, 0xafed515e28fc7eb12b1e43cdc73b3315b5654ec8d726d5d7db202b72baf, true, 0x1749e1d88690301f042c4496058a1c3581185cfc315f7ffa7faad2e2dd51, true, 0x10b936e5d4bd46d353bfafb4a1f3b1848004536909ee22b809f55a1295ad, false, 0x1c1eb030215cc09061f02ad3847c08cd7c082e75c61bbc4af6d082601a3f, true, 0x949f304dff1e14630c64b506183841d22968884b7c51454f9f074d5818e, 0xc03a94b2d);
    FourSteps(0x7b08ccbe4749ceb24c5edd1bcdf1f473d4aac9b13960ce85a31117c6622, 0x1db8260e5e3b460a46a0088fccf6a3a5936d75d89a776d4c0da4f338aafb, 0xc03a94b2d, 0x949f304dff1e14630c64b506183841d22968884b7c51454f9f074d5818e, false, 0x146e192867331db1d1996431de2c7fe15221301c9cdd186b0ab8491d3b0b, false, 0x12f1a4acffcf1e94526f93f8441891be63eed9ba97ca3930892a87f74692, true, 0xf67a45e42e07480b3fdb321295476102e4b3651090b56b7c2cc3b126b1c, true, 0xd4efaa9b955b45a33ecb9c857604e916140766b950d3043d620015a19b3, 0xc03a94b2d3);
    FourSteps(0x7b08ccbe4749ceb24c5edd1bcdf1f473d4aac9b13960ce85a31117c6622, 0x1db8260e5e3b460a46a0088fccf6a3a5936d75d89a776d4c0da4f338aafb, 0xc03a94b2d3, 0xd4efaa9b955b45a33ecb9c857604e916140766b950d3043d620015a19b3, true, 0x18cc6886f3e7b61be4c82ea0c64bdeb7b4d6be3af448fb19c3baad3ffd1a, true, 0x1192b33af3bea46e1cca4991872bfc6e4b7a5467c217fd4429f79bab672f, true, 0x1a595f94fb89bfd88db7c345cc92af4b6a0082322a91cdb30b971205398a, false, 0xcc571bf2fa4a05afc2a593b670e2eeb322cfb85d64c021e18c6ba69444f, 0xc03a94b2d3e);
    FourSteps(0x7b08ccbe4749ceb24c5edd1bcdf1f473d4aac9b13960ce85a31117c6622, 0x1db8260e5e3b460a46a0088fccf6a3a5936d75d89a776d4c0da4f338aafb, 0xc03a94b2d3e, 0xcc571bf2fa4a05afc2a593b670e2eeb322cfb85d64c021e18c6ba69444f, false, 0xa1d7dfa069d7d09deeae1215d29561ea42b52b10e80abeb56a056a3d82a, true, 0xc95d63675e43913ad66ef22d8b22a547aa49f0195126662ef89231cca96, true, 0x120954445428da5e281e35c4e4694ae9600a784926932576f7728d85b43d, false, 0x1548e344de538be4289b46e4c4a4abc6fd9f7059dc2e985addaa8c0489, 0xc03a94b2d3e6);
    FourSteps(0x7b08ccbe4749ceb24c5edd1bcdf1f473d4aac9b13960ce85a31117c6622, 0x1db8260e5e3b460a46a0088fccf6a3a5936d75d89a776d4c0da4f338aafb, 0xc03a94b2d3e6, 0x1548e344de538be4289b46e4c4a4abc6fd9f7059dc2e985addaa8c0489, false, 0xfbcd0959cbe034270b934e4565fb5bdd0fde58ff9092dfe35e6145cd14d, true, 0x9b402d6c0592b0a854f72b6d81d201f71a9ed15bf4dcfab1402d340f41d, false, 0xf146c4cbd76923435df1b768858ab5601662daa57b6ce530edac8b68020, false, 0x4b5c7138dcea5f34d9e65b1f303942e11db83d6d2a7ee03355e10e2481f, 0xc03a94b2d3e64);
    FourSteps(0x7b08ccbe4749ceb24c5edd1bcdf1f473d4aac9b13960ce85a31117c6622, 0x1db8260e5e3b460a46a0088fccf6a3a5936d75d89a776d4c0da4f338aafb, 0xc03a94b2d3e64, 0x4b5c7138dcea5f34d9e65b1f303942e11db83d6d2a7ee03355e10e2481f, false, 0x22833a5fca0992f19d379bc80a295ada9d6264284c2e49f004be4041c7d, true, 0xa3f2282ec27fdc570408c1779d36223b30d1f5e63b96e62b83ac93b8753, false, 0x1c89b60ba028f8f91921a3766a768bf73679e450354f86ab7b77212ff8b0, false, 0x1f1e2735b9717e5ff9ef20916ef0213ddf902bc877b85a1110573e8ef17, 0xc03a94b2d3e644);
    FourSteps(0x7b08ccbe4749ceb24c5edd1bcdf1f473d4aac9b13960ce85a31117c6622, 0x1db8260e5e3b460a46a0088fccf6a3a5936d75d89a776d4c0da4f338aafb, 0xc03a94b2d3e644, 0x1f1e2735b9717e5ff9ef20916ef0213ddf902bc877b85a1110573e8ef17, false, 0x127e4e43e70fc957488586925f9c7b97eca830ab530dba93dbc4d016f4c0, false, 0x810a1d0515b240cc70d2891a1fdad361c4b51a68de5d6252cfdf8e9dc61, false, 0x179f1f25be1ca48f5f40ee83e8769ef657d1707f33519b233ffecc2b5c3e, true, 0x3e0adfe6b211e99d6cecb6457b030b6bb2926b42cd37a0445c01b89242c, 0xc03a94b2d3e6441);
    FourSteps(0x7b08ccbe4749ceb24c5edd1bcdf1f473d4aac9b13960ce85a31117c6622, 0x1db8260e5e3b460a46a0088fccf6a3a5936d75d89a776d4c0da4f338aafb, 0xc03a94b2d3e6441, 0x3e0adfe6b211e99d6cecb6457b030b6bb2926b42cd37a0445c01b89242c, true, 0x12f28c3998a6c7db2645c520f964fb4a98a0aeb33ef57ddc6078d51c452d, false, 0x156c73cb642683bf6232d602d9353958a9f05d64492df31df8dbc5b6236f, false, 0x13334b092767233e76ef90fc8d92a2714f6f2120d4d2f547571c25e054f2, true, 0x174b3eadae28f225e73619bc54c560611e1a0ee7462c46324b4e659cbffd, 0xc03a94b2d3e64419);
    FourSteps(0x7b08ccbe4749ceb24c5edd1bcdf1f473d4aac9b13960ce85a31117c6622, 0x1db8260e5e3b460a46a0088fccf6a3a5936d75d89a776d4c0da4f338aafb, 0xc03a94b2d3e64419, 0x174b3eadae28f225e73619bc54c560611e1a0ee7462c46324b4e659cbffd, true, 0xbcbf7bb2f1ead6604506c9206743f7d82310216e67300b5cf0d2c83a229, false, 0x19c2e1362a06fe1cf067173743bf05d74e0be12d4c2f92fd9a276e96f03d, true, 0xfc819da4ff64d23b976e4c734fe0ad9c9c0a617fb753c9bb861dbd14ab7, false, 0xfe4ece2cef766107a2ec60f4d5e7941827fa299fa8f01cfa5b6bb1e5e7, 0xc03a94b2d3e64419a);
    FourSteps(0x7b08ccbe4749ceb24c5edd1bcdf1f473d4aac9b13960ce85a31117c6622, 0x1db8260e5e3b460a46a0088fccf6a3a5936d75d89a776d4c0da4f338aafb, 0xc03a94b2d3e64419a, 0xfe4ece2cef766107a2ec60f4d5e7941827fa299fa8f01cfa5b6bb1e5e7, false, 0xc3316ec7354174b6e316fab4278b1b764a12806b1b554fe8478bd0d6adc, false, 0x3b6c30422b0df4f1bab5b213458f01f069cc53ff8dd975178d653b4ebe7, false, 0xa579c25ffa3c97b9c6201901c89c4a5817f24d43e9ac2729242c034011b, false, 0x137166e8f03a99e1e9835ffde1e475d8dfb6c68ba5c11000f146219b6774, 0xc03a94b2d3e64419a0);
    FourSteps(0x7b08ccbe4749ceb24c5edd1bcdf1f473d4aac9b13960ce85a31117c6622, 0x1db8260e5e3b460a46a0088fccf6a3a5936d75d89a776d4c0da4f338aafb, 0xc03a94b2d3e64419a0, 0x137166e8f03a99e1e9835ffde1e475d8dfb6c68ba5c11000f146219b6774, false, 0x1cdebb190f31441fb0007e8f4352df81b8e6010ce623122e75b8d5a797be, true, 0x1747a1d609cb35853be519c8a3858ffd3e3ffffec7e38d1460773af1f589, false, 0x871cdfd7655e65dfde5d99caf7c15f426d2905a11608e936021ec3144d3, true, 0x1314cabb33e7734a079eaf4399a2055a4503c3e5ba2f7fa138d6e39fd8f8, 0xc03a94b2d3e64419a05);
    FourSteps(0x7b08ccbe4749ceb24c5edd1bcdf1f473d4aac9b13960ce85a31117c6622, 0x1db8260e5e3b460a46a0088fccf6a3a5936d75d89a776d4c0da4f338aafb, 0xc03a94b2d3e64419a05, 0x1314cabb33e7734a079eaf4399a2055a4503c3e5ba2f7fa138d6e39fd8f8, true, 0xe7029418f59737e67f1cd9c8a47338faeb462777068e52cbdf789f5446c, true, 0x1193764eca9cc482e7990dbf5f0764136ec7ff294450293554a0e7558763, false, 0x1645d6efeb6154424216f9423bd686f943d54ec124321de8391634fc58fd, false, 0xc0d0990983a9d7063b582c7234ad64a9afac8a84a0bf9656b408b8ccf9e, 0xc03a94b2d3e64419a05c);
    FourSteps(0x7b08ccbe4749ceb24c5edd1bcdf1f473d4aac9b13960ce85a31117c6622, 0x1db8260e5e3b460a46a0088fccf6a3a5936d75d89a776d4c0da4f338aafb, 0xc03a94b2d3e64419a05c, 0xc0d0990983a9d7063b582c7234ad64a9afac8a84a0bf9656b408b8ccf9e, true, 0x392c1f9c1dd679e2734f29cd7099fa8de1e8f9c652455bec135f17409e1, true, 0x44496cbb67fcb82da682701ede22a7d65328bb9321beb76d5e8e8e819d2, false, 0x12e9c562015c0cd87357c87f89c3fe75dacbea05f6d301dc6e46bbf63b88, true, 0xeea3c78bd6b30aa8304079d99982c2f89d7609e025b39266bd2d47de939, 0xc03a94b2d3e64419a05cd);
    FourSteps(0x7b08ccbe4749ceb24c5edd1bcdf1f473d4aac9b13960ce85a31117c6622, 0x1db8260e5e3b460a46a0088fccf6a3a5936d75d89a776d4c0da4f338aafb, 0xc03a94b2d3e64419a05cd, 0xeea3c78bd6b30aa8304079d99982c2f89d7609e025b39266bd2d47de939, true, 0x13d39cd40c89b1754fb17bb250cabae2424e19e0d8feee9c1ba137c4f154, false, 0x12a2bc0bc8da21ccb93739688bc34783bca984e02c160eee415bc47f2794, false, 0x1af4c01e5cfd944334a5c0faab6922acd5b449b998a1d55efe7c28887a49, false, 0x2e602ca74f75432e1b4503adcd17e83b26c72c3e6d690a77857f45de10a, 0xc03a94b2d3e64419a05cd8);
    FourSteps(0x7b08ccbe4749ceb24c5edd1bcdf1f473d4aac9b13960ce85a31117c6622, 0x1db8260e5e3b460a46a0088fccf6a3a5936d75d89a776d4c0da4f338aafb, 0xc03a94b2d3e64419a05cd8, 0x2e602ca74f75432e1b4503adcd17e83b26c72c3e6d690a77857f45de10a, true, 0x7be8c6fb6960234a53967f89ebbbee10c7412dc4502174e554f15825117, true, 0x1b7bf7a208e220037b0a4b31475b29ce478e1239b21380bfc203b540e47b, false, 0x1cb25d7bebfa96b85cc23f928b74ea3e1931fb0fc88cbb7c222de376da29, false, 0xaeac6e1cf6603b141ff8a89d4da6388728c0a9a6145235d3606c0a8e60b, 0xc03a94b2d3e64419a05cd8c);
    FourSteps(0x7b08ccbe4749ceb24c5edd1bcdf1f473d4aac9b13960ce85a31117c6622, 0x1db8260e5e3b460a46a0088fccf6a3a5936d75d89a776d4c0da4f338aafb, 0xc03a94b2d3e64419a05cd8c, 0xaeac6e1cf6603b141ff8a89d4da6388728c0a9a6145235d3606c0a8e60b, true, 0x1762b7228ce69adc45e6e96bd305ebb28fe8a935277bb726fc561d66be73, true, 0xd62cee5c9d532ef53b6ea9d80de0f4e5fb1100228897d85e8376c774d9, false, 0x36fad2d9c5c717f40fc375b2ef2b2137d71b436b751b4558c58f3365d84, false, 0x16ee10354a9c26a1589be6362f3aed72b452ab28b2b81018dab7c032dfab, 0xc03a94b2d3e64419a05cd8cc);
    FourSteps(0x7b08ccbe4749ceb24c5edd1bcdf1f473d4aac9b13960ce85a31117c6622, 0x1db8260e5e3b460a46a0088fccf6a3a5936d75d89a776d4c0da4f338aafb, 0xc03a94b2d3e64419a05cd8cc, 0x16ee10354a9c26a1589be6362f3aed72b452ab28b2b81018dab7c032dfab, true, 0x15824d60a8adfcf789e7b3fbcafc2fe390d7546fbdc25fe3f9491e578aa, false, 0x1c8a7ce61e90925396510f3a004a4f7b7ffbe48829c8b823360c1d7d33a6, true, 0x10d1d3e2265d58ba8fb58c28df2d1a914fa80215c5c3224c1cdfef7c93aa, true, 0x11e8d65169704656218bedc5c4fee82b9b3382167ffbc9def22d0d3f9ed6, 0xc03a94b2d3e64419a05cd8ccb);
    FourSteps(0x7b08ccbe4749ceb24c5edd1bcdf1f473d4aac9b13960ce85a31117c6622, 0x1db8260e5e3b460a46a0088fccf6a3a5936d75d89a776d4c0da4f338aafb, 0xc03a94b2d3e64419a05cd8ccb, 0x11e8d65169704656218bedc5c4fee82b9b3382167ffbc9def22d0d3f9ed6, true, 0x1cb89685aed2e9e2a802d8e65613bb8b849ac51c9fa18da29a56d1f28957, true, 0x5e3963bf53e7dacaee78ac6f5865ae6da2e9ace45b26651ae4e76ea3a75, true, 0x1846586b7f246ae67aa3c93bfd028d29eb053f1b95e1c5afbdaf54691fa8, true, 0x18e37661188b7046d7b84aea62c3a0471c6a58d62918436c3e350fd4f9ec, 0xc03a94b2d3e64419a05cd8ccbf);
    FourSteps(0x7b08ccbe4749ceb24c5edd1bcdf1f473d4aac9b13960ce85a31117c6622, 0x1db8260e5e3b460a46a0088fccf6a3a5936d75d89a776d4c0da4f338aafb, 0xc03a94b2d3e64419a05cd8ccbf, 0x18e37661188b7046d7b84aea62c3a0471c6a58d62918436c3e350fd4f9ec, true, 0x12a6d57cd0fdd7ae95912ff04b7132bb677bfac4955b149d16c2b76d8100, false, 0x460de613654d8540c47cbaa225d4337211d69d53a59c6ddbffffa904196, false, 0x137de0b46e79097315cff2930d8a38f70548f914d497aa7e522f2ba694f1, true, 0x23edf362cd298b54a3a345e2875c2cf046da2027ef2953a70f8cb5858ea, 0xc03a94b2d3e64419a05cd8ccbf9);
    FourSteps(0x7b08ccbe4749ceb24c5edd1bcdf1f473d4aac9b13960ce85a31117c6622, 0x1db8260e5e3b460a46a0088fccf6a3a5936d75d89a776d4c0da4f338aafb, 0xc03a94b2d3e64419a05cd8ccbf9, 0x23edf362cd298b54a3a345e2875c2cf046da2027ef2953a70f8cb5858ea, true, 0x7ecb1634514f51e089c7bb27d397941cb7d4ffe4273adba38494205967a, false, 0xbd10499aca5bd8b05291eb01cbd5d58a66a29e6f5bc2482996cee0f7afd, false, 0xf8e873b8fb8040072f2add9ca09c75bfce1b71105d79178d128b7018416, false, 0x191b8ea88e33b03522e3f645bf396fba7e2ac9ae2c9026298bedc9f1b464, 0xc03a94b2d3e64419a05cd8ccbf98);
    FourSteps(0x7b08ccbe4749ceb24c5edd1bcdf1f473d4aac9b13960ce85a31117c6622, 0x1db8260e5e3b460a46a0088fccf6a3a5936d75d89a776d4c0da4f338aafb, 0xc03a94b2d3e64419a05cd8ccbf98, 0x191b8ea88e33b03522e3f645bf396fba7e2ac9ae2c9026298bedc9f1b464, false, 0xb3341c312de0ffb66ff0d927ed095b2ad7666b8399c15dcb10414608b97, true, 0x1c2e6c13dc24ce02b301e1c5b597e626a44814c94b166463071c07eac596, true, 0xf829ef282049499bed423399aaacb5fdad06eb919a6938b4db7b5453d19, true, 0x14600d0ca43aecf3dcbe2e5998496c7a95763f0b3caea5aeff32c0ecfcbe, 0xc03a94b2d3e64419a05cd8ccbf987);
    FourSteps(0x7b08ccbe4749ceb24c5edd1bcdf1f473d4aac9b13960ce85a31117c6622, 0x1db8260e5e3b460a46a0088fccf6a3a5936d75d89a776d4c0da4f338aafb, 0xc03a94b2d3e64419a05cd8ccbf987, 0x14600d0ca43aecf3dcbe2e5998496c7a95763f0b3caea5aeff32c0ecfcbe, false, 0xfb4c3e24ff72e56bff4205f1f0d699637d0f359fe4962b163fb1cca844f, false, 0x1a3a8b74c4241e7221db84a3ffeb5a407323987e905f706dc28c9c28117f, false, 0xd75d6b5aea8d03cdd93d108053c5086d31beeaed71b27169de8a625a132, false, 0x2210cc68b964ba3e45cc889e3d0a0567b4cb86f93abf3d6cef69ff095f4, 0xc03a94b2d3e64419a05cd8ccbf9870);
    FourSteps(0x7b08ccbe4749ceb24c5edd1bcdf1f473d4aac9b13960ce85a31117c6622, 0x1db8260e5e3b460a46a0088fccf6a3a5936d75d89a776d4c0da4f338aafb, 0xc03a94b2d3e64419a05cd8ccbf9870, 0x2210cc68b964ba3e45cc889e3d0a0567b4cb86f93abf3d6cef69ff095f4, false, 0x11feab2ad514f80db889c24f41b2ef6e424f0aac41dbfa24f0acbd90da94, true, 0x1bb3a4d20ea75fb5aa39dd0d06d16a5e47bed7a986d635a729da651e8b17, true, 0x7b9525fa47a569e80d83096b7839be6e4ea65935449e98f731d403f6d85, false, 0xe3243b57025073c59f28780d20cee1bec8f367eaa6f8a6ff1df42addcbe, 0xc03a94b2d3e64419a05cd8ccbf98706);
    FourSteps(0x7b08ccbe4749ceb24c5edd1bcdf1f473d4aac9b13960ce85a31117c6622, 0x1db8260e5e3b460a46a0088fccf6a3a5936d75d89a776d4c0da4f338aafb, 0xc03a94b2d3e64419a05cd8ccbf98706, 0xe3243b57025073c59f28780d20cee1bec8f367eaa6f8a6ff1df42addcbe, true, 0xacef3ed62d06a38f8c1a22dfafaaf8307f636b023d7c4411084c7157369, false, 0x17b865daa7d6434defb0c1a2cfc2967921cf3d6909859ec69566d44b4110, false, 0x84abd834f410a145e8196091c147329c2d785626c185839b30da53fbd4c, true, 1, 0xc03a94b2d3e64419a05cd8ccbf987069);
    PrimeByOneFactor(0x1db8260e5e3b460a46a0088fccf6a3a5936d75d89a776d4c0da4f338aafb, 0xc03a94b2d3e64419a05cd8ccbf987069, 0x7b08ccbe4749ceb24c5edd1bcdf1f473d4aac9b13960ce85a31117c6622, 0xbce1bae6645f252963752a74333138f457aaf3fbc9c842fbcd0b8d48aeb);
  }

  lemma CofactorPower()
    ensures Pow(0xfffffffffffffffffffffffffffffffffffffffffffffffffffffffefffffc28, 0x2df0e) % 0xfffffffffffffffffffffffffffffffffffffffffffffffffffffffefffffc2f == 0x3652c9e48bca27848b6c498b047f14b6b101a39b9d2572f7ba579b28ece43d86
  {
    hide Pow;
    PowZero(0xfffffffffffffffffffffffffffffffffffffffffffffffffffffffefffffc28, 0xfffffffffffffffffffffffffffffffffffffffffffffffffffffffefffffc2f);
    FourSteps(0xfffffffffffffffffffffffffffffffffffffffffffffffffffffffefffffc28, 0xfffffffffffffffffffffffffffffffffffffffffffffffffffffffefffffc2f, 0, 1, false, 1, false, 1, true, 0xfffffffffffffffffffffffffffffffffffffffffffffffffffffffefffffc28, false, 0x31, 2);
    FourSteps(0xfffffffffffffffffffffffffffffffffffffffffffffffffffffffefffffc28, 0xfffffffffffffffffffffffffffffffffffffffffffffffffffffffefffffc2f, 2, 0x31, true, 0xfffffffffffffffffffffffffffffffffffffffffffffffffffffffeffffba88, true, 0xfffffffffffffffffffffffffffffffffffffffffffffffffffffffe8a245f98, false, 0x3642798750226111, true, 0xffffffffffffffffffffffffffffffffaf7f38482f1ce458a6ee598122c2c648, 0x2d);
    FourSteps(0xfffffffffffffffffffffffffffffffffffffffffffffffffffffffefffffc28, 0xfffffffffffffffffffffffffffffffffffffffffffffffffffffffefffffc2f, 0x2d, 0xffffffffffffffffffffffffffffffffaf7f38482f1ce458a6ee598122c2c648, true, 0x4ecad0c184bd261489f8770a78f3fc21e4c48e26f5f4b97349174afc05f3bf18, true, 0x6ba944cb779469cc11422902385c2e3885c10c931b31cce04a183f80a7c8dac9, true, 0x43400f0a0ea11a9b97bc80eed40bad0a9c6cfc1c2a08d9c8f60e747807d8ec3, true, 0xa7056bd46e4fbcab8edf798c14e5aa3c95d9cb7fa0f43ea54659ae3410d88d81, 0x2df);
    FourSteps(0xfffffffffffffffffffffffffffffffffffffffffffffffffffffffefffffc28, 0xfffffffffffffffffffffffffffffffffffffffffffffffffffffffefffffc2f, 0x2df, 0xa7056bd46e4fbcab8edf798c14e5aa3c95d9cb7fa0f43ea54659ae3410d88d81, false, 0x6a9252e654988c00ca966cea0ad783ba760f3bba603c96cbb1ee5cdc647bbc91, false, 0xc9ff43df053cf46147a60154296e56ab4c4175b02a0f6cdd7c76ef4370f2e807, false, 0x8ebf92118f624dfaba46f403364dda3c8cdbcbfe87d00b33403cf34b8898ac7, false, 0x2a4fbd881d083d77f52b4b7d2c296b40c0f3c3b07d0cdba85db56c2f07bfad43, 0x2df0);
    FourSteps(0xfffffffffffffffffffffffffffffffffffffffffffffffffffffffefffffc28, 0xfffffffffffffffffffffffffffffffffffffffffffffffffffffffefffffc2f, 0x2df0, 0x2a4fbd881d083d77f52b4b7d2c296b40c0f3c3b07d0cdba85db56c2f07bfad43, true, 0x8eed98e7d49bb67ddb35081ef92657cc9e6b8045f64c3b815d0e5b267b96763c, true, 0x6adc9ac4ac5f4f5f8562e9acbfdd3ad37ca750624e8d2e7c90cd2d475d9a5b18, true, 0xe9cc17194b2ede948569f14804d70e2ee83e04f84a3373b18aca519a3884e5c2, false, 0x3652c9e48bca27848b6c498b047f14b6b101a39b9d2572f7ba579b28ece43d86, 0x2df0e);
  }

  lemma CubeRootOfOne()
    ensures Pow(0x3652c9e48bca27848b6c498b047f14b6b101a39b9d2572f7ba579b28ece43d86, 0x1db8260e5e3b460a46a0088fccf6a3a5936d75d89a776d4c0da4f338aafb) % 0xfffffffffffffffffffffffffffffffffffffffffffffffffffffffefffffc2f == 0x7ae96a2b657c07106e64479eac3434e99cf0497512f58995c1396c28719501ee
  {
    hide Pow;
    PowZero(0x3652c9e48bca27848b6c498b047f14b6b101a39b9d2572f7ba579b28ece43d86, 0xfffffffffffffffffffffffffffffffffffffffffffffffffffffffefffffc2f);
    FourSteps(0x3652c9e48bca27848b6c498b047f14b6b101a39b9d2572f7ba579b28ece43d86, 0xfffffffffffffffffffffffffffffffffffffffffffffffffffffffefffffc2f, 0, 1, false, 1, false, 1, false, 1, true, 0x3652c9e48bca27848b6c498b047f14b6b101a39b9d2572f7ba579b28ece43d86, 1);
    FourSteps(0x3652c9e48bca27848b6c498b047f14b6b101a39b9d2572f7ba579b28ece43d86, 0xfffffffffffffffffffffffffffffffffffffffffffffffffffffffefffffc2f, 1, 0x3652c9e48bca27848b6c498b047f14b6b101a39b9d2572f7ba579b28ece43d86, true, 0x3db223c3b5983b2656c15a924405ca706a7873c11455124a51c2a318d0b125b, true, 0xceac712409181a496024ed187e02c8ac782a5adda7c0382b57ff7c5d04b2b050, false, 0xd338824e0349a9832dc48d8c5bea7a6c37730d8ca25b34d65efcdb54a6c368ee, true, 0x19fd752fdd42b57e4821142a6c559b5a9cd504693efe4a6b2a85cf74386c5876, 0x1d);
    FourSteps(0x3652c9e48bca27848b6c498b047f14b6b101a39b9d2572f7ba579b28ece43d86, 0xfffffffffffffffffffffffffffffffffffffffffffffffffffffffefffffc2f, 0x1d, 0x19fd752fdd42b57e4821142a6c559b5a9cd504693efe4a6b2a85cf74386c5876, true, 0xda97c0cf5110c480130e6ab0d7e348e75c5df1b132e4925f44ddbe501c53d20, false, 0xb6f6ccc1c46931015c9a792c30d21deaf177a52faeda67e73e354f444628bbfc, true, 0xde7f297b221c953110769e79c676f779ded2048db19a313668172dc62aadde67, true, 0xdd70c50c631372643cceaccba8af2652f1eab9729c9326256e72408a7b104c06, 0x1db);
    FourSteps(0x3652c9e48bca27848b6c498b047f14b6b101a39b9d2572f7ba579b28ece43d86, 0xfffffffffffffffffffffffffffffffffffffffffffffffffffffffefffffc2f, 0x1db, 0xdd70c50c631372643cceaccba8af2652f1eab9729c9326256e72408a7b104c06, true, 0x28c9a152129addde09da3e4b3e8103425e818e91f102249a2eb4e9f5e68ca586, false, 0xb5dcf7d4155fc3cdfd6dc1ecfa4b788ec39fbf7f8104f7bbeb6acbc10de5c512, false, 0x6d094f1ccd684d85ea6373abedb78ec7d859bc153a9ef3a7694d704a9938c967, false, 0x5806b76aeef396d2b9f103aa2fb0f6c2e87b7762a03ca8c3b2e513c7bf83fce, 0x1db8);
    FourSteps(0x3652c9e48bca27848b6c498b047f14b6b101a39b9d2572f7ba579b28ece43d86, 0xfffffffffffffffffffffffffffffffffffffffffffffffffffffffefffffc2f, 0x1db8, 0x5806b76aeef396d2b9f103aa2fb0f6c2e87b7762a03ca8c3b2e513c7bf83fce, false, 0x9dfebb418ab7a695e6c25e5f3c92390d836314bdf3cd2e4f993bc6a77dc7d5e, false, 0x7c62a320a556e76006d133fdf14eaaf0ab50c088b58ba779167d4aa89efc5e3f, true, 0x145ff21f3839fd62c0e79d8a82d8b48001f62f3180c8aedd378447bf81d8b32f, false, 0x4ed266ea3491c0534dfd2d3fd204bff5283113622133770ab970118dff5715f9, 0x1db82);
    FourSteps(0x3652c9e48bca27848b6c498b047f14b6b101a39b9d2572f7ba579b28ece43d86, 0xfffffffffffffffffffffffffffffffffffffffffffffffffffffffefffffc2f, 0x1db82, 0x4ed266ea3491c0534dfd2d3fd204bff5283113622133770ab970118dff5715f9, false, 0x34039479e47a03cb0e570d01fc777c96c30cbdd11e8707b81cb03338bab7946a, true, 0x2a6a83ba3e407de82ee4f06a06908c37d1fea117a2adc17e817dc7872fe1107e, true, 0x8198e50a1b1e54f498ff7db4641d8058a98338eb1f30a7ecff8fd2a1f74adb96, false, 0xbee2e739ab016f61c4ea3f1b438e4c17806e6fde4be5430ea0aa254e3f773195, 0x1db826);
    FourSteps(0x3652c9e48bca27848b6c498b047f14b6b101a39b9d2572f7ba579b28ece43d86, 0xfffffffffffffffffffffffffffffffffffffffffffffffffffffffefffffc2f, 0x1db826, 0xbee2e739ab016f61c4ea3f1b438e4c17806e6fde4be5430ea0aa254e3f773195, false, 0x4aa6ea654df1418d62fae4931b660601f040dcfa5338777d78a725a5a90839b9, false, 0x4edc267c00b7640cfb26b7627b93c57a720880295a699cd40886cc4bfe661be7, false, 0x918fbadb1ea8ec052d38c920cdd2926fa2692bc214cc0ac78c57bfaf9f931756, false, 0xf54dd24b997e35480f2dd92be6b85ec33e4100d06d3a4f07c29bf0d99e38b8ff, 0x1db8260);
    FourSteps(0x3652c9e48bca27848b6c498b047f14b6b101a39b9d2572f7ba579b28ece43d86, 0xfffffffffffffffffffffffffffffffffffffffffffffffffffffffefffffc2f, 0x1db8260, 0xf54dd24b997e35480f2dd92be6b85ec33e4100d06d3a4f07c29bf0d99e38b8ff, true, 0x98fc14b13ac3f8f0313756c14759f4895a764a786fea919c8b9397873a66b9da, true, 0x18418d8d64378d305294c2e121166e62eb9aa34c4afae32b0e12bb1eabbcd4d9, true, 0x470f4cc2432429490e45d86adca2643324aece9ad4ef6af26ed73ca6f7cda452, false, 0x796fc9378ac7dcf5bd37e8f2dc57b37cd0ea348e0565312086b2d46520f150d0, 0x1db8260e);
    FourSteps(0x3652c9e48bca27848b6c498b047f14b6b101a39b9d2572f7ba579b28ece43d86, 0xfffffffffffffffffffffffffffffffffffffffffffffffffffffffefffffc2f, 0x1db8260e, 0x796fc9378ac7dcf5bd37e8f2dc57b37cd0ea348e0565312086b2d46520f150d0, false, 0xd27c7461d7f7a08cd864571940000ea9e4e5e1152650dbaed6f1b31bf833af07, true, 0xfcf656cd73f1281d8a90bb1cb4af0a099370536711c626bdda9eddff2112852, false, 0x1188a35eafa2efb437c455804afc184df6b975e8d087b7f4c9eba9a6231cddc, true, 0xcd189aa546254814e2d678811f00144bde6e3088a9635defb9ee83b7335df01, 0x1db8260e5);
    FourSteps(0x3652c9e48bca27848b6c498b047f14b6b101a39b9d2572f7ba579b28ece43d86, 0xfffffffffffffffffffffffffffffffffffffffffffffffffffffffefffffc2f, 0x1db8260e5, 0xcd189aa546254814e2d678811f00144bde6e3088a9635defb9ee83b7335df01, true, 0x91bfef0dea6c12eeb57eaddb7163e3519995ef06b4b14f6b1b75c83d5846c955, true, 0x2011e0ebf1ef5a82ac44c0b1b3afe6ee5fc1a801415b679ad87c173b62cb5d40, true, 0x4995b59be28026e25192ac7670453737666750fca3c9b10fd586c03da47502a6, false, 0x40a1bb0563779bed8f0cc262a6ec6048de590ca7fa9c8280d089fecebb373c39, 0x1db8260e5e);
    FourSteps(0x3652c9e48bca27848b6c498b047f14b6b101a39b9d2572f7ba579b28ece43d86, 0xfffffffffffffffffffffffffffffffffffffffffffffffffffffffefffffc2f, 0x1db8260e5e, 0x40a1bb0563779bed8f0cc262a6ec6048de590ca7fa9c8280d089fecebb373c39, false, 0x845359acb8c0af88db6d641687e8414c863c6fdd4d277850644eb50517c7e46, false, 0x506a72c0fbd8823d0f4c55724c8c747cd5d1cac4a700a717c3eef65b8f505a5e, true, 0x7e036a59e904e6a12f56b6d587eaff5e0409a62ae7e416dcd1cb4c452b6259ac, true, 0x42154a9e58672f8e144169a1bdf83fcf301f7e0c45ba445bc3f212c4378613ff, 0x1db8260e5e3);
    FourSteps(0x3652c9e48bca27848b6c498b047f14b6b101a39b9d2572f7ba579b28ece43d86, 0xfffffffffffffffffffffffffffffffffffffffffffffffffffffffefffffc2f, 0x1db8260e5e3, 0x42154a9e58672f8e144169a1bdf83fcf301f7e0c45ba445bc3f212c4378613ff, true, 0xd1f09c6627962757fafc00ac33158daf99de74d8b6ed0d6f89e0a055b702a512, false, 0xdf43335cc5dd1de1ead7b9512cc009feddc49a6860bf7623ef786f3d23b35e, true, 0x97815c03fc1f322fb6659ab3330ab1a6fcd38ffa3ff0fa498a8f65b4e1a46465, true, 0x64879b48837295b0a8cb4f292d764ea5402864c02b613ecd842c8b8423da98cd, 0x1db8260e5e3b);
    FourSteps(0x3652c9e48bca27848b6c498b047f14b6b101a39b9d2572f7ba579b28ece43d86, 0xfffffffffffffffffffffffffffffffffffffffffffffffffffffffefffffc2f, 0x1db8260e5e3b, 0x64879b48837295b0a8cb4f292d764ea5402864c02b613ecd842c8b8423da98cd, false, 0xce55105b3277b5facf81e7775f418754a1cea81b2c9fcf633a44db47a27e1790, true, 0x1d88ccb860736706644a1cd142ddb7b5b77533aa91c28cb94482b1d15aa96c45, false, 0x66f46b583083619370fecd3cfd792410389da92119226e81393c58e86732249a, false, 0x1abbd0184199b440be8a59237767410cf96c5ea0484a3497533cec9811a1de28, 0x1db8260e5e3b4);
    FourSteps(0x3652c9e48bca27848b6c498b047f14b6b101a39b9d2572f7ba579b28ece43d86, 0xfffffffffffffffffffffffffffffffffffffffffffffffffffffffefffffc2f, 0x1db8260e5e3b4, 0x1abbd0184199b440be8a59237767410cf96c5ea0484a3497533cec9811a1de28, false, 0xce1da6d77fd2412c3b4461bb48e4d4ddd3d9fd6b4223de8ba24d29d75bff45b4, true, 0x7cf191fcfc8bcbf5efff6cab1c71c8949147934022565d69fef9cbe9c428697c, true, 0x547e781676296e6ce6bb05bff4ec2b85b7e788d6664daa8050ddd630fcc4008a, false, 0x42834fcbe4f0ca54262dd855491564141692944ca188846347041136e7dd5cdb, 0x1db8260e5e3b46);
    FourSteps(0x3652c9e48bca27848b6c498b047f14b6b101a39b9d2572f7ba579b28ece43d86, 0xfffffffffffffffffffffffffffffffffffffffffffffffffffffffefffffc2f, 0x1db8260e5e3b46, 0x42834fcbe4f0ca54262dd855491564141692944ca188846347041136e7dd5cdb, false, 0xfd0f4612251c7969187e3e9e85501c6aeb359e6582d0f933f4948bc76d7cf595, false, 0xb7068cdbff566af0405b77f8cbd8158bcc4d14ac9d1056371577f3e3a57c654c, false, 0x812952e9bc02805e756e937440bc36860b3ba24230af0a49ade65815e7597913, false, 0x909bba24a7de91b36d0c6ef1834e23452c7b3222555a6b7d5adcf22b76eb66e8, 0x1db8260e5e3b460);
    FourSteps(0x3652c9e48bca27848b6c498b047f14b6b101a39b9d2572f7ba579b28ece43d86, 0xfffffffffffffffffffffffffffffffffffffffffffffffffffffffefffffc2f, 0x1db8260e5e3b460, 0x909bba24a7de91b36d0c6ef1834e23452c7b3222555a6b7d5adcf22b76eb66e8, true, 0xbb9ac23ab65612a07f7be83ecc3ed051838a2b3a9862bdaf695b81434fff616b, false, 0x216d64c4c893372465236687be7a6eb4168d66576436a56df16fce7859629486, true, 0x6962476fb5c9ae253a3ce1552ea45b9ac62bd3666f78c39cf069f577d32cfd9a, false, 0xf1aa273da4ffd9d0b3726d9d244d8aa34282985f89cacc68465ca8fcb18d8ded, 0x1db8260e5e3b460a);
    FourSteps(0x3652c9e48bca27848b6c498b047f14b6b101a39b9d2572f7ba579b28ece43d86, 0xfffffffffffffffffffffffffffffffffffffffffffffffffffffffefffffc2f, 0x1db8260e5e3b460a, 0xf1aa273da4ffd9d0b3726d9d244d8aa34282985f89cacc68465ca8fcb18d8ded, false, 0xd52bdde38c43616ecde1d5367e984373d720da85b27f1726676b56e47844e86a, true, 0x29f04aa01a89ebf13c04c1a64ee8c600a91e858af131d4a3711edd4b0104bad2, false, 0x5df6156b5783d6502329c034266700f578df92f0591e3cac7b169be0d60cf22c, false, 0xa42b8cbbd294f6b4c58d11cd0b10991cfeb6ee30476911be6d61962b72601f84, 0x1db8260e5e3b460a4);
    FourSteps(0x3652c9e48bca27848b6c498b047f14b6b101a39b9d2572f7ba579b28ece43d86, 0xfffffffffffffffffffffffffffffffffffffffffffffffffffffffefffffc2f, 0x1db8260e5e3b460a4, 0xa42b8cbbd294f6b4c58d11cd0b10991cfeb6ee30476911be6d61962b72601f84, false, 0x7b6f4ed847e4c94db29bb2cf2fc441d3b553e2f88e96ed53875dee753d0827ef, true, 0xd03e435cf9ca65d2ad54c4b5dfad4bbdeebc3aecbe0bf1ebd707af665c7c3d1, true, 0x95d0c11e67bf0e4ceed4cec2e100ebc736b6df4bb1cae14df848f0be9f6ca2b8, false, 0x336175cf815ba703a2bdb11f9d7eacad2c3e84e7ffcf32ca50a150658c0e9217, 0x1db8260e5e3b460a46);
    FourSteps(0x3652c9e48bca27848b6c498b047f14b6b101a39b9d2572f7ba579b28ece43d86, 0xfffffffffffffffffffffffffffffffffffffffffffffffffffffffefffffc2f, 0x1db8260e5e3b460a46, 0x336175cf815ba703a2bdb11f9d7eacad2c3e84e7ffcf32ca50a150658c0e9217, true, 0x7755c53fa49488f2bad8812070224d29054b737c6ed0da4da645e48aefb0fb48, false, 0x2523f4c4e269350336e7f6c88d6d181675d3f98c61b831913cc7a8e45a3a36e6, true, 0x3c48e46d3736bf5cb3fd333bf136892cd5bfcd257636c27de108539f3e6603f5, false, 0xc1fd432610bbadbc05e507e58fede488a08a1d03b613eb66f59b8038d5ea3c6a, 0x1db8260e5e3b460a46a);
    FourSteps(0x3652c9e48bca27848b6c498b047f14b6b101a39b9d2572f7ba579b28ece43d86, 0xfffffffffffffffffffffffffffffffffffffffffffffffffffffffefffffc2f, 0x1db8260e5e3b460a46a, 0xc1fd432610bbadbc05e507e58fede488a08a1d03b613eb66f59b8038d5ea3c6a, false, 0xbe5999002ea07a05724342db29ff733e022e2be352414bd9939684d4fc914831, false, 0x3c1e1be5959e48e0d1602c5bf769ff22ce2c1004f97a5ff9de40073b7f4326be, false, 0x81f2031d72ac05e9e5f8fc6b045cfa481fa6f999c6181952316e3a52a04be814, false, 0xdd3e499e4e194d9c02c2ab159381783b1ddafc54bd126e2585e1049d89b4e5e3, 0x1db8260e5e3b460a46a0);
    FourSteps(0x3652c9e48bca27848b6c498b047f14b6b101a39b9d2572f7ba579b28ece43d86, 0xfffffffffffffffffffffffffffffffffffffffffffffffffffffffefffffc2f, 0x1db8260e5e3b460a46a0, 0xdd3e499e4e194d9c02c2ab159381783b1ddafc54bd126e2585e1049d89b4e5e3, false, 0x81281918f226ba9b881ca4eb02da2e2e26a27a6e857c533efcbe9f9406fbf60a, false, 0x7f7f440bd289c73746c585b66a0d92b92dc399e9eeea6653e2c2476320d2df33, false, 0x56ddb2ccfbdaa510ed199e7272b6c1ae94b043489e5f3ce8c621a338818e77db, false, 0x1646805fc47aff0dfdda775067cef1f4720927f17d6d9c0e0bcb63cf3537ec37, 0x1db8260e5e3b460a46a00);
    FourSteps(0x3652c9e48bca27848b6c498b047f14b6b101a39b9d2572f7ba579b28ece43d86, 0xfffffffffffffffffffffffffffffffffffffffffffffffffffffffefffffc2f, 0x1db8260e5e3b460a46a00, 0x1646805fc47aff0dfdda775067cef1f4720927f17d6d9c0e0bcb63cf3537ec37, true, 0xf063d464b52ab7dbaaefee908d6d86a07a7d6bf717b8cb5aa46235eff240ad40, false, 0x73acb0e4785dcfe72e6badf6e2e0eda5f5e69a2439c7103fefdc81b6cfee2a56, false, 0x4526d0e660fcf7899734a91ca05fce87c2293107e7bc56e31e43d7d484fc0bdc, false, 0xecbf109902610c5bd3246c0030b105bc1cd2d5e710c7754de8c187e39548868d, 0x1db8260e5e3b460a46a008);
    FourSteps(0x3652c9e48bca27848b6c498b047f14b6b101a39b9d2572f7ba579b28ece43d86, 0xfffffffffffffffffffffffffffffffffffffffffffffffffffffffefffffc2f, 0x1db8260e5e3b460a46a008, 0xecbf109902610c5bd3246c0030b105bc1cd2d5e710c7754de8c187e39548868d, true, 0x7373a20feeb1d8def10a26bd2e385f2b87789134bf9fd78e3510e648d1dc370c, false, 0xb49bff7092d4eb587d267dfb6fdb31278d94d236a5703db45184364a7c0f28a9, false, 0x1ccdf7ed1dc437ab3edcbe439611dcbcd491458a9e1dc8224d114991741a3187, false, 0x6eec34110280905f789ecc9c4fe6e6076f1bdd3994721ed27f665d30be6c98e8, 0x1db8260e5e3b460a46a0088);
    FourSteps(0x3652c9e48bca27848b6c498b047f14b6b101a39b9d2572f7ba579b28ece43d86, 0xfffffffffffffffffffffffffffffffffffffffffffffffffffffffefffffc2f, 0x1db8260e5e3b460a46a0088, 0x6eec34110280905f789ecc9c4fe6e6076f1bdd3994721ed27f665d30be6c98e8, true, 0xc1bb1695659f0ea6359b6cbb1cafeed82c8474cea95fb138aaabab6acd20ad72, true, 0xc6fade97df8ddfe40632525a7c6c697afeb28033b1b8579b94a2be7bfe4e8d9b, true, 0x716fed41b560da962662feda3b6f47edb53948a56c87a70e5b4ebe8cb63e490b, true, 0x2e38d61b05d439c9b169dff3f6b517f0afe40f1c92951d1dca82100a9aae1ed, 0x1db8260e5e3b460a46a0088f);
    FourSteps(0x3652c9e48bca27848b6c498b047f14b6b101a39b9d2572f7ba579b28ece43d86, 0xfffffffffffffffffffffffffffffffffffffffffffffffffffffffefffffc2f, 0x1db8260e5e3b460a46a0088f, 0x2e38d61b05d439c9b169dff3f6b517f0afe40f1c92951d1dca82100a9aae1ed, true, 0x54cd6975ee5a4713e89f5f6c06491c122555ea90644f6112e150653326c7a1ea, true, 0x97acec20f5ea9e497215880e069064e6ed0f6cf771c2285426d6aa1ba355744f, false, 0x3c6c735d70b5c2b635e5456cce1f410095956227e4ad9cd4a959ef76162085d1, false, 0x55536589690311fdf5de45056592dca73ddf8ee8b8212e55e3fbbeca1afa292b, 0x1db8260e5e3b460a46a0088fc);
    FourSteps(0x3652c9e48bca27848b6c498b047f14b6b101a39b9d2572f7ba579b28ece43d86, 0xfffffffffffffffffffffffffffffffffffffffffffffffffffffffefffffc2f, 0x1db8260e5e3b460a46a0088fc, 0x55536589690311fdf5de45056592dca73ddf8ee8b8212e55e3fbbeca1afa292b, true, 0x9496bc10b43b47bc45c7344ddb3ff487a978163094c26e3793e0fb0a1fff53a9, true, 0xb129f9cb9d53ba247ac347bfb38d22252f1036b14754260e8eaf58c4645eeb3a, false, 0x438bf50bd84e7dcd35da5359eddc14f0ad1c0b5c10b4bf4f683872949f3b6d9e, false, 0x1ffbcff501f3358680fa04351d7fa574059f0a819ab59c5e5db4867661bbb1f, 0x1db8260e5e3b460a46a0088fcc);
    FourSteps(0x3652c9e48bca27848b6c498b047f14b6b101a39b9d2572f7ba579b28ece43d86, 0xfffffffffffffffffffffffffffffffffffffffffffffffffffffffefffffc2f, 0x1db8260e5e3b460a46a0088fcc, 0x1ffbcff501f3358680fa04351d7fa574059f0a819ab59c5e5db4867661bbb1f, true, 0x1c9ac29266c9bc6a3c54badc69c73cdb1f3c2ba09cdb31a6f58aa8152754c8bd, true, 0xac3b0f3ffe55b0d4f1a65c67333cb876fe75e0934332086217d77acac37e76e4, true, 0x1b0972e95de82ed8c2a0c7feda89f070d38b1f4b9fe08150e320e4d66ca36590, true, 0x1ec09a3f4833f258c360cab3156adebc4abf1a13094827e1c3e5d28a6576ca4c, 0x1db8260e5e3b460a46a0088fccf);
    FourSteps(0x3652c9e48bca27848b6c498b047f14b6b101a39b9d2572f7ba579b28ece43d86, 0xfffffffffffffffffffffffffffffffffffffffffffffffffffffffefffffc2f, 0x1db8260e5e3b460a46a0088fccf, 0x1ec09a3f4833f258c360cab3156adebc4abf1a13094827e1c3e5d28a6576ca4c, false, 0x6ebc4b64d76c6396750d7ef161dea24430d4d8ff3b22cfce976ffbc7d90007fa, true, 0x2b70cbfd62f3465443e2cdde83370470286925530d42554f2c2ba0d082448ce8, true, 0x3c5c9c85d1f47d23ef16838f01451d4b9fc0b3be98a26ab66264cd4784c5b568, false, 0x12f4ffff6a8933ec44dbe909da425c96f25b37c41979fb332c356d57446360e6, 0x1db8260e5e3b460a46a0088fccf6);
    FourSteps(0x3652c9e48bca27848b6c498b047f14b6b101a39b9d2572f7ba579b28ece43d86, 0xfffffffffffffffffffffffffffffffffffffffffffffffffffffffefffffc2f, 0x1db8260e5e3b460a46a0088fccf6, 0x12f4ffff6a8933ec44dbe909da425c96f25b37c41979fb332c356d57446360e6, true, 0xd5b34a59c9df012a2255f9f332037fed77de57e2662af9ef015e9b1dfa98af34, false, 0x215fe4bcbb285aea5d0317dbab45e682fed45818c22bc3e1b7d1dc5a7c6b918f, true, 0xa12f09bdb698b038ab5d3eb08772447c289359ae2fa38b4701290a10291ae5ed, false, 0x74b4592c0ae441f6c5bdc017c60f9a0f1ebd5447177cc15a6cad14e63910a23a, 0x1db8260e5e3b460a46a0088fccf6a);
    FourSteps(0x3652c9e48bca27848b6c498b047f14b6b101a39b9d2572f7ba579b28ece43d86, 0xfffffffffffffffffffffffffffffffffffffffffffffffffffffffefffffc2f, 0x1db8260e5e3b460a46a0088fccf6a, 0x74b4592c0ae441f6c5bdc017c60f9a0f1ebd5447177cc15a6cad14e63910a23a, false, 0x971da8be83a77088736326d749862dede2d7b3d131a851808d364a99b2a87b68, false, 0x1743e90bc0f7601c506e44b4f880a539373dbadf336c63065a1895b31ebde2af, true, 0xa0b8f19537113123e57175fe3747d991488d33cf42e8e11372c907e69eca39c5, true, 0xa95133d3ae72670ce2a00d7593e014a5a4482876cf9c635b269e0551ee6cf074, 0x1db8260e5e3b460a46a0088fccf6a3);
    FourSteps(0x3652c9e48bca27848b6c498b047f14b6b101a39b9d2572f7ba579b28ece43d86, 0xfffffffffffffffffffffffffffffffffffffffffffffffffffffffefffffc2f, 0x1db8260e5e3b460a46a0088fccf6a3, 0xa95133d3ae72670ce2a00d7593e014a5a4482876cf9c635b269e0551ee6cf074, true, 0x104e00bde2d8bd49549a1351da03ef818b425dcf0c10e734b7c41a6e9ca6f83e, false, 0xb500e450604862dac601c56cca8ef6ff13aeb9ae8c80da8084e0a597724b766, true, 0x7ba1659a944a8c8e5ce68f53e409acd7fc37173d2a60758d588b32fa3d7ca492, false, 0x8e02f790f4ff2ed372d6a05d975c599e2273911c9b6af83daca910c4d6c23898, 0x1db8260e5e3b460a46a0088fccf6a3a);
    FourSteps(0x3652c9e48bca27848b6c498b047f14b6b101a39b9d2572f7ba579b28ece43d86, 0xfffffffffffffffffffffffffffffffffffffffffffffffffffffffefffffc2f, 0x1db8260e5e3b460a46a0088fccf6a3a, 0x8e02f790f4ff2ed372d6a05d975c599e2273911c9b6af83daca910c4d6c23898, false, 0xb55fe8e15ccf5a999feb101ffcbc7b004c1d3fbaff61bef387ba479fadf93035, true, 0x168f2168bb6cc4a02aa39fd381e5f8af3c176c28f6c227c56db3148628804c40, false, 0x815e2d0a224c005e690e7ba97521589863717664ee185dd90ece444509853bd7, true, 0x3de2a643e19f5d4dd9d456a1b2c348ff20760a5d51a2356ed044b9d462206f89, 0x1db8260e5e3b460a46a0088fccf6a3a5);
    FourSteps(0x3652c9e48bca27848b6c498b047f14b6b101a39b9d2572f7ba579b28ece43d86, 0xfffffffffffffffffffffffffffffffffffffffffffffffffffffffefffffc2f, 0x1db8260e5e3b460a46a0088fccf6a3a5, 0x3de2a643e19f5d4dd9d456a1b2c348ff20760a5d51a2356ed044b9d462206f89, true, 0x4cdf94f532fdc5babcd157833652994d658b071e1cebc86103557119954c0df8, false, 0xecdad89499b32d08fae08b2a52d0d8e949d7c090c886037ab40b10f6bc97d5f8, false, 0xf5f3717ba2f647ed19d2f173bc3d69595f7b5acab1d63d10e2acf80856765415, true, 0xdf3fde0fce016a83580246fabf0adc5737c330ba12f89af0dff83586086595b6, 0x1db8260e5e3b460a46a0088fccf6a3a59);
    FourSteps(0x3652c9e48bca27848b6c498b047f14b6b101a39b9d2572f7ba579b28ece43d86, 0xfffffffffffffffffffffffffffffffffffffffffffffffffffffffefffffc2f, 0x1db8260e5e3b460a46a0088fccf6a3a59, 0xdf3fde0fce016a83580246fabf0adc5737c330ba12f89af0dff83586086595b6, false, 0x59bec935310cfa188e4ff599935b70dd80ce261dbcd820a0baf8002b347fff4d, false, 0xb20a0b8da87e11ffa1c09b7ec1496eea7c128c1917bec9f6dfcc2fb156b8e6d7, true, 0x58fac2d2034e1127c6c179631641fb8b1d7d00c6f950063e78ceb8ee80c5ba76, true, 0xaf07a179b7e41123fda911c5e62d363e7b7a684cb7e7314f6d88b8e5669e4853, 0x1db8260e5e3b460a46a0088fccf6a3a593);
    FourSteps(0x3652c9e48bca27848b6c498b047f14b6b101a39b9d2572f7ba579b28ece43d86, 0xfffffffffffffffffffffffffffffffffffffffffffffffffffffffefffffc2f, 0x1db8260e5e3b460a46a0088fccf6a3a593, 0xaf07a179b7e41123fda911c5e62d363e7b7a684cb7e7314f6d88b8e5669e4853, false, 0x599ac932c7b5477878b13ef24387306b8f74664c99633e04d5f60c8cf042418d, true, 0x4875d4015304c7eb2f6cf65ab2886b0e5c743092cce7f576ea0ad2c147794b97, true, 0x962790bca686234b8f4ae045a6845c7f88bd7fba176b654ec5701042ea3ba658, false, 0xa90a086f7381243a59c7742269cab855850810a13d90320c3fb6294a27dfd01, 0x1db8260e5e3b460a46a0088fccf6a3a5936);
    FourSteps(0x3652c9e48bca27848b6c498b047f14b6b101a39b9d2572f7ba579b28ece43d86, 0xfffffffffffffffffffffffffffffffffffffffffffffffffffffffefffffc2f, 0x1db8260e5e3b460a46a0088fccf6a3a5936, 0xa90a086f7381243a59c7742269cab855850810a13d90320c3fb6294a27dfd01, true, 0x5e6f097eab74597b2cc57f46c43141fc14d422b567b46fcc7f8d382a26abac92, true, 0xf28511e934711fb2bd097e04d18a952221c616e9a8b917448654aa67d979bf97, false, 0xf5ebfacb154eed3f459843574509f342c72be6b578ee7504db83f3a77cb06562, true, 0x2701b687a98477630b156d37b6aed69cb7819b1d4bef4f93516b04646e904191, 0x1db8260e5e3b460a46a0088fccf6a3a5936d);
    FourSteps(0x3652c9e48bca27848b6c498b047f14b6b101a39b9d2572f7ba579b28ece43d86, 0xfffffffffffffffffffffffffffffffffffffffffffffffffffffffefffffc2f, 0x1db8260e5e3b460a46a0088fccf6a3a5936d, 0x2701b687a98477630b156d37b6aed69cb7819b1d4bef4f93516b04646e904191, false, 0x74e4acc87bb1273fa5f1b98d4a7c32cc7dc349c0737a373fa41e6f9a97a1e953, true, 0x3a324b2776879c51f175c2b83e6ee3e08334358a37732672a71efa36084d3abc, true, 0x1cab05249ebc6f02f60a83e3f3abbf31d582bca510f4647dd51edfe09abb635a, true, 0x9d00b55e4377860e569d355392251f101ee76ac933a46dda90ce6c5f6df00190, 0x1db8260e5e3b460a46a0088fccf6a3a5936d7);
    FourSteps(0x3652c9e48bca27848b6c498b047f14b6b101a39b9d2572f7ba579b28ece43d86, 0xfffffffffffffffffffffffffffffffffffffffffffffffffffffffefffffc2f, 0x1db8260e5e3b460a46a0088fccf6a3a5936d7, 0x9d00b55e4377860e569d355392251f101ee76ac933a46dda90ce6c5f6df00190, false, 0x6efd0cf85d94ad867870bc2e211eb94ce2611b39b7c1492f10efa8c4e068dde6, true, 0x2fa1867b48d901c75a8538a08441001a25f76d0021f05480343abc4d3f4ddf81, false, 0x7178c1d0d01af42224f1a4994650f176917d5262b10f706e3ac07ed92a1e155a, true, 0xdfa386716b6109e9abd1559e50df73961eb5aac5d1b273eee0e555ad44734364, 0x1db8260e5e3b460a46a0088fccf6a3a5936d75);
    FourSteps(0x3652c9e48bca27848b6c498b047f14b6b101a39b9d2572f7ba579b28ece43d86, 0xfffffffffffffffffffffffffffffffffffffffffffffffffffffffefffffc2f, 0x1db8260e5e3b460a46a0088fccf6a3a5936d75, 0xdfa386716b6109e9abd1559e50df73961eb5aac5d1b273eee0e555ad44734364, true, 0x21d8b30c08c2877937fe4f4772e21990d14cc2352feffffad6c0d55047083cc1, true, 0xa6658dd60f50016c775abb011d15f5d0682827fbae95ea2f5003d6d1ae6f17b2, false, 0x6a2232b87bb404e5e5ead7be35029a57fd00a1e175d5b362b7c9646477e54946, true, 0xf4bafc50a3d16da66ce7ef6f1b9612e3d63043e516eebb857951005780e1a7cb, 0x1db8260e5e3b460a46a0088fccf6a3a5936d75d);
    FourSteps(0x3652c9e48bca27848b6c498b047f14b6b101a39b9d2572f7ba579b28ece43d86, 0xfffffffffffffffffffffffffffffffffffffffffffffffffffffffefffffc2f, 0x1db8260e5e3b460a46a0088fccf6a3a5936d75d, 0xf4bafc50a3d16da66ce7ef6f1b9612e3d63043e516eebb857951005780e1a7cb, true, 0xac67a7908722eecfa1b9d3ca0079c6605072ee01c56f41868d7acf5f2df1ee3e, false, 0xb07ca8470b1872fa7dd5c84e7609175724bc145fe764f56bbc203d4854d4a6e2, false, 0xe5e2aa3ac6ff565b95727c3df4f244edc5946b951f8ba5119069992290a86d7f, false, 0xa7106b533db5b0e7d425cbc10fdbd460fe7c9afff1f97105a54b75de7db8091a, 0x1db8260e5e3b460a46a0088fccf6a3a5936d75d8);
    FourSteps(0x3652c9e48bca27848b6c498b047f14b6b101a39b9d2572f7ba579b28ece43d86, 0xfffffffffffffffffffffffffffffffffffffffffffffffffffffffefffffc2f, 0x1db8260e5e3b460a46a0088fccf6a3a5936d75d8, 0xa7106b533db5b0e7d425cbc10fdbd460fe7c9afff1f97105a54b75de7db8091a, true, 0x15b79c3e490ca0ad261124565e01252ac8a6ac31be5d9ef3f90f8d6421a6060, false, 0xddec4ae10428b34aa4817a86db09b94895bf587631dc0ac5229d013ff88f8ab5, false, 0xe8256bd8019613926155339e7938be03b4087b02a113ab9ab259a604d8955b50, true, 0x8dc334bb66187cafadb5f9fdc5cebe7f18a1841c60f02a20e69feb4f2a679806, 0x1db8260e5e3b460a46a0088fccf6a3a5936d75d89);
    FourSteps(0x3652c9e48bca27848b6c498b047f14b6b101a39b9d2572f7ba579b28ece43d86, 0xfffffffffffffffffffffffffffffffffffffffffffffffffffffffefffffc2f, 0x1db8260e5e3b460a46a0088fccf6a3a5936d75d89, 0x8dc334bb66187cafadb5f9fdc5cebe7f18a1841c60f02a20e69feb4f2a679806, true, 0xfbd01845d7b83021ce8b78a8084bd37d171b834e675eb823279c42b7da9b193, false, 0x22ffdb84e16ec35587726843a33975db55c396896a6e9f4558d84b784a64aa92, true, 0xcad21b4e9909966036e7879be11ca1469216370c375d0f03f021c669b49ab219, false, 0x9b2e71ef7e811fc48c82158d97f334ad3287c6beeeaa1bf105d6717f6f0e6ad, 0x1db8260e5e3b460a46a0088fccf6a3a5936d75d89a);
    FourSteps(0x3652c9e48bca27848b6c498b047f14b6b101a39b9d2572f7ba579b28ece43d86, 0xfffffffffffffffffffffffffffffffffffffffffffffffffffffffefffffc2f, 0x1db8260e5e3b460a46a0088fccf6a3a5936d75d89a, 0x9b2e71ef7e811fc48c82158d97f334ad3287c6beeeaa1bf105d6717f6f0e6ad, false, 0x5d0edaafb1747fe0ef35a4255e2c47c7ee3139b864fec622bfc084c14b68d7ce, true, 0x6681c484623951f72b4d3156281699e615195b76baeb515d051a35250aca3410, true, 0xfa3050a55d7415146b838d9c1ac3f0ac268d0b7de55e7bf2ff4ecabe24bddfbe, true, 0x72887816722461420402a353e4bcda85064ca25c6b96d7777111f8e7996bfa0b, 0x1db8260e5e3b460a46a0088fccf6a3a5936d75d89a7);
    FourSteps(0x3652c9e48bca27848b6c498b047f14b6b101a39b9d2572f7ba579b28ece43d86, 0xfffffffffffffffffffffffffffffffffffffffffffffffffffffffefffffc2f, 0x1db8260e5e3b460a46a0088fccf6a3a5936d75d89a7, 0x72887816722461420402a353e4bcda85064ca25c6b96d7777111f8e7996bfa0b, false, 0xba68c4c20f3d3ffaad7c8fed5a3ca6d77ae017939052240e4e6cfb9e9644bd65, true, 0xff6ffb85e873394940fb271be390e7c4e73ce782ef5b728bc7fe85a3ea2c1ac8, true, 0x23806b1850d0c457f385cb7581d69c02945b2c23bf73212970c967711f77de3b, true, 0x9050982f6278bb00c3da898ae05862e5263eaac994088c00ee8dac10a8f7a44f, 0x1db8260e5e3b460a46a0088fccf6a3a5936d75d89a77);
    FourSteps(0x3652c9e48bca27848b6c498b047f14b6b101a39b9d2572f7ba579b28ece43d86, 0xfffffffffffffffffffffffffffffffffffffffffffffffffffffffefffffc2f, 0x1db8260e5e3b460a46a0088fccf6a3a5936d75d89a77, 0x9050982f6278bb00c3da898ae05862e5263eaac994088c00ee8dac10a8f7a44f, false, 0x325bb9cd35fba84478da7f2b88b1909ee3b0f05c52239924b177bbca4cd43919, true, 0xaffbc12d8dae9fd7ee46653fb134c0d76a3ad9c8ffbb41fac926adc9529eac6d, true, 0xf9d19254120a3c9fa809504f7b1a4f421b902dc40c4a62860cfae214d9701a1d, false, 0xf51d579770e30b414da2e6c8b577e5ac8dccf446696d8cad9a3dcc53f1c0e1ac, 0x1db8260e5e3b460a46a0088fccf6a3a5936d75d89a776);
    FourSteps(0x3652c9e48bca27848b6c498b047f14b6b101a39b9d2572f7ba579b28ece43d86, 0xfffffffffffffffffffffffffffffffffffffffffffffffffffffffefffffc2f, 0x1db8260e5e3b460a46a0088fccf6a3a5936d75d89a776, 0xf51d579770e30b414da2e6c8b577e5ac8dccf446696d8cad9a3dcc53f1c0e1ac, true, 0x8b4e4f0afdf97a44268d9ef555890657fe7b16c0c565b0fcbcb9926c9d2e473a, true, 0x1178f8eff3abc2ff0c38bb01008e3fa4b8e3ce8bc5d5807521e310b2d25caf5e, false, 0xc14393a31fec7ee8f6b38ed064c81b9421aee7f886767fa1411158e8ad06ead2, true, 0x1298e965853e0c5fe318fd981a9a78ca2ee70cdfa6065dd79f9fd8e3d17c1702, 0x1db8260e5e3b460a46a0088fccf6a3a5936d75d89a776d);
    FourSteps(0x3652c9e48bca27848b6c498b047f14b6b101a39b9d2572f7ba579b28ece43d86, 0xfffffffffffffffffffffffffffffffffffffffffffffffffffffffefffffc2f, 0x1db8260e5e3b460a46a0088fccf6a3a5936d75d89a776d, 0x1298e965853e0c5fe318fd981a9a78ca2ee70cdfa6065dd79f9fd8e3d17c1702, false, 0xbdd490db2c3028784c6bdcda3e015ad02a3a0c17701f242904f5de4f50e7bb44, true, 0x437d0576f07c3d3856b3e53a80db9d0882fcf15bf8a292e3f6d237edc946abf7, false, 0xf20f7c206ed5bef673b5819e3f1229066720552e244b5b4509501b8ec3e37d26, false, 0xb050ab73730554a3cb942a2151c35bcb84cb647a54886b0dde0330fd656ab4d3, 0x1db8260e5e3b460a46a0088fccf6a3a5936d75d89a776d4);
    FourSteps(0x3652c9e48bca27848b6c498b047f14b6b101a39b9d2572f7ba579b28ece43d86, 0xfffffffffffffffffffffffffffffffffffffffffffffffffffffffefffffc2f, 0x1db8260e5e3b460a46a0088fccf6a3a5936d75d89a776d4, 0xb050ab73730554a3cb942a2151c35bcb84cb647a54886b0dde0330fd656ab4d3, true, 0xeb121c4e6eb7b1ff5c8731bb6e8069f2077731bb3e898acc82bd2f127057428e, true, 0xbe67e1ee6c8518f22ad092d7b77930fc709eee4c153b26db1b8357447d403ee7, false, 0x1ffcbb9995106c7e0c434c6ae3c74bc18a002fcc4f0375467954204ae8394b65, false, 0xbf3f08942abcd93d118a1c09ee377ba529ca194c87564b2260261477458a5ea4, 0x1db8260e5e3b460a46a0088fccf6a3a5936d75d89a776d4c);
    FourSteps(0x3652c9e48bca27848b6c498b047f14b6b101a39b9d2572f7ba579b28ece43d86, 0xfffffffffffffffffffffffffffffffffffffffffffffffffffffffefffffc2f, 0x1db8260e5e3b460a46a0088fccf6a3a5936d75d89a776d4c, 0xbf3f08942abcd93d118a1c09ee377ba529ca194c87564b2260261477458a5ea4, false, 0xba78f4afee838944de8e9a46c29383ee1dfed1adb4216b28e09dc67d18de3467, false, 0xcabd78af492fdf1d02a5b73c13687760df8c89e2f02bd73b1c48027c5d5d9430, false, 0xe0219e0c5f6618be84115e9f93809081dc80b4621bf962caf9f52736cfe17ed6, false, 0xc8420aff3f5d19c361ee53d75d353bde379b7867d98e47da30b028c70ffb819e, 0x1db8260e5e3b460a46a0088fccf6a3a5936d75d89a776d4c0);
    FourSteps(0x3652c9e48bca27848b6c498b047f14b6b101a39b9d2572f7ba579b28ece43d86, 0xfffffffffffffffffffffffffffffffffffffffffffffffffffffffefffffc2f, 0x1db8260e5e3b460a46a0088fccf6a3a5936d75d89a776d4c0, 0xc8420aff3f5d19c361ee53d75d353bde379b7867d98e47da30b028c70ffb819e, true, 0xc93fa0304564101d996b54a19951f3812e45400cc2b94c1337d375b05c16541, true, 0x7ea4f85c83ea8d1f29192a2f09c9e774fa3708b2df475dd1be00c3e89640dc25, false, 0xb0ff995618660d516653a2ebdbef0cc8c21148d9da92e34b6d330d5ab1da1843, true, 0xf84dc389a4a190fe104bb6198c4a3a27543417bd5ddc469b7b737f10fe7c11c1, 0x1db8260e5e3b460a46a0088fccf6a3a5936d75d89a776d4c0d);
    FourSteps(0x3652c9e48bca27848b6c498b047f14b6b101a39b9d2572f7ba579b28ece43d86, 0xfffffffffffffffffffffffffffffffffffffffffffffffffffffffefffffc2f, 0x1db8260e5e3b460a46a0088fccf6a3a5936d75d89a776d4c0d, 0xf84dc389a4a190fe104bb6198c4a3a27543417bd5ddc469b7b737f10fe7c11c1, true, 0xb53a4da24353f447696402082151698bda5008d47024a1d62a488231ab8e0ec0, false, 0xb6f7748dc2e76e9f2aa0493f04c379910f8afd6ca32134c9283fe209d2bc4f13, true, 0x7c3e33db5f55075dd8545abf0a363ad77c8d50dd93b854a36a325e7cafcd1ed7, false, 0xf96f138c88c254e128908944c22e4d39918f832e1f0b63e3730aa40e6a18dea6, 0x1db8260e5e3b460a46a0088fccf6a3a5936d75d89a776d4c0da);
    FourSteps(0x3652c9e48bca27848b6c498b047f14b6b101a39b9d2572f7ba579b28ece43d86, 0xfffffffffffffffffffffffffffffffffffffffffffffffffffffffefffffc2f, 0x1db8260e5e3b460a46a0088fccf6a3a5936d75d89a776d4c0da, 0xf96f138c88c254e128908944c22e4d39918f832e1f0b63e3730aa40e6a18dea6, false, 0x6ceb1daa76e3580ad396721bf76ef0032870d6fdda1ce8b1b3495b4627989e29, true, 0x2294ed0b16775f3f06b1072883b630f326b38ce5101bd56e4e52ae197697872e, false, 0x97159e36795d0a38ecd765ca88382a8ffcc8dbc97c7c1042435339d57dfadfb0, false, 0x2faba04fd350fa3aee5e262d31e89f5c687ee1f9cd1c16653b862c293e121b81, 0x1db8260e5e3b460a46a0088fccf6a3a5936d75d89a776d4c0da4);
    FourSteps(0x3652c9e48bca27848b6c498b047f14b6b101a39b9d2572f7ba579b28ece43d86, 0xfffffffffffffffffffffffffffffffffffffffffffffffffffffffefffffc2f, 0x1db8260e5e3b460a46a0088fccf6a3a5936d75d89a776d4c0da4, 0x2faba04fd350fa3aee5e262d31e89f5c687ee1f9cd1c16653b862c293e121b81, true, 0xa326a65b8ffd738d2f2ec7d6e8bd696c7099dc990dec62bfffaeaaca005d126c, true, 0x3b083cf89e39783408f02227d3981aae4b644a1d9395482f01b9a979e8ac87d, true, 0x3f992435b1dabcf55ade136b0663544e1a65633e075310a591f70af6b3e78258, true, 0xcfdebe6b88f2df60b0033485fdf4c2407012e324b2f9cf060ad99b91be35d36b, 0x1db8260e5e3b460a46a0088fccf6a3a5936d75d89a776d4c0da4f);
    FourSteps(0x3652c9e48bca27848b6c498b047f14b6b101a39b9d2572f7ba579b28ece43d86, 0xfffffffffffffffffffffffffffffffffffffffffffffffffffffffefffffc2f, 0x1db8260e5e3b460a46a0088fccf6a3a5936d75d89a776d4c0da4f, 0xcfdebe6b88f2df60b0033485fdf4c2407012e324b2f9cf060ad99b91be35d36b, false, 0xb9eee4c9e6bcca87052c5a58678fa59f0171259930b1a884a0d6762442e03d57, false, 0xcff950c92158088d7314ae8d2b2bf547b52d9038393cac6356684a807261e280, true, 0x24309e0b4bd347d6dffd11df83769e847dfc1010daa9109828a1447666ca2a20, true, 0xef41cc21ceb61820917ccaecd73b156074efeca510a3614982cde16c9b6d995e, 0x1db8260e5e3b460a46a0088fccf6a3a5936d75d89a776d4c0da4f3);
    FourSteps(0x3652c9e48bca27848b6c498b047f14b6b101a39b9d2572f7ba579b28ece43d86, 0xfffffffffffffffffffffffffffffffffffffffffffffffffffffffefffffc2f, 0x1db8260e5e3b460a46a0088fccf6a3a5936d75d89a776d4c0da4f3, 0xef41cc21ceb61820917ccaecd73b156074efeca510a3614982cde16c9b6d995e, false, 0x35108aa132ce03f2cbbbc894535d9e87326e3fa71c9840ab7de7a84cc40bb6c4, false, 0x37121e5aea781c98da925887d4b4d2568c0e4f991b08e74a7842c35e034c242c, true, 0x452b9e702c15304658e0e8e78cec8a22e30ba673f4df57a4be28f65bc1e4a765, true, 0x5edda7169b47f93db3b1dab465f7db95f45c3959d67cb2f95a402a49567890c5, 0x1db8260e5e3b460a46a0088fccf6a3a5936d75d89a776d4c0da4f33);
    FourSteps(0x3652c9e48bca27848b6c498b047f14b6b101a39b9d2572f7ba579b28ece43d86, 0xfffffffffffffffffffffffffffffffffffffffffffffffffffffffefffffc2f, 0x1db8260e5e3b460a46a0088fccf6a3a5936d75d89a776d4c0da4f33, 0x5edda7169b47f93db3b1dab465f7db95f45c3959d67cb2f95a402a49567890c5, true, 0x7347627d5780e100589e43074e85695c28844e0ab50afd05277d59ca5fb951b3, false, 0x80ae1f0a16c471b3d5cfeb42ea7bb6694219839d6637b854a73efa4caad1e32b, false, 0xd1cd8b05792a1fa7e1f333df7340e20cb8ddad2545579d1ef82a49ed6d6331ab, false, 0x4d18625e8e79702cbc085601b9951f88434330185a18e4e46c5cc12f96cd7e7f, 0x1db8260e5e3b460a46a0088fccf6a3a5936d75d89a776d4c0da4f338);
    FourSteps(0x3652c9e48bca27848b6c498b047f14b6b101a39b9d2572f7ba579b28ece43d86, 0xfffffffffffffffffffffffffffffffffffffffffffffffffffffffefffffc2f, 0x1db8260e5e3b460a46a0088fccf6a3a5936d75d89a776d4c0da4f338, 0x4d18625e8e79702cbc085601b9951f88434330185a18e4e46c5cc12f96cd7e7f, true, 0x934a8609a7f9ed05525e391aa44d689eb7adaf400d9ce4b65aaf2f907f3088f7, false, 0x1a2971e570b0312eb4359de9d5639aa93563aeb86aac4f3147eaf7d3b923118a, true, 0x6cdb4b35d1807df750f6f48d4f85ce4dab24fed824333b61c47010bd9b106014, false, 0xa12ec62abf7fd7ac8fe05411fa544e0be9a74982795cf93c5143a79c8e50e3ae, 0x1db8260e5e3b460a46a0088fccf6a3a5936d75d89a776d4c0da4f338a);
    FourSteps(0x3652c9e48bca27848b6c498b047f14b6b101a39b9d2572f7ba579b28ece43d86, 0xfffffffffffffffffffffffffffffffffffffffffffffffffffffffefffffc2f, 0x1db8260e5e3b460a46a0088fccf6a3a5936d75d89a776d4c0da4f338a, 0xa12ec62abf7fd7ac8fe05411fa544e0be9a74982795cf93c5143a79c8e50e3ae, true, 0x5c49bd88c141686180d170fa84a5ed90ae40ff7bb13a1b6b6227bcb4c2669868, false, 0x8b8aea463c49fbcf7965ef2f1ee280f1bea8f2f8a54a0afead187f526b16c214, true, 0x355b711f453c1bfde9e6cd69d61aa694c74b0dff8e8880c344e3d3d240b0da9f, false, 0xc2379dfbf251f404ca2c91978b0186536fe322085766de8e2252943a8dea09c4, 0x1db8260e5e3b460a46a0088fccf6a3a5936d75d89a776d4c0da4f338aa);
    FourSteps(0x3652c9e48bca27848b6c498b047f14b6b101a39b9d2572f7ba579b28ece43d86, 0xfffffffffffffffffffffffffffffffffffffffffffffffffffffffefffffc2f, 0x1db8260e5e3b460a46a0088fccf6a3a5936d75d89a776d4c0da4f338aa, 0xc2379dfbf251f404ca2c91978b0186536fe322085766de8e2252943a8dea09c4, true, 0x55b1ab8f93a92fe6615d18a618c9290307a2bf299c914c4392670743f2f842b8, true, 0x30cd39fa08bb4de260e457e4841a25940d75646124512bc8000cb5eb9a75f551, true, 0xd70ab2c73567b85bb032b37c6b4e183bf77e5e9c2b274dd83704f583ffd7fb4e, true, 0xdbcf4d52a37c33ab735ea929277f6fe3509fc22ef1004c2fe6b28ef2c4fdfd50, 0x1db8260e5e3b460a46a0088fccf6a3a5936d75d89a776d4c0da4f338aaf);
    FourSteps(0x3652c9e48bca27848b6c498b047f14b6b101a39b9d2572f7ba579b28ece43d86, 0xfffffffffffffffffffffffffffffffffffffffffffffffffffffffefffffc2f, 0x1db8260e5e3b460a46a0088fccf6a3a5936d75d89a776d4c0da4f338aaf, 0xdbcf4d52a37c33ab735ea929277f6fe3509fc22ef1004c2fe6b28ef2c4fdfd50, true, 0x6639dbe2da733905c092cd76d1b075b91976a950f611dd4a101238ea1097b073, false, 0x4ebb9a9559fc873a66de1daf6da487b70de91748b499309f5f587eb82e5f2a3, true, 0x10482438ab5ee6ccfe77795741cd067f4a2fe6f613ac74a553fd39eff7271073, true, 0x7ae96a2b657c07106e64479eac3434e99cf0497512f58995c1396c28719501ee, 0x1db8260e5e3b460a46a0088fccf6a3a5936d75d89a776d4c0da4f338aafb);
  }

  const COFACTOR := 188174

  lemma PowThree(x: int)
    ensures Pow(x, 3) == x * x * x
  {
    assert Pow(x, 3) == x * Pow(x, 2) && Pow(x, 2) == x * Pow(x, 1) && Pow(x, 1) == x * Pow(x, 0);
  }

  /** The cube of the last power is 1, so the cube of its base has order q. */
  lemma CubeHasOrderQ(d: int, q: nat, w: int, c: int, m: int)
    requires m > 1 && Pow(d, q) % m == w && (w * w * w) % m == 1 && (d * d * d) % m == c
    ensures Pow(c, q) % m == 1
  {
    hide Pow;
    PowThree(d);
    CongSelf(d * d * d, m);
    PowCong(c, Pow(d, 3), q, m);
    PowOfPow(d, 3, q);
    PowOfPow(d, q, 3);
    CongSelf(Pow(d, q), m);
    PowCong(w, Pow(d, q), 3, m);
    PowThree(w);
    assert 3 * q == q * 3;
  }

  lemma PIsPrime()
    ensures Prime(P)
  {
    hide Pow;
    PrimeOfQ1();
    CubeRootOfOne();
    CubesModP();
    CubeHasOrderQ(0x3652c9e48bca27848b6c498b047f14b6b101a39b9d2572f7ba579b28ece43d86, 0x1db8260e5e3b460a46a0088fccf6a3a5936d75d89a776d4c0da4f338aafb, 0x7ae96a2b657c07106e64479eac3434e99cf0497512f58995c1396c28719501ee, 0x3db223c3b5983b2656c15a924405ca706a7873c11455124a51c2a318d0b125b, 0xfffffffffffffffffffffffffffffffffffffffffffffffffffffffefffffc2f);
    PrimeByOneFactor(0xfffffffffffffffffffffffffffffffffffffffffffffffffffffffefffffc2f, 0x1db8260e5e3b460a46a0088fccf6a3a5936d75d89a776d4c0da4f338aafb, 0x3db223c3b5983b2656c15a924405ca706a7873c11455124a51c2a318d0b125b, 0x96595cb215b189d7d44aa2b8fe2fcb3de430da90c3a63bfc166410a004555ddc);
  }

  lemma CubesModP()
    ensures (0x3652c9e48bca27848b6c498b047f14b6b101a39b9d2572f7ba579b28ece43d86 * 0x3652c9e48bca27848b6c498b047f14b6b101a39b9d2572f7ba579b28ece43d86 * 0x3652c9e48bca27848b6c498b047f14b6b101a39b9d2572f7ba579b28ece43d86) % 0xfffffffffffffffffffffffffffffffffffffffffffffffffffffffefffffc2f == 0x3db223c3b5983b2656c15a924405ca706a7873c11455124a51c2a318d0b125b
    ensures (0x7ae96a2b657c07106e64479eac3434e99cf0497512f58995c1396c28719501ee * 0x7ae96a2b657c07106e64479eac3434e99cf0497512f58995c1396c28719501ee * 0x7ae96a2b657c07106e64479eac3434e99cf0497512f58995c1396c28719501ee) % 0xfffffffffffffffffffffffffffffffffffffffffffffffffffffffefffffc2f == 1
  {
  }

  /** (x^3)^((P-1)/3) = 1 for every x other than 0, but (-7)^((P-1)/3) is not 1. */
  lemma MinusSevenIsNotACube(x: int)
    ensures (x * x * x + 7) % P != 0
  {
    hide Pow;
    if (x * x * x + 7) % P == 0 {
      CofactorPower();
      CubeRootOfOne();
      PIsPrime();
      CubicResidue(P, x, 0xfffffffffffffffffffffffffffffffffffffffffffffffffffffffefffffc28, COFACTOR, 0x1db8260e5e3b460a46a0088fccf6a3a5936d75d89a776d4c0da4f338aafb, 0x3652c9e48bca27848b6c498b047f14b6b101a39b9d2572f7ba579b28ece43d86, 0x7ae96a2b657c07106e64479eac3434e99cf0497512f58995c1396c28719501ee);
    }
  }

  lemma CubicResidue(p: int, x: int, a: int, k: nat, q: nat, d: int, w: int)
    requires Prime(p) && (x * x * x - a) % p == 0 && a % p != 0 && 3 * k * q == p - 1
    requires Pow(a, k) % p == d && Pow(d, q) % p == w
    ensures w == 1
  {
    hide Pow;
    CongOfZeroDifference(x * x * x, a, p);
    NotDivisible(p, x, a);
    Fermat(x, p);
    PowThree(x);
    assert 3 * (k * q) == 3 * k * q;
    PowOfPow(x, 3, k * q);
    PowCong(Pow(x, 3), a, k * q, p);
    PowerInTwoSteps(p, a, k, q, d, w);
  }

  lemma PowerInTwoSteps(m: int, a: int, k: nat, q: nat, d: int, w: int)
    requires m > 1 && Pow(a, k) % m == d && Pow(d, q) % m == w
    ensures k * q >= 0 && Pow(a, k * q) % m == w
  {
    hide Pow;
    PowOfPow(a, k, q);
    CongSelf(Pow(a, k), m);
    PowCong(d, Pow(a, k), q, m);
  }

  lemma CongOfZeroDifference(a: int, b: int, m: int)
    requires m > 0 && (a - b) % m == 0
    ensures Cong(a, b, m)
  {
    CongFromDifference(a, b, (a - b) / m, m);
  }

  lemma NotDivisible(p: int, x: int, a: int)
    requires p > 1 && Cong(x * x * x, a, p) && a % p != 0
    ensures x % p != 0
  {
    ModMul(x, x * x, p);
    assert x * (x * x) == x * x * x;
    RemainderIsUnique(0, 0, 0, p);
  }
}
