/** The generator has order dividing N, by certificate: with the basis (A1, B1) of the lattice that belongs to the eigenvalue,
    A1 G + B1 (image of G) is followed bit by bit and is 0. Each step is a point with the slope that leads to it. */
module GeneratorChain {
  import opened Params
  import opened AbelianGroup
  import opened Curve
  import opened Associativity
  import opened CurveGroup
  import opened GeneratorPoint

  lemma Steps0()
    ensures Reaches(0xF6C4D080_197EF886_B4BC291A_30C71FC5_EF004375_B28D4D5A_AF8F59A5_908CDD70,
                    0x6D7FD245_5216BCA9_BE74ABA9_05DBEBB6_D9226088_20F92AA3_64014E4A_8202CD4E,
                    0x184, -0x722)
  {
    hide Reaches;
    Units();
    Doubled(BX, MY,
      0x0, -0x1, 0x7DF05FEA_A87293A9_8919FB79_54CA25DF_E4CF7571_71551274_5288CD52_85CBCC89,
      0xC360A6D0_B34CE6DF_4135EE7D_59F87B33_D2FAD8CC_E43837EF_3E995B6E_D89250E1, 0xE51E9701_59C23CC6_5C3A7BE6_B9931511_0809CD9A_CD992F1E_DC9BCE55_AF301705);
    Doubled(0xC360A6D0_B34CE6DF_4135EE7D_59F87B33_D2FAD8CC_E43837EF_3E995B6E_D89250E1, 0xE51E9701_59C23CC6_5C3A7BE6_B9931511_0809CD9A_CD992F1E_DC9BCE55_AF301705,
      0x0, -0x2, 0x53577AA6_B6CE62C2_7BB968C9_387620B6_112EA60E_4E7EA6E6_5B54848B_0AE78DD3,
      0x1B77921F_0D382907_5C45FAF8_B90E324B_714C30B5_AB487127_5BDE5B33_3B306100, 0xAE1266C1_5F2BAA48_A9BD1DF6_715AEBB7_269851CC_404201BF_30168422_B88C630D);
    Doubled(0x1B77921F_0D382907_5C45FAF8_B90E324B_714C30B5_AB487127_5BDE5B33_3B306100, 0xAE1266C1_5F2BAA48_A9BD1DF6_715AEBB7_269851CC_404201BF_30168422_B88C630D,
      0x0, -0x4, 0x3F18B810_595005F6_5D4C27D0_8B8189C9_1923A34C_E3E6E569_A9BB0DE8_96B2313A,
      0x47AB6503_42D401A7_AA77840F_29E24892_B4FF7715_24257657_03E94774_2446CC73, 0xA3B25758_BEAC66B6_D6C2F7D5_ECD2EC4B_3D1DEC29_45A489E8_4A25D347_9342132B);
    Added(0x47AB6503_42D401A7_AA77840F_29E24892_B4FF7715_24257657_03E94774_2446CC73, 0xA3B25758_BEAC66B6_D6C2F7D5_ECD2EC4B_3D1DEC29_45A489E8_4A25D347_9342132B,
      0x0, -0x8, 0xC994B697_68832BCB_FF5E9AB3_9AE8D1D3_763BBF1E_531BED98_FE51DE5E_E84F50FB, 0xB7C52588_D95C3B9A_A25B0403_F1EEF757_02E84BB7_597AABE6_63B82F6F_04EF2777, 1, 1,
      0x7D492B02_F8F15F1C_8681AFC2_3273FBF5_2B43889E_16526017_FECC2DFE_390DF860, 0xFDE9F0A5_FC339C4C_9EDE8749_9CE905CF_3C83F485_5630B904_F12E02E4_21E0A94D, 0x8378EB19_537D0DA8_0EC984BE_76BF2085_490D1736_8EE0AB49_2FD8F179_E46375CA);
    Doubled(0xFDE9F0A5_FC339C4C_9EDE8749_9CE905CF_3C83F485_5630B904_F12E02E4_21E0A94D, 0x8378EB19_537D0DA8_0EC984BE_76BF2085_490D1736_8EE0AB49_2FD8F179_E46375CA,
      0x1, -0x7, 0x8FF784B1_7BEECA1F_136F0311_C7E15077_92C31D3F_7407C394_B8735682_BB608742,
      0x3A1C498A_E2AF307A_8CBB4A5F_301E7348_B1C0E22D_89AA583E_376DB54A_920AD910, 0xF7DF167A_0D8604C4_F13D574B_3B5A8265_F7E4C3CD_2C36DABB_D5984C79_7584FD41);
    Added(0x3A1C498A_E2AF307A_8CBB4A5F_301E7348_B1C0E22D_89AA583E_376DB54A_920AD910, 0xF7DF167A_0D8604C4_F13D574B_3B5A8265_F7E4C3CD_2C36DABB_D5984C79_7584FD41,
      0x2, -0xE, 0x79BE667E_F9DCBBAC_55A06295_CE870B07_029BFCDB_2DCE28D9_59F2815B_16F81798, 0x483ADA77_26A3C465_5DA4FBFC_0E1108A8_FD17B448_A6855419_9C47D08F_FB10D4B8, 1, 0,
      0x571AA699_1EF1F684_4A368B49_1139ED9F_32024E70_6F71D4B5_8BB72CC0_0B11E40E, 0x8F53BC84_7DB1B710_EB32FAF1_4F4399CA_7890169C_923ACEBB_25940444_79D97613, 0x20ED6466_3E88025E_19280EC1_4A530B40_A6162631_8FAB8A53_F6DDB2C5_342248A5);
    Doubled(0x8F53BC84_7DB1B710_EB32FAF1_4F4399CA_7890169C_923ACEBB_25940444_79D97613, 0x20ED6466_3E88025E_19280EC1_4A530B40_A6162631_8FAB8A53_F6DDB2C5_342248A5,
      0x3, -0xE, 0x5EE7AB06_EB5F43FE_11DFD0BB_B39C2E51_39049B10_F8080B76_8D47A86D_C7A00EBD,
      0xFA4C9571_8CB89C28_C86EABC3_27788CFB_4D351DD7_11B4930A_57325E98_2B14DCF0, 0x9AB7E78B_0293213B_20C2FC84_DDC3400F_395C1752_A284AF75_0C196D2A_3B7E998C);
    Doubled(0xFA4C9571_8CB89C28_C86EABC3_27788CFB_4D351DD7_11B4930A_57325E98_2B14DCF0, 0x9AB7E78B_0293213B_20C2FC84_DDC3400F_395C1752_A284AF75_0C196D2A_3B7E998C,
      0x6, -0x1C, 0x71765DE1_B102793C_FDAFA72C_B7167E92_EAAFAFD6_9AF30771_4468EBF4_D6B20E6E,
      0x79A7C3A9_1BB03600_869B4491_A83A4C30_F58CE65B_51D34978_34379B87_B92D72B3, 0xE8234514_E23EC86A_DFF2F163_5A332183_D63C8848_EAF73F45_8A314E99_784CAA1A);
    Added(0x79A7C3A9_1BB03600_869B4491_A83A4C30_F58CE65B_51D34978_34379B87_B92D72B3, 0xE8234514_E23EC86A_DFF2F163_5A332183_D63C8848_EAF73F45_8A314E99_784CAA1A,
      0xC, -0x38, 0xBCACE2E9_9DA01887_AB0102B6_96902325_87284406_7F15E98D_A7BBA044_00B88FCB, 0xB7C52588_D95C3B9A_A25B0403_F1EEF757_02E84BB7_597AABE6_63B82F6F_04EF2777, 0, -1,
      0x27CBC938_CDBE2557_1BB5BF52_07E88134_84588534_8A0B597C_1CB38770_B053B188, 0x926ECE93_230F997B_F01DECEA_7E5D634C_76C4D5AA_0AEA4EC8_EA96F4B5_EFC75C26, 0x6DFB0196_1731D6AD_74113429_C099B11D_EA138FCB_123721EE_CE5670CE_3AED0CA5);
    Doubled(0x926ECE93_230F997B_F01DECEA_7E5D634C_76C4D5AA_0AEA4EC8_EA96F4B5_EFC75C26, 0x6DFB0196_1731D6AD_74113429_C099B11D_EA138FCB_123721EE_CE5670CE_3AED0CA5,
      0xC, -0x39, 0x8EBFF275_98FD2F17_50F25937_345A0564_FFFEE9D3_DCD8529F_560E25E7_AA0F9F4A,
      0xC55ADE76_F1682598_C571BD06_99F40D94_AA802A49_AD8DAEAE_9C8B6B35_C1B698F8, 0xAC9DE2BA_9D73507B_E709380E_91681B10_B64E4F2C_BB20DC60_9B203785_6600EC63);
    Doubled(0xC55ADE76_F1682598_C571BD06_99F40D94_AA802A49_AD8DAEAE_9C8B6B35_C1B698F8, 0xAC9DE2BA_9D73507B_E709380E_91681B10_B64E4F2C_BB20DC60_9B203785_6600EC63,
      0x18, -0x72, 0x019F9706_D4D7269F_A852F418_1E02646F_1A212C1E_AAA4C8D0_30921751_802C0612,
      0x74F2B748_A6F34087_28AC2BEB_EE373D4D_9D4B1458_0E1A2927_7E20BA72_71C2C4D2, 0x5C90620E_7BEC4B0B_07FD2C8D_3D901964_1D3F3B3C_B079FD0F_CD3AD090_5F146998);
    Doubled(0x74F2B748_A6F34087_28AC2BEB_EE373D4D_9D4B1458_0E1A2927_7E20BA72_71C2C4D2, 0x5C90620E_7BEC4B0B_07FD2C8D_3D901964_1D3F3B3C_B079FD0F_CD3AD090_5F146998,
      0x30, -0xE4, 0x991B3460_7C8B73E2_44FE530A_1DC03334_2F0418BC_767CFFD0_09A69A28_2FFB7615,
      0x35825048_DE788396_C8177A5C_C68525F2_E70154EE_F4BBC5C5_C9798D8B_2A858F61, 0x15654D79_11E3C658_DBE141DA_BF6E60B6_57977C22_C20BFEDE_A522637D_9C86095F);
    Added(0x35825048_DE788396_C8177A5C_C68525F2_E70154EE_F4BBC5C5_C9798D8B_2A858F61, 0x15654D79_11E3C658_DBE141DA_BF6E60B6_57977C22_C20BFEDE_A522637D_9C86095F,
      0x60, -0x1C8, 0x79BE667E_F9DCBBAC_55A06295_CE870B07_029BFCDB_2DCE28D9_59F2815B_16F81798, 0x483ADA77_26A3C465_5DA4FBFC_0E1108A8_FD17B448_A6855419_9C47D08F_FB10D4B8, 1, 0,
      0x68124D50_88945D72_0C1F63D9_E72097FA_12B46561_D92D2EA1_A6BC69F5_7A898C6B, 0xC6DDE4A0_50A18BE7_6D9238F3_F150E369_AC76F068_23CC5D69_B156CC76_6047F674, 0x51302418_E1AA5366_97628114_FD569376_76D572D5_A98913C1_3BFBBAF6_ED089B06);
    Doubled(0xC6DDE4A0_50A18BE7_6D9238F3_F150E369_AC76F068_23CC5D69_B156CC76_6047F674, 0x51302418_E1AA5366_97628114_FD569376_76D572D5_A98913C1_3BFBBAF6_ED089B06,
      0x61, -0x1C8, 0x354682E4_69F12396_2559679A_32FED235_9E10A848_33AA493A_58F2180B_630628A6,
      0x1812E06F_908FE0CA_29D536E5_654FA68C_8FC258C0_43E33880_7A34650F_99C6F4B9, 0xE31736CB_54668084_322A634C_094C3385_8DFE82BD_885AB178_81C1933B_A179C8BF);
    Added(0x1812E06F_908FE0CA_29D536E5_654FA68C_8FC258C0_43E33880_7A34650F_99C6F4B9, 0xE31736CB_54668084_322A634C_094C3385_8DFE82BD_885AB178_81C1933B_A179C8BF,
      0xC2, -0x390, 0xBCACE2E9_9DA01887_AB0102B6_96902325_87284406_7F15E98D_A7BBA044_00B88FCB, 0xB7C52588_D95C3B9A_A25B0403_F1EEF757_02E84BB7_597AABE6_63B82F6F_04EF2777, 0, -1,
      0x16D44BBF_DB64A9CE_AA262294_E4EB3AC1_54E54270_6D0CFD49_87CDA839_CB0BA4A8, 0xE0FB339D_3AF1C9D4_117D723B_3CBB9109_7AF32F29_FA7EDD59_E579C10F_BFB79492, 0xE72B0ED9_6D30FA3E_987DF02E_76512BC7_256AC307_F032D35E_458CEA90_69FF677A);
    Doubled(0xE0FB339D_3AF1C9D4_117D723B_3CBB9109_7AF32F29_FA7EDD59_E579C10F_BFB79492, 0xE72B0ED9_6D30FA3E_987DF02E_76512BC7_256AC307_F032D35E_458CEA90_69FF677A,
      0xC2, -0x391, 0x6D72D1D7_F12A83BF_88FAB1FE_8ADA3839_C0A7213C_7AF72DDD_C6538332_EEA55F11,
      0xF6C4D080_197EF886_B4BC291A_30C71FC5_EF004375_B28D4D5A_AF8F59A5_908CDD70, 0x6D7FD245_5216BCA9_BE74ABA9_05DBEBB6_D9226088_20F92AA3_64014E4A_8202CD4E);
  }

  lemma Steps1()
    ensures Reaches(0x6B2ABEA4_8BED3E2A_E060E077_CF44EABD_A3A90A3A_ECB96AA3_D16B1F7A_52ED7B9D,
                    0xD763DB10_40654787_1DAD72B1_7A82A3A3_2B047C9E_E8084B22_919DC0E4_E38802B6,
                    0x610DA, -0x1C8870)
  {
    hide Reaches;
    Units();
    Steps0();
    Doubled(0xF6C4D080_197EF886_B4BC291A_30C71FC5_EF004375_B28D4D5A_AF8F59A5_908CDD70, 0x6D7FD245_5216BCA9_BE74ABA9_05DBEBB6_D9226088_20F92AA3_64014E4A_8202CD4E,
      0x184, -0x722, 0xCE117475_0BEF4E02_05D08BCE_8AC18945_92E8425A_3C946C99_C37D3ECF_03099D60,
      0x19D18ED1_0B948B30_25712275_70CDF9BD_4B4B597E_9DDFA8B2_214C0854_D407C787, 0x5DA2B79A_2F657BBE_33643F4F_AB01D519_AC1B9B21_2D82E868_E2295A2A_94796DFB);
    Doubled(0x19D18ED1_0B948B30_25712275_70CDF9BD_4B4B597E_9DDFA8B2_214C0854_D407C787, 0x5DA2B79A_2F657BBE_33643F4F_AB01D519_AC1B9B21_2D82E868_E2295A2A_94796DFB,
      0x308, -0xE44, 0xB889803D_D1EBE0F5_FC1FD1F3_D10453DD_13F05879_1842DD0A_F4DA4993_D8BE9DE4,
      0xC2C32EC4_AF8E6381_42E31CE6_27CE2823_82801D6C_0A487E07_B7129E84_98C0C8D0, 0x9E1DEBBA_47E29759_94DCA637_B5C6BD83_3DB076EE_B802EB4A_C03AC0CF_4CE6143A);
    Added(0xC2C32EC4_AF8E6381_42E31CE6_27CE2823_82801D6C_0A487E07_B7129E84_98C0C8D0, 0x9E1DEBBA_47E29759_94DCA637_B5C6BD83_3DB076EE_B802EB4A_C03AC0CF_4CE6143A,
      0x610, -0x1C88, 0x79BE667E_F9DCBBAC_55A06295_CE870B07_029BFCDB_2DCE28D9_59F2815B_16F81798, 0x483ADA77_26A3C465_5DA4FBFC_0E1108A8_FD17B448_A6855419_9C47D08F_FB10D4B8, 1, 0,
      0xA35F8B9E_C4FC82C9_536AEA7D_6E3559E9_A0F2127C_BABDE911_3A9AFEFF_E47445E9, 0x3247B1EC_3E42A0AA_0DEFED59_5FCE6FF4_4F4FD8E7_F616C374_5AC1E44D_A9B0C628, 0x96B44957_52993D1C_A49B5F16_E547AC9E_FA0A904D_50E13E57_4A794D6E_4DAD9249);
    Doubled(0x3247B1EC_3E42A0AA_0DEFED59_5FCE6FF4_4F4FD8E7_F616C374_5AC1E44D_A9B0C628, 0x96B44957_52993D1C_A49B5F16_E547AC9E_FA0A904D_50E13E57_4A794D6E_4DAD9249,
      0x611, -0x1C88, 0xB507A0D1_BA73EB77_80752768_F73BEA68_704A2989_3DF38287_2E1266DB_50C2257C,
      0x96891049_9DEB2799_78F48D7F_92134C32_97593C0C_AB539F42_F4AB7271_989288F0, 0xCBC96DF8_DDADF75F_968ACD53_850D438D_569E2380_A5A1B49D_9AB35838_A6660057);
    Doubled(0x96891049_9DEB2799_78F48D7F_92134C32_97593C0C_AB539F42_F4AB7271_989288F0, 0xCBC96DF8_DDADF75F_968ACD53_850D438D_569E2380_A5A1B49D_9AB35838_A6660057,
      0xC22, -0x3910, 0x6DA009E6_AEA9AFCD_038C1052_F0728D78_98B0CBC7_F6DF8178_DEE8F1A3_118BA58D,
      0x8F34511B_F6954531_BBEE7A9C_248C1DFC_8A022BBA_440EC223_A41C9800_5EEC29A1, 0x2B2BDFEF_F4FC5AD2_DBDC68DA_F82676EB_C63177C2_EB1EF14A_31F01001_483FD904);
    Added(0x8F34511B_F6954531_BBEE7A9C_248C1DFC_8A022BBA_440EC223_A41C9800_5EEC29A1, 0x2B2BDFEF_F4FC5AD2_DBDC68DA_F82676EB_C63177C2_EB1EF14A_31F01001_483FD904,
      0x1844, -0x7220, 0xBCACE2E9_9DA01887_AB0102B6_96902325_87284406_7F15E98D_A7BBA044_00B88FCB, 0xB7C52588_D95C3B9A_A25B0403_F1EEF757_02E84BB7_597AABE6_63B82F6F_04EF2777, 0, -1,
      0x555EE1B1_6F8B5109_C6B16CB1_10A1BE52_1689CE44_0C7DBF4F_57C8CAC7_E58DF5AA, 0x5DF5AE37_AD28C685_9276B005_866F58FF_86A6103F_4FAE2B0C_62459190_9A477F20, 0x7EAC989C_7981BB5A_88DFE809_89CC87AC_AC3D602F_2C5C961B_236CB6FD_55B5F4AD);
    Doubled(0x5DF5AE37_AD28C685_9276B005_866F58FF_86A6103F_4FAE2B0C_62459190_9A477F20, 0x7EAC989C_7981BB5A_88DFE809_89CC87AC_AC3D602F_2C5C961B_236CB6FD_55B5F4AD,
      0x1844, -0x7221, 0x0E9341A2_982CDDDB_C1AAFE25_B121529A_AB7CA38A_A6EAB6CC_430D46CE_B4FED860,
      0xDFC8EF2F_AB4A3E70_F2FFD048_F25E52B9_309352EA_E0218BED_8BC1C608_69AD0686, 0x3231F8F8_FF543208_D4FEBE06_34291B52_F996AE1D_880E7A84_9A3A7BB4_3B13E985);
    Added(0xDFC8EF2F_AB4A3E70_F2FFD048_F25E52B9_309352EA_E0218BED_8BC1C608_69AD0686, 0x3231F8F8_FF543208_D4FEBE06_34291B52_F996AE1D_880E7A84_9A3A7BB4_3B13E985,
      0x3088, -0xE442, 0xC994B697_68832BCB_FF5E9AB3_9AE8D1D3_763BBF1E_531BED98_FE51DE5E_E84F50FB, 0x483ADA77_26A3C465_5DA4FBFC_0E1108A8_FD17B448_A6855419_9C47D08F_FB10D4B8, -1, -1,
      0x4D1AC222_7459AF36_A375BC26_8AAE8C12_046145E2_656686EB_049C51D8_1DB88BFE, 0x5830064A_5B6902AE_AB18139C_2375C6EB_BB7D7818_9EE09FCB_0CA133AB_5C82A333, 0x3572B8C1_CB673868_6E6D7BFA_56E2DB33_59CF92A0_0BB4F34B_9F468475_7E696AC3);
    Doubled(0x5830064A_5B6902AE_AB18139C_2375C6EB_BB7D7818_9EE09FCB_0CA133AB_5C82A333, 0x3572B8C1_CB673868_6E6D7BFA_56E2DB33_59CF92A0_0BB4F34B_9F468475_7E696AC3,
      0x3087, -0xE443, 0xDD50F6C4_F3F0CDC5_7BEBCDAD_C6195A92_C7E79D58_F7C083CB_E262E093_6BA6B3D9,
      0xA4961856_9F4F3C26_90A4FD8A_1DDF5B90_91AE4A70_9C30CED1_C225619B_9AB9D12A, 0x844DEDE2_CA5EE37A_A139F03C_8CFEEFD5_7D289A2B_F4F4B29C_2DA3F5AF_1A43AF32);
    Added(0xA4961856_9F4F3C26_90A4FD8A_1DDF5B90_91AE4A70_9C30CED1_C225619B_9AB9D12A, 0x844DEDE2_CA5EE37A_A139F03C_8CFEEFD5_7D289A2B_F4F4B29C_2DA3F5AF_1A43AF32,
      0x610E, -0x1C886, 0xC994B697_68832BCB_FF5E9AB3_9AE8D1D3_763BBF1E_531BED98_FE51DE5E_E84F50FB, 0x483ADA77_26A3C465_5DA4FBFC_0E1108A8_FD17B448_A6855419_9C47D08F_FB10D4B8, -1, -1,
      0xB079F165_45050A77_D12AF9E0_F397665C_868A9333_72935A32_01FB1E24_9B89B124, 0x9DEF9835_85296EBE_5E830B27_BADF8576_5EB32E43_7051C9FB_F73CE511_07DFA425, 0x784F5697_C6814FA9_FD6C8F37_CC982D3D_215C3CD3_A37718FC_103A9BB1_31A25970);
    Doubled(0x9DEF9835_85296EBE_5E830B27_BADF8576_5EB32E43_7051C9FB_F73CE511_07DFA425, 0x784F5697_C6814FA9_FD6C8F37_CC982D3D_215C3CD3_A37718FC_103A9BB1_31A25970,
      0x610D, -0x1C887, 0x244EF279_6BF47F6E_1588ADCB_60AB7149_E91FF545_8C51B06E_274C6B3E_94EFB867,
      0x37E50BEE_F59141BC_48BD3825_9141F6A9_05E8154E_5655B7FD_E73992B8_A14C3E89, 0x53E00537_8937B2A2_5FA198EE_B01F132C_D78595C4_D2DBD6B6_3EAF5528_913C6651);
    Added(0x37E50BEE_F59141BC_48BD3825_9141F6A9_05E8154E_5655B7FD_E73992B8_A14C3E89, 0x53E00537_8937B2A2_5FA198EE_B01F132C_D78595C4_D2DBD6B6_3EAF5528_913C6651,
      0xC21A, -0x3910E, 0x79BE667E_F9DCBBAC_55A06295_CE870B07_029BFCDB_2DCE28D9_59F2815B_16F81798, 0x483ADA77_26A3C465_5DA4FBFC_0E1108A8_FD17B448_A6855419_9C47D08F_FB10D4B8, 1, 0,
      0x935AB4A6_8777ABBF_1B6063DF_F42F8D08_95C85314_2A7AEB18_45490906_1F37F08F, 0xEF25F4CE_31D86608_8C6BC2BB_F8707F38_EBD36297_6D5E25AB_8DE9B6E7_254D6489, 0xB0E6382C_564BF0F0_9E9F3129_DDA72E7F_1BEDB2A3_D8282684_BD1D54B7_A4C27A23);
    Doubled(0xEF25F4CE_31D86608_8C6BC2BB_F8707F38_EBD36297_6D5E25AB_8DE9B6E7_254D6489, 0xB0E6382C_564BF0F0_9E9F3129_DDA72E7F_1BEDB2A3_D8282684_BD1D54B7_A4C27A23,
      0xC21B, -0x3910E, 0x378A2BC6_56EFBAC5_175A1D1D_80B528B0_222324BD_66DAB893_31FE5A7E_C54FBB1A,
      0x880C601B_80D7F1D1_3C1CA7D7_5619BB92_7CF6EC5D_3F5D30CE_A08B00C6_E9FCD45C, 0xBAA05E29_13451C0F_5887FD68_03C9A749_F69B14F4_4BB38BDB_4107273A_D1418804);
    Doubled(0x880C601B_80D7F1D1_3C1CA7D7_5619BB92_7CF6EC5D_3F5D30CE_A08B00C6_E9FCD45C, 0xBAA05E29_13451C0F_5887FD68_03C9A749_F69B14F4_4BB38BDB_4107273A_D1418804,
      0x18436, -0x7221C, 0xEE6099BC_D7720FA5_423C0A9F_6496F427_09337B5A_AAE4E81F_F83F4FE9_9D94269B,
      0x531C5403_233CCC78_E35BF673_B6B47788_4E8199A4_0EB54C78_8A61A0AF_B3412C31, 0x4673DD0D_753444B2_03D874CA_B2B09914_74266077_1D2BF53E_734E0460_E608E0C9);
    Added(0x531C5403_233CCC78_E35BF673_B6B47788_4E8199A4_0EB54C78_8A61A0AF_B3412C31, 0x4673DD0D_753444B2_03D874CA_B2B09914_74266077_1D2BF53E_734E0460_E608E0C9,
      0x3086C, -0xE4438, 0x79BE667E_F9DCBBAC_55A06295_CE870B07_029BFCDB_2DCE28D9_59F2815B_16F81798, 0x483ADA77_26A3C465_5DA4FBFC_0E1108A8_FD17B448_A6855419_9C47D08F_FB10D4B8, 1, 0,
      0x71405CDD_A3E4C856_5E6664A0_DB0AEB37_D0B613A7_2B736DB3_C16C5118_2E57B70D, 0x3D5D277A_EF045425_504DAC44_38AB4A3F_974D82C4_E870F6E1_CC71DE17_C579ECA8, 0xF17F5754_7A512F57_5C8CD46E_B9CBC2A8_0312B3DF_1C76BEDC_928902FD_7C6203FC);
    Doubled(0x3D5D277A_EF045425_504DAC44_38AB4A3F_974D82C4_E870F6E1_CC71DE17_C579ECA8, 0xF17F5754_7A512F57_5C8CD46E_B9CBC2A8_0312B3DF_1C76BEDC_928902FD_7C6203FC,
      0x3086D, -0xE4438, 0x39A5AC47_428D605D_C9CEB54C_DF3F4527_E8934647_218F4BA4_61150561_801278E7,
      0x6B2ABEA4_8BED3E2A_E060E077_CF44EABD_A3A90A3A_ECB96AA3_D16B1F7A_52ED7B9D, 0xD763DB10_40654787_1DAD72B1_7A82A3A3_2B047C9E_E8084B22_919DC0E4_E38802B6);
  }

  lemma Steps2()
    ensures Reaches(0x0483F1D7_2750D753_E43A19C8_B7C1B918_82B2DCEE_FBDF3C99_9CF68B75_4DE524DE,
                    0x4F4384C2_54982436_81348474_ED25E8AF_892EAFB8_B92709A1_F92B2708_4BFF7A96,
                    0x3086D222, -0xE4437ED6)
  {
    hide Reaches;
    Units();
    Steps1();
    Doubled(0x6B2ABEA4_8BED3E2A_E060E077_CF44EABD_A3A90A3A_ECB96AA3_D16B1F7A_52ED7B9D, 0xD763DB10_40654787_1DAD72B1_7A82A3A3_2B047C9E_E8084B22_919DC0E4_E38802B6,
      0x610DA, -0x1C8870, 0x8B3B3411_149E4E0C_4E69B9FF_0DE96BFB_F69EEF16_A86A3FCD_BA92E9F6_1F698A82,
      0xC5EEFCA3_23644CF9_6000720D_F86B45EA_E1881EB3_281E203D_FF11D7F0_1C78C81E, 0x078D8999_16B74B69_BA49AB5E_51CA753E_DC7092BB_CB0B1356_AA4AB4A7_14D22FF8);
    Doubled(0xC5EEFCA3_23644CF9_6000720D_F86B45EA_E1881EB3_281E203D_FF11D7F0_1C78C81E, 0x078D8999_16B74B69_BA49AB5E_51CA753E_DC7092BB_CB0B1356_AA4AB4A7_14D22FF8,
      0xC21B4, -0x3910E0, 0xDEDE73C0_A709D3EF_7123BF03_61D258E1_B24CB5EB_3665A0D2_02B32D76_CFFFD115,
      0x2BFD0C82_AE7A945D_55C6BF46_D14717F3_9702E7E8_FF7BC2B2_AE87AAA3_FC7F530D, 0xAEB909D4_115479B5_98E2586C_9B2D5464_188F8845_2348A351_E62BBAD1_557B8C79);
    Added(0x2BFD0C82_AE7A945D_55C6BF46_D14717F3_9702E7E8_FF7BC2B2_AE87AAA3_FC7F530D, 0xAEB909D4_115479B5_98E2586C_9B2D5464_188F8845_2348A351_E62BBAD1_557B8C79,
      0x184368, -0x7221C0, 0x79BE667E_F9DCBBAC_55A06295_CE870B07_029BFCDB_2DCE28D9_59F2815B_16F81798, 0x483ADA77_26A3C465_5DA4FBFC_0E1108A8_FD17B448_A6855419_9C47D08F_FB10D4B8, 1, 0,
      0x69DB4621_9FB6C9B3_2D1DE3A3_0C28BE03_960CA553_51372C8B_C21C56FE_EF6C5CBB, 0x065EA9BB_D2944BC8_0C9F6792_D4A6DE4D_23401FCD_5715971D_D709B302_E6522878, 0xD918CB03_5418DD80_6254E620_19662AF8_A988CD77_D185108A_79851342_78A3A226);
    Doubled(0x065EA9BB_D2944BC8_0C9F6792_D4A6DE4D_23401FCD_5715971D_D709B302_E6522878, 0xD918CB03_5418DD80_6254E620_19662AF8_A988CD77_D185108A_79851342_78A3A226,
      0x184369, -0x7221C0, 0x437F7D4C_95FF94E2_B259E59B_7882F3A5_C068876E_61A1FC3B_306FDE57_B1C442D1,
      0x19F9686D_12A33533_F6945A92_EF08F902_86E24555_1553BDD9_60F7DF21_7E2936FC, 0x08E387A2_99841762_2F34B50A_F1CDA84B_AE434C39_EC2533F1_1FC4EDEB_048E2FD1);
    Added(0x19F9686D_12A33533_F6945A92_EF08F902_86E24555_1553BDD9_60F7DF21_7E2936FC, 0x08E387A2_99841762_2F34B50A_F1CDA84B_AE434C39_EC2533F1_1FC4EDEB_048E2FD1,
      0x3086D2, -0xE44380, 0xBCACE2E9_9DA01887_AB0102B6_96902325_87284406_7F15E98D_A7BBA044_00B88FCB, 0x483ADA77_26A3C465_5DA4FBFC_0E1108A8_FD17B448_A6855419_9C47D08F_FB10D4B8, 0, 1,
      0x4F6225B8_8DC53EBB_FFCBC006_32F08421_ED3FF489_C09BDFA5_A4D0DCD7_324F83D6, 0xF281D99A_6D57CB87_C004C183_B6ACD9CF_B3E7062D_DF3A1445_7A4EA548_B2293E5A, 0xEA2BAA28_77E0BA50_BF52B052_181115D8_13DA335B_BA235CB7_8F439FEC_832011C9);
    Doubled(0xF281D99A_6D57CB87_C004C183_B6ACD9CF_B3E7062D_DF3A1445_7A4EA548_B2293E5A, 0xEA2BAA28_77E0BA50_BF52B052_181115D8_13DA335B_BA235CB7_8F439FEC_832011C9,
      0x3086D2, -0xE4437F, 0x9BE59CD7_F71693EE_42291470_A456642F_FB4EEB32_C15B0EF8_F644D6DF_5E00EF5B,
      0xD4AFE48C_C908E014_2CD66074_5B0FC9E5_89078F1A_8903AC7F_D400BF71_E74BA14C, 0xD0752B7F_661D90CD_82FF1E13_D7D9FE98_55FE263F_C1634443_D0417DE4_2F953841);
    Doubled(0xD4AFE48C_C908E014_2CD66074_5B0FC9E5_89078F1A_8903AC7F_D400BF71_E74BA14C, 0xD0752B7F_661D90CD_82FF1E13_D7D9FE98_55FE263F_C1634443_D0417DE4_2F953841,
      0x610DA4, -0x1C886FE, 0xF239C884_2C696175_BB698F42_69AF5FDE_0A3CB94E_FE9E70CA_C747B2A7_29BDB7F2,
      0x4C2EB003_EE5B041A_20A08574_B2A53749_3B078053_373C5037_4513AC8F_219DB747, 0xC32C4FF3_9B7CE916_42AC52E9_3A538D41_9760BFF1_3F3FF522_C0F09021_990EF36A);
    Doubled(0x4C2EB003_EE5B041A_20A08574_B2A53749_3B078053_373C5037_4513AC8F_219DB747, 0xC32C4FF3_9B7CE916_42AC52E9_3A538D41_9760BFF1_3F3FF522_C0F09021_990EF36A,
      0xC21B48, -0x3910DFC, 0x851CC935_9839C33E_24E1BACE_E7A48E9F_FF379914_63C4DEF2_9C8AD215_DE2DEE4F,
      0x74798A89_D0C8EFFA_B8137200_A8859457_D084A2A8_433F7A18_C5B17CB1_9730A72E, 0xD6AF1DE9_23A6D4FC_E61E59F4_877E0A3D_B07DBF19_DE7ADB22_A5D55C6C_49BA1829);
    Added(0x74798A89_D0C8EFFA_B8137200_A8859457_D084A2A8_433F7A18_C5B17CB1_9730A72E, 0xD6AF1DE9_23A6D4FC_E61E59F4_877E0A3D_B07DBF19_DE7ADB22_A5D55C6C_49BA1829,
      0x1843690, -0x7221BF8, 0xC994B697_68832BCB_FF5E9AB3_9AE8D1D3_763BBF1E_531BED98_FE51DE5E_E84F50FB, 0xB7C52588_D95C3B9A_A25B0403_F1EEF757_02E84BB7_597AABE6_63B82F6F_04EF2777, 1, 1,
      0x2F469400_9C2CD2A0_E15506B5_EC011FE0_03116CB1_070A1D14_0427A729_7AC5D074, 0xE877117C_34D233F5_40912076_51A990CA_14287697_6BFE7C85_958D24C4_A5B991DD, 0xA6DDDA25_1AF7EAA0_D513BCCD_6E63AB84_01DDE31B_4A0F6D15_3C62B38F_6CD80BAA);
    Doubled(0xE877117C_34D233F5_40912076_51A990CA_14287697_6BFE7C85_958D24C4_A5B991DD, 0xA6DDDA25_1AF7EAA0_D513BCCD_6E63AB84_01DDE31B_4A0F6D15_3C62B38F_6CD80BAA,
      0x1843691, -0x7221BF7, 0xEFA8199C_1332A034_284A07B1_F781342C_82DA64B3_140CF277_242FACB0_6B3BC254,
      0x85444610_B2715173_B5D366E5_4722F157_33C34536_4C76E39D_F541E4A2_00E4CFAC, 0x18AF264B_91E5EC50_176D263B_93FF54F2_F522D23A_3C4D205B_D406EA1E_188CDD8C);
    Doubled(0x85444610_B2715173_B5D366E5_4722F157_33C34536_4C76E39D_F541E4A2_00E4CFAC, 0x18AF264B_91E5EC50_176D263B_93FF54F2_F522D23A_3C4D205B_D406EA1E_188CDD8C,
      0x3086D22, -0xE4437EE, 0x441F0482_5F68006C_B7FEF789_D25B3CEF_3E533F23_5EF83289_3DCBAEBD_D717B428,
      0x09F5FA57_4FBF5CEB_935065EA_6EF3BE19_527D9B3D_70FDF4F3_6B0B7437_E2CAE6CD, 0xF2421A9A_66AE844F_6844D736_9477A1E3_13E23EE0_0ECD60A0_2803B959_0AB29D88);
    Added(0x09F5FA57_4FBF5CEB_935065EA_6EF3BE19_527D9B3D_70FDF4F3_6B0B7437_E2CAE6CD, 0xF2421A9A_66AE844F_6844D736_9477A1E3_13E23EE0_0ECD60A0_2803B959_0AB29D88,
      0x610DA44, -0x1C886FDC, 0xBCACE2E9_9DA01887_AB0102B6_96902325_87284406_7F15E98D_A7BBA044_00B88FCB, 0x483ADA77_26A3C465_5DA4FBFC_0E1108A8_FD17B448_A6855419_9C47D08F_FB10D4B8, 0, 1,
      0x6673C5BF_10C83F9B_7B8FC0E5_DBF54ABE_AAD3B974_649301FD_401F84E9_92317110, 0x61C3303A_7533A967_39AB9662_62674B93_BBDFD177_BE7BF639_28D6BB27_B8D885A8, 0xE579C353_9E8F8AB9_B44313E7_CED058FB_35AC0298_7DF005CF_33B460AD_896606A4);
    Doubled(0x61C3303A_7533A967_39AB9662_62674B93_BBDFD177_BE7BF639_28D6BB27_B8D885A8, 0xE579C353_9E8F8AB9_B44313E7_CED058FB_35AC0298_7DF005CF_33B460AD_896606A4,
      0x610DA44, -0x1C886FDB, 0x85EFE593_2125EE41_EA1778EB_E3CFAFFF_DFFBFD6C_62462CA6_E0147DF1_A440C3BE,
      0xDF0CBC22_9488A20D_C63EE1C4_3DD49C42_6AA7E89B_6182D865_B2F29613_F75DB947, 0xAC03E2B3_72B192BA_FB8956C9_5DBBCC38_E0D6CA90_F172A0B1_F2488831_B0EEBF72);
    Doubled(0xDF0CBC22_9488A20D_C63EE1C4_3DD49C42_6AA7E89B_6182D865_B2F29613_F75DB947, 0xAC03E2B3_72B192BA_FB8956C9_5DBBCC38_E0D6CA90_F172A0B1_F2488831_B0EEBF72,
      0xC21B488, -0x3910DFB6, 0x818DB4D4_498758D4_4489D4ED_632E625A_627F8127_A47E69C0_16CA06AA_1689D60A,
      0x1326C018_17800C71_218EC8F5_301D2812_DAC252E3_9DFC3119_D69A6330_23DC5DFE, 0x28DE3143_6D6C8393_9BB4863D_6E1DC114_6DEAE623_EE867D43_507568DE_C078B935);
    Added(0x1326C018_17800C71_218EC8F5_301D2812_DAC252E3_9DFC3119_D69A6330_23DC5DFE, 0x28DE3143_6D6C8393_9BB4863D_6E1DC114_6DEAE623_EE867D43_507568DE_C078B935,
      0x18436910, -0x7221BF6C, 0xC994B697_68832BCB_FF5E9AB3_9AE8D1D3_763BBF1E_531BED98_FE51DE5E_E84F50FB, 0xB7C52588_D95C3B9A_A25B0403_F1EEF757_02E84BB7_597AABE6_63B82F6F_04EF2777, 1, 1,
      0x9B4543DA_108E0085_68F9DEE6_F3BA4124_FE7919B6_97CC61DA_390BB213_D13ECB7F, 0x40043D33_CE75787D_79021615_35E35CB8_B77D34EA_54C36693_9BC3BCD9_485E0A01, 0xFA8C3A42_3DE62936_50222B0F_618ACAC6_6C0F8F0F_4CA1066B_7F36A91A_02029702);
    Doubled(0x40043D33_CE75787D_79021615_35E35CB8_B77D34EA_54C36693_9BC3BCD9_485E0A01, 0xFA8C3A42_3DE62936_50222B0F_618ACAC6_6C0F8F0F_4CA1066B_7F36A91A_02029702,
      0x18436911, -0x7221BF6B, 0x887E053B_965DCB3F_B7964FD8_C1A39617_4CB62C8B_3D10D614_4C0C00B1_5CC660D5,
      0x0483F1D7_2750D753_E43A19C8_B7C1B918_82B2DCEE_FBDF3C99_9CF68B75_4DE524DE, 0x4F4384C2_54982436_81348474_ED25E8AF_892EAFB8_B92709A1_F92B2708_4BFF7A96);
  }

  lemma Steps3()
    ensures Reaches(0xB4E42856_D4F4FEEE_13638950_4097A6FB_36A93C56_574138D1_EC7D9CB6_990778CB,
                    0x0CEB4F27_2C35E84F_FEAAD994_428695B1_F4E1B269_37AE306D_24DF6CA2_C3D1C19C,
                    0x18436910D3F, -0x7221BF6B008)
  {
    hide Reaches;
    Units();
    Steps2();
    Doubled(0x0483F1D7_2750D753_E43A19C8_B7C1B918_82B2DCEE_FBDF3C99_9CF68B75_4DE524DE, 0x4F4384C2_54982436_81348474_ED25E8AF_892EAFB8_B92709A1_F92B2708_4BFF7A96,
      0x3086D222, -0xE4437ED6, 0x2D09AD78_49187E5A_4AA0E61A_447AAE34_6419B2D6_D1FD9B99_1BA96605_A2C9A967,
      0xB00DCC2B_ADA48566_27D9C097_81079D8B_C6E38C67_A76C289E_6571007C_B339DE74, 0x85F5327F_30FF2FC9_36013869_A6234847_46D722CD_5A566908_40AD63E9_9D162D33);
    Added(0xB00DCC2B_ADA48566_27D9C097_81079D8B_C6E38C67_A76C289E_6571007C_B339DE74, 0x85F5327F_30FF2FC9_36013869_A6234847_46D722CD_5A566908_40AD63E9_9D162D33,
      0x610DA444, -0x1C886FDAC, 0x79BE667E_F9DCBBAC_55A06295_CE870B07_029BFCDB_2DCE28D9_59F2815B_16F81798, 0xB7C52588_D95C3B9A_A25B0403_F1EEF757_02E84BB7_597AABE6_63B82F6F_04EF2777, -1, 0,
      0x5A9A973C_53925945_26CD9F9A_A5EEACC3_5BD5FB2A_2A0DD686_EDAFB126_15CFF98A, 0x2A3385D5_37A36806_87773093_0CAD1332_282AD2AE_EE05CE65_9936073D_5D9DFB6B, 0x50CDA4E2_19CF7081_A10FEF7F_D2618FB0_B7505212_CC043241_DD3AB43D_C406FCE4);
    Doubled(0x2A3385D5_37A36806_87773093_0CAD1332_282AD2AE_EE05CE65_9936073D_5D9DFB6B, 0x50CDA4E2_19CF7081_A10FEF7F_D2618FB0_B7505212_CC043241_DD3AB43D_C406FCE4,
      0x610DA443, -0x1C886FDAC, 0xB675DF46_F5626F5E_F732839F_01B6F74B_8BFAE19A_82940CF2_690C544C_770E66A5,
      0x1370DA03_A8FB2882_CEFBB865_DF7EA016_9186FD90_352F76F5_E95713DD_E834143B, 0xA8EA463D_6A7019D6_A32C8227_2EB207DE_D9CEDB93_E9238191_31A3470F_13C4B3DA);
    Doubled(0x1370DA03_A8FB2882_CEFBB865_DF7EA016_9186FD90_352F76F5_E95713DD_E834143B, 0xA8EA463D_6A7019D6_A32C8227_2EB207DE_D9CEDB93_E9238191_31A3470F_13C4B3DA,
      0xC21B4886, -0x3910DFB58, 0xEB667264_018F0054_9D3D83AE_654AD0E4_896EAD4D_232C4D6C_1987034A_CC95376A,
      0x0B94FC5E_463C9CE0_2DD67555_6EA6BB01_523170A1_6B429785_2FFC6C30_44737BA4, 0x383DA26B_F580CDF3_223163DB_213D1AFB_4B57284E_65A4141F_BD0E1F46_82FEF89C);
    Added(0x0B94FC5E_463C9CE0_2DD67555_6EA6BB01_523170A1_6B429785_2FFC6C30_44737BA4, 0x383DA26B_F580CDF3_223163DB_213D1AFB_4B57284E_65A4141F_BD0E1F46_82FEF89C,
      0x18436910C, -0x7221BF6B0, 0x79BE667E_F9DCBBAC_55A06295_CE870B07_029BFCDB_2DCE28D9_59F2815B_16F81798, 0x483ADA77_26A3C465_5DA4FBFC_0E1108A8_FD17B448_A6855419_9C47D08F_FB10D4B8, 1, 0,
      0x8277DCAC_FA51CF6A_88C0B2CD_67D3322C_D5CFD0B2_2A209BC7_1C356BC8_599B56E7, 0xB0746EA0_DD683233_0C5661ED_8DBBDD9E_1B536467_54DD806A_E17DF18B_CF632807, 0x58114A78_30FF16D3_78386C42_D0BD513A_66E6B0A0_C709F946_AD2C311F_B8CE9531);
    Doubled(0xB0746EA0_DD683233_0C5661ED_8DBBDD9E_1B536467_54DD806A_E17DF18B_CF632807, 0x58114A78_30FF16D3_78386C42_D0BD513A_66E6B0A0_C709F946_AD2C311F_B8CE9531,
      0x18436910D, -0x7221BF6B0, 0xD7EE1B64_C873F94C_F3BB7795_39D15057_8E39B3FB_B2FA1C1C_C5EC772E_05E5B083,
      0x4EACC39A_DF3F3A90_0FF0A0B8_868A096D_85702E8C_B90065F0_3A041238_F47D204F, 0xD82E1C01_4DB1FCF4_3BC209AD_4B27EBFC_8CC6952E_6AD918B3_6EAF8E9B_19C863E9);
    Doubled(0x4EACC39A_DF3F3A90_0FF0A0B8_868A096D_85702E8C_B90065F0_3A041238_F47D204F, 0xD82E1C01_4DB1FCF4_3BC209AD_4B27EBFC_8CC6952E_6AD918B3_6EAF8E9B_19C863E9,
      0x3086D221A, -0xE4437ED60, 0x2246149F_AFA644F1_73859547_AC3171C3_31D50123_F7AAAFC5_E24E40FE_1A9E616A,
      0x751E6F1A_27128E50_3F6A9BD6_F2652B10_6DAC895B_2AA8B8CB_2F68B8F1_B05AA28D, 0x83DEB739_9B50153F_54357ED5_E38BC73C_5EEDE852_80EF29F9_E1F58C5C_31B656CF);
    Added(0x751E6F1A_27128E50_3F6A9BD6_F2652B10_6DAC895B_2AA8B8CB_2F68B8F1_B05AA28D, 0x83DEB739_9B50153F_54357ED5_E38BC73C_5EEDE852_80EF29F9_E1F58C5C_31B656CF,
      0x610DA4434, -0x1C886FDAC0, 0x79BE667E_F9DCBBAC_55A06295_CE870B07_029BFCDB_2DCE28D9_59F2815B_16F81798, 0x483ADA77_26A3C465_5DA4FBFC_0E1108A8_FD17B448_A6855419_9C47D08F_FB10D4B8, 1, 0,
      0x3A7A93A6_90C6251F_7CA7423F_3B1AC08D_069EA996_6087092B_2FE02A1D_B230CF1A, 0xD6F6FC5C_30CE5B19_DFAFA79F_CEDD6248_F0522B99_31EE4CB7_0A7E6085_B6213A39, 0x82613A78_0AA0CF99_DE9B8896_1BBD66C6_58427217_7D8B6E6A_3E642073_E460614B);
    Doubled(0xD6F6FC5C_30CE5B19_DFAFA79F_CEDD6248_F0522B99_31EE4CB7_0A7E6085_B6213A39, 0x82613A78_0AA0CF99_DE9B8896_1BBD66C6_58427217_7D8B6E6A_3E642073_E460614B,
      0x610DA4435, -0x1C886FDAC0, 0xF40CE960_16503851_7A942B6E_283DA580_CE0E6CB6_37533739_EB20B36B_E5260275,
      0xD182B706_F130CCBD_6C65823B_A74921D7_F493885F_24ABA293_BD8190F4_6E982467, 0x031DCE0F_642816ED_235CE28F_D875D8A2_E22A84C8_615987FC_4D78C5C1_9BABC1C3);
    Doubled(0xD182B706_F130CCBD_6C65823B_A74921D7_F493885F_24ABA293_BD8190F4_6E982467, 0x031DCE0F_642816ED_235CE28F_D875D8A2_E22A84C8_615987FC_4D78C5C1_9BABC1C3,
      0xC21B4886A, -0x3910DFB580, 0xA7B0A8AA_DB3CCFBC_ED6B0EA9_A45476CC_D630E70A_1BA4F173_BA9AACFC_929DB481,
      0xDCCE86CF_4ABB32F6_FF27F319_E56EA4DC_21403106_754543D5_83D17A50_475CFB47, 0x9C1C49AB_AE7B4210_D2736438_BEDB8832_42BF3157_BE60F6BA_6EAC4850_C4D7BC4A);
    Doubled(0xDCCE86CF_4ABB32F6_FF27F319_E56EA4DC_21403106_754543D5_83D17A50_475CFB47, 0x9C1C49AB_AE7B4210_D2736438_BEDB8832_42BF3157_BE60F6BA_6EAC4850_C4D7BC4A,
      0x18436910D4, -0x7221BF6B00, 0x6E445DED_B7991F08_63B89F28_58B2A055_A3D4F21E_890A7208_E90F6BF9_2CE4A8A9,
      0x4055CB99_AB814CF3_B1B621CD_E1D6C63A_7165845D_99BA176A_D7A4A872_2CE48B27, 0xB251DE8E_4DAA97D6_E95ED447_5EFC75E9_D6C92AC0_8F2772F5_B9BC368D_41D0C094);
    Added(0x4055CB99_AB814CF3_B1B621CD_E1D6C63A_7165845D_99BA176A_D7A4A872_2CE48B27, 0xB251DE8E_4DAA97D6_E95ED447_5EFC75E9_D6C92AC0_8F2772F5_B9BC368D_41D0C094,
      0x3086D221A8, -0xE4437ED600, 0xBCACE2E9_9DA01887_AB0102B6_96902325_87284406_7F15E98D_A7BBA044_00B88FCB, 0xB7C52588_D95C3B9A_A25B0403_F1EEF757_02E84BB7_597AABE6_63B82F6F_04EF2777, 0, -1,
      0x257788DB_B32FD48F_74E6F7AB_05B2CADB_3BE4445C_AC6020E5_4307A0B4_488F6776, 0x858F4434_17F0617A_01C044D0_CC559B17_FBB3995B_F9AB51AA_460EA5FB_8407A754, 0x52C8DC3B_16555CB4_D3E47413_BC71C3D1_00DEA5FF_85B832CE_F0FBD165_6855E49B);
    Doubled(0x858F4434_17F0617A_01C044D0_CC559B17_FBB3995B_F9AB51AA_460EA5FB_8407A754, 0x52C8DC3B_16555CB4_D3E47413_BC71C3D1_00DEA5FF_85B832CE_F0FBD165_6855E49B,
      0x3086D221A8, -0xE4437ED601, 0x1A6EBF86_96357D41_DC8BE633_69F921E3_778D0EE8_8E298797_25464B32_9872E096,
      0x030D5563_6A636514_EEDEA079_30172463_050357E0_4B09CA97_DF8E90BA_57927C94, 0xEBCE818D_22B81071_FC5BCB43_056B17E8_022F182C_D0508A47_4656B79D_DFADE9F8);
    Doubled(0x030D5563_6A636514_EEDEA079_30172463_050357E0_4B09CA97_DF8E90BA_57927C94, 0xEBCE818D_22B81071_FC5BCB43_056B17E8_022F182C_D0508A47_4656B79D_DFADE9F8,
      0x610DA44350, -0x1C886FDAC02, 0x3C00FAFC_5DB63DC1_BC821955_B7EE2F1A_89DA32E9_A4044106_E079F4D8_206EF379,
      0xF07E4C70_BBFEFEF2_08B00358_F0A8E6AA_3F975981_89C1B081_2D572422_891A86C7, 0x2D10F7E2_A47E6DD5_4E287F23_2EA3346C_97239B50_8247C231_7558A35B_C44ED6D7);
    Doubled(0xF07E4C70_BBFEFEF2_08B00358_F0A8E6AA_3F975981_89C1B081_2D572422_891A86C7, 0x2D10F7E2_A47E6DD5_4E287F23_2EA3346C_97239B50_8247C231_7558A35B_C44ED6D7,
      0xC21B4886A0, -0x3910DFB5804, 0xF4E57F71_7EE14F0E_E383DACA_03ECDDB7_ADE6AF42_528960E7_F2A5EABA_4AD6C30D,
      0x7270623C_184E1EDE_D1B47EDD_31894FF5_4DDD141E_25513062_4839A48C_4E6DA2F6, 0xD2815015_F7D9B3C0_1996AE20_95FAA2E8_23B3FD68_4969E915_9D09B03A_207705EB);
    Added(0x7270623C_184E1EDE_D1B47EDD_31894FF5_4DDD141E_25513062_4839A48C_4E6DA2F6, 0xD2815015_F7D9B3C0_1996AE20_95FAA2E8_23B3FD68_4969E915_9D09B03A_207705EB,
      0x18436910D40, -0x7221BF6B008, 0x79BE667E_F9DCBBAC_55A06295_CE870B07_029BFCDB_2DCE28D9_59F2815B_16F81798, 0xB7C52588_D95C3B9A_A25B0403_F1EEF757_02E84BB7_597AABE6_63B82F6F_04EF2777, -1, 0,
      0x86C3FC22_1EFB88CA_1669D80C_04CF39C0_6EF7C7A8_403ADFA2_6678FD89_CC65A49C, 0xB4E42856_D4F4FEEE_13638950_4097A6FB_36A93C56_574138D1_EC7D9CB6_990778CB, 0x0CEB4F27_2C35E84F_FEAAD994_428695B1_F4E1B269_37AE306D_24DF6CA2_C3D1C19C);
  }

  lemma Steps4()
    ensures Reaches(0xF58755AF_F4A9FFD8_2B88770F_E08CC881_B9CB9AA7_359CF0C8_3788163D_41BA14A9,
                    0xD5770619_AD7E97F1_6A4658B7_0E97CC6C_F8766F84_4EFE7B58_E6CB4D5A_8C234BC1,
                    0x610DA4434FA8D, -0x1C886FDAC021D1)
  {
    hide Reaches;
    Units();
    Steps3();
    Doubled(0xB4E42856_D4F4FEEE_13638950_4097A6FB_36A93C56_574138D1_EC7D9CB6_990778CB, 0x0CEB4F27_2C35E84F_FEAAD994_428695B1_F4E1B269_37AE306D_24DF6CA2_C3D1C19C,
      0x18436910D3F, -0x7221BF6B008, 0x3F60EB93_559711C6_5C70C81C_D2C7B5D8_292E131B_A8440FEB_24F3923B_FC8E50F1,
      0xDD899678_E23F71C8_64836811_67A7ED18_BDA12861_5770B0C8_C3A69ED4_1EF677D7, 0xD2CA5ECB_4FC93489_42FB24AA_CF88B40E_FD33FB94_3BAB10F3_8590D374_D6D255C7);
    Added(0xDD899678_E23F71C8_64836811_67A7ED18_BDA12861_5770B0C8_C3A69ED4_1EF677D7, 0xD2CA5ECB_4FC93489_42FB24AA_CF88B40E_FD33FB94_3BAB10F3_8590D374_D6D255C7,
      0x3086D221A7E, -0xE4437ED6010, 0xC994B697_68832BCB_FF5E9AB3_9AE8D1D3_763BBF1E_531BED98_FE51DE5E_E84F50FB, 0x483ADA77_26A3C465_5DA4FBFC_0E1108A8_FD17B448_A6855419_9C47D08F_FB10D4B8, -1, -1,
      0x6644D124_FA24B980_F409EE4F_AD890C7D_27AD15F2_A5334A0A_1ADEFD85_EB279C14, 0x6EA02E1E_9F5578DF_FD6C5BA8_592753CC_E9C656B7_4AB132F2_09DAB003_CE9715DE, 0x78E0E5D2_8F80FC4A_B15FC679_7DC8B542_F22966F6_3F19779E_4B44C8A2_039D6D39);
    Doubled(0x6EA02E1E_9F5578DF_FD6C5BA8_592753CC_E9C656B7_4AB132F2_09DAB003_CE9715DE, 0x78E0E5D2_8F80FC4A_B15FC679_7DC8B542_F22966F6_3F19779E_4B44C8A2_039D6D39,
      0x3086D221A7D, -0xE4437ED6011, 0xF139842C_782E96BE_17748C5D_64989E27_723CCC67_8B9B991C_DBCDA2F7_D277D12E,
      0x873D00F7_2F55C978_399452F0_7895F180_77A68F6F_A380CDDD_CB7D6BB0_94BBE94A, 0x8BA0A8E0_8FE8D9F7_C6E569E5_B40D2B4B_439ED4C5_0C6368B9_40368BF9_4F545696);
    Doubled(0x873D00F7_2F55C978_399452F0_7895F180_77A68F6F_A380CDDD_CB7D6BB0_94BBE94A, 0x8BA0A8E0_8FE8D9F7_C6E569E5_B40D2B4B_439ED4C5_0C6368B9_40368BF9_4F545696,
      0x610DA4434FA, -0x1C886FDAC022, 0x0BC11907_F4B8EEE9_5C79D288_4C3D5F9B_985045E6_0A8DC570_E0AD037A_64B29520,
      0x45142D3C_5D1A4FA8_44B7CB7D_E0E78A31_E60C8025_E6488BA2_B3F4CFB3_C32A8866, 0x9DCC50AB_62F502D4_C489E115_C21446FB_CBD06581_6BB28D2F_1A46945E_8606832B);
    Added(0x45142D3C_5D1A4FA8_44B7CB7D_E0E78A31_E60C8025_E6488BA2_B3F4CFB3_C32A8866, 0x9DCC50AB_62F502D4_C489E115_C21446FB_CBD06581_6BB28D2F_1A46945E_8606832B,
      0xC21B48869F4, -0x3910DFB58044, 0x79BE667E_F9DCBBAC_55A06295_CE870B07_029BFCDB_2DCE28D9_59F2815B_16F81798, 0x483ADA77_26A3C465_5DA4FBFC_0E1108A8_FD17B448_A6855419_9C47D08F_FB10D4B8, 1, 0,
      0x27C93F31_BCCB2373_81AA7256_30E4AD39_0C56E214_9A51A982_AB73642A_6920ED5B, 0x882C0E8D_FE8DBA16_3442E347_C0610CB9_FF17C09E_FCD5AB95_92110181_2B4253E0, 0x19B069EF_40C83A89_41EF4D8B_5F98999A_3C0E4B16_E4272BA6_B3F8C121_B394B0D0);
    Doubled(0x882C0E8D_FE8DBA16_3442E347_C0610CB9_FF17C09E_FCD5AB95_92110181_2B4253E0, 0x19B069EF_40C83A89_41EF4D8B_5F98999A_3C0E4B16_E4272BA6_B3F8C121_B394B0D0,
      0xC21B48869F5, -0x3910DFB58044, 0xEA28517C_76FE542D_99321778_DCEC590F_7FCA604D_E3985DA4_9C75B6E4_B431A8E3,
      0xAA137336_527033CB_5685C664_26342B57_EE557B72_C9CDC82E_E6D94CE3_548842C2, 0x69102558_CFC7E0AC_F1F0A879_302113D0_37470DA9_32F160CC_55562E59_BD08112B);
    Doubled(0xAA137336_527033CB_5685C664_26342B57_EE557B72_C9CDC82E_E6D94CE3_548842C2, 0x69102558_CFC7E0AC_F1F0A879_302113D0_37470DA9_32F160CC_55562E59_BD08112B,
      0x18436910D3EA, -0x7221BF6B0088, 0xA04CC325_D1EBFBB4_9325C64C_A2155D6D_6292D396_D4DF1EC7_56B6338B_9AABAD1E,
      0x8B802F3D_87A5C9C4_5B50B2AD_3D1B0F79_FFA24649_8D5473FB_F5A361DA_3CB36E96, 0xB7DE60C8_32B18C64_BD8B8DBA_77B2D30B_F7C9215C_556F8D64_3C33C130_40EE9DF7);
    Added(0x8B802F3D_87A5C9C4_5B50B2AD_3D1B0F79_FFA24649_8D5473FB_F5A361DA_3CB36E96, 0xB7DE60C8_32B18C64_BD8B8DBA_77B2D30B_F7C9215C_556F8D64_3C33C130_40EE9DF7,
      0x3086D221A7D4, -0xE4437ED60110, 0xBCACE2E9_9DA01887_AB0102B6_96902325_87284406_7F15E98D_A7BBA044_00B88FCB, 0x483ADA77_26A3C465_5DA4FBFC_0E1108A8_FD17B448_A6855419_9C47D08F_FB10D4B8, 0, 1,
      0xBC9B2A75_ACBDE559_FDC0B5B5_2A8724C9_6EC33C15_C1D7C636_62F9C7FD_F28A5704, 0x74129F37_B6DF6EBF_76E5A826_0A4B855D_9D2649C4_41D3B2AC_5A434156_FA30D32A, 0x491C8CD3_75C3ACB8_B0000419_5DFA81AB_8A407046_E5F06563_052AC811_A8D8E302);
    Doubled(0x74129F37_B6DF6EBF_76E5A826_0A4B855D_9D2649C4_41D3B2AC_5A434156_FA30D32A, 0x491C8CD3_75C3ACB8_B0000419_5DFA81AB_8A407046_E5F06563_052AC811_A8D8E302,
      0x3086D221A7D4, -0xE4437ED6010F, 0xF3A35248_1228A05A_32374524_0ADB62AC_41BBC19E_F12874E7_D18ABC49_C0E06D44,
      0x72582839_77B36F92_5C05B129_E91E9C22_781E040A_DFA64D62_32753976_80DBBB89, 0x5191758C_47EE4339_A558EE7C_FB071FDF_44BF3843_DDB1539F_CF5808B0_A0E59DD4);
    Added(0x72582839_77B36F92_5C05B129_E91E9C22_781E040A_DFA64D62_32753976_80DBBB89, 0x5191758C_47EE4339_A558EE7C_FB071FDF_44BF3843_DDB1539F_CF5808B0_A0E59DD4,
      0x610DA4434FA8, -0x1C886FDAC021E, 0xC994B697_68832BCB_FF5E9AB3_9AE8D1D3_763BBF1E_531BED98_FE51DE5E_E84F50FB, 0xB7C52588_D95C3B9A_A25B0403_F1EEF757_02E84BB7_597AABE6_63B82F6F_04EF2777, 1, 1,
      0x4BF8B7BB_B4793BF9_BE92213E_A5512EAA_0553831C_C0BA7A41_83EAE352_C7FA56CE, 0xADBD4F25_A8EFFE4F_553EA172_E5BBFC92_0B802488_2143D2D8_29D79EDB_137BECE1, 0xC2940050_E35AE163_5857DE41_931B146E_29D88AF3_AC4C34F2_62AC8479_0FA53DE7);
    Doubled(0xADBD4F25_A8EFFE4F_553EA172_E5BBFC92_0B802488_2143D2D8_29D79EDB_137BECE1, 0xC2940050_E35AE163_5857DE41_931B146E_29D88AF3_AC4C34F2_62AC8479_0FA53DE7,
      0x610DA4434FA9, -0x1C886FDAC021D, 0x7846A9F5_6793D273_7562CA80_202078C8_D48FAADF_C9EA6588_F561F601_0E482BAD,
      0xEC25284C_9C90DD18_9D4FD029_6FE51A65_3AFB48CB_8B7E7472_D4F851C2_153675B0, 0x51EF92FD_9F328BBC_34D8E774_0299F5A7_F87AB19F_DE01DAB4_7C0CF65E_A2F17A49);
    Doubled(0xEC25284C_9C90DD18_9D4FD029_6FE51A65_3AFB48CB_8B7E7472_D4F851C2_153675B0, 0x51EF92FD_9F328BBC_34D8E774_0299F5A7_F87AB19F_DE01DAB4_7C0CF65E_A2F17A49,
      0xC21B48869F52, -0x3910DFB58043A, 0x2FD8A5C8_FC98011A_7FB6C922_4D502890_A0897DCA_8B8311CF_DC3CB7FD_CFD7F70B,
      0x989CDFAD_4B24E2FB_0D05E3F6_2AF91C1B_6943F44C_16764571_312BA4B7_2605B985, 0x581B21FE_BD5E103E_5EBF3EAA_8E1E5D69_5C4B03D5_9F0A3DCA_BAFB07C5_F490428C);
    Doubled(0x989CDFAD_4B24E2FB_0D05E3F6_2AF91C1B_6943F44C_16764571_312BA4B7_2605B985, 0x581B21FE_BD5E103E_5EBF3EAA_8E1E5D69_5C4B03D5_9F0A3DCA_BAFB07C5_F490428C,
      0x18436910D3EA4, -0x7221BF6B00874, 0x6AAF1454_FB2283D4_0B77A659_BA20EAB0_D007EB2E_C064218D_519C1745_225CA70E,
      0x379A989E_690B1CE1_99D128CF_2A3BE67B_E422E6CA_6E926DED_8DBB658E_6CC680E8, 0x01BECA94_ED781D9C_02F4BBD6_50355D6B_349E41B8_46031F6B_A7FB7B4D_2B5A8B4F);
    Added(0x379A989E_690B1CE1_99D128CF_2A3BE67B_E422E6CA_6E926DED_8DBB658E_6CC680E8, 0x01BECA94_ED781D9C_02F4BBD6_50355D6B_349E41B8_46031F6B_A7FB7B4D_2B5A8B4F,
      0x3086D221A7D48, -0xE4437ED6010E8, 0x79BE667E_F9DCBBAC_55A06295_CE870B07_029BFCDB_2DCE28D9_59F2815B_16F81798, 0xB7C52588_D95C3B9A_A25B0403_F1EEF757_02E84BB7_597AABE6_63B82F6F_04EF2777, -1, 0,
      0xBEA01CFD_808BCC27_14397FC4_2A04C718_766FCE4F_DE61FF29_B8374307_35209CCF, 0xFD1CFB51_54FDC87C_881FB2F4_107D1D0D_C9095E2E_BD718148_0617DDA0_AB4A0874, 0xFBFBCCFB_7603FFF5_38A73CCA_9E99B576_C00B3ACA_A03172C9_672B6796_D204245B);
    Doubled(0xFD1CFB51_54FDC87C_881FB2F4_107D1D0D_C9095E2E_BD718148_0617DDA0_AB4A0874, 0xFBFBCCFB_7603FFF5_38A73CCA_9E99B576_C00B3ACA_A03172C9_672B6796_D204245B,
      0x3086D221A7D47, -0xE4437ED6010E8, 0x4DCCD411_2243BE28_5E7CAEB1_2371E2A9_AD34AE5D_DD72A113_22ABF001_7C3612CD,
      0x8BD3917E_02F01C66_98E4F5C6_BFFE9963_69E15E41_69F4E365_6577B0FE_F5FC5A9A, 0xAD6120F5_0AD87A30_7FAC08B2_E2BD4605_F16C0B69_E354B57A_054498E4_C103AA40);
    Added(0x8BD3917E_02F01C66_98E4F5C6_BFFE9963_69E15E41_69F4E365_6577B0FE_F5FC5A9A, 0xAD6120F5_0AD87A30_7FAC08B2_E2BD4605_F16C0B69_E354B57A_054498E4_C103AA40,
      0x610DA4434FA8E, -0x1C886FDAC021D0, 0xC994B697_68832BCB_FF5E9AB3_9AE8D1D3_763BBF1E_531BED98_FE51DE5E_E84F50FB, 0x483ADA77_26A3C465_5DA4FBFC_0E1108A8_FD17B448_A6855419_9C47D08F_FB10D4B8, -1, -1,
      0x1093CEA4_AE6DC1EB_109884A6_12415465_234AE248_DA5F6DC4_D42356C1_58B473B4, 0xF58755AF_F4A9FFD8_2B88770F_E08CC881_B9CB9AA7_359CF0C8_3788163D_41BA14A9, 0xD5770619_AD7E97F1_6A4658B7_0E97CC6C_F8766F84_4EFE7B58_E6CB4D5A_8C234BC1);
  }

  lemma Steps5()
    ensures Reaches(0x013EAFDE_28393C8D_16B2D7D0_F284155F_5482270B_B5C700C4_11515612_F77CC06A,
                    0xBD6155BC_D9D28E9B_C863842B_2E52F8CB_B10E3B98_8CC0B1A6_4F6F1A3C_DB01E8E3,
                    0x3086D221A7D46BCE, -0xE4437ED6010E8828)
  {
    hide Reaches;
    Units();
    Steps4();
    Doubled(0xF58755AF_F4A9FFD8_2B88770F_E08CC881_B9CB9AA7_359CF0C8_3788163D_41BA14A9, 0xD5770619_AD7E97F1_6A4658B7_0E97CC6C_F8766F84_4EFE7B58_E6CB4D5A_8C234BC1,
      0x610DA4434FA8D, -0x1C886FDAC021D1, 0xD513C836_63640087_62295DD3_07F50AAA_9F7ED5AF_A189FF91_DF5C6D1E_355BF1E8,
      0xEF28EEBB_813712D1_295A7562_C7961D85_71786CF8_7EEC1F44_262CEDFA_3AAD64FB, 0xCF5D89A7_91B64B61_3492F9FE_857617B3_87F30002_F02712D6_FE940ABB_09DDF064);
    Added(0xEF28EEBB_813712D1_295A7562_C7961D85_71786CF8_7EEC1F44_262CEDFA_3AAD64FB, 0xCF5D89A7_91B64B61_3492F9FE_857617B3_87F30002_F02712D6_FE940ABB_09DDF064,
      0xC21B48869F51A, -0x3910DFB58043A2, 0x79BE667E_F9DCBBAC_55A06295_CE870B07_029BFCDB_2DCE28D9_59F2815B_16F81798, 0x483ADA77_26A3C465_5DA4FBFC_0E1108A8_FD17B448_A6855419_9C47D08F_FB10D4B8, 1, 0,
      0x4B980713_102CC5F8_E1347AD6_88AC979C_162CF046_8696827D_E23F962C_346D132D, 0x3781F209_31F70FEA_5D2EA92C_ABAC2313_7B1763C4_64276B21_D3A8D54A_E1C9093E, 0x14713C37_7DB474E1_02E5E953_9A220C77_F66BFCA1_0052E4AB_6B41D7B4_17DE4175);
    Doubled(0x3781F209_31F70FEA_5D2EA92C_ABAC2313_7B1763C4_64276B21_D3A8D54A_E1C9093E, 0x14713C37_7DB474E1_02E5E953_9A220C77_F66BFCA1_0052E4AB_6B41D7B4_17DE4175,
      0xC21B48869F51B, -0x3910DFB58043A2, 0xD287B9A7_0349D67D_89CC4AF8_65C8C0FB_4DD8651F_089C749D_5EBBA67E_8146D56D,
      0x09ECAB66_D618E079_CE6A6915_6ED0B073_0ECC101C_AD420150_8FB23460_8674713E, 0x14B87089_5D091A8D_6E855593_18D86F99_F559CF8E_6E7B5973_50563140_C431702E);
    Doubled(0x09ECAB66_D618E079_CE6A6915_6ED0B073_0ECC101C_AD420150_8FB23460_8674713E, 0x14B87089_5D091A8D_6E855593_18D86F99_F559CF8E_6E7B5973_50563140_C431702E,
      0x18436910D3EA36, -0x7221BF6B008744, 0x65CCCE91_9D183CEC_E2BE5A23_778DC16E_DB232AC1_0E0D1C1D_8E3DCFE8_87A6D318,
      0xC3F33F1D_969A3961_42C5C9EB_3618CB49_2C1ED573_E476B71E_4225D99E_B59D2EA5, 0x390A22D1_8FF53589_D9E1D79D_7D5953C5_3839824C_52D555CE_3D80733F_DE9478E8);
    Doubled(0xC3F33F1D_969A3961_42C5C9EB_3618CB49_2C1ED573_E476B71E_4225D99E_B59D2EA5, 0x390A22D1_8FF53589_D9E1D79D_7D5953C5_3839824C_52D555CE_3D80733F_DE9478E8,
      0x3086D221A7D46C, -0xE4437ED6010E88, 0x6C4965AA_573DCB04_CB0E6C21_6F675241_9061AB90_4885EB17_B8074454_7471FFC2,
      0xF1902E8C_A2E597F9_118768F2_A40C2564_6E163547_D4279931_63FE80BE_ED57BE00, 0xBC94996D_DFC98248_17EF377A_376C57FE_5D716D51_58BADC52_A3BF387E_41F8EBFA);
    Doubled(0xF1902E8C_A2E597F9_118768F2_A40C2564_6E163547_D4279931_63FE80BE_ED57BE00, 0xBC94996D_DFC98248_17EF377A_376C57FE_5D716D51_58BADC52_A3BF387E_41F8EBFA,
      0x610DA4434FA8D8, -0x1C886FDAC021D10, 0xC181281D_731E3C4A_1A628450_A79646DC_3D39D390_3734B42C_81B0C45A_A8854612,
      0xE8F820DA_F181D53C_E87FFC7F_A996FD7C_2914FCC7_B0ED305D_3A47BE31_5C0FD1F1, 0x10B1CBB5_74506B90_5B5505CA_C77C348B_DC830F08_DD83F3DB_C8A3A490_FFB9198F);
    Doubled(0xE8F820DA_F181D53C_E87FFC7F_A996FD7C_2914FCC7_B0ED305D_3A47BE31_5C0FD1F1, 0x10B1CBB5_74506B90_5B5505CA_C77C348B_DC830F08_DD83F3DB_C8A3A490_FFB9198F,
      0xC21B48869F51B0, -0x3910DFB58043A20, 0x3043EA43_1A2351DC_4FFC60C4_51E4D517_C22972F8_666A2909_5F3941F4_EC55E7A8,
      0xA93482F0_2CFFB91D_B01217B1_BAD29586_0EEFC1A9_AC371374_AFFAC966_72F72053, 0xEE811512_89A00D3F_1DB1D634_44C05280_81EDA1B8_59821F61_55414BF9_174C89A4);
    Added(0xA93482F0_2CFFB91D_B01217B1_BAD29586_0EEFC1A9_AC371374_AFFAC966_72F72053, 0xEE811512_89A00D3F_1DB1D634_44C05280_81EDA1B8_59821F61_55414BF9_174C89A4,
      0x18436910D3EA360, -0x7221BF6B0087440, 0xC994B697_68832BCB_FF5E9AB3_9AE8D1D3_763BBF1E_531BED98_FE51DE5E_E84F50FB, 0x483ADA77_26A3C465_5DA4FBFC_0E1108A8_FD17B448_A6855419_9C47D08F_FB10D4B8, -1, -1,
      0x2BC69CCD_2FF05639_233729C0_62F87B1F_9AC1207D_25CA6C86_B70F44F8_FA491A9D, 0x89C45DB5_8D791EAC_9A9EE828_2A53C298_4194BF5B_89E3E4A4_7F239FE8_1A0A11D0, 0xA572AA95_1573EDA4_4492509B_5129BC55_96FD1F36_80FC30C4_F7E6A9CF_59B4CB80);
    Doubled(0x89C45DB5_8D791EAC_9A9EE828_2A53C298_4194BF5B_89E3E4A4_7F239FE8_1A0A11D0, 0xA572AA95_1573EDA4_4492509B_5129BC55_96FD1F36_80FC30C4_F7E6A9CF_59B4CB80,
      0x18436910D3EA35F, -0x7221BF6B0087441, 0x04CE7A7C_288A69A4_CC5FCD99_4C3F5FE8_2EEF6EFB_C9ECD3B6_78BB247B_B6BF726A,
      0x30641969_3C6ABE78_1766355C_F969EBE4_42BD314D_36DE129F_AB0A3F9E_EB6BD3BB, 0xCE45F135_FD297B05_09840852_41693717_984B0622_06F937C6_CC034B76_10DC9275);
    Added(0x30641969_3C6ABE78_1766355C_F969EBE4_42BD314D_36DE129F_AB0A3F9E_EB6BD3BB, 0xCE45F135_FD297B05_09840852_41693717_984B0622_06F937C6_CC034B76_10DC9275,
      0x3086D221A7D46BE, -0xE4437ED6010E882, 0xC994B697_68832BCB_FF5E9AB3_9AE8D1D3_763BBF1E_531BED98_FE51DE5E_E84F50FB, 0x483ADA77_26A3C465_5DA4FBFC_0E1108A8_FD17B448_A6855419_9C47D08F_FB10D4B8, -1, -1,
      0x4FDD79AD_9AB9DC02_1767D46D_17AC1B8B_AC7EEE82_4F0C261D_56CAADC5_F544541B, 0x67B09A4B_6CB253BD_05609203_441251AE_67611050_B3F98885_CB780F49_7A4C8D89, 0xDF73BBE4_4700312B_62F6E047_DFAB86A3_ACB8A5DC_A725FC59_DE1E5653_B82B1836);
    Doubled(0x67B09A4B_6CB253BD_05609203_441251AE_67611050_B3F98885_CB780F49_7A4C8D89, 0xDF73BBE4_4700312B_62F6E047_DFAB86A3_ACB8A5DC_A725FC59_DE1E5653_B82B1836,
      0x3086D221A7D46BD, -0xE4437ED6010E883, 0x7DD41CFE_5DD4CDCE_77900512_B4D4A301_6A98C3E8_960049E9_8106BA04_34AC0D2B,
      0x9F9E34DD_E250C466_2CCD519B_8F9B98A9_C6D1C290_60ECBB67_367E9A66_D249C04D, 0x11FFAAC4_6F9A6A99_6BB93350_D070B6BB_9C2C54FE_FDA1B896_C56765FA_80AECAC9);
    Added(0x9F9E34DD_E250C466_2CCD519B_8F9B98A9_C6D1C290_60ECBB67_367E9A66_D249C04D, 0x11FFAAC4_6F9A6A99_6BB93350_D070B6BB_9C2C54FE_FDA1B896_C56765FA_80AECAC9,
      0x610DA4434FA8D7A, -0x1C886FDAC021D106, 0xBCACE2E9_9DA01887_AB0102B6_96902325_87284406_7F15E98D_A7BBA044_00B88FCB, 0x483ADA77_26A3C465_5DA4FBFC_0E1108A8_FD17B448_A6855419_9C47D08F_FB10D4B8, 0, 1,
      0x85DDD50D_2903F677_EBA85244_189BC3A2_0BF0677C_7EE58B2D_D5329CAC_5553988D, 0x525325C0_C2799610_0B5DAB82_4F2B55EC_D3857FE2_03302396_B6D45D8A_E5572605, 0xBF91954F_4EAA0DE0_838531BC_919E0F36_DB7FCC46_3E7CCFEF_93B8A604_E15CC941);
    Doubled(0x525325C0_C2799610_0B5DAB82_4F2B55EC_D3857FE2_03302396_B6D45D8A_E5572605, 0xBF91954F_4EAA0DE0_838531BC_919E0F36_DB7FCC46_3E7CCFEF_93B8A604_E15CC941,
      0x610DA4434FA8D7A, -0x1C886FDAC021D105, 0x6D98BCAB_5BC64689_36136C11_83E22F8D_DD5F47D6_3EF22B30_C3F38C77_CD099A1E,
      0x41DCFDD6_DE2DA769_A7D80D7D_EC2C1D6C_92FA1DEC_E137C3D4_B63BCA7E_417C9D15, 0x6F517950_F6377A67_E7002EFA_29981B06_05D2336D_45EA9654_99D26FAE_81FC3542);
    Doubled(0x41DCFDD6_DE2DA769_A7D80D7D_EC2C1D6C_92FA1DEC_E137C3D4_B63BCA7E_417C9D15, 0x6F517950_F6377A67_E7002EFA_29981B06_05D2336D_45EA9654_99D26FAE_81FC3542,
      0xC21B48869F51AF4, -0x3910DFB58043A20A, 0xEC37CC1F_007EA2D6_E752C1DE_5CCC9C98_C0ABD37A_9D55CC8C_1B672DE9_7C93425E,
      0x34A17E41_C6ADCCE5_AEAA6800_6C00F72B_99228EE9_F614363C_6EC8D0B6_58524344, 0x7530D2A5_54714743_0058E35F_88C6BB0F_8643B29A_BAD7FC44_196697F3_FB52F1B1);
    Added(0x34A17E41_C6ADCCE5_AEAA6800_6C00F72B_99228EE9_F614363C_6EC8D0B6_58524344, 0x7530D2A5_54714743_0058E35F_88C6BB0F_8643B29A_BAD7FC44_196697F3_FB52F1B1,
      0x18436910D3EA35E8, -0x7221BF6B00874414, 0x79BE667E_F9DCBBAC_55A06295_CE870B07_029BFCDB_2DCE28D9_59F2815B_16F81798, 0xB7C52588_D95C3B9A_A25B0403_F1EEF757_02E84BB7_597AABE6_63B82F6F_04EF2777, -1, 0,
      0x6C639EB9_41440A11_564446E2_28620CED_4E391F5D_78E4DB8F_FC0D6009_FC4E8078, 0x33D0959F_E539D948_A5C7A544_D4D8508C_7BC3D102_82A2B322_BDB5CD11_94AE0EC8, 0x5878C4F5_5FEE0A4F_B5193B94_9FE862C3_E1349A24_CF9B581B_6A81C45F_74A51826);
    Doubled(0x33D0959F_E539D948_A5C7A544_D4D8508C_7BC3D102_82A2B322_BDB5CD11_94AE0EC8, 0x5878C4F5_5FEE0A4F_B5193B94_9FE862C3_E1349A24_CF9B581B_6A81C45F_74A51826,
      0x18436910D3EA35E7, -0x7221BF6B00874414, 0x65D67A2E_D328840D_5AEA116B_B0F74834_32D47894_C656AABC_D6D66202_E5770625,
      0x013EAFDE_28393C8D_16B2D7D0_F284155F_5482270B_B5C700C4_11515612_F77CC06A, 0xBD6155BC_D9D28E9B_C863842B_2E52F8CB_B10E3B98_8CC0B1A6_4F6F1A3C_DB01E8E3);
  }

  lemma Steps6()
    ensures Reaches(0x3A0DE639_E3A9ADBF_3C8637B6_EE8F994F_0831767A_4916D97E_C4ACD56D_25A1860D,
                    0xFF2045DB_4C1D8BBD_30F0E676_BA2F1E49_3BD6887C_73EC9172_53CD5B68_303CED1F,
                    0xC21B48869F51AF37A2, -0x3910DFB58043A20A1BD)
  {
    hide Reaches;
    Units();
    Steps5();
    Doubled(0x013EAFDE_28393C8D_16B2D7D0_F284155F_5482270B_B5C700C4_11515612_F77CC06A, 0xBD6155BC_D9D28E9B_C863842B_2E52F8CB_B10E3B98_8CC0B1A6_4F6F1A3C_DB01E8E3,
      0x3086D221A7D46BCE, -0xE4437ED6010E8828, 0x60D997EF_36524C9B_27483484_E29F8620_A964B37B_8DA14579_3434383F_EF72ECFD,
      0x788A10F4_B898B02D_2C8FE678_1FBC040F_3A54C896_D8A5BA1A_7A1D4784_B486C93B, 0x97A24FF0_5FD4C128_49AD8709_93ACB08D_81CE32A1_F15FF1E8_427467B1_3FECAF22);
    Added(0x788A10F4_B898B02D_2C8FE678_1FBC040F_3A54C896_D8A5BA1A_7A1D4784_B486C93B, 0x97A24FF0_5FD4C128_49AD8709_93ACB08D_81CE32A1_F15FF1E8_427467B1_3FECAF22,
      0x610DA4434FA8D79C, -0x1C886FDAC021D1050, 0xBCACE2E9_9DA01887_AB0102B6_96902325_87284406_7F15E98D_A7BBA044_00B88FCB, 0xB7C52588_D95C3B9A_A25B0403_F1EEF757_02E84BB7_597AABE6_63B82F6F_04EF2777, 0, -1,
      0x7D57F1A6_AC959D95_849FDEAF_6666C736_CDBFDB7C_4D9AE099_A80D5924_14A7E4F3, 0xD4C599DD_0CBC05F7_57473810_665E67D4_D14334EC_8ADFD891_83863507_EA716292, 0x8D63119A_ECEB8BCC_0D64B7F5_4972372B_2B8C68D3_B0BAD8D9_20F990FD_D29555BA);
    Doubled(0xD4C599DD_0CBC05F7_57473810_665E67D4_D14334EC_8ADFD891_83863507_EA716292, 0x8D63119A_ECEB8BCC_0D64B7F5_4972372B_2B8C68D3_B0BAD8D9_20F990FD_D29555BA,
      0x610DA4434FA8D79C, -0x1C886FDAC021D1051, 0x726329E2_CFA738DE_020DE5F9_4017857B_82080259_4CAAC3E4_23A5CC27_A331FE72,
      0xD8B6653C_13A137AB_2C1C6C7A_D36A6C2C_80912079_80DEF49D_BB7D60C0_CAE96349, 0x66230A27_FE1115A7_7DF2EFEC_B78B2482_D6087185_370BEE92_291D56A5_2565F636);
    Doubled(0xD8B6653C_13A137AB_2C1C6C7A_D36A6C2C_80912079_80DEF49D_BB7D60C0_CAE96349, 0x66230A27_FE1115A7_7DF2EFEC_B78B2482_D6087185_370BEE92_291D56A5_2565F636,
      0xC21B48869F51AF38, -0x3910DFB58043A20A2, 0x0A2C10A8_53DC47D8_11FEDB20_6A14FCEC_3F01FAE3_1BB27AF8_A46896A4_BC7CF997,
      0x454836C2_25C49F78_8D31CF9F_600FE1EE_B23870DB_A6B47FDD_A5DD0CAB_CA931756, 0xC44DA327_E58CDBA5_5541CBAD_8619898F_B68C9745_8FF023DB_63203C35_A1E2B4A7);
    Added(0x454836C2_25C49F78_8D31CF9F_600FE1EE_B23870DB_A6B47FDD_A5DD0CAB_CA931756, 0xC44DA327_E58CDBA5_5541CBAD_8619898F_B68C9745_8FF023DB_63203C35_A1E2B4A7,
      0x18436910D3EA35E70, -0x7221BF6B008744144, 0x79BE667E_F9DCBBAC_55A06295_CE870B07_029BFCDB_2DCE28D9_59F2815B_16F81798, 0xB7C52588_D95C3B9A_A25B0403_F1EEF757_02E84BB7_597AABE6_63B82F6F_04EF2777, -1, 0,
      0x28F9FEDC_01DF2791_C600A39C_559BCBA9_8634D145_1BFF0923_C6567E00_515D3F37, 0x2D18A4E3_C01A9266_D84CFE75_3FEC82DF_F176B610_305E7EE7_31FBED9B_6FAF2135, 0xB685737D_C603E897_92481A03_A7778922_6BDCBDAB_E56A27CF_403E296D_A54F896B);
    Doubled(0x2D18A4E3_C01A9266_D84CFE75_3FEC82DF_F176B610_305E7EE7_31FBED9B_6FAF2135, 0xB685737D_C603E897_92481A03_A7778922_6BDCBDAB_E56A27CF_403E296D_A54F896B,
      0x18436910D3EA35E6F, -0x7221BF6B008744144, 0x480B2AF1_6D3964CB_DC0889ED_5DAD561B_23C1BE28_23F80B28_3F5FE191_6B4B5DC2,
      0x07D62B04_601A62F9_E62F08F4_85FB331F_508E1C8F_30C88B44_C9E7B021_7C598C8E, 0x404E7185_A30C5C9E_4A6ED848_AAAD1227_99A1E520_80B0D1E8_B97A852A_7F7C41D0);
    Added(0x07D62B04_601A62F9_E62F08F4_85FB331F_508E1C8F_30C88B44_C9E7B021_7C598C8E, 0x404E7185_A30C5C9E_4A6ED848_AAAD1227_99A1E520_80B0D1E8_B97A852A_7F7C41D0,
      0x3086D221A7D46BCDE, -0xE4437ED6010E88288, 0xBCACE2E9_9DA01887_AB0102B6_96902325_87284406_7F15E98D_A7BBA044_00B88FCB, 0x483ADA77_26A3C465_5DA4FBFC_0E1108A8_FD17B448_A6855419_9C47D08F_FB10D4B8, 0, 1,
      0x2C46B5DE_456FAFDC_068FA87D_F294247B_D8138247_B6596925_F5502E28_17F63DCD, 0x7992CA8A_E67131A4_A5479ACA_B61B310D_08E7A588_171034E7_03C4EF16_40DAB983, 0x1936404F_0A0395B0_2C9C90AD_EB45A3F0_A25F8E80_5CA74C79_7137039C_918B5652);
    Doubled(0x7992CA8A_E67131A4_A5479ACA_B61B310D_08E7A588_171034E7_03C4EF16_40DAB983, 0x1936404F_0A0395B0_2C9C90AD_EB45A3F0_A25F8E80_5CA74C79_7137039C_918B5652,
      0x3086D221A7D46BCDE, -0xE4437ED6010E88287, 0x82DCB07B_F2350AD3_168CAB13_1B3A09EC_C91EA54B_0AEE5651_FDF0AE10_0C75AF6F,
      0xC124B873_01FEA653_27D4F83A_511C4431_88497F35_B0D84B01_A0ECCB1B_A2FE54BF, 0xA97E1002_C8EA98D4_A3A18E2F_BEBC61D9_5D8CDA89_9A348EDA_EEFEEC8E_3057520D);
    Added(0xC124B873_01FEA653_27D4F83A_511C4431_88497F35_B0D84B01_A0ECCB1B_A2FE54BF, 0xA97E1002_C8EA98D4_A3A18E2F_BEBC61D9_5D8CDA89_9A348EDA_EEFEEC8E_3057520D,
      0x610DA4434FA8D79BC, -0x1C886FDAC021D1050E, 0x79BE667E_F9DCBBAC_55A06295_CE870B07_029BFCDB_2DCE28D9_59F2815B_16F81798, 0x483ADA77_26A3C465_5DA4FBFC_0E1108A8_FD17B448_A6855419_9C47D08F_FB10D4B8, 1, 0,
      0x13AAEFAD_3BCD59E6_CB1D5EDF_6B5DA9E3_1231BD99_D919DEE8_4A727375_ED23334D, 0x4F05BB4F_C674AE74_F14BF1CB_39A9E00A_EB5A7676_A9A0C4CD_F529835A_C76D2A9D, 0xF07D3461_CDB2B49F_05F9AFA4_00F5E787_A123F5E6_BDC30B5C_F0A8B1E0_D56A519A);
    Doubled(0x4F05BB4F_C674AE74_F14BF1CB_39A9E00A_EB5A7676_A9A0C4CD_F529835A_C76D2A9D, 0xF07D3461_CDB2B49F_05F9AFA4_00F5E787_A123F5E6_BDC30B5C_F0A8B1E0_D56A519A,
      0x610DA4434FA8D79BD, -0x1C886FDAC021D1050E, 0x84DFB03C_B5BE3BD2_913B8106_643B7EE3_AB51BD7F_8A211827_81A57159_C970C023,
      0x9C737135_DDC665FA_12CBBDD7_BC6DF7FB_58EEDF99_46742FE8_18DB1183_C9DFB521, 0xCA74710F_9F9DF71A_4C1C9222_59A94DB0_ACE66639_16189C9C_820DD49F_74E77158);
    Doubled(0x9C737135_DDC665FA_12CBBDD7_BC6DF7FB_58EEDF99_46742FE8_18DB1183_C9DFB521, 0xCA74710F_9F9DF71A_4C1C9222_59A94DB0_ACE66639_16189C9C_820DD49F_74E77158,
      0xC21B48869F51AF37A, -0x3910DFB58043A20A1C, 0x43D8B8CF_1FEAD3A0_67B359DE_96B454CD_11B5924E_434A4624_C7E2F5B5_2DA126B9,
      0xE68BE2B3_64F15A2E_95AE195F_40139CB0_144E7332_2A41D911_0BDA0F0A_2FBF8F7D, 0xF80745A3_02C5AFCD_001A6C5B_4ED97668_85F9646F_CA6DEF55_BB861EAA_368DC472);
    Doubled(0xE68BE2B3_64F15A2E_95AE195F_40139CB0_144E7332_2A41D911_0BDA0F0A_2FBF8F7D, 0xF80745A3_02C5AFCD_001A6C5B_4ED97668_85F9646F_CA6DEF55_BB861EAA_368DC472,
      0x18436910D3EA35E6F4, -0x7221BF6B0087441438, 0xBA21D74E_9B8D0E47_9F98BA98_6439F0A0_025D2214_78B58713_B0BE9749_0ECCD1F6,
      0x8486EAEE_AFEE82DC_C529AFBD_09037799_4DF9E1B0_2EFE4691_551E724D_C6D1C21F, 0xDD86A487_DFEF3B61_C0E757E1_1A4281D2_0DF5F349_5DFC69B9_668601D6_AEECD1A9);
    Doubled(0x8486EAEE_AFEE82DC_C529AFBD_09037799_4DF9E1B0_2EFE4691_551E724D_C6D1C21F, 0xDD86A487_DFEF3B61_C0E757E1_1A4281D2_0DF5F349_5DFC69B9_668601D6_AEECD1A9,
      0x3086D221A7D46BCDE8, -0xE4437ED6010E882870, 0xA1A7F00C_14C684D4_B49899BB_7EECF4AF_F7B51F9D_8D79FB3A_1547603E_288B0B7B,
      0x328409FA_F9C85FB2_6DA5E07F_99F5A9D5_E211D066_78D36B49_ED511DC5_C74CCD27, 0xE925A68E_2E4498DA_E70C87A1_017FC9C8_25E7F41D_38FB5782_5E2C7F90_7522B048);
    Added(0x328409FA_F9C85FB2_6DA5E07F_99F5A9D5_E211D066_78D36B49_ED511DC5_C74CCD27, 0xE925A68E_2E4498DA_E70C87A1_017FC9C8_25E7F41D_38FB5782_5E2C7F90_7522B048,
      0x610DA4434FA8D79BD0, -0x1C886FDAC021D1050E0, 0xC994B697_68832BCB_FF5E9AB3_9AE8D1D3_763BBF1E_531BED98_FE51DE5E_E84F50FB, 0xB7C52588_D95C3B9A_A25B0403_F1EEF757_02E84BB7_597AABE6_63B82F6F_04EF2777, 1, 1,
      0x894FC3A0_DC7F6787_85C49029_8F20F163_6DD6FC4F_86AFCBC7_42AC54A9_7BC96A05, 0x12EE2A33_7C1789D8_82653350_5CE68ED7_1655BD1C_FE6E44DE_F2E5AA89_A4CBB30B, 0x9159BD33_5912EB17_97CE7EC1_5B02DABC_F89BC1EF_E1E8C6D1_E9B78EEB_5954695E);
    Doubled(0x12EE2A33_7C1789D8_82653350_5CE68ED7_1655BD1C_FE6E44DE_F2E5AA89_A4CBB30B, 0x9159BD33_5912EB17_97CE7EC1_5B02DABC_F89BC1EF_E1E8C6D1_E9B78EEB_5954695E,
      0x610DA4434FA8D79BD1, -0x1C886FDAC021D1050DF, 0x5AB5E35C_71380746_37D2D0BF_C814832A_83394EFB_13B6C5CE_6FEC9129_D420463B,
      0x29394713_5DE1126A_48F6449E_08E60834_2580B20D_0F908C7C_AA4FE0E4_FA9A8ECB, 0xF9237DA1_37D96700_04B45BF1_736BBE71_E897B321_9254055C_8C25B803_96681C84);
    Added(0x29394713_5DE1126A_48F6449E_08E60834_2580B20D_0F908C7C_AA4FE0E4_FA9A8ECB, 0xF9237DA1_37D96700_04B45BF1_736BBE71_E897B321_9254055C_8C25B803_96681C84,
      0xC21B48869F51AF37A2, -0x3910DFB58043A20A1BE, 0xBCACE2E9_9DA01887_AB0102B6_96902325_87284406_7F15E98D_A7BBA044_00B88FCB, 0x483ADA77_26A3C465_5DA4FBFC_0E1108A8_FD17B448_A6855419_9C47D08F_FB10D4B8, 0, 1,
      0x8C74FC6E_D212E892_B3BEE4EB_E6549782_69D6623E_A3105C00_A8C01243_9FA53C2E, 0x3A0DE639_E3A9ADBF_3C8637B6_EE8F994F_0831767A_4916D97E_C4ACD56D_25A1860D, 0xFF2045DB_4C1D8BBD_30F0E676_BA2F1E49_3BD6887C_73EC9172_53CD5B68_303CED1F);
  }

  lemma Steps7()
    ensures Reaches(0xA172DFE1_1ABD3BF1_7EDD0E72_6C45120A_79823FA9_50D65AB6_355CC49A_EA889160,
                    0x523409E6_54FCE53D_1C68E3CE_33517250_234FE911_611EA8A1_897E4239_E1A19E09,
                    0x610DA4434FA8D79BD0D92, -0x1C886FDAC021D1050DEA90)
  {
    hide Reaches;
    Units();
    Steps6();
    Doubled(0x3A0DE639_E3A9ADBF_3C8637B6_EE8F994F_0831767A_4916D97E_C4ACD56D_25A1860D, 0xFF2045DB_4C1D8BBD_30F0E676_BA2F1E49_3BD6887C_73EC9172_53CD5B68_303CED1F,
      0xC21B48869F51AF37A2, -0x3910DFB58043A20A1BD, 0x8A94F315_995F2CBD_31D575EC_9D02ECA1_FD418DCC_BBD0F21B_6BF857F0_912E0050,
      0xDBFEBD1C_2ED2F891_DF6C6D73_56FB3018_3FE90AF5_B4664D15_FB4BB08E_C26F0FE3, 0x4EA697AC_746BA4E4_CD121BC0_BD0143B6_47D72276_ABE1D7EE_BC66EC5B_D6E94384);
    Doubled(0xDBFEBD1C_2ED2F891_DF6C6D73_56FB3018_3FE90AF5_B4664D15_FB4BB08E_C26F0FE3, 0x4EA697AC_746BA4E4_CD121BC0_BD0143B6_47D72276_ABE1D7EE_BC66EC5B_D6E94384,
      0x18436910D3EA35E6F44, -0x7221BF6B0087441437A, 0x666B93ED_05C3F198_BF1CFD89_21E354B9_BEC62B19_12ABA11D_DC34F86C_DF29D9AD,
      0xCEAD51F1_5FFE9602_D2F407DD_1FE4ADE0_DE4A94FB_34F65DEF_AC0E6660_AD5F9AD3, 0xBEB3F718_BA98C83F_D16CB7AA_07858458_8995A679_C6BD5603_4B536D6C_9B154075);
    Added(0xCEAD51F1_5FFE9602_D2F407DD_1FE4ADE0_DE4A94FB_34F65DEF_AC0E6660_AD5F9AD3, 0xBEB3F718_BA98C83F_D16CB7AA_07858458_8995A679_C6BD5603_4B536D6C_9B154075,
      0x3086D221A7D46BCDE88, -0xE4437ED6010E88286F4, 0xC994B697_68832BCB_FF5E9AB3_9AE8D1D3_763BBF1E_531BED98_FE51DE5E_E84F50FB, 0x483ADA77_26A3C465_5DA4FBFC_0E1108A8_FD17B448_A6855419_9C47D08F_FB10D4B8, -1, -1,
      0xA9D91649_F24C8850_1905ED1E_63C6C07C_6DD02E0B_CBF2EAAA_E6CFF6A3_0DD1658D, 0x55DBE4BE_C4736EA3_3D74C379_26C19A94_C4BA4D61_0886E906_35BF9DCD_B8CAC17D, 0xE99BC723_15C28E46_6898D708_061DCC5E_DDC52056_76938854_7EF39A7E_AEC8A2E0);
    Doubled(0x55DBE4BE_C4736EA3_3D74C379_26C19A94_C4BA4D61_0886E906_35BF9DCD_B8CAC17D, 0xE99BC723_15C28E46_6898D708_061DCC5E_DDC52056_76938854_7EF39A7E_AEC8A2E0,
      0x3086D221A7D46BCDE87, -0xE4437ED6010E88286F5, 0xC6351A3B_C5236469_32B0A646_7182C2BF_A50AE599_09317C92_4BE00764_F8356753,
      0x93743BBF_D6D478F2_E9CF4647_6CDD9632_02D6E5C6_4F0F76EB_B9BFD6B1_B1102793, 0x2C1BEDA3_929B3698_C3963C0A_0C5724D1_8A964764_3F0008D7_759FE194_34C867C3);
    Doubled(0x93743BBF_D6D478F2_E9CF4647_6CDD9632_02D6E5C6_4F0F76EB_B9BFD6B1_B1102793, 0x2C1BEDA3_929B3698_C3963C0A_0C5724D1_8A964764_3F0008D7_759FE194_34C867C3,
      0x610DA4434FA8D79BD0E, -0x1C886FDAC021D1050DEA, 0xBEA0F499_0900E13F_945E7C6A_72175E50_1BB3E3C5_ADD8A07F_63E4F48D_2F231F16,
      0x2CA32E9B_6BDDBB37_9F933D95_E926F7BB_7B31515B_309FC641_BB9B753C_87A1A726, 0x4CCBD1B7_A5170093_67725F05_592D07D5_D8FB1B8C_1BDD95CD_154BF167_D903BB99);
    Added(0x2CA32E9B_6BDDBB37_9F933D95_E926F7BB_7B31515B_309FC641_BB9B753C_87A1A726, 0x4CCBD1B7_A5170093_67725F05_592D07D5_D8FB1B8C_1BDD95CD_154BF167_D903BB99,
      0xC21B48869F51AF37A1C, -0x3910DFB58043A20A1BD4, 0xC994B697_68832BCB_FF5E9AB3_9AE8D1D3_763BBF1E_531BED98_FE51DE5E_E84F50FB, 0x483ADA77_26A3C465_5DA4FBFC_0E1108A8_FD17B448_A6855419_9C47D08F_FB10D4B8, -1, -1,
      0x4C23052A_288EC01D_0D1A17BC_AB6987FD_49294DFA_6D6781E6_E5AEDDAC_9E43514C, 0xE996DAD6_43363B83_9B4D2087_C10E0A4A_9F90D95E_AFA5EE3C_59118542_F602634C, 0xE62A5CFF_9382F1D9_FE84DDE9_B8FD378E_0086030D_F0694E0A_3DBC0C08_7557D6BE);
    Doubled(0xE996DAD6_43363B83_9B4D2087_C10E0A4A_9F90D95E_AFA5EE3C_59118542_F602634C, 0xE62A5CFF_9382F1D9_FE84DDE9_B8FD378E_0086030D_F0694E0A_3DBC0C08_7557D6BE,
      0xC21B48869F51AF37A1B, -0x3910DFB58043A20A1BD5, 0xDCE9E59B_E00A075D_7AEF8D29_7F2C02E9_3250AF6C_9DE0B351_17F3B8FD_A00CF4CE,
      0x42075486_4897168F_68F1AEAB_6E951B13_4EBFCE6D_92F73E1C_6CD044BE_92435FA5, 0x2D41D28C_578F5007_E4DAD049_9D9D283D_5BB09C83_D2154DE9_56C589E3_87413896);
    Doubled(0x42075486_4897168F_68F1AEAB_6E951B13_4EBFCE6D_92F73E1C_6CD044BE_92435FA5, 0x2D41D28C_578F5007_E4DAD049_9D9D283D_5BB09C83_D2154DE9_56C589E3_87413896,
      0x18436910D3EA35E6F436, -0x7221BF6B0087441437AA, 0x77055E37_B81B66AE_5B6BEB95_CE3B7BED_F278253A_5AE19F4A_561862DC_4DA890E9,
      0x2098D03C_60AFF93E_F3CB90C6_AEC936F5_0E51F786_E7ABBCC4_055975B7_54DED5CF, 0xD648064E_723DF11F_CC79D40F_F341234F_C7FF4C9E_F852D3EE_67FCE872_087C575A);
    Added(0x2098D03C_60AFF93E_F3CB90C6_AEC936F5_0E51F786_E7ABBCC4_055975B7_54DED5CF, 0xD648064E_723DF11F_CC79D40F_F341234F_C7FF4C9E_F852D3EE_67FCE872_087C575A,
      0x3086D221A7D46BCDE86C, -0xE4437ED6010E88286F54, 0x79BE667E_F9DCBBAC_55A06295_CE870B07_029BFCDB_2DCE28D9_59F2815B_16F81798, 0x483ADA77_26A3C465_5DA4FBFC_0E1108A8_FD17B448_A6855419_9C47D08F_FB10D4B8, 1, 0,
      0xF47A60E9_C765916D_120EFBDB_A8CBBC6F_55B43638_97E5BFC5_9413EA76_4C41A155, 0x8F4017AB_0092B894_31BA994F_5B356229_E5133EB7_F9BB9389_4B897E04_A869BEA1, 0x8580D410_2C5D1E26_92498246_5DBA8319_C8DC5FE6_64F82A3A_79A3678D_E3F2AFA9);
    Doubled(0x8F4017AB_0092B894_31BA994F_5B356229_E5133EB7_F9BB9389_4B897E04_A869BEA1, 0x8580D410_2C5D1E26_92498246_5DBA8319_C8DC5FE6_64F82A3A_79A3678D_E3F2AFA9,
      0x3086D221A7D46BCDE86D, -0xE4437ED6010E88286F54, 0xBE39DC41_18E1B8AC_E4223F3A_D79FA7AB_3B60CAF8_3B22ECD4_A9633E26_B6CC1979,
      0x95AB384F_C4246B01_457F3A6D_CC0789C1_3C95A1AC_7F1675A9_0749141A_57127686, 0xEBA722C1_C7EB2A92_749C667D_6EC897BE_07713438_466FBE2F_E89B5ACE_CD382690);
    Added(0x95AB384F_C4246B01_457F3A6D_CC0789C1_3C95A1AC_7F1675A9_0749141A_57127686, 0xEBA722C1_C7EB2A92_749C667D_6EC897BE_07713438_466FBE2F_E89B5ACE_CD382690,
      0x610DA4434FA8D79BD0DA, -0x1C886FDAC021D1050DEA8, 0xC994B697_68832BCB_FF5E9AB3_9AE8D1D3_763BBF1E_531BED98_FE51DE5E_E84F50FB, 0x483ADA77_26A3C465_5DA4FBFC_0E1108A8_FD17B448_A6855419_9C47D08F_FB10D4B8, -1, -1,
      0x1CAA6B10_AD9F24F4_2CB3F3FA_A381B5BC_952568AE_F4A1C79C_4D280AB6_D9368387, 0x01881EF8_66046CFB_C720D123_6288B9DE_DDCBA5A6_722636E7_82960424_0742C653, 0x2406D569_B8185EEC_41A87FBA_2F0A6021_5B2BCCE6_8DE4049E_05F23831_BE957CC3);
    Doubled(0x01881EF8_66046CFB_C720D123_6288B9DE_DDCBA5A6_722636E7_82960424_0742C653, 0x2406D569_B8185EEC_41A87FBA_2F0A6021_5B2BCCE6_8DE4049E_05F23831_BE957CC3,
      0x610DA4434FA8D79BD0D9, -0x1C886FDAC021D1050DEA9, 0x94606003_2CE92EAF_A3CFB69F_C84C5702_52EA3040_82A25AEE_30E12A11_2CCB65A6,
      0x86E6BA2D_452949F5_7940FB5C_D86C9E1F_BF953BB5_BA198589_9A30581A_22C7AE0F, 0x1A71661F_07E7765F_AD00A5C9_E4119DA0_E59A3FE8_D668BE03_9405BEA5_9F3A777E);
    Doubled(0x86E6BA2D_452949F5_7940FB5C_D86C9E1F_BF953BB5_BA198589_9A30581A_22C7AE0F, 0x1A71661F_07E7765F_AD00A5C9_E4119DA0_E59A3FE8_D668BE03_9405BEA5_9F3A777E,
      0xC21B48869F51AF37A1B2, -0x3910DFB58043A20A1BD52, 0x2342C5A0_249FCA53_BFFEBEA0_94027C9A_0E68630E_8A50D563_BD7F231C_89EDC983,
      0x02650232_E3C09ECA_E2BCDD30_B6CD2D6C_EE2F4CF9_A3488C3E_63EA634C_3539C7B6, 0x6B31EF4D_D1BE322F_F3043315_7CC671D1_C0802C63_D1FEB27A_9BCA8354_7406C68A);
    Doubled(0x02650232_E3C09ECA_E2BCDD30_B6CD2D6C_EE2F4CF9_A3488C3E_63EA634C_3539C7B6, 0x6B31EF4D_D1BE322F_F3043315_7CC671D1_C0802C63_D1FEB27A_9BCA8354_7406C68A,
      0x18436910D3EA35E6F4364, -0x7221BF6B0087441437AA4, 0xDA467DB2_92DD5B30_C9FEE1DE_3802ABED_F02C4890_A0209C81_E4ADD4ED_983CF8BC,
      0x8A1D8D2B_2D0B0D67_1B3D5313_BAFF47FF_38C7BDE4_D7F9562C_CED7AA32_33E61CB8, 0x9A1F214E_91015BE3_CCB77675_8F1CAA09_BACB03F2_AB657823_F947ED2C_A93BBDA2);
    Added(0x8A1D8D2B_2D0B0D67_1B3D5313_BAFF47FF_38C7BDE4_D7F9562C_CED7AA32_33E61CB8, 0x9A1F214E_91015BE3_CCB77675_8F1CAA09_BACB03F2_AB657823_F947ED2C_A93BBDA2,
      0x3086D221A7D46BCDE86C8, -0xE4437ED6010E88286F548, 0x79BE667E_F9DCBBAC_55A06295_CE870B07_029BFCDB_2DCE28D9_59F2815B_16F81798, 0x483ADA77_26A3C465_5DA4FBFC_0E1108A8_FD17B448_A6855419_9C47D08F_FB10D4B8, 1, 0,
      0xEF98F545_5ABC6CB0_43F4D655_A31E77A7_823E30D3_C1E4308A_47B23841_9E4D2CDB, 0xB40DE080_3BBB3939_61B10587_BBBBF873_73008CD8_F20A2040_BE728CD9_C0666291, 0x0D473F4C_8316470B_9FF68DDF_CA780A6B_16C2762C_CD967AFA_7ABAD6F5_FCCC0D90);
    Doubled(0xB40DE080_3BBB3939_61B10587_BBBBF873_73008CD8_F20A2040_BE728CD9_C0666291, 0x0D473F4C_8316470B_9FF68DDF_CA780A6B_16C2762C_CD967AFA_7ABAD6F5_FCCC0D90,
      0x3086D221A7D46BCDE86C9, -0xE4437ED6010E88286F548, 0x9B334234_077236F3_326D66F1_59E793D7_36CC24B2_953711B5_DB909323_57185812,
      0xA172DFE1_1ABD3BF1_7EDD0E72_6C45120A_79823FA9_50D65AB6_355CC49A_EA889160, 0x523409E6_54FCE53D_1C68E3CE_33517250_234FE911_611EA8A1_897E4239_E1A19E09);
  }

  lemma Steps8()
    ensures Reaches(0x499AC2FE_28550B3B_C3C23451_8F48A090_3EE20D79_C9963AF3_5C07388D_68E71381,
                    0x344028A2_30D3339A_91654992_35960722_43D8B300_E2C38D14_E0ECDBDC_195A70D2,
                    0x3086D221A7D46BCDE86C90E4, -0xE4437ED6010E88286F547FA8)
  {
    hide Reaches;
    Units();
    Steps7();
    Doubled(0xA172DFE1_1ABD3BF1_7EDD0E72_6C45120A_79823FA9_50D65AB6_355CC49A_EA889160, 0x523409E6_54FCE53D_1C68E3CE_33517250_234FE911_611EA8A1_897E4239_E1A19E09,
      0x610DA4434FA8D79BD0D92, -0x1C886FDAC021D1050DEA90, 0x3020F4E0_E0940515_AA3F812C_A6071FDA_A2EDB08A_E3B5D72E_E80E06DE_ABC3AF54,
      0xE5202F6F_36192E9F_D9BE64DE_34F6DA88_39620461_CA6BDA6E_05627EE1_324D8C41, 0x02913BAB_BCC950ED_2ED1DB5C_3BE64CA0_19D64443_A704A499_BEA0C556_7A8AA020);
    Doubled(0xE5202F6F_36192E9F_D9BE64DE_34F6DA88_39620461_CA6BDA6E_05627EE1_324D8C41, 0x02913BAB_BCC950ED_2ED1DB5C_3BE64CA0_19D64443_A704A499_BEA0C556_7A8AA020,
      0xC21B48869F51AF37A1B24, -0x3910DFB58043A20A1BD520, 0x2C16BEC4_BC766C49_6B536932_DE7731FB_9EAB4DBC_6EB9C9CC_32DC11DF_601B07FF,
      0x1DF88863_7A22BF4B_CC7DE4B6_0E99D3F8_5B92326A_F8F79A6D_536FEA68_36F8DC07, 0x16CF2AE0_DEC78BB7_9C416E4D_937CB20D_D2C19A0C_90471C80_EC97DD63_40D1DA05);
    Doubled(0x1DF88863_7A22BF4B_CC7DE4B6_0E99D3F8_5B92326A_F8F79A6D_536FEA68_36F8DC07, 0x16CF2AE0_DEC78BB7_9C416E4D_937CB20D_D2C19A0C_90471C80_EC97DD63_40D1DA05,
      0x18436910D3EA35E6F43648, -0x7221BF6B0087441437AA40, 0xA93DA560_F1CEE0FF_C157139C_9B1B2C45_59E5A54A_B8FF90AD_3C2B083A_DE039058,
      0x2484C4EC_EC1B65A1_7E6DAD19_6F5D1DC5_D9484BCD_FFA81FF3_D7C082FB_67A2BCB1, 0x50216C53_4A28DC35_2FCA034A_0B7C64DD_A06EF349_792FBE45_8895D45E_20B5C957);
    Added(0x2484C4EC_EC1B65A1_7E6DAD19_6F5D1DC5_D9484BCD_FFA81FF3_D7C082FB_67A2BCB1, 0x50216C53_4A28DC35_2FCA034A_0B7C64DD_A06EF349_792FBE45_8895D45E_20B5C957,
      0x3086D221A7D46BCDE86C90, -0xE4437ED6010E88286F5480, 0x79BE667E_F9DCBBAC_55A06295_CE870B07_029BFCDB_2DCE28D9_59F2815B_16F81798, 0x483ADA77_26A3C465_5DA4FBFC_0E1108A8_FD17B448_A6855419_9C47D08F_FB10D4B8, 1, 0,
      0xC595900E_BB5AC026_36AE6E63_9D0EDA92_CF6F4822_A7DAA576_58FF1903_07A4B5D3, 0x6F00407A_780193B4_6FB269EE_7DC2DCE2_75309A14_0811EB20_83E02CF8_C3EC4EFC, 0x05882EBA_E76DB497_8045234D_D7EE32A8_3EA305EE_733AAA2B_BC13102E_127DAEE8);
    Doubled(0x6F00407A_780193B4_6FB269EE_7DC2DCE2_75309A14_0811EB20_83E02CF8_C3EC4EFC, 0x05882EBA_E76DB497_8045234D_D7EE32A8_3EA305EE_733AAA2B_BC13102E_127DAEE8,
      0x3086D221A7D46BCDE86C91, -0xE4437ED6010E88286F5480, 0xC154E622_1D0E66AD_69CAC332_F2630DDE_E594C865_64A9DC77_5E8A7968_F66EFB11,
      0xCB85B2C2_53A915ED_6CD007D6_2EC99327_E087F744_1789DF8C_817C4864_D168F1BB, 0x4D7E369E_E5CFEBBC_1B7E5571_5CD4E6D7_7A57D2AE_3299BDA3_A4B15AE7_A386E2F4);
    Added(0xCB85B2C2_53A915ED_6CD007D6_2EC99327_E087F744_1789DF8C_817C4864_D168F1BB, 0x4D7E369E_E5CFEBBC_1B7E5571_5CD4E6D7_7A57D2AE_3299BDA3_A4B15AE7_A386E2F4,
      0x610DA4434FA8D79BD0D922, -0x1C886FDAC021D1050DEA900, 0xBCACE2E9_9DA01887_AB0102B6_96902325_87284406_7F15E98D_A7BBA044_00B88FCB, 0x483ADA77_26A3C465_5DA4FBFC_0E1108A8_FD17B448_A6855419_9C47D08F_FB10D4B8, 0, 1,
      0x46C3FECA_FF87A7FB_0B74E031_884897ED_F5317BF7_9485192C_C7F85077_57C3142C, 0xEC2B6500_639BF108_35CA3DAA_E320B244_74E11AC9_91D2DDAD_06F8B67B_C50AD86C, 0xBCACF554_4F90C80E_45A6AED5_8193A3E9_DDF5BBBE_D4857CB0_071A315D_ECCAFACA);
    Doubled(0xEC2B6500_639BF108_35CA3DAA_E320B244_74E11AC9_91D2DDAD_06F8B67B_C50AD86C, 0xBCACF554_4F90C80E_45A6AED5_8193A3E9_DDF5BBBE_D4857CB0_071A315D_ECCAFACA,
      0x610DA4434FA8D79BD0D922, -0x1C886FDAC021D1050DEA8FF, 0x7004B97E_8A5C4911_2B149787_5FD084FD_78E75FFA_947F1253_14BD5F50_B8896123,
      0x7776FE29_F77B37B8_E2B11387_8E23A610_5B4D9379_610A70CD_BDD9B7E5_50AFA319, 0x068F448E_23450644_0D13FA8B_3E76E12A_84CF727D_7694C9C1_514D6B05_22A7BA2B);
    Doubled(0x7776FE29_F77B37B8_E2B11387_8E23A610_5B4D9379_610A70CD_BDD9B7E5_50AFA319, 0x068F448E_23450644_0D13FA8B_3E76E12A_84CF727D_7694C9C1_514D6B05_22A7BA2B,
      0xC21B48869F51AF37A1B244, -0x3910DFB58043A20A1BD51FE, 0x89638D4E_16B874D2_DBCD8555_4048C2CF_36F6C159_1E60371B_D0A2A6FE_C5B10EC2,
      0xF99BFA3B_A93DCF21_191083E1_93329B97_C30ADEAE_9E09ECB4_8B58C44B_0DBCA2CB, 0x38EE26C4_E72CDDF5_EE0BFD31_F16A4240_582F3684_9CE70F6A_52BDBD85_EC172316);
    Added(0xF99BFA3B_A93DCF21_191083E1_93329B97_C30ADEAE_9E09ECB4_8B58C44B_0DBCA2CB, 0x38EE26C4_E72CDDF5_EE0BFD31_F16A4240_582F3684_9CE70F6A_52BDBD85_EC172316,
      0x18436910D3EA35E6F436488, -0x7221BF6B0087441437AA3FC, 0xC994B697_68832BCB_FF5E9AB3_9AE8D1D3_763BBF1E_531BED98_FE51DE5E_E84F50FB, 0x483ADA77_26A3C465_5DA4FBFC_0E1108A8_FD17B448_A6855419_9C47D08F_FB10D4B8, -1, -1,
      0xCA34679B_6FE34E62_B9EB90F2_7D3591E2_890656DE_367CA0D1_B7A83B44_3237C575, 0x336D0308_7F8A3605_47244FD4_3A4402B0_CE3C1A2A_4451BB73_940D042B_4550B8A8, 0x1B0E9D69_9E6DCCD7_5CFE6B0A_9F3F2606_028B048B_05BC3E61_A3573716_18EC9727);
    Doubled(0x336D0308_7F8A3605_47244FD4_3A4402B0_CE3C1A2A_4451BB73_940D042B_4550B8A8, 0x1B0E9D69_9E6DCCD7_5CFE6B0A_9F3F2606_028B048B_05BC3E61_A3573716_18EC9727,
      0x18436910D3EA35E6F436487, -0x7221BF6B0087441437AA3FD, 0xC0F2A410_FFC5D6AD_DAC236AB_0BCB740F_0260E7A2_79397041_B104FFB5_76AC52C8,
      0x1EC741C9_E31A25D2_C2F745C4_C3F7ED7A_DBFEA648_BFB2CE7B_830488F7_AA096D2E, 0x1A99A451_DF8AA57C_ADFB9AEF_72784D51_95E4CA76_F9A8BFF7_DFEA208A_0025E9E1);
    Doubled(0x1EC741C9_E31A25D2_C2F745C4_C3F7ED7A_DBFEA648_BFB2CE7B_830488F7_AA096D2E, 0x1A99A451_DF8AA57C_ADFB9AEF_72784D51_95E4CA76_F9A8BFF7_DFEA208A_0025E9E1,
      0x3086D221A7D46BCDE86C90E, -0xE4437ED6010E88286F547FA, 0x51B49631_13FE1879_8A9A7714_323822F5_A6F8BF5D_71C7ADA9_4F22D63A_169589AB,
      0xDB4F7B09_0A48815E_DF632837_C08412CC_C22BF55F_DBD80348_96C42C02_ED4CDC7B, 0x972B27FE_02350E87_18E72492_D235AC2A_A49B3743_033F866C_8224E236_049CF026);
    Added(0xDB4F7B09_0A48815E_DF632837_C08412CC_C22BF55F_DBD80348_96C42C02_ED4CDC7B, 0x972B27FE_02350E87_18E72492_D235AC2A_A49B3743_033F866C_8224E236_049CF026,
      0x610DA4434FA8D79BD0D921C, -0x1C886FDAC021D1050DEA8FF4, 0xBCACE2E9_9DA01887_AB0102B6_96902325_87284406_7F15E98D_A7BBA044_00B88FCB, 0xB7C52588_D95C3B9A_A25B0403_F1EEF757_02E84BB7_597AABE6_63B82F6F_04EF2777, 0, -1,
      0xAD28C18F_91E0A256_A428C714_F1447066_D39B7579_AA02D8E4_07402EA3_9324A495, 0xB9320973_8435D5AB_C2297AAE_654676D0_F7E2A63D_A7949BE3_310F1545_269A9AB8, 0x478EEFDE_DC057A1B_298C15BB_76A7DD1B_A44933DE_E98BB6C7_F0F13113_9B236D90);
    Doubled(0xB9320973_8435D5AB_C2297AAE_654676D0_F7E2A63D_A7949BE3_310F1545_269A9AB8, 0x478EEFDE_DC057A1B_298C15BB_76A7DD1B_A44933DE_E98BB6C7_F0F13113_9B236D90,
      0x610DA4434FA8D79BD0D921C, -0x1C886FDAC021D1050DEA8FF5, 0x015A3823_92C54288_BDE390F6_BB1B9D3C_C230EBD9_B517CA11_DB85DC44_36BA7528,
      0x9F80FF0C_05670656_C6AEB9BD_754A2E6F_FB7B8B16_0E019644_D3B3E7AC_6D695FB3, 0x920F35D8_122B7563_6641321D_BFBE6166_4B7246A6_ABFBCCE3_E5D742EC_31AE455F);
    Added(0x9F80FF0C_05670656_C6AEB9BD_754A2E6F_FB7B8B16_0E019644_D3B3E7AC_6D695FB3, 0x920F35D8_122B7563_6641321D_BFBE6166_4B7246A6_ABFBCCE3_E5D742EC_31AE455F,
      0xC21B48869F51AF37A1B2438, -0x3910DFB58043A20A1BD51FEA, 0x79BE667E_F9DCBBAC_55A06295_CE870B07_029BFCDB_2DCE28D9_59F2815B_16F81798, 0x483ADA77_26A3C465_5DA4FBFC_0E1108A8_FD17B448_A6855419_9C47D08F_FB10D4B8, 1, 0,
      0x9BBDFE8C_70D2B81A_E629B7DC_CB2B3A2B_C9BA332D_58D82497_988C0BB2_322C52EC, 0x957B2E8C_ABDFFFEA_0BF507C5_A5511B56_44F2ADEC_49AA12E9_750F97E4_E0447E72, 0x07529254_0A0172ED_2FAC8BE1_3226FDD7_801B9D57_CCE628D9_69A16277_F47F9FF5);
    Doubled(0x957B2E8C_ABDFFFEA_0BF507C5_A5511B56_44F2ADEC_49AA12E9_750F97E4_E0447E72, 0x07529254_0A0172ED_2FAC8BE1_3226FDD7_801B9D57_CCE628D9_69A16277_F47F9FF5,
      0xC21B48869F51AF37A1B2439, -0x3910DFB58043A20A1BD51FEA, 0x57032455_B206AC29_9BEFA983_4414FD3B_4C69366E_A2283197_ED36B72A_23236D0D,
      0x589803C3_D0254A43_F0F78E18_070F9679_BC71DDEE_41D174A8_336E02E2_36B5C1C1, 0xCBB72687_17A97C92_60850B84_4708D826_FD88D54C_10D9B5E5_7CAD8E49_6E70F582);
    Doubled(0x589803C3_D0254A43_F0F78E18_070F9679_BC71DDEE_41D174A8_336E02E2_36B5C1C1, 0xCBB72687_17A97C92_60850B84_4708D826_FD88D54C_10D9B5E5_7CAD8E49_6E70F582,
      0x18436910D3EA35E6F4364872, -0x7221BF6B0087441437AA3FD4, 0xCF133C57_EDCD5A18_72542F16_B159C59F_72B4D7E9_194C3EFF_B7EA3B0E_A41252A1,
      0x499AC2FE_28550B3B_C3C23451_8F48A090_3EE20D79_C9963AF3_5C07388D_68E71381, 0x344028A2_30D3339A_91654992_35960722_43D8B300_E2C38D14_E0ECDBDC_195A70D2);
  }

  lemma Steps9()
    ensures Reaches(0xF58542D2_34778DB2_95DFF547_0E19E31C_DE24E682_4F13D325_6855DFB8_07150287,
                    0xAB7C40F6_FCF7588D_D8200115_7FB02467_ABD02F6A_C6153D11_C6D17B2C_74EC7319,
                    0x610DA4434FA8D79BD0D921C924, -0x1C886FDAC021D1050DEA8FF5216)
  {
    hide Reaches;
    Units();
    Steps8();
    Added(0x499AC2FE_28550B3B_C3C23451_8F48A090_3EE20D79_C9963AF3_5C07388D_68E71381, 0x344028A2_30D3339A_91654992_35960722_43D8B300_E2C38D14_E0ECDBDC_195A70D2,
      0x3086D221A7D46BCDE86C90E4, -0xE4437ED6010E88286F547FA8, 0xBCACE2E9_9DA01887_AB0102B6_96902325_87284406_7F15E98D_A7BBA044_00B88FCB, 0xB7C52588_D95C3B9A_A25B0403_F1EEF757_02E84BB7_597AABE6_63B82F6F_04EF2777, 0, -1,
      0x19F25A36_97C31893_93E2D467_F9DE682B_18836110_25D4ED5C_DF1F14E8_3FFBFC59, 0x823E6DDE_C25CD6AA_73A7096E_C8DF690E_8009CC32_431BDD6E_8B137AE3_B5095124, 0x7A5806F3_F12BED97_9654078F_7381BB56_1D5557D2_07BAF9E4_59FA160C_3CCE9784);
    Doubled(0x823E6DDE_C25CD6AA_73A7096E_C8DF690E_8009CC32_431BDD6E_8B137AE3_B5095124, 0x7A5806F3_F12BED97_9654078F_7381BB56_1D5557D2_07BAF9E4_59FA160C_3CCE9784,
      0x3086D221A7D46BCDE86C90E4, -0xE4437ED6010E88286F547FA9, 0x04BF5FB2_356268B3_B10B8D51_8158EFEB_7982D36D_68BAF2A2_0AB93533_BF858A1C,
      0x35C491F9_3F4A8799_BE96D91E_3F88B723_85720779_664DBB84_B31450FF_F8FBCAFA, 0xC29F059C_03A864B4_39155E5C_E8A7AC24_2840AB7F_72D444D2_56C709C4_CE0918CF);
    Added(0x35C491F9_3F4A8799_BE96D91E_3F88B723_85720779_664DBB84_B31450FF_F8FBCAFA, 0xC29F059C_03A864B4_39155E5C_E8A7AC24_2840AB7F_72D444D2_56C709C4_CE0918CF,
      0x610DA4434FA8D79BD0D921C8, -0x1C886FDAC021D1050DEA8FF52, 0x79BE667E_F9DCBBAC_55A06295_CE870B07_029BFCDB_2DCE28D9_59F2815B_16F81798, 0x483ADA77_26A3C465_5DA4FBFC_0E1108A8_FD17B448_A6855419_9C47D08F_FB10D4B8, 1, 0,
      0x9BA47A62_31D3762C_41DF24CE_A7EEC4BA_4AB0E306_EB1A4378_3EA697A4_75699A2F, 0x6FC000FE_55BA9D6C_19F59170_5B3262BA_A7159A16_54B3ED4B_E75D7638_4B2BDC9D, 0x9BB1CA70_DD380E56_3A0B6CB9_3DE6C8B3_D0C617F3_89952696_0BA2114D_67E30EDE);
    Doubled(0x6FC000FE_55BA9D6C_19F59170_5B3262BA_A7159A16_54B3ED4B_E75D7638_4B2BDC9D, 0x9BB1CA70_DD380E56_3A0B6CB9_3DE6C8B3_D0C617F3_89952696_0BA2114D_67E30EDE,
      0x610DA4434FA8D79BD0D921C9, -0x1C886FDAC021D1050DEA8FF52, 0x8A04968E_57A999CB_5982A6B3_3922ADE2_410580A4_576E4FDC_128CB13E_5CDDE3C9,
      0x9946417F_6AF5D494_8841A2E0_A96704F6_422EEED6_A50B94AD_8C6DF40C_1D0AE838, 0x70E0BE86_DE0B7CC5_0E825600_E4AF8073_5669778A_6FACDFCC_91309AAB_C8FC6CFA);
    Doubled(0x9946417F_6AF5D494_8841A2E0_A96704F6_422EEED6_A50B94AD_8C6DF40C_1D0AE838, 0x70E0BE86_DE0B7CC5_0E825600_E4AF8073_5669778A_6FACDFCC_91309AAB_C8FC6CFA,
      0xC21B48869F51AF37A1B24392, -0x3910DFB58043A20A1BD51FEA4, 0xA80DBE3C_0A7C40B2_17CFEABE_4BD2A0AE_B38C578A_624CAA1D_D8A849F5_BCA957CB,
      0x2EA634DF_4FCB8D56_E7419287_9EBBAE3C_E53FC270_17791C9B_EB475DF4_717596E3, 0x1A5E4DBF_F5F111D5_90D494E3_A98DE6CF_1E3D043C_B3C4E090_470244E1_67C1B4EB);
    Added(0x2EA634DF_4FCB8D56_E7419287_9EBBAE3C_E53FC270_17791C9B_EB475DF4_717596E3, 0x1A5E4DBF_F5F111D5_90D494E3_A98DE6CF_1E3D043C_B3C4E090_470244E1_67C1B4EB,
      0x18436910D3EA35E6F43648724, -0x7221BF6B0087441437AA3FD48, 0x79BE667E_F9DCBBAC_55A06295_CE870B07_029BFCDB_2DCE28D9_59F2815B_16F81798, 0x483ADA77_26A3C465_5DA4FBFC_0E1108A8_FD17B448_A6855419_9C47D08F_FB10D4B8, 1, 0,
      0x8D6A82B8_F3F67D20_3BDE7114_4ACE0E6A_9A095A70_BB6C5AF6_D8F20E42_E78C1739, 0x14E6DED5_83E75B92_AFABC7B6_FC22C875_57CA2410_45D1F39C_B95B8BE8_8D32F13A, 0x403E4B4E_2C0FA80B_EE310CCE_53799F75_C27832F9_AA3206AD_E0227F81_D77CA0E1);
    Doubled(0x14E6DED5_83E75B92_AFABC7B6_FC22C875_57CA2410_45D1F39C_B95B8BE8_8D32F13A, 0x403E4B4E_2C0FA80B_EE310CCE_53799F75_C27832F9_AA3206AD_E0227F81_D77CA0E1,
      0x18436910D3EA35E6F43648725, -0x7221BF6B0087441437AA3FD48, 0x92C9EA83_0ADFCC2A_8D0D7F76_90FE4049_5495520F_3FDDB46D_A954D856_90BAA92C,
      0x3E838BBD_DB4260E5_3D1E706A_8EFAA917_04EBF3AC_7F3B2ED6_B5A12226_2293A42E, 0x7DB5220D_CC644759_95260754_B4D67A50_C61F0593_1445EC58_15C00A19_3F4E1F39);
    Added(0x3E838BBD_DB4260E5_3D1E706A_8EFAA917_04EBF3AC_7F3B2ED6_B5A12226_2293A42E, 0x7DB5220D_CC644759_95260754_B4D67A50_C61F0593_1445EC58_15C00A19_3F4E1F39,
      0x3086D221A7D46BCDE86C90E4A, -0xE4437ED6010E88286F547FA90, 0xC994B697_68832BCB_FF5E9AB3_9AE8D1D3_763BBF1E_531BED98_FE51DE5E_E84F50FB, 0x483ADA77_26A3C465_5DA4FBFC_0E1108A8_FD17B448_A6855419_9C47D08F_FB10D4B8, -1, -1,
      0x7686EC56_9E325816_6DA35852_786F7CE1_89EF1C77_7FBB3D99_BE184629_8A757BF2, 0x15E57E20_B8FF483D_C36528FC_A6F6D7C7_111D7422_9F51791E_7D74FB3E_58FBEEC0, 0x6625C738_49FE822F_998E0253_1E32CB1C_EDB4E2ED_6B484B15_944A29FA_06335368);
    Doubled(0x15E57E20_B8FF483D_C36528FC_A6F6D7C7_111D7422_9F51791E_7D74FB3E_58FBEEC0, 0x6625C738_49FE822F_998E0253_1E32CB1C_EDB4E2ED_6B484B15_944A29FA_06335368,
      0x3086D221A7D46BCDE86C90E49, -0xE4437ED6010E88286F547FA91, 0xF0D72E30_14739A26_E0D6B0DD_504E6D2E_06A91597_3EB44C5E_15D5BE2E_BCB0E773,
      0x6808E903_99C0E6BD_EF4357B1_CB487D56_4F141E04_7E2F977C_442F9629_403ED8D1, 0xCD4A251E_18135902_55499CB2_31482C60_41DE9051_47F7CB8D_1753DA12_8C8FF651);
    Doubled(0x6808E903_99C0E6BD_EF4357B1_CB487D56_4F141E04_7E2F977C_442F9629_403ED8D1, 0xCD4A251E_18135902_55499CB2_31482C60_41DE9051_47F7CB8D_1753DA12_8C8FF651,
      0x610DA4434FA8D79BD0D921C92, -0x1C886FDAC021D1050DEA8FF522, 0x04656A82_2009E9AB_4D964880_59525C86_59DA53FF_EE97B4AE_3E02DAC0_322768A0,
      0xB5D08A8B_8EF59E9B_697C3A97_DF69D784_B224AD25_11D0D5ED_CA3665BC_D28973DC, 0xD892E089_3F10D1C2_35C8FC72_57A82577_65FBEA86_DDB1CE54_84710F2B_DE1A78CA);
    Added(0xB5D08A8B_8EF59E9B_697C3A97_DF69D784_B224AD25_11D0D5ED_CA3665BC_D28973DC, 0xD892E089_3F10D1C2_35C8FC72_57A82577_65FBEA86_DDB1CE54_84710F2B_DE1A78CA,
      0xC21B48869F51AF37A1B243924, -0x3910DFB58043A20A1BD51FEA44, 0xBCACE2E9_9DA01887_AB0102B6_96902325_87284406_7F15E98D_A7BBA044_00B88FCB, 0x483ADA77_26A3C465_5DA4FBFC_0E1108A8_FD17B448_A6855419_9C47D08F_FB10D4B8, 0, 1,
      0x60D1A9BF_34948821_BAFB272E_CA500882_4661FBA7_1DD060CA_C78345E5_F5EE6F4B, 0x95823F17_11B944E2_A9E94E6F_A935B28E_60D7A89A_9D34D262_3A08CC31_C48D0072, 0x22658A56_1E755496_7D2997D0_02BD7E22_65BB972C_9EC7CBCA_1BABBEB8_DAB596B9);
    Doubled(0x95823F17_11B944E2_A9E94E6F_A935B28E_60D7A89A_9D34D262_3A08CC31_C48D0072, 0x22658A56_1E755496_7D2997D0_02BD7E22_65BB972C_9EC7CBCA_1BABBEB8_DAB596B9,
      0xC21B48869F51AF37A1B243924, -0x3910DFB58043A20A1BD51FEA43, 0x7B1F2503_67A76DBA_723B3512_611691ED_B99331E2_053F1A86_058463FC_D21A7489,
      0x5A51CC34_EC5AA29F_0828D679_5AE2D0AA_2F4FD47E_B2FA38C0_759524A2_0F64BB66, 0x078DEC9B_C8A5B0DB_E8392C44_6146070E_429FBA9C_7F5DE905_D2FD0FB1_2DFD4DF0);
    Added(0x5A51CC34_EC5AA29F_0828D679_5AE2D0AA_2F4FD47E_B2FA38C0_759524A2_0F64BB66, 0x078DEC9B_C8A5B0DB_E8392C44_6146070E_429FBA9C_7F5DE905_D2FD0FB1_2DFD4DF0,
      0x18436910D3EA35E6F436487248, -0x7221BF6B0087441437AA3FD486, 0x79BE667E_F9DCBBAC_55A06295_CE870B07_029BFCDB_2DCE28D9_59F2815B_16F81798, 0x483ADA77_26A3C465_5DA4FBFC_0E1108A8_FD17B448_A6855419_9C47D08F_FB10D4B8, 1, 0,
      0x492AD2D3_25A2A9BD_3D3ECA7F_B3730DF4_079A6FD4_20E6CFFC_20926A47_B69607D8, 0xE1D17637_3B8EE361_B6B23220_F7ED03AF_2B5647FD_82AEAB13_13F6C0A5_C1C44DA7, 0x414D830C_C5BD0253_00CC5AA7_1D48A14A_723725E7_91391FFD_7B6B6327_CBF2D0D8);
    Doubled(0xE1D17637_3B8EE361_B6B23220_F7ED03AF_2B5647FD_82AEAB13_13F6C0A5_C1C44DA7, 0x414D830C_C5BD0253_00CC5AA7_1D48A14A_723725E7_91391FFD_7B6B6327_CBF2D0D8,
      0x18436910D3EA35E6F436487249, -0x7221BF6B0087441437AA3FD486, 0xACA65D02_AA25A625_C4E032A9_49D2544D_0AE3FEEE_04B4FA01_1E3633FB_E119F809,
      0xF7A60D75_307E6B84_4E583BEB_93510059_E261CD48_EF836E00_06B09AD5_EBB1A8C9, 0xFB23C1E9_4B12C321_956E5D39_225E5979_1C42A51E_333ED47C_EF3DC477_20DD13C1);
    Added(0xF7A60D75_307E6B84_4E583BEB_93510059_E261CD48_EF836E00_06B09AD5_EBB1A8C9, 0xFB23C1E9_4B12C321_956E5D39_225E5979_1C42A51E_333ED47C_EF3DC477_20DD13C1,
      0x3086D221A7D46BCDE86C90E492, -0xE4437ED6010E88286F547FA90C, 0xBCACE2E9_9DA01887_AB0102B6_96902325_87284406_7F15E98D_A7BBA044_00B88FCB, 0x483ADA77_26A3C465_5DA4FBFC_0E1108A8_FD17B448_A6855419_9C47D08F_FB10D4B8, 0, 1,
      0x8DE78062_3CCA7F3F_001382A2_7D8EF953_1C7B5D82_20CE1244_D07843F8_DB036892, 0xF05E795B_348992A7_FE4E7D04_A4A8C1E9_EFBE1C9E_99389357_1EADED32_FCA8C859, 0x9F5FFBA2_A3BF78F8_F88D4FCE_BE6EA5B9_D8CA7336_F2CCBF8D_580C6A99_26CF7346);
    Doubled(0xF05E795B_348992A7_FE4E7D04_A4A8C1E9_EFBE1C9E_99389357_1EADED32_FCA8C859, 0x9F5FFBA2_A3BF78F8_F88D4FCE_BE6EA5B9_D8CA7336_F2CCBF8D_580C6A99_26CF7346,
      0x3086D221A7D46BCDE86C90E492, -0xE4437ED6010E88286F547FA90B, 0xDE16D0A4_8AF48602_5D265FDC_61D7794A_02CC07BC_1949CC6B_10013DB2_5DA7A904,
      0xF58542D2_34778DB2_95DFF547_0E19E31C_DE24E682_4F13D325_6855DFB8_07150287, 0xAB7C40F6_FCF7588D_D8200115_7FB02467_ABD02F6A_C6153D11_C6D17B2C_74EC7319);
  }

  lemma Steps10()
    ensures Reaches(0x3A8F7290_8ABE39DF_B085E29F_5F4EC649_C388A4A9_04C46531_034CCAC4_DC665FA6,
                    0xC3EE43B6_D135D795_09E62A6D_02778B06_E52DFEBD_40794D98_59938DEF_223E4D19,
                    0x3086D221A7D46BCDE86C90E492850, -0xE4437ED6010E88286F547FA90ABFE)
  {
    hide Reaches;
    Units();
    Steps9();
    Added(0xF58542D2_34778DB2_95DFF547_0E19E31C_DE24E682_4F13D325_6855DFB8_07150287, 0xAB7C40F6_FCF7588D_D8200115_7FB02467_ABD02F6A_C6153D11_C6D17B2C_74EC7319,
      0x610DA4434FA8D79BD0D921C924, -0x1C886FDAC021D1050DEA8FF5216, 0x79BE667E_F9DCBBAC_55A06295_CE870B07_029BFCDB_2DCE28D9_59F2815B_16F81798, 0x483ADA77_26A3C465_5DA4FBFC_0E1108A8_FD17B448_A6855419_9C47D08F_FB10D4B8, 1, 0,
      0x66A9F820_899FEDF0_D63B45BD_3DB7E196_239D849B_1B4047D8_D1BEAB17_08C4F03D, 0xDB80219E_AC1BF30C_A73BF68C_FCDC9C37_90934B97_3D4C2109_1C32A9C8_79EE666E, 0x2C7BFB7D_26A034A1_B254B11F_B43DDB37_D4F214C6_B92B54A2_697276E7_C4CF2516);
    Doubled(0xDB80219E_AC1BF30C_A73BF68C_FCDC9C37_90934B97_3D4C2109_1C32A9C8_79EE666E, 0x2C7BFB7D_26A034A1_B254B11F_B43DDB37_D4F214C6_B92B54A2_697276E7_C4CF2516,
      0x610DA4434FA8D79BD0D921C925, -0x1C886FDAC021D1050DEA8FF5216, 0x21A89013_2378A52E_7C924B71_8BD9AF2A_20DBCCF5_91BC47CA_BC8B7532_F0566F18,
      0x7B365834_F185C384_F0876B38_EC114670_88EFF055_EEE8820C_947DCFE8_D1D2DBBA, 0xE92D90C1_62E0FA3F_B27CACC6_7E265F61_2891F120_E4D8175C_591208D8_F3AB1B2F);
    Added(0x7B365834_F185C384_F0876B38_EC114670_88EFF055_EEE8820C_947DCFE8_D1D2DBBA, 0xE92D90C1_62E0FA3F_B27CACC6_7E265F61_2891F120_E4D8175C_591208D8_F3AB1B2F,
      0xC21B48869F51AF37A1B243924A, -0x3910DFB58043A20A1BD51FEA42C, 0xBCACE2E9_9DA01887_AB0102B6_96902325_87284406_7F15E98D_A7BBA044_00B88FCB, 0x483ADA77_26A3C465_5DA4FBFC_0E1108A8_FD17B448_A6855419_9C47D08F_FB10D4B8, 0, 1,
      0x31670C60_54EBE346_FFF84BB6_73D71499_252E24C8_4134C126_7E269490_C7B3DD33, 0x408925FF_DC22D7A7_3AC97056_6F099324_E52B2C94_01C34E1C_30F5545D_B9F1AA0D, 0x4E34DDF0_DABC588E_394D6B83_E7D3FE61_123B2797_D991AC8C_0B27121A_FAEB3227);
    Doubled(0x408925FF_DC22D7A7_3AC97056_6F099324_E52B2C94_01C34E1C_30F5545D_B9F1AA0D, 0x4E34DDF0_DABC588E_394D6B83_E7D3FE61_123B2797_D991AC8C_0B27121A_FAEB3227,
      0xC21B48869F51AF37A1B243924A, -0x3910DFB58043A20A1BD51FEA42B, 0x54843B8E_932453B1_21470965_385E8520_874DE2BA_7184E407_61A98379_130F21D5,
      0x3617011F_94E8B762_6B616FBC_D467F816_D5C38E87_60E04E5B_3DC1DA4A_0D3DFEEE, 0xCA12F57D_1F079C66_E0D00821_86CCB56B_15DDA153_3C6BF412_20447002_7136A596);
    Doubled(0x3617011F_94E8B762_6B616FBC_D467F816_D5C38E87_60E04E5B_3DC1DA4A_0D3DFEEE, 0xCA12F57D_1F079C66_E0D00821_86CCB56B_15DDA153_3C6BF412_20447002_7136A596,
      0x18436910D3EA35E6F4364872494, -0x7221BF6B0087441437AA3FD4856, 0xDD126A12_7277BAE7_37571B7D_A916B0DC_9360EC80_222CA93E_EC2C852C_4094AEB1,
      0x36C4D324_4F0D1F41_C3BF367B_F2FED4A5_085A7478_115477CE_B10F410E_F78DA304, 0xC2D28814_36A82CEC_B6E38369_A3A75FB0_047E017B_EBCB907A_E4AB42EA_4689D735);
    Doubled(0x36C4D324_4F0D1F41_C3BF367B_F2FED4A5_085A7478_115477CE_B10F410E_F78DA304, 0xC2D28814_36A82CEC_B6E38369_A3A75FB0_047E017B_EBCB907A_E4AB42EA_4689D735,
      0x3086D221A7D46BCDE86C90E4928, -0xE4437ED6010E88286F547FA90AC, 0x321940EE_7B8A8180_9E95489D_B25EEFCC_12858B62_FC6D9F33_C2B32429_AF3FD69E,
      0xF9068748_BB3A0751_D00C1C02_ABC6674A_898A3602_C48D16F0_F1C946E8_5B0B71DA, 0x3090FDD4_A7B276BF_14691573_B0AD9C41_ED80E87D_2B95E414_F9CB28CE_BC6E6DA7);
    Doubled(0xF9068748_BB3A0751_D00C1C02_ABC6674A_898A3602_C48D16F0_F1C946E8_5B0B71DA, 0x3090FDD4_A7B276BF_14691573_B0AD9C41_ED80E87D_2B95E414_F9CB28CE_BC6E6DA7,
      0x610DA4434FA8D79BD0D921C9250, -0x1C886FDAC021D1050DEA8FF52158, 0x4B3B075B_15CFA43A_29B09411_E800187E_E10AE01D_951662B0_01CF0F54_991138A5,
      0x3DA4A213_76DFBA8E_9FEC946F_8C3B87C3_F1818540_367C2595_5FFB9DE1_0A928CC6, 0x808FD3CA_3DCCD6C2_E79EA47C_CB634018_31906E02_B9E0E88A_2718DF04_6EC75CFA);
    Added(0x3DA4A213_76DFBA8E_9FEC946F_8C3B87C3_F1818540_367C2595_5FFB9DE1_0A928CC6, 0x808FD3CA_3DCCD6C2_E79EA47C_CB634018_31906E02_B9E0E88A_2718DF04_6EC75CFA,
      0xC21B48869F51AF37A1B243924A0, -0x3910DFB58043A20A1BD51FEA42B0, 0x79BE667E_F9DCBBAC_55A06295_CE870B07_029BFCDB_2DCE28D9_59F2815B_16F81798, 0x483ADA77_26A3C465_5DA4FBFC_0E1108A8_FD17B448_A6855419_9C47D08F_FB10D4B8, 1, 0,
      0x82580E3E_EA8B3296_31D0992D_5E903A62_1574917D_C569C1B8_5224B764_EC670801, 0x46F08B40_3C3C4B2D_B874FADC_BCF0D186_F7788715_BE6C23A2_7B959F39_0953901C, 0x3C145F37_4B576F3C_EEF2672E_6CAD6533_F4C42C0A_7D9F4E36_CAB1F246_2B63BE63);
    Doubled(0x46F08B40_3C3C4B2D_B874FADC_BCF0D186_F7788715_BE6C23A2_7B959F39_0953901C, 0x3C145F37_4B576F3C_EEF2672E_6CAD6533_F4C42C0A_7D9F4E36_CAB1F246_2B63BE63,
      0xC21B48869F51AF37A1B243924A1, -0x3910DFB58043A20A1BD51FEA42B0, 0x77028D66_DD9BE91C_437B71F8_BD8A24D5_3E3336FF_F7BF15C6_A6C17E4A_E037226F,
      0x9BDE3EE9_86980D62_F9DD1C56_B31D9188_72FAB40C_A7C3224D_5765EA53_2C147C73, 0x00043004_B51EED37_AE7A7960_3A84D186_2C3CC25C_9D2F8545_21663D45_822CEBA1);
    Doubled(0x9BDE3EE9_86980D62_F9DD1C56_B31D9188_72FAB40C_A7C3224D_5765EA53_2C147C73, 0x00043004_B51EED37_AE7A7960_3A84D186_2C3CC25C_9D2F8545_21663D45_822CEBA1,
      0x18436910D3EA35E6F43648724942, -0x7221BF6B0087441437AA3FD48560, 0x55BB6FC8_FAFFF851_B6E4488F_90D3D7E9_3F73564C_C7C732E6_299511FF_FC4C2D50,
      0xFB5A7270_D68AAF29_7CC358AA_31C2914E_9A4B2BB3_78A0ACFA_78F590E9_9917FE44, 0xBC54A905_9AF40AA2_DF6CEFE2_46882725_8EA66747_2685094D_1145E51A_4D777FA0);
    Added(0xFB5A7270_D68AAF29_7CC358AA_31C2914E_9A4B2BB3_78A0ACFA_78F590E9_9917FE44, 0xBC54A905_9AF40AA2_DF6CEFE2_46882725_8EA66747_2685094D_1145E51A_4D777FA0,
      0x3086D221A7D46BCDE86C90E49284, -0xE4437ED6010E88286F547FA90AC0, 0x79BE667E_F9DCBBAC_55A06295_CE870B07_029BFCDB_2DCE28D9_59F2815B_16F81798, 0x483ADA77_26A3C465_5DA4FBFC_0E1108A8_FD17B448_A6855419_9C47D08F_FB10D4B8, 1, 0,
      0x555611E7_38C221E2_BD82175C_E151449E_3D0AE7A3_6AB8C5AA_DC06E71D_B846B1DF, 0xC495AB82_9645ADB5_EA6EBCD6_011DEAB3_0299D7CE_AF47249A_A685FAA6_C4DDC1C0, 0xE850CD69_9F17B56D_5D631067_550BA12F_1676F71D_1EF464E8_11E541E6_381B1FD2);
    Doubled(0xC495AB82_9645ADB5_EA6EBCD6_011DEAB3_0299D7CE_AF47249A_A685FAA6_C4DDC1C0, 0xE850CD69_9F17B56D_5D631067_550BA12F_1676F71D_1EF464E8_11E541E6_381B1FD2,
      0x3086D221A7D46BCDE86C90E49285, -0xE4437ED6010E88286F547FA90AC0, 0x240EBC02_5899B104_7DA1F4D8_3F4D38F7_222208F4_C6E0AD63_38A44973_55DE8B01,
      0xDA612024_7CA7CD64_FD93AF0A_A682EC46_8D2563E9_6A964D04_D968618C_5D9483A0, 0x88E6F7A9_DCE032E3_94104FC8_189830A4_D2C2BF32_CE758646_E857E875_91E23BFD);
    Doubled(0xDA612024_7CA7CD64_FD93AF0A_A682EC46_8D2563E9_6A964D04_D968618C_5D9483A0, 0x88E6F7A9_DCE032E3_94104FC8_189830A4_D2C2BF32_CE758646_E857E875_91E23BFD,
      0x610DA4434FA8D79BD0D921C9250A, -0x1C886FDAC021D1050DEA8FF521580, 0xA2198EF6_530D3E02_3D2E2E93_293BAB7C_71EB3742_4490614A_9B31F007_D8AF364E,
      0xDC8DAC21_BB5E998A_259EB99E_7FB59162_F574527F_EAF8363A_7F6CD378_352A577B, 0xEB75E3AD_3C52A156_F5C3AAE7_F7619FD8_95A38E00_93D3F4B1_EEB3A5C5_CFF2995F);
    Doubled(0xDC8DAC21_BB5E998A_259EB99E_7FB59162_F574527F_EAF8363A_7F6CD378_352A577B, 0xEB75E3AD_3C52A156_F5C3AAE7_F7619FD8_95A38E00_93D3F4B1_EEB3A5C5_CFF2995F,
      0xC21B48869F51AF37A1B243924A14, -0x3910DFB58043A20A1BD51FEA42B00, 0x74BDD943_81BBC009_82510716_17F7CC00_43768D00_EE44DD1C_9C2A8551_11121D12,
      0x3A80CB99_EE3A7B6D_684F6AC4_AE278AD3_6DF3BE48_06FE1C51_B79997E9_93C7A090, 0xDE89EE36_E9FD8784_902E7600_D6133C99_06C66D5F_6831A221_D9321244_F3D149CB);
    Added(0x3A80CB99_EE3A7B6D_684F6AC4_AE278AD3_6DF3BE48_06FE1C51_B79997E9_93C7A090, 0xDE89EE36_E9FD8784_902E7600_D6133C99_06C66D5F_6831A221_D9321244_F3D149CB,
      0x18436910D3EA35E6F436487249428, -0x7221BF6B0087441437AA3FD485600, 0xBCACE2E9_9DA01887_AB0102B6_96902325_87284406_7F15E98D_A7BBA044_00B88FCB, 0x483ADA77_26A3C465_5DA4FBFC_0E1108A8_FD17B448_A6855419_9C47D08F_FB10D4B8, 0, 1,
      0x87D47E49_60A569E6_691B26ED_98420E83_599D10CC_C7FE306E_A3D56684_36330901, 0x5692EC5E_D0F4B56F_74007658_FECCFCB8_A9613F7E_EE8560DE_77AFC016_8D7496D3, 0x03E9B958_480A8CFD_3618F3C1_D28CFBB4_00D42B48_0FE1F602_4FCD4F5E_7400E0A3);
    Doubled(0x5692EC5E_D0F4B56F_74007658_FECCFCB8_A9613F7E_EE8560DE_77AFC016_8D7496D3, 0x03E9B958_480A8CFD_3618F3C1_D28CFBB4_00D42B48_0FE1F602_4FCD4F5E_7400E0A3,
      0x18436910D3EA35E6F436487249428, -0x7221BF6B0087441437AA3FD4855FF, 0xE4AB0F06_907F9F01_DFBAB7EB_3CD63FAA_05797B8F_274DEAF2_3687AD98_2DD34101,
      0x3A8F7290_8ABE39DF_B085E29F_5F4EC649_C388A4A9_04C46531_034CCAC4_DC665FA6, 0xC3EE43B6_D135D795_09E62A6D_02778B06_E52DFEBD_40794D98_59938DEF_223E4D19);
  }

  lemma Steps11()
    ensures Reaches(0x337902D5_B48417CA_EC5BF4AB_4ACD57E8_2BC26655_2C3CF4C0_11F843DF_AE108E77,
                    0x8B71E835_45FC2B58_72589F99_D948C031_08D36797_C4DE363E_BD3FF6A9_E1A95B10,
                    0xC21B48869F51AF37A1B243924A13AC6, -0x3910DFB58043A20A1BD51FEA42AFF930)
  {
    hide Reaches;
    Units();
    Steps10();
    Added(0x3A8F7290_8ABE39DF_B085E29F_5F4EC649_C388A4A9_04C46531_034CCAC4_DC665FA6, 0xC3EE43B6_D135D795_09E62A6D_02778B06_E52DFEBD_40794D98_59938DEF_223E4D19,
      0x3086D221A7D46BCDE86C90E492850, -0xE4437ED6010E88286F547FA90ABFE, 0x79BE667E_F9DCBBAC_55A06295_CE870B07_029BFCDB_2DCE28D9_59F2815B_16F81798, 0xB7C52588_D95C3B9A_A25B0403_F1EEF757_02E84BB7_597AABE6_63B82F6F_04EF2777, -1, 0,
      0x024B1372_ABC06D2E_1BB4BBAF_C878DA05_4E82ADD1_774F9E82_EF6493DE_1EC087B6, 0x0CC52FD8_5317F77E_7C64B67A_DCF02731_CAF4B9F2_386598E4_99659DA4_F436026F, 0x3798132B_C8B7FA01_B137D726_CB20A261_68C07DD2_1EFFBDE0_D3EA895D_EF3BE832);
    Doubled(0x0CC52FD8_5317F77E_7C64B67A_DCF02731_CAF4B9F2_386598E4_99659DA4_F436026F, 0x3798132B_C8B7FA01_B137D726_CB20A261_68C07DD2_1EFFBDE0_D3EA895D_EF3BE832,
      0x3086D221A7D46BCDE86C90E49284F, -0xE4437ED6010E88286F547FA90ABFE, 0x59CAACDA_F2EF28F6_0751934E_81218D8A_717D0CFF_DFF81793_427E110B_11F754FD,
      0x66C0D568_756E2D83_9380E376_C052C3A0_A2595785_C695745D_C1793E29_5AF364FF, 0x7D947DE7_511FE565_14AE4962_2A1C152B_BF3CC5D4_EF61D036_42A91BC7_CB5D4299);
    Doubled(0x66C0D568_756E2D83_9380E376_C052C3A0_A2595785_C695745D_C1793E29_5AF364FF, 0x7D947DE7_511FE565_14AE4962_2A1C152B_BF3CC5D4_EF61D036_42A91BC7_CB5D4299,
      0x610DA4434FA8D79BD0D921C92509E, -0x1C886FDAC021D1050DEA8FF52157FC, 0x62F6FE98_611019B0_D9FA1C47_202378FD_545FF180_CD7ABA24_EB28C395_F246EA69,
      0xE8A7ECAA_37B0835F_E1D4D2E3_14862260_677EFE48_3E885D3B_D3843147_82529798, 0xDD0EF015_00CC3A8C_8C1335D7_7A02B8CF_8AE01DFD_1C84C2DE_8212EA13_379566F8);
    Added(0xE8A7ECAA_37B0835F_E1D4D2E3_14862260_677EFE48_3E885D3B_D3843147_82529798, 0xDD0EF015_00CC3A8C_8C1335D7_7A02B8CF_8AE01DFD_1C84C2DE_8212EA13_379566F8,
      0xC21B48869F51AF37A1B243924A13C, -0x3910DFB58043A20A1BD51FEA42AFF8, 0xC994B697_68832BCB_FF5E9AB3_9AE8D1D3_763BBF1E_531BED98_FE51DE5E_E84F50FB, 0x483ADA77_26A3C465_5DA4FBFC_0E1108A8_FD17B448_A6855419_9C47D08F_FB10D4B8, -1, -1,
      0xB96D1C77_B8B31C41_0131153F_B123DE75_663066C1_E6AFD59D_221CA963_611D4CB5, 0x3E7CF06A_7CA56BA1_4B381FE5_6695C71E_D325C9D6_B9AB292E_4F8530F3_4077BF7E, 0x03AFB1C4_EC0213D9_786F8372_726B0E7B_3FC37BF0_CFAEE0A4_C7C8B1FD_7361A740);
    Doubled(0x3E7CF06A_7CA56BA1_4B381FE5_6695C71E_D325C9D6_B9AB292E_4F8530F3_4077BF7E, 0x03AFB1C4_EC0213D9_786F8372_726B0E7B_3FC37BF0_CFAEE0A4_C7C8B1FD_7361A740,
      0xC21B48869F51AF37A1B243924A13B, -0x3910DFB58043A20A1BD51FEA42AFF9, 0x236C8C1F_B436C162_E3B1A7D6_F1DF28A3_61D349B6_0F26CBC2_FD2E9790_3E55F3CA,
      0xCBF33A18_A763EF8F_35B2B6E6_4EB49D82_5409E361_41AA371F_00D05937_2DE70994, 0x9E74683C_A71BA2B2_BB21AFB3_A13CA45D_0F168C88_371999C7_DDC99969_74CA0427);
    Doubled(0xCBF33A18_A763EF8F_35B2B6E6_4EB49D82_5409E361_41AA371F_00D05937_2DE70994, 0x9E74683C_A71BA2B2_BB21AFB3_A13CA45D_0F168C88_371999C7_DDC99969_74CA0427,
      0x18436910D3EA35E6F4364872494276, -0x7221BF6B0087441437AA3FD4855FF2, 0x50DDDEB1_59CA4925_531F29F6_5BF6EE27_3CC3B83D_763474D7_85A095D1_C9021B51,
      0x31EF6B90_D78D5470_DFC6D535_5469DB18_4E8BE8E3_547D3B7C_73802D8A_AA08124F, 0x3BC2EA5C_27B989C9_193176CC_F48BD385_AC5D4EA3_48C8EA2B_CF3864A3_522FB634);
    Added(0x31EF6B90_D78D5470_DFC6D535_5469DB18_4E8BE8E3_547D3B7C_73802D8A_AA08124F, 0x3BC2EA5C_27B989C9_193176CC_F48BD385_AC5D4EA3_48C8EA2B_CF3864A3_522FB634,
      0x3086D221A7D46BCDE86C90E49284EC, -0xE4437ED6010E88286F547FA90ABFE4, 0xC994B697_68832BCB_FF5E9AB3_9AE8D1D3_763BBF1E_531BED98_FE51DE5E_E84F50FB, 0x483ADA77_26A3C465_5DA4FBFC_0E1108A8_FD17B448_A6855419_9C47D08F_FB10D4B8, -1, -1,
      0x3898252D_9F6CCC86_B574D779_4996077B_C109E5F6_194CBFFC_B97DEC08_9AF030A1, 0x55B0234F_41A1C8F2_4F9945D7_8FCA03E5_9855555D_C9E1F6EE_C7C1E7A2_426339E8, 0x15F46C42_F28EAFFC_F8AAF8E6_63298063_EAA03043_AA1EECFE_7AF8E1CE_EB32D550);
    Doubled(0x55B0234F_41A1C8F2_4F9945D7_8FCA03E5_9855555D_C9E1F6EE_C7C1E7A2_426339E8, 0x15F46C42_F28EAFFC_F8AAF8E6_63298063_EAA03043_AA1EECFE_7AF8E1CE_EB32D550,
      0x3086D221A7D46BCDE86C90E49284EB, -0xE4437ED6010E88286F547FA90ABFE5, 0x64BB527A_289DDA1F_502B7B0B_9670F8D1_7F3683DE_AA9380DF_75AFC921_23A3D7E9,
      0x3B63CB0D_5633980E_AA17F4C0_3B2CFDFF_1A8B0EE2_2B10A708_F741581E_601AD550, 0x32F9A138_3A478680_2822FC0D_47C31AAC_458395A4_1AA08F80_BBA0433F_0D772E1E);
    Doubled(0x3B63CB0D_5633980E_AA17F4C0_3B2CFDFF_1A8B0EE2_2B10A708_F741581E_601AD550, 0x32F9A138_3A478680_2822FC0D_47C31AAC_458395A4_1AA08F80_BBA0433F_0D772E1E,
      0x610DA4434FA8D79BD0D921C92509D6, -0x1C886FDAC021D1050DEA8FF52157FCA, 0x3FBDEF21_1ACE1B37_67C016C2_FE1FC03A_0F91E812_48EAF004_D716A363_FEE43D3A,
      0xE2846E7D_C4AC66A3_2A504697_288609C1_29FB4FB8_165F9E15_0D49259D_B5D0F845, 0x24F90736_3BEBCE64_1DE1BF08_BAB5A90A_F657CC9B_90E564E4_E30E6475_43BB44B2);
    Added(0xE2846E7D_C4AC66A3_2A504697_288609C1_29FB4FB8_165F9E15_0D49259D_B5D0F845, 0x24F90736_3BEBCE64_1DE1BF08_BAB5A90A_F657CC9B_90E564E4_E30E6475_43BB44B2,
      0xC21B48869F51AF37A1B243924A13AC, -0x3910DFB58043A20A1BD51FEA42AFF94, 0xBCACE2E9_9DA01887_AB0102B6_96902325_87284406_7F15E98D_A7BBA044_00B88FCB, 0x483ADA77_26A3C465_5DA4FBFC_0E1108A8_FD17B448_A6855419_9C47D08F_FB10D4B8, 0, 1,
      0x2AC6F219_CA4776E5_AF4900F4_BF59B980_F8819A7C_327409CF_214FD404_D993348D, 0xC8C5876B_3696F993_1C97FA9D_D35D761E_5C1A8FE9_EDA5BF11_1C77FED4_25057C63, 0x98DFEF97_8A5CAF79_32ADBA11_BD466950_545E6FEF_5D70831B_2A644F69_9F1A0EC5);
    Doubled(0xC8C5876B_3696F993_1C97FA9D_D35D761E_5C1A8FE9_EDA5BF11_1C77FED4_25057C63, 0x98DFEF97_8A5CAF79_32ADBA11_BD466950_545E6FEF_5D70831B_2A644F69_9F1A0EC5,
      0xC21B48869F51AF37A1B243924A13AC, -0x3910DFB58043A20A1BD51FEA42AFF93, 0xA2145BA4_0B630728_F5695C72_07195EC1_EE1AC29D_ADCDE19C_DA3C1E89_D4502A00,
      0xE43D311A_AD22834C_29D9E55E_80DE19DF_EFEF2283_D1ACA3A7_EE97DAEE_F1CE992B, 0xAE176AD9_1CC42E03_52546B9E_A80D0E22_1F8F0339_AAA9A289_8767527E_7524B39F);
    Doubled(0xE43D311A_AD22834C_29D9E55E_80DE19DF_EFEF2283_D1ACA3A7_EE97DAEE_F1CE992B, 0xAE176AD9_1CC42E03_52546B9E_A80D0E22_1F8F0339_AAA9A289_8767527E_7524B39F,
      0x18436910D3EA35E6F43648724942758, -0x7221BF6B0087441437AA3FD4855FF26, 0xE70B85A2_527EE360_27EFB9FF_9783030A_98E6C4A2_3010354C_5DD235FA_B0AE8370,
      0x3A49BBC6_F45D4ECF_D3AE401A_F8CC7537_3C19A3FE_B208FA60_7546CCA5_7CFFD25D, 0xC9CC9443_4F92BCC0_46C34A27_30756764_E196F24D_D144D7F2_CB3C1E83_DCA5E7BD);
    Added(0x3A49BBC6_F45D4ECF_D3AE401A_F8CC7537_3C19A3FE_B208FA60_7546CCA5_7CFFD25D, 0xC9CC9443_4F92BCC0_46C34A27_30756764_E196F24D_D144D7F2_CB3C1E83_DCA5E7BD,
      0x3086D221A7D46BCDE86C90E49284EB0, -0xE4437ED6010E88286F547FA90ABFE4C, 0x79BE667E_F9DCBBAC_55A06295_CE870B07_029BFCDB_2DCE28D9_59F2815B_16F81798, 0x483ADA77_26A3C465_5DA4FBFC_0E1108A8_FD17B448_A6855419_9C47D08F_FB10D4B8, 1, 0,
      0xBD37FA85_F1B9105D_5BD83FC1_FE008562_890B1B3C_B01C0ED5_73B69E80_467ED9DA, 0xC0627A1E_5CA59232_5144BC0D_28A450DE_00C12673_C74DFDC6_624034A7_46D6AB40, 0x21CCFA8E_7674835E_F92A2C3D_A7829C10_105F661E_0628888D_5FBD6FD4_4F33756B);
    Doubled(0xC0627A1E_5CA59232_5144BC0D_28A450DE_00C12673_C74DFDC6_624034A7_46D6AB40, 0x21CCFA8E_7674835E_F92A2C3D_A7829C10_105F661E_0628888D_5FBD6FD4_4F33756B,
      0x3086D221A7D46BCDE86C90E49284EB1, -0xE4437ED6010E88286F547FA90ABFE4C, 0x248BEA89_C6DE5E7D_32A32517_6FCFB790_9FFB5EE8_8BD09FC2_AF8F33F3_0906D378,
      0xB2A9FE1E_95C1D265_89875652_39CE2A48_898F1611_10A56EB2_1ED9F2C4_7581F5E1, 0x40C535A4_577320D9_C1B3FE02_4E0C2BB6_6081EFC9_06772DA3_BD4312A2_89048943);
    Added(0xB2A9FE1E_95C1D265_89875652_39CE2A48_898F1611_10A56EB2_1ED9F2C4_7581F5E1, 0x40C535A4_577320D9_C1B3FE02_4E0C2BB6_6081EFC9_06772DA3_BD4312A2_89048943,
      0x610DA4434FA8D79BD0D921C92509D62, -0x1C886FDAC021D1050DEA8FF52157FC98, 0x79BE667E_F9DCBBAC_55A06295_CE870B07_029BFCDB_2DCE28D9_59F2815B_16F81798, 0x483ADA77_26A3C465_5DA4FBFC_0E1108A8_FD17B448_A6855419_9C47D08F_FB10D4B8, 1, 0,
      0x49BF0B98_5C27A9A8_6E58397D_0B934D02_BA063265_5458E729_5E47348C_395AA773, 0x2E73BD84_A08C41C3_DA360726_F11F392B_43F1C132_AF4968BE_1B88CAE3_528153FF, 0xEE61DED1_204764E5_5D463C21_E73301EC_749AA9E8_46104877_A78401E1_F68BFAD2);
    Doubled(0x2E73BD84_A08C41C3_DA360726_F11F392B_43F1C132_AF4968BE_1B88CAE3_528153FF, 0xEE61DED1_204764E5_5D463C21_E73301EC_749AA9E8_46104877_A78401E1_F68BFAD2,
      0x610DA4434FA8D79BD0D921C92509D63, -0x1C886FDAC021D1050DEA8FF52157FC98, 0x0A41A12C_3A66208B_6D8E9B06_0B49D22A_4DBEB15A_C07C3DA0_A7C83AF6_1A3F4188,
      0x337902D5_B48417CA_EC5BF4AB_4ACD57E8_2BC26655_2C3CF4C0_11F843DF_AE108E77, 0x8B71E835_45FC2B58_72589F99_D948C031_08D36797_C4DE363E_BD3FF6A9_E1A95B10);
  }

  lemma Steps12()
    ensures Reaches(0xC994B697_68832BCB_FF5E9AB3_9AE8D1D3_763BBF1E_531BED98_FE51DE5E_E84F50FB,
                    0xB7C52588_D95C3B9A_A25B0403_F1EEF757_02E84BB7_597AABE6_63B82F6F_04EF2777,
                    0x3086D221A7D46BCDE86C90E49284EB16, -0xE4437ED6010E88286F547FA90ABFE4C2)
  {
    hide Reaches;
    Units();
    Steps11();
    Doubled(0x337902D5_B48417CA_EC5BF4AB_4ACD57E8_2BC26655_2C3CF4C0_11F843DF_AE108E77, 0x8B71E835_45FC2B58_72589F99_D948C031_08D36797_C4DE363E_BD3FF6A9_E1A95B10,
      0xC21B48869F51AF37A1B243924A13AC6, -0x3910DFB58043A20A1BD51FEA42AFF930, 0x00937CD9_35719305_DB7846D8_649E23D6_4016F596_9E7A178A_6DBA3CF1_5685D0EF,
      0xCE470FDA_E7F44B4F_DBEA3234_096E11D9_FFEBA7CE_5B95BCA7_0C9AC008_F465D96E, 0xE80C2522_898D8A22_2C4DC0B9_8DC9CE88_740FE252_5144656A_C30F978D_DBA83C1F);
    Added(0xCE470FDA_E7F44B4F_DBEA3234_096E11D9_FFEBA7CE_5B95BCA7_0C9AC008_F465D96E, 0xE80C2522_898D8A22_2C4DC0B9_8DC9CE88_740FE252_5144656A_C30F978D_DBA83C1F,
      0x18436910D3EA35E6F43648724942758C, -0x7221BF6B0087441437AA3FD4855FF260, 0xC994B697_68832BCB_FF5E9AB3_9AE8D1D3_763BBF1E_531BED98_FE51DE5E_E84F50FB, 0x483ADA77_26A3C465_5DA4FBFC_0E1108A8_FD17B448_A6855419_9C47D08F_FB10D4B8, -1, -1,
      0xD86838B0_B8262D28_74EBB62E_1EDC78E4_2A272B05_2EC63CAD_E52213E8_97A27FE0, 0xE484DB40_13E80E83_052B1267_603DEF81_4791291A_8A098469_934ED0BC_5F7E2739, 0x3F3979BF_72AE8202_983DC989_AEC7F2FF_2ED91BDD_69CE02FC_0700CA10_0E59DDF3);
    Doubled(0xE484DB40_13E80E83_052B1267_603DEF81_4791291A_8A098469_934ED0BC_5F7E2739, 0x3F3979BF_72AE8202_983DC989_AEC7F2FF_2ED91BDD_69CE02FC_0700CA10_0E59DDF3,
      0x18436910D3EA35E6F43648724942758B, -0x7221BF6B0087441437AA3FD4855FF261, 0x6973F004_EA0B5FEB_EA266925_70EC104D_04571BE6_2C5DCC81_D457D677_3959CFE6,
      0xC994B697_68832BCB_FF5E9AB3_9AE8D1D3_763BBF1E_531BED98_FE51DE5E_E84F50FB, 0xB7C52588_D95C3B9A_A25B0403_F1EEF757_02E84BB7_597AABE6_63B82F6F_04EF2777);
  }

  /** The multiples of lambda and 1 in the lattice (scalar_impl.h). */
  const A1: int := 0x3086D221A7D46BCDE86C90E49284EB15
  const B1: int := -0xE4437ED6010E88286F547FA90ABFE4C3

  lemma Relation()
    ensures LinearCombination(A1, G(), B1, ImageOfG()) == Infinity
  {
    Steps12();
    Units();
    hide AddPoints, LinearCombination;
    CombinationsAdd(0x3086D221A7D46BCDE86C90E49284EB16, -0xE4437ED6010E88286F547FA90ABFE4C2, -1, -1, G(), ImageOfG());
    NegatedCombination(1, 1, G(), ImageOfG());
    SumWithOpposite(LinearCombination(1, G(), 1, ImageOfG()));
  }
}
