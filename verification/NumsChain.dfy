/** No entry of the comb is infinite: no odd multiple of G below 16 is, up to a power of two, opposite to the first offset U,
    or to the last one. Both are followed back to S, of which U is the multiple by 2^255; from 2^63 S on, only abscissas are
    needed. */
module NumsChain {
  import opened NumberTheory
  import opened Params
  import opened FieldElement
  import opened Curve
  import opened Jacobian
  import opened GroupTables
  import opened Associativity
  import opened CurveGroup
  import opened GeneratorPoint
  import opened CyclicGroup
  import opened Wnaf
  import PointDecoding

  /** The first offset: the second generator plus the first one. */
  function FirstOffset(): CurvePoint {
    PointDecoding.NumsIsOnCurve();
    Sum(Affine(PointDecoding.NUMS_X, PointDecoding.NUMS_Y), G())
  }

  // ------------------------------------------------------------- the odd multiples of G

  const X3: int := 0xF9308A01_9258C310_49344F85_F89D5229_B531C845_836F99B0_8601F113_BCE036F9
  const X5: int := 0x2F8BDE4D_1A072093_55B4A725_0A5C5128_E88B84BD_DC619AB7_CBA8D569_B240EFE4
  const X7: int := 0x5CBDF064_6E5DB4EA_A398F365_F2EA7A0E_3D419B7E_0330E39C_E92BDDED_CAC4F9BC
  const X9: int := 0xACD484E2_F0C7F653_09AD178A_9F559ABD_E0979697_4C57E714_C35F110D_FC27CCBE
  const X11: int := 0x774AE7F8_58A9411E_5EF4246B_70C65AAC_5649980B_E5C17891_BBEC1789_5DA008CB
  const X13: int := 0xF28773C2_D975288B_C7D1D205_C3748651_B075FBC6_610E58CD_DEEDDF8F_19405AA8
  const X15: int := 0xD7924D4F_7D43EA96_5A465AE3_095FF411_31E5946F_3C85F79E_44ADBCF8_E27E080E

  /** None of the abscissas of G, 3 G, ..., 15 G. */
  predicate Avoids(x: int) {
    x != 0x79BE667E_F9DCBBAC_55A06295_CE870B07_029BFCDB_2DCE28D9_59F2815B_16F81798
    && x != 0xF9308A01_9258C310_49344F85_F89D5229_B531C845_836F99B0_8601F113_BCE036F9
    && x != 0x2F8BDE4D_1A072093_55B4A725_0A5C5128_E88B84BD_DC619AB7_CBA8D569_B240EFE4
    && x != 0x5CBDF064_6E5DB4EA_A398F365_F2EA7A0E_3D419B7E_0330E39C_E92BDDED_CAC4F9BC
    && x != 0xACD484E2_F0C7F653_09AD178A_9F559ABD_E0979697_4C57E714_C35F110D_FC27CCBE
    && x != 0x774AE7F8_58A9411E_5EF4246B_70C65AAC_5649980B_E5C17891_BBEC1789_5DA008CB
    && x != 0xF28773C2_D975288B_C7D1D205_C3748651_B075FBC6_610E58CD_DEEDDF8F_19405AA8
    && x != 0xD7924D4F_7D43EA96_5A465AE3_095FF411_31E5946F_3C85F79E_44ADBCF8_E27E080E
  }

  /** The point is finite and neither it nor its opposite is an odd multiple of G below 16. */
  ghost predicate Clear(p: Point) {
    p.Affine? && Avoids(p.x)
  }

  ghost predicate MultipleAt(m: int, x: int) {
    Multiple(m, G()).Affine? && Multiple(m, G()).x == x
  }

  lemma OddMultiples(m: int)
    requires 0 < m < 16 && m % 2 == 1
    ensures Multiple(m, G()).Affine? && !Avoids(Multiple(m, G()).x)
  {
    hide Multiple, G, OnCurve, MultipleAt;
    SmallOdds();
    var x := if m == 1 then GX else if m == 3 then X3 else if m == 5 then X5 else if m == 7 then X7 else if m == 9 then X9
             else if m == 11 then X11 else if m == 13 then X13 else X15;
    assert MultipleAt(m, x) && !Avoids(x);
    MultipleHas(m, x);
  }

  lemma MultipleHas(m: int, x: int)
    requires MultipleAt(m, x)
    ensures Multiple(m, G()).Affine? && Multiple(m, G()).x == x
  {
  }

  lemma ReachedMultiple(m: int, x: int, y: int)
    requires Reaches(x, y, m, 0)
    ensures MultipleAt(m, x)
  {
    hide LinearCombination, Multiple, G, ImageOfG, AddPoints;
    CombinationOfMultiples(m, G(), 0, ImageOfG());
    SmallMultiples(ImageOfG());
    SumWithInfinity(Multiple(m, G()));
  }

  lemma SmallOdds()
    ensures MultipleAt(1, GX) && MultipleAt(3, X3) && MultipleAt(5, X5) && MultipleAt(7, X7) && MultipleAt(9, X9) && MultipleAt(11, X11) && MultipleAt(13, X13) && MultipleAt(15, X15)
  {
    hide Reaches, MultipleAt;
    Units();
    ReachedMultiple(1, GX, GY);
    Doubled(0x79BE667E_F9DCBBAC_55A06295_CE870B07_029BFCDB_2DCE28D9_59F2815B_16F81798, 0x483ADA77_26A3C465_5DA4FBFC_0E1108A8_FD17B448_A6855419_9C47D08F_FB10D4B8, 1, 0, 0xCB35B284_28101A30_3EB9D123_5992AC63_F58857C2_F631EE69_36D3AEBB_EDDCD1B1,
      0xC6047F94_41ED7D6D_3045406E_95C07CD8_5C778E4B_8CEF3CA7_ABAC09B9_5C709EE5, 0x1AE168FE_A63DC339_A3C58419_466CEAEE_F7F63265_3266D0E1_236431A9_50CFE52A);
    Added(0x79BE667E_F9DCBBAC_55A06295_CE870B07_029BFCDB_2DCE28D9_59F2815B_16F81798, 0x483ADA77_26A3C465_5DA4FBFC_0E1108A8_FD17B448_A6855419_9C47D08F_FB10D4B8, 1, 0,
      0xC6047F94_41ED7D6D_3045406E_95C07CD8_5C778E4B_8CEF3CA7_ABAC09B9_5C709EE5, 0x1AE168FE_A63DC339_A3C58419_466CEAEE_F7F63265_3266D0E1_236431A9_50CFE52A, 2, 0,
      0x34211981_5C0F816F_31F431A9_FE98A6C7_6D11425E_CAEAECF2_D0EF6DEF_197C56B0, 0xF9308A01_9258C310_49344F85_F89D5229_B531C845_836F99B0_8601F113_BCE036F9, 0x388F7B0F_632DE814_0FE337E6_2A37F356_6500A999_34C2231B_6CB9FD75_84B8E672);
    ReachedMultiple(3, X3, 0x388F7B0F_632DE814_0FE337E6_2A37F356_6500A999_34C2231B_6CB9FD75_84B8E672);
    Added(0xF9308A01_9258C310_49344F85_F89D5229_B531C845_836F99B0_8601F113_BCE036F9, 0x388F7B0F_632DE814_0FE337E6_2A37F356_6500A999_34C2231B_6CB9FD75_84B8E672, 3, 0,
      0xC6047F94_41ED7D6D_3045406E_95C07CD8_5C778E4B_8CEF3CA7_ABAC09B9_5C709EE5, 0x1AE168FE_A63DC339_A3C58419_466CEAEE_F7F63265_3266D0E1_236431A9_50CFE52A, 2, 0,
      0xB96755A5_AA4A37E3_4D58D463_A547B56F_CF0CEEE6_5A200522_41A3425B_10FDC015, 0x2F8BDE4D_1A072093_55B4A725_0A5C5128_E88B84BD_DC619AB7_CBA8D569_B240EFE4, 0xD8AC2226_36E5E3D6_D4DBA9DD_A6C9C426_F788271B_AB0D6840_DCA87D3A_A6AC62D6);
    ReachedMultiple(5, X5, 0xD8AC2226_36E5E3D6_D4DBA9DD_A6C9C426_F788271B_AB0D6840_DCA87D3A_A6AC62D6);
    Added(0x2F8BDE4D_1A072093_55B4A725_0A5C5128_E88B84BD_DC619AB7_CBA8D569_B240EFE4, 0xD8AC2226_36E5E3D6_D4DBA9DD_A6C9C426_F788271B_AB0D6840_DCA87D3A_A6AC62D6, 5, 0,
      0xC6047F94_41ED7D6D_3045406E_95C07CD8_5C778E4B_8CEF3CA7_ABAC09B9_5C709EE5, 0x1AE168FE_A63DC339_A3C58419_466CEAEE_F7F63265_3266D0E1_236431A9_50CFE52A, 2, 0,
      0x034B624A_49FA5ACA_121C4301_A49339F7_4E51B7A5_80650E8E_53EFCABD_644B87C4, 0x5CBDF064_6E5DB4EA_A398F365_F2EA7A0E_3D419B7E_0330E39C_E92BDDED_CAC4F9BC, 0x6AEBCA40_BA255960_A3178D6D_861A54DB_A813D0B8_13FDE7B5_A5082628_087264DA);
    ReachedMultiple(7, X7, 0x6AEBCA40_BA255960_A3178D6D_861A54DB_A813D0B8_13FDE7B5_A5082628_087264DA);
    Added(0x5CBDF064_6E5DB4EA_A398F365_F2EA7A0E_3D419B7E_0330E39C_E92BDDED_CAC4F9BC, 0x6AEBCA40_BA255960_A3178D6D_861A54DB_A813D0B8_13FDE7B5_A5082628_087264DA, 7, 0,
      0xC6047F94_41ED7D6D_3045406E_95C07CD8_5C778E4B_8CEF3CA7_ABAC09B9_5C709EE5, 0x1AE168FE_A63DC339_A3C58419_466CEAEE_F7F63265_3266D0E1_236431A9_50CFE52A, 2, 0,
      0xCBE159DA_F398EE5F_B621F8A9_16221C8C_E6BDCD3E_2295D44D_29EC8A87_924B2B63, 0xACD484E2_F0C7F653_09AD178A_9F559ABD_E0979697_4C57E714_C35F110D_FC27CCBE, 0xCC338921_B0A7D9FD_64380971_763B61E9_ADD888A4_375F8E0F_05CC262A_C64F9C37);
    ReachedMultiple(9, X9, 0xCC338921_B0A7D9FD_64380971_763B61E9_ADD888A4_375F8E0F_05CC262A_C64F9C37);
    Added(0xACD484E2_F0C7F653_09AD178A_9F559ABD_E0979697_4C57E714_C35F110D_FC27CCBE, 0xCC338921_B0A7D9FD_64380971_763B61E9_ADD888A4_375F8E0F_05CC262A_C64F9C37, 9, 0,
      0xC6047F94_41ED7D6D_3045406E_95C07CD8_5C778E4B_8CEF3CA7_ABAC09B9_5C709EE5, 0x1AE168FE_A63DC339_A3C58419_466CEAEE_F7F63265_3266D0E1_236431A9_50CFE52A, 2, 0,
      0x53FACBED_580953C9_D1732DA8_795D9DB5_AD651182_FF845923_BF0ED9EF_AF075C88, 0x774AE7F8_58A9411E_5EF4246B_70C65AAC_5649980B_E5C17891_BBEC1789_5DA008CB, 0xD984A032_EB6B5E19_0243DD56_D7B7B365_372DB1E2_DFF9D6A8_301D74C9_C953C61B);
    ReachedMultiple(11, X11, 0xD984A032_EB6B5E19_0243DD56_D7B7B365_372DB1E2_DFF9D6A8_301D74C9_C953C61B);
    Added(0x774AE7F8_58A9411E_5EF4246B_70C65AAC_5649980B_E5C17891_BBEC1789_5DA008CB, 0xD984A032_EB6B5E19_0243DD56_D7B7B365_372DB1E2_DFF9D6A8_301D74C9_C953C61B, 11, 0,
      0xC6047F94_41ED7D6D_3045406E_95C07CD8_5C778E4B_8CEF3CA7_ABAC09B9_5C709EE5, 0x1AE168FE_A63DC339_A3C58419_466CEAEE_F7F63265_3266D0E1_236431A9_50CFE52A, 2, 0,
      0x59A55553_9AA1E85F_024B89E7_B3299ADC_3DC9D564_59D9C4F7_1711ED3C_F915F3AD, 0xF28773C2_D975288B_C7D1D205_C3748651_B075FBC6_610E58CD_DEEDDF8F_19405AA8, 0x0AB0902E_8D880A89_758212EB_65CDAF47_3A1A06DA_521FA91F_29B5CB52_DB03ED81);
    ReachedMultiple(13, X13, 0x0AB0902E_8D880A89_758212EB_65CDAF47_3A1A06DA_521FA91F_29B5CB52_DB03ED81);
    Added(0xF28773C2_D975288B_C7D1D205_C3748651_B075FBC6_610E58CD_DEEDDF8F_19405AA8, 0x0AB0902E_8D880A89_758212EB_65CDAF47_3A1A06DA_521FA91F_29B5CB52_DB03ED81, 13, 0,
      0xC6047F94_41ED7D6D_3045406E_95C07CD8_5C778E4B_8CEF3CA7_ABAC09B9_5C709EE5, 0x1AE168FE_A63DC339_A3C58419_466CEAEE_F7F63265_3266D0E1_236431A9_50CFE52A, 2, 0,
      0x37757E9A_D5F9B72E_CC0A6429_2BB6A159_16D5C53C_CA0ADC06_7D420985_FBB3CF81, 0xD7924D4F_7D43EA96_5A465AE3_095FF411_31E5946F_3C85F79E_44ADBCF8_E27E080E, 0x581E2872_A86C72A6_83842EC2_28CC6DEF_EA40AF2B_D896D3A5_C504DC9F_F6A26B58);
    ReachedMultiple(15, X15, 0x581E2872_A86C72A6_83842EC2_28CC6DEF_EA40AF2B_D896D3A5_C504DC9F_F6A26B58);
  }

  // ------------------------------------------------------------- doublings

  /** b doubled k times. */
  function Doubling(b: CurvePoint, k: nat): CurvePoint {
    if k == 0 then b else Sum(Doubling(b, k - 1), Doubling(b, k - 1))
  }

  lemma {:induction false} DoublingIsMultiple(b: CurvePoint, k: nat)
    ensures Doubling(b, k) == Multiple(Two(k), b)
  {
    if k == 0 {
      TwoIsOne();
      SmallMultiples(b);
    } else {
      hide Two, Multiple, AddPoints;
      DoublingIsMultiple(b, k - 1);
      TwoStep(k - 1);
      SecpAdd(Doubling(b, k - 1), Doubling(b, k - 1));
      MultiplePlus(Two(k - 1), Two(k - 1), b);
    }
  }

  lemma TwoIsOne()
    ensures Two(0) == 1
  {
  }

  ghost predicate PointAt(b: CurvePoint, k: nat, x: int, y: int) {
    Doubling(b, k) == Affine(x, y)
  }

  ghost predicate Abscissa(b: CurvePoint, k: nat, x: int) {
    Doubling(b, k).Affine? && Doubling(b, k).x == x
  }

  ghost predicate AllClear(b: CurvePoint, from: nat, to: nat) {
    forall j: nat :: from <= j <= to ==> Clear(Doubling(b, j))
  }

  lemma DoubledAt(b: CurvePoint, k: nat)
    ensures Doubling(b, k + 1) == AddPoints(Doubling(b, k), Doubling(b, k))
  {
  }

  lemma Next(b: CurvePoint, k: nat, x: int, y: int, l: int, x2: int, y2: int)
    requires PointAt(b, k, x, y) && Leads(l, x, y, x, y, x2, y2)
    ensures PointAt(b, k + 1, x2, y2)
  {
    hide Doubling, AddPoints, Leads;
    DoubledAt(b, k);
    LeadsToSum(l, Doubling(b, k), Doubling(b, k), x2, y2);
  }

  /** The abscissa of a double, without the ordinate. */
  lemma DoubledAbscissa(p: CurvePoint, x2: int)
    requires p.Affine? && DoublesTo(p.x, x2)
    ensures AddPoints(p, p).Affine? && AddPoints(p, p).x == x2
  {
    hide AddPoints, Zero, Res, Mul, Cubic, OnCurve, DoublesTo;
    OrdinateIsNonzero(p);
    DoubleIsFinite(p);
    var r := AddPoints(p, p);
    var s, m := SumGivesLine(p, p);
    SumInRange(p, p);
    CurvePointInRange(r, 7); CurvePointInRange(p, 7);
    TangentOfCubic(s, m, p.x, r.x);
    LineOf(s, m, p, p, Negate(r));
    CurveEquation(p, 7);
    DoublesToIsZero(p.x, x2);
    EquationIsZero(p.x, p.y);
    TwiceIsZero(p.y);
    NotZero(2 * p.y);
    AbscissaOfTangent(s, m, p.x, p.y, r.x, x2);
    ZeroDifference(r.x, x2);
  }

  lemma DoublesToIsZero(x: int, x2: int)
    requires DoublesTo(x, x2) && IsResidue(x)
    ensures IsResidue(x2) && Zero(4 * x2 * (x * x * x + 7) - x * (x * x * x - 56))
  {
    hide Res;
    assert DoublesTo(x, x2) == DoublesToAgain(x, x2) == DoublesToStep(x, x2);
    ResidueInRange(x); ResidueInRange(x2);
    var e := 4 * x2 * (x * x * x + 7) - x * (x * x * x - 56);
    ResIsMod(e); ResOfSmall(0);
    ZeroIntro(e);
  }

  lemma EquationIsZero(x: int, y: int)
    requires Res(y * y) == Res(x * x * x + 7)
    ensures Zero(y * y - x * x * x - 7)
  {
    hide Res;
    Replace(y * y, x * x * x + 7, x * x * x + 7);
    ResOfSmall(0);
    assert y * y - x * x * x - 7 == y * y - (x * x * x + 7);
  }

  lemma DoubleIsFinite(p: CurvePoint)
    requires p.Affine? && p.y != 0
    ensures AddPoints(p, p).Affine?
  {
  }

  lemma AbscissaOfTangent(s: int, m: int, x: int, y: int, r: int, x2: int)
    requires Cubic(s, m, x, x, r) && Zero(2 * s * (s * x + m) - 3 * x * x) && Zero(s * x + m - y)
    requires Zero(y * y - x * x * x - 7) && !Zero(2 * y)
    requires Zero(4 * x2 * (x * x * x + 7) - x * (x * x * x - 56))
    ensures Zero(r - x2)
  {
    hide Zero, Cubic, Mul;
    CubicForm(s, m, x, x, r);
    var t, e, q := 2 * s * y - 3 * x * x, s * s - x - x - r, y * y - x * x * x - 7;
    TangentAt(s, m, x, y);
    var f := 4 * x2 * (x * x * x + 7) - x * (x * x * x - 56);
    var h := (8 * x + 4 * x2) * q + f;
    Combine2(h, 8 * x + 4 * x2, q, 1, f);
    TangentSquare(s, x, y, r, x2);
    var u := 2 * s * y + 3 * x * x;
    SquareTimes(y, r - x2);
    Combine3(4 * (y * y) * (r - x2), u, t, -4 * (y * y), e, -1, h);
    ZeroProduct(2 * y, (2 * y) * (r - x2));
    ZeroProduct(2 * y, r - x2);
  }

  lemma TangentAt(s: int, m: int, x: int, y: int)
    requires Zero(2 * s * (s * x + m) - 3 * x * x) && Zero(s * x + m - y)
    ensures Zero(2 * s * y - 3 * x * x)
  {
    hide Zero;
    var w := s * x + m;
    assert 2 * s * y - 3 * x * x == 1 * (2 * s * w - 3 * x * x) + -2 * s * (w - y);
    Combine2(2 * s * y - 3 * x * x, 1, 2 * s * w - 3 * x * x, -2 * s, w - y);
  }

  lemma SquareTimes(y: int, d: int)
    ensures 4 * (y * y) * d == (2 * y) * ((2 * y) * d)
  {
  }

  lemma TangentSquare(s: int, x: int, y: int, r: int, x2: int)
    ensures 4 * (y * y) * (r - x2)
         == (2 * s * y + 3 * x * x) * (2 * s * y - 3 * x * x) + -4 * (y * y) * (s * s - x - x - r)
          + -1 * ((8 * x + 4 * x2) * (y * y - x * x * x - 7) + (4 * x2 * (x * x * x + 7) - x * (x * x * x - 56)))
  {
    DifferenceOfSquares(2 * s * y, 3 * x * x);
    SquareOfDouble(s, y);
    SquareOfTriple(x);
    SquareTerms(y * y, s * s, x, r, x2, x * x * x);
  }

  lemma SquareOfDouble(s: int, y: int)
    ensures (2 * s * y) * (2 * s * y) == 4 * ((y * y) * (s * s))
  {
  }

  lemma SquareOfTriple(x: int)
    ensures (3 * x * x) * (3 * x * x) == 9 * (x * (x * x * x))
  {
  }

  lemma DifferenceOfSquares(a: int, b: int)
    ensures (a + b) * (a - b) == a * a - b * b
  {
  }

  lemma SquareTerms(z: int, t: int, x: int, r: int, x2: int, c: int)
    ensures 4 * z * (r - x2)
         == 4 * (z * t) - 9 * (x * c) + -4 * z * (t - x - x - r)
          + -1 * ((8 * x + 4 * x2) * (z - c - 7) + (4 * x2 * (c + 7) - x * (c - 56)))
  {
  }

  /** What the abscissas of a point and its double have to do with each other; defined like Leads. */
  ghost predicate DoublesTo(x: int, x2: int)
    decreases Distance(x), 2
  {
    DoublesToAgain(x, x2)
  }

  ghost predicate DoublesToAgain(x: int, x2: int)
    decreases Distance(x), 1
  {
    DoublesToStep(x, x2)
  }

  ghost predicate DoublesToStep(x: int, x2: int)
    decreases Distance(x), 0
  {
    if x < 0 then DoublesTo(x + P, x2)
    else 0 <= x2 < P && (4 * x2 * (x * x * x + 7) - x * (x * x * x - 56)) % P == 0
  }

  /** One step of the chain: the next point is clear as well. */
  lemma NextAbscissa(b: CurvePoint, from: nat, k: nat, x: int, x2: int)
    requires Abscissa(b, k, x) && AllClear(b, from, k) && DoublesTo(x, x2) && Avoids(x2)
    ensures Abscissa(b, k + 1, x2) && AllClear(b, from, k + 1)
  {
    hide Doubling, AddPoints, Avoids, DoublesTo, OnCurve;
    DoubledAt(b, k);
    DoubledAbscissa(Doubling(b, k), x2);
  }

  lemma FirstAbscissa(b: CurvePoint, k: nat, x: int, y: int)
    requires PointAt(b, k, x, y) && Avoids(x)
    ensures Abscissa(b, k, x) && AllClear(b, k, k)
  {
    hide Doubling, Avoids;
  }

  // ------------------------------------------------------------- the chain of S

  const SX: int := 0x6CF1B9D4_00C3F20C_1598DCAD_0D149895_65647635_F83C539F_9111EA40_76A9AAFB
  const SY: int := 0xFC272563_50B77EDA_1FA372F9_C0BF737F_AC8CE5A8_EA079EF0_CFF0AD52_4B5F58B5

  lemma SOnCurve()
    ensures OnCurve(Affine(SX, SY), 7)
  {
    hide Res, Mul;
    var x2, x3 := 0x22334598_DC308CE2_B5A07794_069D5A20_42465C67_6E144B68_B30621B5_59096CF7,
                  0x66A7E262_16E37DBF_F048020C_6520F158_D854D950_C9D76137_AA2DC417_4A9E7AB5;
    MulIsProduct(SX, SX); MulIsProduct(x2, SX); MulIsProduct(SY, SY);
    ResIsMod(SX * SX); ResIsMod(x2 * SX); ResIsMod(SY * SY);
    ResOfSmall(x3 + 7); ResOfSmall(SX); ResOfSmall(SY);
    assert MulP(SX, SX) == x2;
    assert MulP(x2, SX) == x3;
  }

  function S(): CurvePoint {
    SOnCurve();
    Affine(SX, SY)
  }

  lemma Points0()
    ensures PointAtS(9, 0x610224DB_B78A65B4_762B5BF7_FAF61049_DDA82CE3_8B545D5E_02347AFC_AA52624A,
                0xA9E3CDC6_4BC0F788_A62D9AD5_7E6149C5_FF45B0A5_AA12A13D_F82928BA_37AA3DD2)
  {
    hide PointAtS;
    StartOfChain();
    NextS(0, 0x6CF1B9D4_00C3F20C_1598DCAD_0D149895_65647635_F83C539F_9111EA40_76A9AAFB, 0xFC272563_50B77EDA_1FA372F9_C0BF737F_AC8CE5A8_EA079EF0_CFF0AD52_4B5F58B5,
      0x738BF379_B992A250_F3E77935_73E58B4C_AB66042B_AA91E9C4_2930C7A7_C4700C35, 0x597E7DE4_DA830A09_1E8D2924_DA5B6818_E93FE792_25683CC6_8C1120CE_BAF945DE, 0xAF744020_BD69466C_8190948D_D0847230_61189D92_D0BBCB56_4F6039AE_BD32889B);
    NextS(1, 0x597E7DE4_DA830A09_1E8D2924_DA5B6818_E93FE792_25683CC6_8C1120CE_BAF945DE, 0xAF744020_BD69466C_8190948D_D0847230_61189D92_D0BBCB56_4F6039AE_BD32889B,
      0x873A551D_1D69687D_BEE113CB_FF2F7A75_D0D6CC74_34F6A34D_1D2785DF_326415A2, 0xCCD23738_FA4DC1A1_4F7169BF_AF0BFCEE_7BBF3462_C4102807_0827E040_96708CC6, 0x827BF8E7_895BA2B7_0FFA4337_430179A2_04E38B2F_B671E9CB_F96A31FB_7A1936C7);
    NextS(2, 0xCCD23738_FA4DC1A1_4F7169BF_AF0BFCEE_7BBF3462_C4102807_0827E040_96708CC6, 0x827BF8E7_895BA2B7_0FFA4337_430179A2_04E38B2F_B671E9CB_F96A31FB_7A1936C7,
      0xF17A006C_F8EBCEF5_BCC00916_A7665E91_7DB6BB96_10344015_322BBCE1_67059721, 0x1C966971_C0683639_57833D0E_3D94F3B3_062F294F_A22E27AF_65BC2442_3959F946, 0x02549C46_A8194511_666DAC7F_B516A170_AB2019BE_E3B55C2D_899794B5_9E442E59);
    NextS(3, 0x1C966971_C0683639_57833D0E_3D94F3B3_062F294F_A22E27AF_65BC2442_3959F946, 0x02549C46_A8194511_666DAC7F_B516A170_AB2019BE_E3B55C2D_899794B5_9E442E59,
      0x5D44CAE0_61D2F150_67268FF0_308AC273_F9A900E7_AF95D435_3381119D_CD7A18FA, 0x70E96948_5CC63D6D_F2AF7500_1DAAA994_5D9DFAC8_7E956714_3167CDE0_700278AA, 0xC5701900_E11277E1_A161ED6C_7C25D2DC_B055C544_DF08E3CC_7137B61B_8294DC95);
    NextS(4, 0x70E96948_5CC63D6D_F2AF7500_1DAAA994_5D9DFAC8_7E956714_3167CDE0_700278AA, 0xC5701900_E11277E1_A161ED6C_7C25D2DC_B055C544_DF08E3CC_7137B61B_8294DC95,
      0xA8E70D52_B0CF107A_6DF7C7A0_4AD2C606_1831D97D_DB7BED5A_0CF831E1_46295863, 0xF1BC1495_8D63700E_1A44D237_0F9D6DF7_8F7F36AA_B35877A0_E5E2E0EB_58768E34, 0x0EB6AC63_BFC4C2E7_809AC49D_3EAB50F6_2341AD8A_5E2FAE75_DD5C1EEA_28D7D293);
    NextS(5, 0xF1BC1495_8D63700E_1A44D237_0F9D6DF7_8F7F36AA_B35877A0_E5E2E0EB_58768E34, 0x0EB6AC63_BFC4C2E7_809AC49D_3EAB50F6_2341AD8A_5E2FAE75_DD5C1EEA_28D7D293,
      0x4BE4A395_483686F1_D90A00D1_8F7F0BBE_997AD067_8903400C_55012DC9_77A48E9C, 0x38C4F692_B4C6CEFA_D9B43D28_38913BBF_C3655D79_7971DBDF_ED4C8CA3_7B70C9B8, 0x9D5AE758_9385F42E_8D6D4BDF_E06607BC_F5224468_658EB719_C02322F1_A37F949D);
    NextS(6, 0x38C4F692_B4C6CEFA_D9B43D28_38913BBF_C3655D79_7971DBDF_ED4C8CA3_7B70C9B8, 0x9D5AE758_9385F42E_8D6D4BDF_E06607BC_F5224468_658EB719_C02322F1_A37F949D,
      0x1620272B_8CC24F0B_52B568EA_7A61A9DB_0BDA2A15_47102357_F0958C99_1F1154D6, 0x3E9BC50A_7F0E4A42_313265AB_5D41B91C_15BEB034_23FF8FA4_0F50FA10_958E2F0A, 0xC45A6408_7FF7A4FC_AC887EC4_7970EB04_45314B09_4736E173_619EEB42_B453BBEC);
    NextS(7, 0x3E9BC50A_7F0E4A42_313265AB_5D41B91C_15BEB034_23FF8FA4_0F50FA10_958E2F0A, 0xC45A6408_7FF7A4FC_AC887EC4_7970EB04_45314B09_4736E173_619EEB42_B453BBEC,
      0x0B7CF17A_4DB8EBAB_CCA54C6B_4983A610_016B5DFC_B6B1717C_F28832DE_1F15DBE4, 0x3FEC1E89_B95E83F8_8814A325_5EA43FC0_6D9E184B_48B981EA_67D4F44F_E2A5FB66, 0x7C5D06BF_F275FA1A_0B4315B1_C490AD81_9540D222_C7712CBC_6476BE2B_7AF45DD7);
    NextS(8, 0x3FEC1E89_B95E83F8_8814A325_5EA43FC0_6D9E184B_48B981EA_67D4F44F_E2A5FB66, 0x7C5D06BF_F275FA1A_0B4315B1_C490AD81_9540D222_C7712CBC_6476BE2B_7AF45DD7,
      0x096BB0F9_86735F97_F556BB43_E96EBDFB_A45CC175_FB70C245_76AAF5D9_65AEC1EB, 0x610224DB_B78A65B4_762B5BF7_FAF61049_DDA82CE3_8B545D5E_02347AFC_AA52624A, 0xA9E3CDC6_4BC0F788_A62D9AD5_7E6149C5_FF45B0A5_AA12A13D_F82928BA_37AA3DD2);
  }

  lemma Points1()
    ensures PointAtS(18, 0xFB642CCD_70DD4723_16628A2A_FF5A78B2_B7EED5A6_C925B2DF_3392F664_533A60FD,
                0x484DA313_7863CA35_578071ED_83FEE037_2EF9646D_13770366_EB64FD40_642504DE)
  {
    hide PointAtS;
    Points0();
    NextS(9, 0x610224DB_B78A65B4_762B5BF7_FAF61049_DDA82CE3_8B545D5E_02347AFC_AA52624A, 0xA9E3CDC6_4BC0F788_A62D9AD5_7E6149C5_FF45B0A5_AA12A13D_F82928BA_37AA3DD2,
      0x78ABFB10_F51DF4BA_97025C82_A3950099_58894641_0E8CBECF_81BBBBE2_451F6815, 0xE3E7985B_3CE53FE5_4CDC1CFC_29E921DE_709DAA42_DA374CA9_8CD9960F_96D1C1C2, 0xFA587BB0_72FB50F8_0F0C9123_8DB15853_FCF8EF2F_C1F0765E_7339D74E_B1956DD9);
    NextS(10, 0xE3E7985B_3CE53FE5_4CDC1CFC_29E921DE_709DAA42_DA374CA9_8CD9960F_96D1C1C2, 0xFA587BB0_72FB50F8_0F0C9123_8DB15853_FCF8EF2F_C1F0765E_7339D74E_B1956DD9,
      0x7AAEDD89_7FCF25C1_A60E7973_2EDD5B1A_A339F8F1_C8B5C0FD_F113EFE2_B8F18AF0, 0x60ABA43A_615D1AE9_E436F132_D38BEB1D_33BA4644_54CCFB7D_9252DE53_78FD5D6A, 0x49453690_BB0908AC_B5692044_92F48F41_495B259E_AA329770_9D501381_4548D133);
    NextS(11, 0x60ABA43A_615D1AE9_E436F132_D38BEB1D_33BA4644_54CCFB7D_9252DE53_78FD5D6A, 0x49453690_BB0908AC_B5692044_92F48F41_495B259E_AA329770_9D501381_4548D133,
      0x0D2681E0_A45BCA04_14D6426E_9A301C5B_B03E9D66_EC1A9A6F_5BC8341A_00E279F6, 0x263FDC9A_F8B2CC69_BF94C93C_948F32C3_0BC08BC1_90B8F4FA_FDCBB7FF_679C72B7, 0xBA53EF39_1B6FEC89_0B945541_AE761226_7CDCFAC2_AD2EF465_D3263E99_912FCA7F);
    NextS(12, 0x263FDC9A_F8B2CC69_BF94C93C_948F32C3_0BC08BC1_90B8F4FA_FDCBB7FF_679C72B7, 0xBA53EF39_1B6FEC89_0B945541_AE761226_7CDCFAC2_AD2EF465_D3263E99_912FCA7F,
      0xA883F875_E0CFF4ED_CB176EB1_BA126A7C_A5A74B33_6669BF2C_024094FC_256EFAE1, 0x1CE31AE6_E0202991_87D2FAEE_D40E79E1_A2BDCD48_7A17CA04_2885AE55_A6853A9F, 0x0A29A02A_ABB41501_6E2E5A6A_8E379D5E_8BE18BE9_570F3599_ACF2CE7A_4B65A28A);
    NextS(13, 0x1CE31AE6_E0202991_87D2FAEE_D40E79E1_A2BDCD48_7A17CA04_2885AE55_A6853A9F, 0x0A29A02A_ABB41501_6E2E5A6A_8E379D5E_8BE18BE9_570F3599_ACF2CE7A_4B65A28A,
      0xF01AAF02_4C60B06B_563FE8EA_68946486_D764C39E_D2884F5A_701CB766_65ABD71F, 0x590F7A6E_2E8D42DB_A9852F88_335FD076_2E83D3F2_F8B1A2F9_A311FF67_55B5AADE, 0x16F836F2_A765EC7D_6B1D478B_CD6C3561_11BBF53B_7F82A91E_56AE21D5_51D1BA31);
    NextS(14, 0x590F7A6E_2E8D42DB_A9852F88_335FD076_2E83D3F2_F8B1A2F9_A311FF67_55B5AADE, 0x16F836F2_A765EC7D_6B1D478B_CD6C3561_11BBF53B_7F82A91E_56AE21D5_51D1BA31,
      0x4BEE387F_74F123DF_0E9DA005_7206DFF2_38DA1D80_8AD90C05_480C7497_0C5A3D15, 0x6F929510_859782C3_9E17C19A_C9F12351_F73AD1C5_C24ED101_57A30771_A14C8540, 0xB2D7F4C7_4ABA4EC6_E26AA290_E542A35E_E07D1C43_255CA782_3961352F_927A1649);
    NextS(15, 0x6F929510_859782C3_9E17C19A_C9F12351_F73AD1C5_C24ED101_57A30771_A14C8540, 0xB2D7F4C7_4ABA4EC6_E26AA290_E542A35E_E07D1C43_255CA782_3961352F_927A1649,
      0x9321DE88_F91E6DB9_98DF15C2_3CD1E095_A8715BD4_A183F05D_1F57302E_5D314543, 0xDF23F2C2_32263CF0_0422530E_AD0DB226_D3CF00F3_C8D4E86D_74ACD837_CE73AEB2, 0x2C4E3114_8425C87C_F86CDA61_672BBAAE_A9CD9B60_D2A8C145_81FD4EED_F428D470);
    NextS(16, 0xDF23F2C2_32263CF0_0422530E_AD0DB226_D3CF00F3_C8D4E86D_74ACD837_CE73AEB2, 0x2C4E3114_8425C87C_F86CDA61_672BBAAE_A9CD9B60_D2A8C145_81FD4EED_F428D470,
      0x0984EA33_EDF5D4FC_941D0FA1_CD89EED6_DDB9ABA4_450D90E4_4FD6A1D5_8C9C5E68, 0xBC04DAE9_994BBDCB_12D0C206_091751C1_47DCC520_EA55DFC4_D9B253E6_A3F7847A, 0x064ABCC9_E9536BA1_73279BC8_9B4D392D_48DFF731_DDB19841_11F308FF_BD494A4B);
    NextS(17, 0xBC04DAE9_994BBDCB_12D0C206_091751C1_47DCC520_EA55DFC4_D9B253E6_A3F7847A, 0x064ABCC9_E9536BA1_73279BC8_9B4D392D_48DFF731_DDB19841_11F308FF_BD494A4B,
      0x40F3D687_100EFBD7_7F34532F_4883C991_943A2B9F_5DC99C78_54047D2D_8C6D4A7D, 0xFB642CCD_70DD4723_16628A2A_FF5A78B2_B7EED5A6_C925B2DF_3392F664_533A60FD, 0x484DA313_7863CA35_578071ED_83FEE037_2EF9646D_13770366_EB64FD40_642504DE);
  }

  lemma Points2()
    ensures PointAtS(27, 0x131F5684_E85B1BD5_F001B3A9_3CEBE9C5_03303571_18FB0A68_EC0094C8_BF1DAFB0,
                0x30BBFA70_F45D6E18_861A7B05_30699B9B_6B3052D3_EC47A1B2_911D9090_123C01C7)
  {
    hide PointAtS;
    Points1();
    NextS(18, 0xFB642CCD_70DD4723_16628A2A_FF5A78B2_B7EED5A6_C925B2DF_3392F664_533A60FD, 0x484DA313_7863CA35_578071ED_83FEE037_2EF9646D_13770366_EB64FD40_642504DE,
      0x3DB75529_DB77F6FE_F156D821_C339FDF1_B28AC503_6954CF7D_680C8C6C_CF518862, 0xD705F27F_16145F63_69C5DE8A_97B1E1F2_D9B272CF_A4062AB7_0BF6EDD2_8EE89B13, 0x9A5D3D91_AA58F07B_8E81EFD3_EE386D14_3AF45986_321795DA_1ECD48E8_95CF4005);
    NextS(19, 0xD705F27F_16145F63_69C5DE8A_97B1E1F2_D9B272CF_A4062AB7_0BF6EDD2_8EE89B13, 0x9A5D3D91_AA58F07B_8E81EFD3_EE386D14_3AF45986_321795DA_1ECD48E8_95CF4005,
      0xBD2E70C9_647F4F33_99B807C0_0807CD5A_46658E86_326E6F5A_B69C6E92_212D4E72, 0xFE40E6AD_9777D2D5_1AA42524_DE74BFBF_A00B35D0_EF36466D_4F43A728_6681DBF7, 0x92AF944D_3CA95645_1031454F_7F2EBD9D_B663B32D_3A817463_8CF8647F_36359E3F);
    NextS(20, 0xFE40E6AD_9777D2D5_1AA42524_DE74BFBF_A00B35D0_EF36466D_4F43A728_6681DBF7, 0x92AF944D_3CA95645_1031454F_7F2EBD9D_B663B32D_3A817463_8CF8647F_36359E3F,
      0xE4057D83_52D2D420_7CD62C18_CC8794D3_021DB9D2_2CA9C2B5_3FD4A86A_CA26CD9A, 0xDCBEE0D6_7466A7C2_68A66744_228756CA_39495275_628ACED7_33775140_471F7A82, 0x032DFEE9_9DFF036C_2217F030_8F8EE629_8C254F0D_3FF6BEAC_D1E4AAA2_836E9815);
    NextS(21, 0xDCBEE0D6_7466A7C2_68A66744_228756CA_39495275_628ACED7_33775140_471F7A82, 0x032DFEE9_9DFF036C_2217F030_8F8EE629_8C254F0D_3FF6BEAC_D1E4AAA2_836E9815,
      0xBEC46091_CDD5B7E4_BA0E53A9_43163975_0454196D_474E8E56_F97DED38_66518A5E, 0x406E2814_477E471B_212EE347_A3BB2296_40B5D223_BB48D1A6_460D695C_FBDB9D52, 0x9EC5752A_461D2007_FDD9234B_B1852C7B_B7A166B8_B268A921_3C705ACF_921A5EE7);
    NextS(22, 0x406E2814_477E471B_212EE347_A3BB2296_40B5D223_BB48D1A6_460D695C_FBDB9D52, 0x9EC5752A_461D2007_FDD9234B_B1852C7B_B7A166B8_B268A921_3C705ACF_921A5EE7,
      0xEDE5AE4A_B6837DF1_01B0C46C_4E82F190_8EC0EBC0_2BAD339B_8686E0A2_F249D838, 0x50F36BF0_41CBEDD6_782CCE93_01A3EC86_91D758E6_5759FF36_7F09E625_28C09FBD, 0x720A1F27_2C1A2575_183125FB_570D066F_EDDBB41D_5E8EA2E7_61A0B48F_3D4E1F96);
    NextS(23, 0x50F36BF0_41CBEDD6_782CCE93_01A3EC86_91D758E6_5759FF36_7F09E625_28C09FBD, 0x720A1F27_2C1A2575_183125FB_570D066F_EDDBB41D_5E8EA2E7_61A0B48F_3D4E1F96,
      0x12F6013E_3A202873_E4A6C9E3_E7A9E771_8D0A8AE3_B2E28195_B97E585B_86BFCF85, 0xB009AFBB_9A9B0000_0892D370_675F0268_E1B76513_45D83EFF_469809B5_8C862469, 0x512260EB_30007CBE_D5735452_1D9FBF21_15447BC2_011F4C07_45094932_E115543D);
    NextS(24, 0xB009AFBB_9A9B0000_0892D370_675F0268_E1B76513_45D83EFF_469809B5_8C862469, 0x512260EB_30007CBE_D5735452_1D9FBF21_15447BC2_011F4C07_45094932_E115543D,
      0xDB1D953B_56B98976_B3EF6155_95923478_106ADCF8_C311915D_3C4B80D4_7306AC66, 0xD55F744E_9B815795_54046E4D_5BDD2A4E_A8494F5E_99B91DAA_5869493D_1CA86775, 0x86B43E8E_2CB58F19_BAAFD244_BD790367_4CD72D79_9B2538B6_821B72F6_CBAF10D9);
    NextS(25, 0xD55F744E_9B815795_54046E4D_5BDD2A4E_A8494F5E_99B91DAA_5869493D_1CA86775, 0x86B43E8E_2CB58F19_BAAFD244_BD790367_4CD72D79_9B2538B6_821B72F6_CBAF10D9,
      0xD5C51ABA_67A6D360_B0970731_0A11F36C_EFDA8B83_4C649B89_23135FA8_7C185EBA, 0x1BE2452B_288F21CA_1589E9D9_B2FBF44C_0932660A_F29DD960_6BA20CDB_524C59EE, 0x7974B7B1_764764A4_E4778B35_6CBDE417_22BAECE2_1715974A_2019804C_CB08D6B5);
    NextS(26, 0x1BE2452B_288F21CA_1589E9D9_B2FBF44C_0932660A_F29DD960_6BA20CDB_524C59EE, 0x7974B7B1_764764A4_E4778B35_6CBDE417_22BAECE2_1715974A_2019804C_CB08D6B5,
      0x0CC3995D_088A1BB2_59E5EC2F_D86E6CC2_72D55B05_DB46C9BE_1F1E26B6_5AAD7AB2, 0x131F5684_E85B1BD5_F001B3A9_3CEBE9C5_03303571_18FB0A68_EC0094C8_BF1DAFB0, 0x30BBFA70_F45D6E18_861A7B05_30699B9B_6B3052D3_EC47A1B2_911D9090_123C01C7);
  }

  lemma Points3()
    ensures PointAtS(36, 0x86E9C730_0BC547BA_289DA655_2D63F266_CD9438EF_63079F57_BFE14389_7CE8624F,
                0xF84B4E3A_76F81970_55E9BCC4_FC896474_4FAEADCE_C3ADAB82_839F8CCB_2AEC05D8)
  {
    hide PointAtS;
    Points2();
    NextS(27, 0x131F5684_E85B1BD5_F001B3A9_3CEBE9C5_03303571_18FB0A68_EC0094C8_BF1DAFB0, 0x30BBFA70_F45D6E18_861A7B05_30699B9B_6B3052D3_EC47A1B2_911D9090_123C01C7,
      0x4630D9C6_CE572EA4_1CE53B3D_8EF58BB2_EE7D1552_75A907F4_4FDC5854_4DEA1783, 0xC5293616_DCE2E2B7_85B743D6_F3145EE4_0BAE30BB_9694C19E_8DBDD6FE_7AC5A442, 0x0D5FAD3E_BF770224_3AF26A19_623B2979_416B6690_FE9998F2_CD50EBF6_4F75FE5D);
    NextS(28, 0xC5293616_DCE2E2B7_85B743D6_F3145EE4_0BAE30BB_9694C19E_8DBDD6FE_7AC5A442, 0x0D5FAD3E_BF770224_3AF26A19_623B2979_416B6690_FE9998F2_CD50EBF6_4F75FE5D,
      0xFD30A095_977FDC87_8C84A3AB_B4102029_55BBB909_DB505D59_D98F0861_4C477CF5, 0x71EB004A_D43D81F7_CAF044D6_32A732AF_A341593D_574B2623_E6F3596C_1A4CF98F, 0xA48EA2FD_D756760F_CD297B54_169110FC_42A2DA4A_9531A593_29DFE70E_F1C9C0AF);
    NextS(29, 0x71EB004A_D43D81F7_CAF044D6_32A732AF_A341593D_574B2623_E6F3596C_1A4CF98F, 0xA48EA2FD_D756760F_CD297B54_169110FC_42A2DA4A_9531A593_29DFE70E_F1C9C0AF,
      0xAA546322_AB481C0C_503C882F_B4E2E8D8_45818A25_43A12B08_235ADEA5_9DC5F49D, 0x6A9B8947_8F6C8FDD_052DAE00_29AB1C5B_6DDF4EBD_DF203B02_4DB4EA24_F8789D39, 0xFC1204AD_8434D319_B76B3BE2_975A1861_1E5B1725_7BCEB548_F14D6DFC_25BA6278);
    NextS(30, 0x6A9B8947_8F6C8FDD_052DAE00_29AB1C5B_6DDF4EBD_DF203B02_4DB4EA24_F8789D39, 0xFC1204AD_8434D319_B76B3BE2_975A1861_1E5B1725_7BCEB548_F14D6DFC_25BA6278,
      0xEA740E1C_E06868E7_6AF9F3A7_C631E8D8_E9EF2616_6DBD5901_D1A65AF3_9DBF46BC, 0xCB8BE1B3_7BE05DB7_AC42EE4D_BD66B0CF_26A4B643_DC2EC9F9_C4884900_22DDDA0A, 0x58DFDE18_2528A345_C7BAC807_43FD3AF0_C4DB01B6_91E61FE1_D98E9C46_9364A424);
    NextS(31, 0xCB8BE1B3_7BE05DB7_AC42EE4D_BD66B0CF_26A4B643_DC2EC9F9_C4884900_22DDDA0A, 0x58DFDE18_2528A345_C7BAC807_43FD3AF0_C4DB01B6_91E61FE1_D98E9C46_9364A424,
      0xBD3D9722_2649B92D_EA53C9BC_B019954E_3818DB59_9B80A78C_030E9D9B_D8471D37, 0x283315FB_17BBDB46_0753C812_1D15DD53_CF1E1B44_8CAE6781_CFB3BD48_D79D5C1E, 0x8BE31297_3FEE9382_D77E05A3_ADCEF3CE_3091A1D7_060E96F3_E4B4FB3B_DC994C9A);
    NextS(32, 0x283315FB_17BBDB46_0753C812_1D15DD53_CF1E1B44_8CAE6781_CFB3BD48_D79D5C1E, 0x8BE31297_3FEE9382_D77E05A3_ADCEF3CE_3091A1D7_060E96F3_E4B4FB3B_DC994C9A,
      0x414800DE_B85E8C5B_93F6442B_4A7C199F_7858A166_9ADA0EF1_6DBA54D5_1147A6B1, 0x5D63F620_1DFEA6E8_00800747_D01A0B3D_FE14CB1E_2BE0A4D0_B38174E0_630813C1, 0xCEF114FD_8451D22F_540EF482_8E6E5951_2D003367_0F79B31D_82E5FE50_16F95341);
    NextS(33, 0x5D63F620_1DFEA6E8_00800747_D01A0B3D_FE14CB1E_2BE0A4D0_B38174E0_630813C1, 0xCEF114FD_8451D22F_540EF482_8E6E5951_2D003367_0F79B31D_82E5FE50_16F95341,
      0xC0185D99_68AC369C_433890F6_9D65F534_E28B02AF_658B2A3F_CACC159E_EA51689B, 0xAEF77264_8C6134D7_53407672_188C29F0_FF709878_BDC61C1F_8EB5F8F5_CE882F58, 0x49CD35F2_CBA17D8F_8E61224B_E572B513_D14B7B0F_DAAB66A7_0EA56C8B_B1AB2559);
    NextS(34, 0xAEF77264_8C6134D7_53407672_188C29F0_FF709878_BDC61C1F_8EB5F8F5_CE882F58, 0x49CD35F2_CBA17D8F_8E61224B_E572B513_D14B7B0F_DAAB66A7_0EA56C8B_B1AB2559,
      0x20B34822_94D45B8B_B58D33B2_45E9D8B6_0EA99084_F8324E34_BD0BB1E5_65F72CDA, 0xA9D458D0_734A861B_B039E9B2_63C4B8A6_A4E366D6_EC5C0267_64E9BC50_DE003B43, 0x312A6DAC_1AD85058_EFE7576A_5680B0AE_50F07C7C_23F36D1B_7202CFA3_A2A9E6E1);
    NextS(35, 0xA9D458D0_734A861B_B039E9B2_63C4B8A6_A4E366D6_EC5C0267_64E9BC50_DE003B43, 0x312A6DAC_1AD85058_EFE7576A_5680B0AE_50F07C7C_23F36D1B_7202CFA3_A2A9E6E1,
      0xC07AEAD4_B5DD76F5_1DA44253_4CF1398A_FFE084C4_B96DD21C_E1481EA5_59E318C5, 0x86E9C730_0BC547BA_289DA655_2D63F266_CD9438EF_63079F57_BFE14389_7CE8624F, 0xF84B4E3A_76F81970_55E9BCC4_FC896474_4FAEADCE_C3ADAB82_839F8CCB_2AEC05D8);
  }

  lemma Points4()
    ensures PointAtS(45, 0xC83B530E_D20FB7D4_3ACB2267_4FA686C3_CDC30BC4_87D2CCE3_0D94989B_066DE39B,
                0x51F98757_CA03DD01_3A5DE037_539CC54B_D72455F9_D166ADF6_DD365DD4_2CCC3D7E)
  {
    hide PointAtS;
    Points3();
    NextS(36, 0x86E9C730_0BC547BA_289DA655_2D63F266_CD9438EF_63079F57_BFE14389_7CE8624F, 0xF84B4E3A_76F81970_55E9BCC4_FC896474_4FAEADCE_C3ADAB82_839F8CCB_2AEC05D8,
      0xCBD6BAC6_3AD3BAA5_B2728CE5_14958FFA_BF52BFD8_B49B2CF2_773C8002_4E884EFE, 0x956D6650_96D96A89_C98E8AD3_1C4C73B9_90CABAC2_432E3E03_68711EEB_9E95A6B3, 0x66BEBBBA_4AB20D7D_C950FFFA_E12A6985_EEB2166B_32C937E1_D0EEC2E9_9073851B);
    NextS(37, 0x956D6650_96D96A89_C98E8AD3_1C4C73B9_90CABAC2_432E3E03_68711EEB_9E95A6B3, 0x66BEBBBA_4AB20D7D_C950FFFA_E12A6985_EEB2166B_32C937E1_D0EEC2E9_9073851B,
      0x43C984B1_11411EAE_FB0F6CF9_6BF7BB3A_02913899_22478F05_0873608E_8021A78C, 0xA781E5F9_21980F5F_F4806B4C_3718B9B9_9C23027A_2B059A96_EBA668AB_E1C423B4, 0xCF7A7F57_3C5CFDF8_E0E0DB73_F1409569_0FF16964_F5BA2139_CDE33322_95CBFDD9);
    NextS(38, 0xA781E5F9_21980F5F_F4806B4C_3718B9B9_9C23027A_2B059A96_EBA668AB_E1C423B4, 0xCF7A7F57_3C5CFDF8_E0E0DB73_F1409569_0FF16964_F5BA2139_CDE33322_95CBFDD9,
      0xB44C30EB_B97AFC76_CFD59349_AB584EFE_161C4C75_38907E42_B55ED724_4513A749, 0xEC06BB46_2766C36C_9911624A_802BC8C9_AC0C9064_87B597D5_FD3CBCC1_D5F87D9A, 0xFC1F51C9_C787F82F_81ED5852_9236CC86_6EA02BC3_F1B84655_D65D0A99_91A0ECD5);
    NextS(39, 0xEC06BB46_2766C36C_9911624A_802BC8C9_AC0C9064_87B597D5_FD3CBCC1_D5F87D9A, 0xFC1F51C9_C787F82F_81ED5852_9236CC86_6EA02BC3_F1B84655_D65D0A99_91A0ECD5,
      0x33E25091_629249E8_AC2A7971_B8A02763_0BB0232F_9B63789F_729BB8D5_2F9F1ACA, 0x7E4FDD68_13CC686D_630B8368_A86F7038_ADF0EC1D_A4EA7E55_8532671E_13EFD593, 0x2D3BF3C8_C4244139_E6A205EF_E1E8F535_AF2542B5_A36DA869_386B9AA4_27EDDF89);
    NextS(40, 0x7E4FDD68_13CC686D_630B8368_A86F7038_ADF0EC1D_A4EA7E55_8532671E_13EFD593, 0x2D3BF3C8_C4244139_E6A205EF_E1E8F535_AF2542B5_A36DA869_386B9AA4_27EDDF89,
      0x19D09DD8_F4C49605_538B0013_11650524_A530B41F_51B1D05D_3172291E_2A768D1C, 0x1D513084_27E18AE9_BEC02F59_D0A80C36_15900D68_D76029FF_D4951B4E_2EA75C08, 0xDAB3441E_40737013_A733126C_E91D4A13_39B39BFB_D5BB61B5_9E5C3732_14DECBD3);
    NextS(41, 0x1D513084_27E18AE9_BEC02F59_D0A80C36_15900D68_D76029FF_D4951B4E_2EA75C08, 0xDAB3441E_40737013_A733126C_E91D4A13_39B39BFB_D5BB61B5_9E5C3732_14DECBD3,
      0x56A6739E_B6AA5D64_C3E83483_10059EA6_70A47F05_17757938_8072B026_B51E2CEE, 0x73E07C86_477AF3AC_C4AA36E7_05CADD8E_C90F78AA_574AEAFA_D8886096_C77D9684, 0x0AFF022B_53CB6317_E693D121_F88FA182_783A3B9B_D54133CA_59DE9196_5651685A);
    NextS(42, 0x73E07C86_477AF3AC_C4AA36E7_05CADD8E_C90F78AA_574AEAFA_D8886096_C77D9684, 0x0AFF022B_53CB6317_E693D121_F88FA182_783A3B9B_D54133CA_59DE9196_5651685A,
      0xE3047858_FAF9852D_2FA3A0F0_272FDC26_77AA9AD4_AC9B4ABB_A75F0CA2_29EF642E, 0x80C864FE_1CB5E47C_9DEE96B2_0FC71892_551854DB_20287FBD_48A32C6F_2DD9C102, 0x354ABCA9_18626373_8D781AAE_4025163C_945C3A35_21CFB7C1_6ED1F4A1_2849AE76);
    NextS(43, 0x80C864FE_1CB5E47C_9DEE96B2_0FC71892_551854DB_20287FBD_48A32C6F_2DD9C102, 0x354ABCA9_18626373_8D781AAE_4025163C_945C3A35_21CFB7C1_6ED1F4A1_2849AE76,
      0x1F39C69F_6D97663B_6814F72C_727AEE07_6ACC0EC9_F79641DD_0138FA66_A78F04D2, 0xABF2154E_9AB4D896_0A02ABC1_4A19AC24_9A97037D_5A3B7562_D35B081E_5144F3F0, 0xA21B167A_5A40537B_412DF347_F1829589_627A7012_BFD274A5_C6C5410B_9FE1D381);
    NextS(44, 0xABF2154E_9AB4D896_0A02ABC1_4A19AC24_9A97037D_5A3B7562_D35B081E_5144F3F0, 0xA21B167A_5A40537B_412DF347_F1829589_627A7012_BFD274A5_C6C5410B_9FE1D381,
      0x6F0889FE_931B84C1_15EBB6A3_D1359D90_DDD0B3B4_4302F4C9_572D0619_F33C3752, 0xC83B530E_D20FB7D4_3ACB2267_4FA686C3_CDC30BC4_87D2CCE3_0D94989B_066DE39B, 0x51F98757_CA03DD01_3A5DE037_539CC54B_D72455F9_D166ADF6_DD365DD4_2CCC3D7E);
  }

  lemma Points5()
    ensures PointAtS(54, 0x522E5279_1A49AE59_439EFE8E_565E7E36_866365C2_FEF69192_E55EC7A5_1B1AE557,
                0xC1C90C99_A6E53994_BE68E87B_BD8C64DE_347666C6_EBFDBC45_70C480E6_E812B062)
  {
    hide PointAtS;
    Points4();
    NextS(45, 0xC83B530E_D20FB7D4_3ACB2267_4FA686C3_CDC30BC4_87D2CCE3_0D94989B_066DE39B, 0x51F98757_CA03DD01_3A5DE037_539CC54B_D72455F9_D166ADF6_DD365DD4_2CCC3D7E,
      0x58B2C0C3_C1022324_85E1B955_76448E6A_FB417842_839A10B8_D21B67CC_77AFB13C, 0x65F89F01_58C0796D_260AD4E7_940637C5_6106D3AA_DD44F441_6E197A23_5AB31D4D, 0xB2933A91_4C62E93A_E7B4225B_65D7C745_2BE31928_3D17A1D9_5DCC6ACF_60B9B290);
    NextS(46, 0x65F89F01_58C0796D_260AD4E7_940637C5_6106D3AA_DD44F441_6E197A23_5AB31D4D, 0xB2933A91_4C62E93A_E7B4225B_65D7C745_2BE31928_3D17A1D9_5DCC6ACF_60B9B290,
      0x4A50183E_48A71672_2D195E09_83A9E84B_A50891A5_4525BD34_A8FA5AD5_A3416A78, 0x4C793650_A37442B6_6DC3E08E_72C025B7_4CE47EF7_B76C5B61_7B10A33B_8AEC3E51, 0xD3D719F8_BEF706D6_5DE2FF08_D8B2CD34_10DA8238_698DBFCA_3CE5A333_28971A39);
    NextS(47, 0x4C793650_A37442B6_6DC3E08E_72C025B7_4CE47EF7_B76C5B61_7B10A33B_8AEC3E51, 0xD3D719F8_BEF706D6_5DE2FF08_D8B2CD34_10DA8238_698DBFCA_3CE5A333_28971A39,
      0x2D382566_8ACE745E_5243767C_5603376D_A82C2AC6_0E1AC35A_F0B1127A_57F5FACD, 0xB90736D9_F760CD69_F3C000FB_EFC34B6C_4AC24E29_66ABDA8E_6F05EE97_87FFE8A7, 0x81584BB8_E22E62E8_CC3C34C8_00947A65_E71AF764_138F05CD_022FF1B1_3C5882ED);
    NextS(48, 0xB90736D9_F760CD69_F3C000FB_EFC34B6C_4AC24E29_66ABDA8E_6F05EE97_87FFE8A7, 0x81584BB8_E22E62E8_CC3C34C8_00947A65_E71AF764_138F05CD_022FF1B1_3C5882ED,
      0x813E887C_6E5F58DA_2FC34293_E399A721_4063033D_C761AB3C_FA5BDC83_80D0DBA6, 0xDCEB23A1_D24FEF89_759A6AAC_C4EBC177_866C4AE0_187EC7C9_FF6087ED_2BF1984C, 0x3183FA94_F21F27B6_5DFD761D_7C575585_0B19ECFB_7C4C26CD_261F7F4A_17D56428);
    NextS(49, 0xDCEB23A1_D24FEF89_759A6AAC_C4EBC177_866C4AE0_187EC7C9_FF6087ED_2BF1984C, 0x3183FA94_F21F27B6_5DFD761D_7C575585_0B19ECFB_7C4C26CD_261F7F4A_17D56428,
      0xE59BCFE3_A368006A_4C3BEF44_F5B9C81E_4D978FA9_8435270E_1EF64669_9B433702, 0x8214F354_4091725D_5772BB6C_FA34ADA1_0C4A226B_4C75CDB2_AC903F5A_1F38AA47, 0x1D762CE5_5392EC06_C1FFCBBE_7B3B6200_0CC18CAD_16AABBAC_6171E2A5_16801DCC);
    NextS(50, 0x8214F354_4091725D_5772BB6C_FA34ADA1_0C4A226B_4C75CDB2_AC903F5A_1F38AA47, 0x1D762CE5_5392EC06_C1FFCBBE_7B3B6200_0CC18CAD_16AABBAC_6171E2A5_16801DCC,
      0x93FDE7CB_C679606E_6C8B00C3_E5583DC8_57F4E588_44FCFF07_F230B308_F0F7B9DC, 0x13FB1841_4643C4AE_D443D407_C5D351F2_A6EB7289_36C7667C_05235DB6_19ADA015, 0xD751943A_7F3854EA_6937CA0A_7DEC796C_4B5A43C3_5C7EF6AB_035982E1_760C392F);
    NextS(51, 0x13FB1841_4643C4AE_D443D407_C5D351F2_A6EB7289_36C7667C_05235DB6_19ADA015, 0xD751943A_7F3854EA_6937CA0A_7DEC796C_4B5A43C3_5C7EF6AB_035982E1_760C392F,
      0xE04A234D_0487EB25_646FE73F_379641B6_6433CA4D_21F0DB3D_9172A5A2_3EC8E174, 0x127C8893_E6512363_6D520692_E72C8A27_2465AFC6_753326FF_0E9EF1D7_E58A7B82, 0x8E0CACE3_DF9360C2_70F822E0_2482F5E5_D9561526_E23FC378_23BD44F4_C924AB8F);
    NextS(52, 0x127C8893_E6512363_6D520692_E72C8A27_2465AFC6_753326FF_0E9EF1D7_E58A7B82, 0x8E0CACE3_DF9360C2_70F822E0_2482F5E5_D9561526_E23FC378_23BD44F4_C924AB8F,
      0x0524879A_F10F4FC1_43751E1D_AD56141A_F355B950_1C4B2176_C168266F_DF5F3455, 0x3B3F732F_2827FC6C_B81C7D32_4A13A0A8_6E29C4AE_7825D43C_553C9A71_649A1C1D, 0xC3E44070_F2436617_B9A10E6A_8A205F69_68DA53B7_E930C4A8_9400C6B0_E6680F9E);
    NextS(53, 0x3B3F732F_2827FC6C_B81C7D32_4A13A0A8_6E29C4AE_7825D43C_553C9A71_649A1C1D, 0xC3E44070_F2436617_B9A10E6A_8A205F69_68DA53B7_E930C4A8_9400C6B0_E6680F9E,
      0xDF254447_A62597A0_225CBCAD_8960AF5C_D7729758_A2DFDDD4_3B7FB4D8_588B6E15, 0x522E5279_1A49AE59_439EFE8E_565E7E36_866365C2_FEF69192_E55EC7A5_1B1AE557, 0xC1C90C99_A6E53994_BE68E87B_BD8C64DE_347666C6_EBFDBC45_70C480E6_E812B062);
  }

  lemma Points6()
    ensures PointAtS(63, 0x311917AF_72261FC6_ED29AB07_A8CA9370_2103FD75_F39DC6DA_1C641F9A_C48FC66C,
                0x63045ABF_9C3DDA4C_2738786D_08AA889E_E7FEAAE2_53831647_0BB4E029_50C3C34F)
  {
    hide PointAtS;
    Points5();
    NextS(54, 0x522E5279_1A49AE59_439EFE8E_565E7E36_866365C2_FEF69192_E55EC7A5_1B1AE557, 0xC1C90C99_A6E53994_BE68E87B_BD8C64DE_347666C6_EBFDBC45_70C480E6_E812B062,
      0x9FF1A7C2_A141C1DA_BDD5FF92_6175F7B2_45AFF164_B4C3C19E_478B46DA_C867BCAB, 0x10FF6D89_19204F6F_68447938_FB0CF065_B9CC8E33_585F5298_3F47ABEE_4DABCFA0, 0x87BE6554_A2AA4DD6_8DD05D91_B00B7E19_9C0DD9DA_7A6DCC81_80297DB0_6733C4C9);
    NextS(55, 0x10FF6D89_19204F6F_68447938_FB0CF065_B9CC8E33_585F5298_3F47ABEE_4DABCFA0, 0x87BE6554_A2AA4DD6_8DD05D91_B00B7E19_9C0DD9DA_7A6DCC81_80297DB0_6733C4C9,
      0xA7DB34A6_C8EEDFC3_52778D24_03392C83_46906114_56CDFE7E_5299232B_57CDFADD, 0xF6312924_121D0BF8_F948D0C6_24A27CDE_926F0CA9_D3110327_F29BCC90_D9565BDB, 0xE0083F76_D21E18F6_F2E58408_1523A1D0_7E7EF468_53EFF13F_FB69F83C_93EBFE94);
    NextS(56, 0xF6312924_121D0BF8_F948D0C6_24A27CDE_926F0CA9_D3110327_F29BCC90_D9565BDB, 0xE0083F76_D21E18F6_F2E58408_1523A1D0_7E7EF468_53EFF13F_FB69F83C_93EBFE94,
      0xE9509DF9_E993561C_9E93F4A3_CDFD52C5_02A02CDF_09D3F3D8_ED84D59E_2803E3B4, 0x8F239829_3232C396_9433D512_F4D69063_C2740C14_D952811B_0DB726F1_5DFC26E0, 0x6CAD1BD6_222A065D_5B78AF14_D8399FDE_454B3D6B_0B8ADA98_BA7D4A4F_289B3C56);
    NextS(57, 0x8F239829_3232C396_9433D512_F4D69063_C2740C14_D952811B_0DB726F1_5DFC26E0, 0x6CAD1BD6_222A065D_5B78AF14_D8399FDE_454B3D6B_0B8ADA98_BA7D4A4F_289B3C56,
      0xB59FE7EC_0CDE537E_F18A914F_B789850A_2BDB6F2E_4F37648E_8CE1EBDC_8DE1DBC6, 0x952D8B84_5A08E6B2_EFD3121B_7E712F05_F9135358_B0CB8A88_C76DCAFD_36FE92F4, 0x3F743EB8_B68DD7C5_5E3AE592_7E69DC9F_DD047C72_49B4EDD6_B24B7DD5_E3A08782);
    NextS(58, 0x952D8B84_5A08E6B2_EFD3121B_7E712F05_F9135358_B0CB8A88_C76DCAFD_36FE92F4, 0x3F743EB8_B68DD7C5_5E3AE592_7E69DC9F_DD047C72_49B4EDD6_B24B7DD5_E3A08782,
      0x981CC679_9C058C2B_EC9C2ED8_2DDE75DA_52ADE8CB_7EA3E6BB_452F074C_09B9D4EE, 0xF64046A2_67B04EF1_E54A9E49_9913D100_309E2150_CC501C7C_C9195396_68F7B7DB, 0xA7DB423E_1FDB0871_13FD19AA_A62B8C03_2AA6541E_70CC0201_84917F08_A32CBFCD);
    NextS(59, 0xF64046A2_67B04EF1_E54A9E49_9913D100_309E2150_CC501C7C_C9195396_68F7B7DB, 0xA7DB423E_1FDB0871_13FD19AA_A62B8C03_2AA6541E_70CC0201_84917F08_A32CBFCD,
      0x6605EC03_37472342_9D3F54F4_D8FB0E07_274117FB_C651DD73_8C8F2736_BF728112, 0x72ED90D6_2133C217_503ECD23_009DE367_2411177D_EED70CFE_7B5892F5_338F5F27, 0x9559B44F_2BF71086_17E4EB3A_E90055FC_8555DF9E_167AAB21_6C16F88D_656042C6);
    NextS(60, 0x72ED90D6_2133C217_503ECD23_009DE367_2411177D_EED70CFE_7B5892F5_338F5F27, 0x9559B44F_2BF71086_17E4EB3A_E90055FC_8555DF9E_167AAB21_6C16F88D_656042C6,
      0xB16BB18B_BA19EEEF_5BE31AF4_0783A6D2_54112CD6_E4B9FC8D_BCCB635C_1CC00D84, 0x724BA3D1_83E8B1C1_601407F9_E606EDB7_37A55998_DA8F0930_7BE127A4_F6A509F0, 0x4ADE7F14_177B6E1C_D8916136_659996DB_848E0EE4_E8A11DE8_0D861D1A_C2FAFBDE);
    NextS(61, 0x724BA3D1_83E8B1C1_601407F9_E606EDB7_37A55998_DA8F0930_7BE127A4_F6A509F0, 0x4ADE7F14_177B6E1C_D8916136_659996DB_848E0EE4_E8A11DE8_0D861D1A_C2FAFBDE,
      0x4924E10D_DF5A3200_8B50D030_DCF12E10_9C326FC0_F336ADBB_51824648_38EAF053, 0xC90D0985_D5FB9E3A_2F1C5922_27477433_8CEAEFC4_33317AB0_B5DFD6AB_190E8A33, 0xC78FE27B_3DFE8A82_9DAE1173_704FB089_9E5532B2_1B05B40A_68E354C8_EE3F2B7C);
    NextS(62, 0xC90D0985_D5FB9E3A_2F1C5922_27477433_8CEAEFC4_33317AB0_B5DFD6AB_190E8A33, 0xC78FE27B_3DFE8A82_9DAE1173_704FB089_9E5532B2_1B05B40A_68E354C8_EE3F2B7C,
      0x5E9A4162_77F8B237_B66ABF69_AC591108_167D205A_CC48B3CD_CA5C6D0A_A5C948CC, 0x311917AF_72261FC6_ED29AB07_A8CA9370_2103FD75_F39DC6DA_1C641F9A_C48FC66C, 0x63045ABF_9C3DDA4C_2738786D_08AA889E_E7FEAAE2_53831647_0BB4E029_50C3C34F);
  }

  ghost predicate PointAtS(k: int, x: int, y: int) {
    k >= 0 && PointAt(S(), k, x, y)
  }

  lemma NextS(k: int, x: int, y: int, l: int, x2: int, y2: int)
    requires PointAtS(k, x, y) && Leads(l, x, y, x, y, x2, y2)
    ensures PointAtS(k + 1, x2, y2)
  {
    hide PointAt, S, OnCurve, Leads;
    Next(S(), k, x, y, l, x2, y2);
  }

  ghost predicate ClearTo(k: int, x: int) {
    k >= 0 && Abscissa(S(), k, x) && AllClear(S(), 63, k)
  }

  lemma NextAbscissaS(k: int, x: int, x2: int)
    requires ClearTo(k, x) && DoublesTo(x, x2) && Avoids(x2)
    ensures ClearTo(k + 1, x2)
  {
    hide Abscissa, AllClear, Avoids, DoublesTo, S, OnCurve;
    NextAbscissa(S(), 63, k, x, x2);
  }

  lemma FirstAbscissaS(k: int, x: int, y: int)
    requires PointAtS(k, x, y) && Avoids(x) && k == 63
    ensures ClearTo(k, x)
  {
    hide PointAt, Abscissa, AllClear, Avoids, S, OnCurve;
    FirstAbscissa(S(), k, x, y);
  }

  lemma StartOfChain()
    ensures PointAtS(0, SX, SY)
  {
    hide S;
    SIs();
  }

  lemma SIs()
    ensures S() == Affine(SX, SY)
  {
  }

  lemma FirstAbscissas()
    ensures ClearTo(63, 0x311917AF_72261FC6_ED29AB07_A8CA9370_2103FD75_F39DC6DA_1C641F9A_C48FC66C)
  {
    hide PointAtS, ClearTo;
    Points6();
    FirstAbscissaS(63, 0x311917AF_72261FC6_ED29AB07_A8CA9370_2103FD75_F39DC6DA_1C641F9A_C48FC66C, 0x63045ABF_9C3DDA4C_2738786D_08AA889E_E7FEAAE2_53831647_0BB4E029_50C3C34F);
  }

  lemma Abscissas0()
    ensures ClearTo(75, 0xCF948307_77052260_8F9660D8_F0CA8BD7_B9ADD515_BB252EB5_697C8DC5_94403149)
  {
    hide PointAtS, ClearTo;
    FirstAbscissas();
    NextAbscissaS(63, 0x311917AF_72261FC6_ED29AB07_A8CA9370_2103FD75_F39DC6DA_1C641F9A_C48FC66C, 0xE50472B3_0CBF2BFA_A7B7268C_E4042EF1_D9EBF260_C5CDDDD7_7B6CC47A_28F72C08);
    NextAbscissaS(64, 0xE50472B3_0CBF2BFA_A7B7268C_E4042EF1_D9EBF260_C5CDDDD7_7B6CC47A_28F72C08, 0x182E2C48_938AB120_7A9AF069_9C8451B1_1CE4D228_7700F2FF_AED37B1B_5DC05036);
    NextAbscissaS(65, 0x182E2C48_938AB120_7A9AF069_9C8451B1_1CE4D228_7700F2FF_AED37B1B_5DC05036, 0x771C22BC_0012DCB9_F9047780_297891F5_E7A7E507_4EE143BE_77D56394_F0B263CE);
    NextAbscissaS(66, 0x771C22BC_0012DCB9_F9047780_297891F5_E7A7E507_4EE143BE_77D56394_F0B263CE, 0x92F0BF8C_96C16B52_7C0E9E9A_4E684B13_64F40CF2_1D74EDE9_4079EA47_A22EDDCE);
    NextAbscissaS(67, 0x92F0BF8C_96C16B52_7C0E9E9A_4E684B13_64F40CF2_1D74EDE9_4079EA47_A22EDDCE, 0x2DEADB63_08E980A6_60D722C8_2E88B353_69F15B97_EF3D282E_F3092F24_335E60E0);
    NextAbscissaS(68, 0x2DEADB63_08E980A6_60D722C8_2E88B353_69F15B97_EF3D282E_F3092F24_335E60E0, 0x5B8348D1_044FD376_D9E08525_7391CAB3_13390547_387B6C20_039C34EE_55DF0004);
    NextAbscissaS(69, 0x5B8348D1_044FD376_D9E08525_7391CAB3_13390547_387B6C20_039C34EE_55DF0004, 0x4248A91F_14733B5B_7D9C189C_81492CA0_52E8C463_94CABC65_3E0E4930_CF97477E);
    NextAbscissaS(70, 0x4248A91F_14733B5B_7D9C189C_81492CA0_52E8C463_94CABC65_3E0E4930_CF97477E, 0x3B18C0A7_DEB0037F_591A4DE9_13DB24DB_8D063483_7ECE9632_F621B3AC_EC6ABE24);
    NextAbscissaS(71, 0x3B18C0A7_DEB0037F_591A4DE9_13DB24DB_8D063483_7ECE9632_F621B3AC_EC6ABE24, 0x55039799_701BA1BE_94915581_C06FB3BB_0EC42258_7F28808A_2B254BFC_5AACCA2B);
    NextAbscissaS(72, 0x55039799_701BA1BE_94915581_C06FB3BB_0EC42258_7F28808A_2B254BFC_5AACCA2B, 0xD822746C_39198087_52501649_27E171AF_5C256686_BF816367_CAF56AE8_D7865853);
    NextAbscissaS(73, 0xD822746C_39198087_52501649_27E171AF_5C256686_BF816367_CAF56AE8_D7865853, 0x7CB475F7_D1832B00_34728CDC_34494D2D_751E9809_A2BFC2ED_BA36430C_287BF646);
    NextAbscissaS(74, 0x7CB475F7_D1832B00_34728CDC_34494D2D_751E9809_A2BFC2ED_BA36430C_287BF646, 0xCF948307_77052260_8F9660D8_F0CA8BD7_B9ADD515_BB252EB5_697C8DC5_94403149);
  }

  lemma Abscissas1()
    ensures ClearTo(87, 0xF99D7ABC_BD2D51E7_476E5EC5_56125CD2_353C2FA5_04A0E917_5A516BBE_8DA501D9)
  {
    hide PointAtS, ClearTo;
    Abscissas0();
    NextAbscissaS(75, 0xCF948307_77052260_8F9660D8_F0CA8BD7_B9ADD515_BB252EB5_697C8DC5_94403149, 0x19DE8ECB_DC9292AF_7AB89187_BC73E086_8AE00279_2330FB27_E8A4DBD3_0A03B555);
    NextAbscissaS(76, 0x19DE8ECB_DC9292AF_7AB89187_BC73E086_8AE00279_2330FB27_E8A4DBD3_0A03B555, 0x99C09541_1E94F087_F5970958_79FA8E86_5CF4BF58_05590FB0_534A8AF1_7C949A6B);
    NextAbscissaS(77, 0x99C09541_1E94F087_F5970958_79FA8E86_5CF4BF58_05590FB0_534A8AF1_7C949A6B, 0x915665C2_53036AF0_3A330CDE_62B6F0D9_E312DED2_5B886489_D89F4F6D_A0D26329);
    NextAbscissaS(78, 0x915665C2_53036AF0_3A330CDE_62B6F0D9_E312DED2_5B886489_D89F4F6D_A0D26329, 0xA53F64D8_8E345BFC_D4205842_E059CF53_B940D945_DC209161_2F063637_98B469CA);
    NextAbscissaS(79, 0xA53F64D8_8E345BFC_D4205842_E059CF53_B940D945_DC209161_2F063637_98B469CA, 0x15523E03_3F2B5D40_1C4B736F_5CFAF066_397B65C5_C1554708_807A5198_57D5071C);
    NextAbscissaS(80, 0x15523E03_3F2B5D40_1C4B736F_5CFAF066_397B65C5_C1554708_807A5198_57D5071C, 0x42A6A0E8_CE06D2D3_24BBC939_3F2EAA82_71DF5ACC_5D71F353_56AF57FB_C40DB185);
    NextAbscissaS(81, 0x42A6A0E8_CE06D2D3_24BBC939_3F2EAA82_71DF5ACC_5D71F353_56AF57FB_C40DB185, 0x32512756_FF0B422C_7A690BEB_3BE1D40C_1F5D6C83_5DC80444_EE69E9D3_8585F455);
    NextAbscissaS(82, 0x32512756_FF0B422C_7A690BEB_3BE1D40C_1F5D6C83_5DC80444_EE69E9D3_8585F455, 0xA6A146F4_784E4E43_68DF7447_62AC93DD_DA8C84BD_4B8B64DA_63780597_18ACA53F);
    NextAbscissaS(83, 0xA6A146F4_784E4E43_68DF7447_62AC93DD_DA8C84BD_4B8B64DA_63780597_18ACA53F, 0x8296693B_12FA3040_3B986699_65320DEF_604F8039_47C62CF4_55B8F94E_995E0C25);
    NextAbscissaS(84, 0x8296693B_12FA3040_3B986699_65320DEF_604F8039_47C62CF4_55B8F94E_995E0C25, 0x29DE098C_343D3D2D_9A51FF08_FADA0688_1A0B3A20_7236EEBB_440EB344_D01BD4CE);
    NextAbscissaS(85, 0x29DE098C_343D3D2D_9A51FF08_FADA0688_1A0B3A20_7236EEBB_440EB344_D01BD4CE, 0x981EAB41_A1C11108_A5D9A8B4_C5CE9246_89CE90A9_6E2AF793_FC8333AD_97B1C82A);
    NextAbscissaS(86, 0x981EAB41_A1C11108_A5D9A8B4_C5CE9246_89CE90A9_6E2AF793_FC8333AD_97B1C82A, 0xF99D7ABC_BD2D51E7_476E5EC5_56125CD2_353C2FA5_04A0E917_5A516BBE_8DA501D9);
  }

  lemma Abscissas2()
    ensures ClearTo(99, 0xBF29D0DD_C84D5814_3ED2CA77_72D8421E_88B49DC3_B76AF882_C1AEA55D_F4BEED2D)
  {
    hide PointAtS, ClearTo;
    Abscissas1();
    NextAbscissaS(87, 0xF99D7ABC_BD2D51E7_476E5EC5_56125CD2_353C2FA5_04A0E917_5A516BBE_8DA501D9, 0xB1DB2F8A_C04A7F81_60C97B58_015CC19A_4275F9EE_9D4EEB5B_0C73F14C_17344F3D);
    NextAbscissaS(88, 0xB1DB2F8A_C04A7F81_60C97B58_015CC19A_4275F9EE_9D4EEB5B_0C73F14C_17344F3D, 0xCE70D4A6_72CD02E3_E1F4D6B6_AB4A34F9_550C66FB_BE4F0225_F6C6E0AB_F253F183);
    NextAbscissaS(89, 0xCE70D4A6_72CD02E3_E1F4D6B6_AB4A34F9_550C66FB_BE4F0225_F6C6E0AB_F253F183, 0x52402074_574B0A3B_9372919D_EB5B024E_2263A91F_77F18196_3281FE3D_AA6EDD1D);
    NextAbscissaS(90, 0x52402074_574B0A3B_9372919D_EB5B024E_2263A91F_77F18196_3281FE3D_AA6EDD1D, 0xEF8FD781_9D4F39BE_AF4958BC_4CD6DCDD_5BADED92_675C69FD_43314D8C_A30E18F6);
    NextAbscissaS(91, 0xEF8FD781_9D4F39BE_AF4958BC_4CD6DCDD_5BADED92_675C69FD_43314D8C_A30E18F6, 0x14F0CD1B_2D673628_C026533D_CE449EA6_1680AE50_36786428_3592A6F6_FCCD5349);
    NextAbscissaS(92, 0x14F0CD1B_2D673628_C026533D_CE449EA6_1680AE50_36786428_3592A6F6_FCCD5349, 0x1CD99DC5_EDB21652_7E9DDDE7_531B6B59_E4854539_30A85EA2_CCC9A96D_0237C371);
    NextAbscissaS(93, 0x1CD99DC5_EDB21652_7E9DDDE7_531B6B59_E4854539_30A85EA2_CCC9A96D_0237C371, 0x434B71DC_2F37B6F1_289D2066_0CD03FA2_A4534475_DA5B1FCB_CB336FB4_0C43737D);
    NextAbscissaS(94, 0x434B71DC_2F37B6F1_289D2066_0CD03FA2_A4534475_DA5B1FCB_CB336FB4_0C43737D, 0xF6C28D46_F5500FC4_20BFAC8D_482E373F_BDDA70D3_6FC7BE46_16D221FF_B14105DA);
    NextAbscissaS(95, 0xF6C28D46_F5500FC4_20BFAC8D_482E373F_BDDA70D3_6FC7BE46_16D221FF_B14105DA, 0x6BF27181_95820144_07CC4C00_370D12A1_911B7460_27246ED6_A9205645_F2F58670);
    NextAbscissaS(96, 0x6BF27181_95820144_07CC4C00_370D12A1_911B7460_27246ED6_A9205645_F2F58670, 0x4ACBE803_F522058F_725E3A2F_8B2C66AB_012EB985_02BE8055_3CF9C302_94B2439E);
    NextAbscissaS(97, 0x4ACBE803_F522058F_725E3A2F_8B2C66AB_012EB985_02BE8055_3CF9C302_94B2439E, 0xB9051106_1A2372F6_F697BD03_78779552_E23FDC6F_4B82B93D_E6C5FC5C_5FC349CB);
    NextAbscissaS(98, 0xB9051106_1A2372F6_F697BD03_78779552_E23FDC6F_4B82B93D_E6C5FC5C_5FC349CB, 0xBF29D0DD_C84D5814_3ED2CA77_72D8421E_88B49DC3_B76AF882_C1AEA55D_F4BEED2D);
  }

  lemma Abscissas3()
    ensures ClearTo(111, 0xA12D0BCF_56871FAD_11410813_C28BC3CA_A8B7EE10_76424279_E3D7FE35_79C10E51)
  {
    hide PointAtS, ClearTo;
    Abscissas2();
    NextAbscissaS(99, 0xBF29D0DD_C84D5814_3ED2CA77_72D8421E_88B49DC3_B76AF882_C1AEA55D_F4BEED2D, 0xD2D34CC1_CC32FE85_FE745E0E_0C1F1A37_373C4F50_D0882370_CB4B4A60_7FD549E5);
    NextAbscissaS(100, 0xD2D34CC1_CC32FE85_FE745E0E_0C1F1A37_373C4F50_D0882370_CB4B4A60_7FD549E5, 0x688F9035_15899FA2_83741ABB_D8CD100B_F67B29A6_A7347C42_12B0C3EB_EE2EB7A3);
    NextAbscissaS(101, 0x688F9035_15899FA2_83741ABB_D8CD100B_F67B29A6_A7347C42_12B0C3EB_EE2EB7A3, 0xA37E2B02_958AB177_904D9569_991C57C8_655A012E_D8775B47_C1D01A5D_CAC5A941);
    NextAbscissaS(102, 0xA37E2B02_958AB177_904D9569_991C57C8_655A012E_D8775B47_C1D01A5D_CAC5A941, 0xC004F150_85B5610A_9B7E1421_8BCF9273_96EB3F2C_48394FF8_7A687938_1D6CA889);
    NextAbscissaS(103, 0xC004F150_85B5610A_9B7E1421_8BCF9273_96EB3F2C_48394FF8_7A687938_1D6CA889, 0x6EF0201C_04EA3B77_5B438AC9_ADD94243_599B3EE7_7FE1C155_75089A7D_31061275);
    NextAbscissaS(104, 0x6EF0201C_04EA3B77_5B438AC9_ADD94243_599B3EE7_7FE1C155_75089A7D_31061275, 0xB05F83B8_251F57CC_C4AF5B31_5BE1F323_4C622820_7DDF6635_66186A0F_106E9581);
    NextAbscissaS(105, 0xB05F83B8_251F57CC_C4AF5B31_5BE1F323_4C622820_7DDF6635_66186A0F_106E9581, 0x520ACA77_A3733A52_85B38C4C_5D34EBC1_7A89CAE4_D2F58A52_2CD1CB95_EFF22187);
    NextAbscissaS(106, 0x520ACA77_A3733A52_85B38C4C_5D34EBC1_7A89CAE4_D2F58A52_2CD1CB95_EFF22187, 0x0989D2B7_917EAFBD_EDB5853F_8DEB4F79_7383F5F6_D360028F_6B85726C_5488CC7F);
    NextAbscissaS(107, 0x0989D2B7_917EAFBD_EDB5853F_8DEB4F79_7383F5F6_D360028F_6B85726C_5488CC7F, 0x5C147D70_F74C1194_A5BB9361_4C4A20C2_A632793C_B147B397_EEE6DEC5_D3526DE6);
    NextAbscissaS(108, 0x5C147D70_F74C1194_A5BB9361_4C4A20C2_A632793C_B147B397_EEE6DEC5_D3526DE6, 0xADFE2325_76A4B3B3_9ADE1B95_CE7797BE_5F7164F4_CE9F769A_496B5FF1_738A8692);
    NextAbscissaS(109, 0xADFE2325_76A4B3B3_9ADE1B95_CE7797BE_5F7164F4_CE9F769A_496B5FF1_738A8692, 0x9961B2A3_9C446E1C_3130236F_E28F0918_A43C70F4_1A70B08E_A6B125F9_C1070042);
    NextAbscissaS(110, 0x9961B2A3_9C446E1C_3130236F_E28F0918_A43C70F4_1A70B08E_A6B125F9_C1070042, 0xA12D0BCF_56871FAD_11410813_C28BC3CA_A8B7EE10_76424279_E3D7FE35_79C10E51);
  }

  lemma Abscissas4()
    ensures ClearTo(123, 0x0F4AD686_556EA56A_2915A228_D3277A0C_62EA2F2E_4E9EBF75_CD609F3E_E50841B2)
  {
    hide PointAtS, ClearTo;
    Abscissas3();
    NextAbscissaS(111, 0xA12D0BCF_56871FAD_11410813_C28BC3CA_A8B7EE10_76424279_E3D7FE35_79C10E51, 0x7BBEA303_79DFCFD0_B82FC2A3_1D427795_D20DA825_ED6176ED_E7247112_0C3FF4C8);
    NextAbscissaS(112, 0x7BBEA303_79DFCFD0_B82FC2A3_1D427795_D20DA825_ED6176ED_E7247112_0C3FF4C8, 0x1865CFCD_54BF78EB_A247E582_05CC0C76_99320BCF_C5F0F171_BC166F36_90F210C6);
    NextAbscissaS(113, 0x1865CFCD_54BF78EB_A247E582_05CC0C76_99320BCF_C5F0F171_BC166F36_90F210C6, 0x9E56F924_8E6AF641_1D4C3A14_9544D1D5_E5D29112_1389206A_AB598165_BAEDA740);
    NextAbscissaS(114, 0x9E56F924_8E6AF641_1D4C3A14_9544D1D5_E5D29112_1389206A_AB598165_BAEDA740, 0x8A93049A_C9252687_176D7C89_A22DB725_01FF9F72_123076B3_F57EF798_D2D0C4F3);
    NextAbscissaS(115, 0x8A93049A_C9252687_176D7C89_A22DB725_01FF9F72_123076B3_F57EF798_D2D0C4F3, 0xA72CB367_6109044D_7ED61BA4_DE1A9B40_2AEEE608_5E5B2580_C2E91D41_E4D2D0B2);
    NextAbscissaS(116, 0xA72CB367_6109044D_7ED61BA4_DE1A9B40_2AEEE608_5E5B2580_C2E91D41_E4D2D0B2, 0x0F35C8CF_25CD2358_87F55549_02CEC45E_39FA1B8D_93116E90_556E58B4_41FAF96B);
    NextAbscissaS(117, 0x0F35C8CF_25CD2358_87F55549_02CEC45E_39FA1B8D_93116E90_556E58B4_41FAF96B, 0x905659CB_22C359B2_996E9209_8FB85A6B_7130A901_7F006D93_C712A7D3_6847D09E);
    NextAbscissaS(118, 0x905659CB_22C359B2_996E9209_8FB85A6B_7130A901_7F006D93_C712A7D3_6847D09E, 0x2782F35C_D0D0A103_AC8D07FD_EA3D9A4A_DE26D1A4_E2B39443_5DBDF2AE_F8AB6690);
    NextAbscissaS(119, 0x2782F35C_D0D0A103_AC8D07FD_EA3D9A4A_DE26D1A4_E2B39443_5DBDF2AE_F8AB6690, 0x2D5DE0E9_EC7050D0_06634ADD_99AA0B40_16189FB5_DD3A76B2_7C7BDECA_7A0EA129);
    NextAbscissaS(120, 0x2D5DE0E9_EC7050D0_06634ADD_99AA0B40_16189FB5_DD3A76B2_7C7BDECA_7A0EA129, 0x76D2FF59_FFE02B35_A3507921_6675B653_F0A428C7_55EA4787_D9293A74_D45E7244);
    NextAbscissaS(121, 0x76D2FF59_FFE02B35_A3507921_6675B653_F0A428C7_55EA4787_D9293A74_D45E7244, 0x39E951B9_F600C1D0_53A0A862_C05AEA55_EC466732_654865DB_9F01A0DE_8DCC51EE);
    NextAbscissaS(122, 0x39E951B9_F600C1D0_53A0A862_C05AEA55_EC466732_654865DB_9F01A0DE_8DCC51EE, 0x0F4AD686_556EA56A_2915A228_D3277A0C_62EA2F2E_4E9EBF75_CD609F3E_E50841B2);
  }

  lemma Abscissas5()
    ensures ClearTo(135, 0x840835E9_5BBC3DD5_FB029911_E9E56B3B_7C02A5E1_090EDCEC_5F52A857_294775A4)
  {
    hide PointAtS, ClearTo;
    Abscissas4();
    NextAbscissaS(123, 0x0F4AD686_556EA56A_2915A228_D3277A0C_62EA2F2E_4E9EBF75_CD609F3E_E50841B2, 0x09F8C27A_C469934D_D890BCFD_7BD27870_E3C40B18_FFC5EAF9_D28D6FA4_163607C5);
    NextAbscissaS(124, 0x09F8C27A_C469934D_D890BCFD_7BD27870_E3C40B18_FFC5EAF9_D28D6FA4_163607C5, 0x5A0FB583_5A9C1371_7F39B054_D27DFE93_66B1B5E1_5ACEC169_39C2E98C_99BC9152);
    NextAbscissaS(125, 0x5A0FB583_5A9C1371_7F39B054_D27DFE93_66B1B5E1_5ACEC169_39C2E98C_99BC9152, 0x55757746_5A6D0BE0_41411653_FF6C0BFA_5191EC42_416B6001_9F3DF7DB_12722018);
    NextAbscissaS(126, 0x55757746_5A6D0BE0_41411653_FF6C0BFA_5191EC42_416B6001_9F3DF7DB_12722018, 0x32E53523_C97670B1_8BFA5528_A415922A_16EEA83E_59B64A32_88C17522_B1BD63C7);
    NextAbscissaS(127, 0x32E53523_C97670B1_8BFA5528_A415922A_16EEA83E_59B64A32_88C17522_B1BD63C7, 0x6CD44B93_7A987CEC_92B19A81_5207A618_DE7D42EC_32EF9C9E_5199D5E2_35DAF413);
    NextAbscissaS(128, 0x6CD44B93_7A987CEC_92B19A81_5207A618_DE7D42EC_32EF9C9E_5199D5E2_35DAF413, 0x085ED159_C0830BB9_C6A2067D_EF566E87_2AFF68ED_3B2B736F_C4393E07_3499431F);
    NextAbscissaS(129, 0x085ED159_C0830BB9_C6A2067D_EF566E87_2AFF68ED_3B2B736F_C4393E07_3499431F, 0x39217641_19C87E05_91273834_216D46B9_8D110921_C77CDD26_07ADB0CC_07DE3C3A);
    NextAbscissaS(130, 0x39217641_19C87E05_91273834_216D46B9_8D110921_C77CDD26_07ADB0CC_07DE3C3A, 0xBBBC67D1_770F2AFB_3AAD6C41_6B8E2220_1A9378EC_296D506F_02ECE318_D868B505);
    NextAbscissaS(131, 0xBBBC67D1_770F2AFB_3AAD6C41_6B8E2220_1A9378EC_296D506F_02ECE318_D868B505, 0x0D855C63_49DFDA07_2C79ED22_7CDD5F25_995C9616_E1FCC564_F52EF30F_C65DD614);
    NextAbscissaS(132, 0x0D855C63_49DFDA07_2C79ED22_7CDD5F25_995C9616_E1FCC564_F52EF30F_C65DD614, 0xF20C0BF0_F93D2C58_E6D40026_CE4EAD38_D8562E1B_B6B2A8D8_AC213631_F1548C99);
    NextAbscissaS(133, 0xF20C0BF0_F93D2C58_E6D40026_CE4EAD38_D8562E1B_B6B2A8D8_AC213631_F1548C99, 0x02B598C6_FA79FE2B_A9AA09A7_303EA0FB_CE99CCAE_BBB71AA6_B3D9C88A_B15E272C);
    NextAbscissaS(134, 0x02B598C6_FA79FE2B_A9AA09A7_303EA0FB_CE99CCAE_BBB71AA6_B3D9C88A_B15E272C, 0x840835E9_5BBC3DD5_FB029911_E9E56B3B_7C02A5E1_090EDCEC_5F52A857_294775A4);
  }

  lemma Abscissas6()
    ensures ClearTo(147, 0x573EEBF0_13475DCA_FF97AB42_3D040AC9_611E639C_AD9FD418_CF4BFA9C_192BFAED)
  {
    hide PointAtS, ClearTo;
    Abscissas5();
    NextAbscissaS(135, 0x840835E9_5BBC3DD5_FB029911_E9E56B3B_7C02A5E1_090EDCEC_5F52A857_294775A4, 0xC37DC89A_2D23E51D_C04124F5_06BC4D96_9149AD49_7C9F1591_ED593944_0D333E8D);
    NextAbscissaS(136, 0xC37DC89A_2D23E51D_C04124F5_06BC4D96_9149AD49_7C9F1591_ED593944_0D333E8D, 0x848C7D5B_03EDA4DE_34B55E34_A1F833BE_D7AA2558_FF71FDD3_B7E001BA_D1130D4C);
    NextAbscissaS(137, 0x848C7D5B_03EDA4DE_34B55E34_A1F833BE_D7AA2558_FF71FDD3_B7E001BA_D1130D4C, 0x9E9E4DB9_637B5A8D_A8B24FD6_61F3E14D_C022BD77_D9A60F03_9FB8FF07_8A4933D9);
    NextAbscissaS(138, 0x9E9E4DB9_637B5A8D_A8B24FD6_61F3E14D_C022BD77_D9A60F03_9FB8FF07_8A4933D9, 0xA546AE98_F5672928_8D0D21CC_997F818B_3D3B7952_54F4D3F0_6EC29739_A7FD68D7);
    NextAbscissaS(139, 0xA546AE98_F5672928_8D0D21CC_997F818B_3D3B7952_54F4D3F0_6EC29739_A7FD68D7, 0xD266A153_C4FB3121_01BD5A4A_D0FB685A_C8932D2C_9DBEA114_570B02B2_28F82B1C);
    NextAbscissaS(140, 0xD266A153_C4FB3121_01BD5A4A_D0FB685A_C8932D2C_9DBEA114_570B02B2_28F82B1C, 0x891A5845_B31F5A27_0B18D709_5BF3ADE0_D9B6C49E_9883AD5A_BC8BD7CF_AE84C82E);
    NextAbscissaS(141, 0x891A5845_B31F5A27_0B18D709_5BF3ADE0_D9B6C49E_9883AD5A_BC8BD7CF_AE84C82E, 0x89FF0000_E05EAAD3_7011BB93_E9BC2DDF_5A700FD1_A50B4A96_CEFF70A4_FF2E412B);
    NextAbscissaS(142, 0x89FF0000_E05EAAD3_7011BB93_E9BC2DDF_5A700FD1_A50B4A96_CEFF70A4_FF2E412B, 0xD4EE67BC_85179947_5D72905E_BC684E07_06633E43_DD00CE87_96C1A3EE_8B11FB08);
    NextAbscissaS(143, 0xD4EE67BC_85179947_5D72905E_BC684E07_06633E43_DD00CE87_96C1A3EE_8B11FB08, 0xE4658E4F_687D6205_6E2C2E73_512108B2_F949820F_E3A6A458_2B327C0E_FCECFD80);
    NextAbscissaS(144, 0xE4658E4F_687D6205_6E2C2E73_512108B2_F949820F_E3A6A458_2B327C0E_FCECFD80, 0x82B21124_91939887_63D6607E_DE4DA75A_BBD2317F_28A6E268_F558F078_21BEC06B);
    NextAbscissaS(145, 0x82B21124_91939887_63D6607E_DE4DA75A_BBD2317F_28A6E268_F558F078_21BEC06B, 0x9203CBC1_8E18131C_91A8F46B_0273480E_89343E0F_69CF341D_43D6D704_6D36497C);
    NextAbscissaS(146, 0x9203CBC1_8E18131C_91A8F46B_0273480E_89343E0F_69CF341D_43D6D704_6D36497C, 0x573EEBF0_13475DCA_FF97AB42_3D040AC9_611E639C_AD9FD418_CF4BFA9C_192BFAED);
  }

  lemma Abscissas7()
    ensures ClearTo(159, 0x924D02EE_1551607D_631279AE_305FE225_2DD6DA34_4AE6DB95_2A0D8EE7_6CE6E834)
  {
    hide PointAtS, ClearTo;
    Abscissas6();
    NextAbscissaS(147, 0x573EEBF0_13475DCA_FF97AB42_3D040AC9_611E639C_AD9FD418_CF4BFA9C_192BFAED, 0x4037D9B1_B9CFB235_2A1FC21C_6AFF6160_43F42582_B5DACFEA_14DE1C7D_923CF089);
    NextAbscissaS(148, 0x4037D9B1_B9CFB235_2A1FC21C_6AFF6160_43F42582_B5DACFEA_14DE1C7D_923CF089, 0xE338B0BD_CCBF442E_EF0E405A_91C7896F_799D7F80_9D6B1290_EEB15957_2F9B7696);
    NextAbscissaS(149, 0xE338B0BD_CCBF442E_EF0E405A_91C7896F_799D7F80_9D6B1290_EEB15957_2F9B7696, 0x4E1E9025_9A5F3188_8020BA71_AF6B0FDF_8A47D9D5_DE52CE82_BD10B08F_5C7B7C91);
    NextAbscissaS(150, 0x4E1E9025_9A5F3188_8020BA71_AF6B0FDF_8A47D9D5_DE52CE82_BD10B08F_5C7B7C91, 0x81C2EE7D_C9378B6B_0B438554_9F4371EE_83F28F46_385E9ADC_D5A20EBE_3512C57F);
    NextAbscissaS(151, 0x81C2EE7D_C9378B6B_0B438554_9F4371EE_83F28F46_385E9ADC_D5A20EBE_3512C57F, 0x1919DE23_FEFE824A_C067210B_040A60EA_F8BE7E18_04E10BA5_943B2802_CAF403E4);
    NextAbscissaS(152, 0x1919DE23_FEFE824A_C067210B_040A60EA_F8BE7E18_04E10BA5_943B2802_CAF403E4, 0xF88A691C_B8342117_04771FD5_8A1F17DB_8CB8E5EA_19791F87_EF2E2CE6_E2190720);
    NextAbscissaS(153, 0xF88A691C_B8342117_04771FD5_8A1F17DB_8CB8E5EA_19791F87_EF2E2CE6_E2190720, 0xDC83C5F4_8B6940BA_5CE94697_BC27771B_B01E1601_0D7ABA88_92BC8725_FACD0146);
    NextAbscissaS(154, 0xDC83C5F4_8B6940BA_5CE94697_BC27771B_B01E1601_0D7ABA88_92BC8725_FACD0146, 0xC8D75ABD_7EDAEB53_375D7210_4FC432AF_AB02A9E1_B0C11616_A6B01024_44E42BF9);
    NextAbscissaS(155, 0xC8D75ABD_7EDAEB53_375D7210_4FC432AF_AB02A9E1_B0C11616_A6B01024_44E42BF9, 0xCD5E2F1F_03B7FE25_3244B68A_5E160D57_063A8F06_EA75632C_9008B172_576472EA);
    NextAbscissaS(156, 0xCD5E2F1F_03B7FE25_3244B68A_5E160D57_063A8F06_EA75632C_9008B172_576472EA, 0x0CA3EE45_57320770_AF32B047_41C6EA3C_540392BA_6D194010_ACB8FEE1_E39689A7);
    NextAbscissaS(157, 0x0CA3EE45_57320770_AF32B047_41C6EA3C_540392BA_6D194010_ACB8FEE1_E39689A7, 0x87B3F8E4_7E88AF50_5BEAE196_1365272F_33856129_CEAA2DB5_5DA7C33C_8A91515C);
    NextAbscissaS(158, 0x87B3F8E4_7E88AF50_5BEAE196_1365272F_33856129_CEAA2DB5_5DA7C33C_8A91515C, 0x924D02EE_1551607D_631279AE_305FE225_2DD6DA34_4AE6DB95_2A0D8EE7_6CE6E834);
  }

  lemma Abscissas8()
    ensures ClearTo(171, 0x04DF1AB1_8AC63393_068750B5_D024C6DD_EAA37389_07501398_D9EA77F4_93D94284)
  {
    hide PointAtS, ClearTo;
    Abscissas7();
    NextAbscissaS(159, 0x924D02EE_1551607D_631279AE_305FE225_2DD6DA34_4AE6DB95_2A0D8EE7_6CE6E834, 0x6EBC77D2_60385D99_28DE52C3_1EA454DA_8CB93591_16485B8F_0A386A9F_C6054739);
    NextAbscissaS(160, 0x6EBC77D2_60385D99_28DE52C3_1EA454DA_8CB93591_16485B8F_0A386A9F_C6054739, 0xC1C8AA29_2F776994_C2BEE4CC_2E1518CF_F5C48A21_BD3B754B_6F6A485F_3DC88C78);
    NextAbscissaS(161, 0xC1C8AA29_2F776994_C2BEE4CC_2E1518CF_F5C48A21_BD3B754B_6F6A485F_3DC88C78, 0x079760B7_B058074B_5EB0F2C4_D3175BF8_DD2CCC2A_A307E7F6_6D5B816A_86F18EF1);
    NextAbscissaS(162, 0x079760B7_B058074B_5EB0F2C4_D3175BF8_DD2CCC2A_A307E7F6_6D5B816A_86F18EF1, 0x2DCBBF89_B09A5440_5BCF0899_A9D22621_FAECE7A4_BF0093C4_7A6AD3B4_767396CC);
    NextAbscissaS(163, 0x2DCBBF89_B09A5440_5BCF0899_A9D22621_FAECE7A4_BF0093C4_7A6AD3B4_767396CC, 0xD390880E_AE45D532_81D9E300_504010CC_CF36105E_2F18B878_9BF33F48_786F2D48);
    NextAbscissaS(164, 0xD390880E_AE45D532_81D9E300_504010CC_CF36105E_2F18B878_9BF33F48_786F2D48, 0xC4B55E2A_DB8A38F9_EE785992_B4D76799_C331FE26_9EE79A77_4DBE69D8_8A689DC4);
    NextAbscissaS(165, 0xC4B55E2A_DB8A38F9_EE785992_B4D76799_C331FE26_9EE79A77_4DBE69D8_8A689DC4, 0xA8239BA3_B478D322_FC344A94_6520C881_257B0C2B_06244E10_EE4B3E42_7EB80CBA);
    NextAbscissaS(166, 0xA8239BA3_B478D322_FC344A94_6520C881_257B0C2B_06244E10_EE4B3E42_7EB80CBA, 0xAC966B4B_C0F0977B_AF908686_3934CA0D_E5884E2C_829FE7F0_B1F0F6AC_ADA4655D);
    NextAbscissaS(167, 0xAC966B4B_C0F0977B_AF908686_3934CA0D_E5884E2C_829FE7F0_B1F0F6AC_ADA4655D, 0x5E934950_4EA42620_CA3B4859_A2CC1B60_517A8DFE_4D6EBF33_A85C2D62_E5416BE7);
    NextAbscissaS(168, 0x5E934950_4EA42620_CA3B4859_A2CC1B60_517A8DFE_4D6EBF33_A85C2D62_E5416BE7, 0x01CAD2EE_3E785FA0_1C9CFCFA_6CFA6F81_89B7173C_E8152D01_4F2A0A5D_77AC7CFB);
    NextAbscissaS(169, 0x01CAD2EE_3E785FA0_1C9CFCFA_6CFA6F81_89B7173C_E8152D01_4F2A0A5D_77AC7CFB, 0x8230BFC4_5974BE22_73F94B49_ACBF588A_2BDC7C9C_0532DE30_FB4D4F02_4CB38F5B);
    NextAbscissaS(170, 0x8230BFC4_5974BE22_73F94B49_ACBF588A_2BDC7C9C_0532DE30_FB4D4F02_4CB38F5B, 0x04DF1AB1_8AC63393_068750B5_D024C6DD_EAA37389_07501398_D9EA77F4_93D94284);
  }

  lemma Abscissas9()
    ensures ClearTo(183, 0xC01F2EB6_F0B49FB0_ECD76A7C_AEC4F458_2F380315_C4F0A959_880F2A86_0571DBEF)
  {
    hide PointAtS, ClearTo;
    Abscissas8();
    NextAbscissaS(171, 0x04DF1AB1_8AC63393_068750B5_D024C6DD_EAA37389_07501398_D9EA77F4_93D94284, 0xCE7D77FC_A8327DD8_4E3CFACC_0EF397BC_0F35D1E4_1E301D28_EF5F6017_EE56CB8D);
    NextAbscissaS(172, 0xCE7D77FC_A8327DD8_4E3CFACC_0EF397BC_0F35D1E4_1E301D28_EF5F6017_EE56CB8D, 0x32550707_69DD3DB1_7884EF76_DA5C94DD_6FBA3E7F_B1F7A327_D6446E6D_08C1553A);
    NextAbscissaS(173, 0x32550707_69DD3DB1_7884EF76_DA5C94DD_6FBA3E7F_B1F7A327_D6446E6D_08C1553A, 0x9B4AA233_FF7D091E_175F12C5_3BE5E9F5_E79866D8_1BD11477_78449479_96FCC6D9);
    NextAbscissaS(174, 0x9B4AA233_FF7D091E_175F12C5_3BE5E9F5_E79866D8_1BD11477_78449479_96FCC6D9, 0xA693FC31_C3520C0F_3F6B6133_743C3D66_C092144D_9DDCD019_BAB433F0_04820E0B);
    NextAbscissaS(175, 0xA693FC31_C3520C0F_3F6B6133_743C3D66_C092144D_9DDCD019_BAB433F0_04820E0B, 0x62B69D4C_81A49287_6E94138C_56284BEA_19C30A46_1C8A5EB0_646B972F_F96D6D84);
    NextAbscissaS(176, 0x62B69D4C_81A49287_6E94138C_56284BEA_19C30A46_1C8A5EB0_646B972F_F96D6D84, 0xE53B7BBC_9D1A33FE_71C0D234_6D8282D6_71A190D4_B7823438_83B4C3B7_58722FB5);
    NextAbscissaS(177, 0xE53B7BBC_9D1A33FE_71C0D234_6D8282D6_71A190D4_B7823438_83B4C3B7_58722FB5, 0x3895901E_B3FE2C23_9C37F2BC_6918AF2C_4B1F097F_40153B54_12758766_A0C94450);
    NextAbscissaS(178, 0x3895901E_B3FE2C23_9C37F2BC_6918AF2C_4B1F097F_40153B54_12758766_A0C94450, 0xEEBF33A9_D9522B3A_2D5198EA_8DCE7494_D6A2FE76_8A9474DF_30BB8694_07B7431A);
    NextAbscissaS(179, 0xEEBF33A9_D9522B3A_2D5198EA_8DCE7494_D6A2FE76_8A9474DF_30BB8694_07B7431A, 0xCB9038AE_154C0065_9D755DEA_676A1490_B187D568_062438E0_DDFE7BEC_1B54A625);
    NextAbscissaS(180, 0xCB9038AE_154C0065_9D755DEA_676A1490_B187D568_062438E0_DDFE7BEC_1B54A625, 0x263F1F24_74E652D0_7123DD50_825291B7_4B7243B2_E24B5839_6C80C285_F619FB2C);
    NextAbscissaS(181, 0x263F1F24_74E652D0_7123DD50_825291B7_4B7243B2_E24B5839_6C80C285_F619FB2C, 0x588E7AD4_A7209D83_CC85D4A8_87B5AC1C_B731F1DF_779A15C8_DD2AAEED_3754E2F3);
    NextAbscissaS(182, 0x588E7AD4_A7209D83_CC85D4A8_87B5AC1C_B731F1DF_779A15C8_DD2AAEED_3754E2F3, 0xC01F2EB6_F0B49FB0_ECD76A7C_AEC4F458_2F380315_C4F0A959_880F2A86_0571DBEF);
  }

  lemma Abscissas10()
    ensures ClearTo(195, 0x84BDF005_B19C1F3A_4D010E35_9AAF452D_7AD092DB_CE356C0B_ADB19A91_6B823B2C)
  {
    hide PointAtS, ClearTo;
    Abscissas9();
    NextAbscissaS(183, 0xC01F2EB6_F0B49FB0_ECD76A7C_AEC4F458_2F380315_C4F0A959_880F2A86_0571DBEF, 0x0A50F317_C0081317_C9854D6D_25A8D519_EF9E4414_2F322FDD_A07BEAAC_48723CB7);
    NextAbscissaS(184, 0x0A50F317_C0081317_C9854D6D_25A8D519_EF9E4414_2F322FDD_A07BEAAC_48723CB7, 0xD5E2C55F_5223D79D_5F61A14E_C3E1FAEA_A998B179_D033E560_CDCB58AC_8F789758);
    NextAbscissaS(185, 0xD5E2C55F_5223D79D_5F61A14E_C3E1FAEA_A998B179_D033E560_CDCB58AC_8F789758, 0x7756087A_E86840A1_2823E0C8_3624BD5A_6738430C_0A5320E3_B089C11F_04ECBB41);
    NextAbscissaS(186, 0x7756087A_E86840A1_2823E0C8_3624BD5A_6738430C_0A5320E3_B089C11F_04ECBB41, 0x8410CC6A_0393FC99_9C626E40_A584F5AA_B7E23E83_213A7D7F_5CEEBB68_3ED20B9D);
    NextAbscissaS(187, 0x8410CC6A_0393FC99_9C626E40_A584F5AA_B7E23E83_213A7D7F_5CEEBB68_3ED20B9D, 0x0C0E54CB_AC5CFF7A_BE1722D9_A7EDBD96_6B5EFDD8_34CA9982_9626E58D_847AD97B);
    NextAbscissaS(188, 0x0C0E54CB_AC5CFF7A_BE1722D9_A7EDBD96_6B5EFDD8_34CA9982_9626E58D_847AD97B, 0xD3A486BA_A2BDF836_3A2D1F9A_62CA4D4B_9C1E0E16_FDA45011_7367B793_4AF19259);
    NextAbscissaS(189, 0xD3A486BA_A2BDF836_3A2D1F9A_62CA4D4B_9C1E0E16_FDA45011_7367B793_4AF19259, 0x168FCDC8_A5C49F28_E776DDF0_8DABD31E_9F31E78A_5F64D477_D78120D6_7B9540B1);
    NextAbscissaS(190, 0x168FCDC8_A5C49F28_E776DDF0_8DABD31E_9F31E78A_5F64D477_D78120D6_7B9540B1, 0xDEACAE41_4434852F_4E5C2672_3A1CD6B3_FFB677E3_D1CBD41E_2EC46206_52A62260);
    NextAbscissaS(191, 0xDEACAE41_4434852F_4E5C2672_3A1CD6B3_FFB677E3_D1CBD41E_2EC46206_52A62260, 0x229C978C_622CFF50_51BF6AD7_D3D5AA6A_F9294A35_96EA8959_60D56A39_4B06EB63);
    NextAbscissaS(192, 0x229C978C_622CFF50_51BF6AD7_D3D5AA6A_F9294A35_96EA8959_60D56A39_4B06EB63, 0xA7C893DC_4049CACA_E8932A47_8481477D_289E178B_C7EDF766_198158FE_35CF21AE);
    NextAbscissaS(193, 0xA7C893DC_4049CACA_E8932A47_8481477D_289E178B_C7EDF766_198158FE_35CF21AE, 0xCA58379C_1BD8F842_38384182_9783E84B_66C1F875_F29DE38B_D42DECAB_8D209C41);
    NextAbscissaS(194, 0xCA58379C_1BD8F842_38384182_9783E84B_66C1F875_F29DE38B_D42DECAB_8D209C41, 0x84BDF005_B19C1F3A_4D010E35_9AAF452D_7AD092DB_CE356C0B_ADB19A91_6B823B2C);
  }

  lemma Abscissas11()
    ensures ClearTo(207, 0x9E15B26C_955C494A_5F2183AC_5E8C0F0D_AB55933D_389F9DD1_BCB56C47_DDBF3BCD)
  {
    hide PointAtS, ClearTo;
    Abscissas10();
    NextAbscissaS(195, 0x84BDF005_B19C1F3A_4D010E35_9AAF452D_7AD092DB_CE356C0B_ADB19A91_6B823B2C, 0x8402CA9B_B90F0AD1_463EA128_E47BDF5C_CD6F8684_F6B49462_21BC87E5_7BE95F30);
    NextAbscissaS(196, 0x8402CA9B_B90F0AD1_463EA128_E47BDF5C_CD6F8684_F6B49462_21BC87E5_7BE95F30, 0x07B87FDD_747F48B9_82837863_9C6B8023_8BF9BAB4_B0797481_1B50992C_23C4C920);
    NextAbscissaS(197, 0x07B87FDD_747F48B9_82837863_9C6B8023_8BF9BAB4_B0797481_1B50992C_23C4C920, 0x969A2916_C2CBB06B_626793B4_B8607479_8991B4A3_4D2D6B1B_9D7DCA9D_2B447729);
    NextAbscissaS(198, 0x969A2916_C2CBB06B_626793B4_B8607479_8991B4A3_4D2D6B1B_9D7DCA9D_2B447729, 0x4B9BAAF3_6404FD89_D500EA6F_8FA7A855_C23917F6_47042D60_16D04C26_5B02C028);
    NextAbscissaS(199, 0x4B9BAAF3_6404FD89_D500EA6F_8FA7A855_C23917F6_47042D60_16D04C26_5B02C028, 0x9A2676EB_0D0E8AEC_B30BEDD8_279FBE13_21FFF940_E30E537C_74F6EA9E_06605CDF);
    NextAbscissaS(200, 0x9A2676EB_0D0E8AEC_B30BEDD8_279FBE13_21FFF940_E30E537C_74F6EA9E_06605CDF, 0x69E639D4_3914C526_86DC3E98_A0259091_AA6847F6_574849B1_3AE5347F_AC21C738);
    NextAbscissaS(201, 0x69E639D4_3914C526_86DC3E98_A0259091_AA6847F6_574849B1_3AE5347F_AC21C738, 0x2A8F1ACF_0CB589E3_2892516B_039699A1_C7E18A05_DBEAC8E3_64ECE9F5_1F2C0248);
    NextAbscissaS(202, 0x2A8F1ACF_0CB589E3_2892516B_039699A1_C7E18A05_DBEAC8E3_64ECE9F5_1F2C0248, 0xCFAC72A7_ECDE7A71_09DCD4A0_76C8D412_DD0CB9D4_93899937_453CBD20_D5577A81);
    NextAbscissaS(203, 0xCFAC72A7_ECDE7A71_09DCD4A0_76C8D412_DD0CB9D4_93899937_453CBD20_D5577A81, 0x2B9A9AD3_E0D16D3F_13951F9A_17EF86E4_326B96DA_2C809132_E345E885_A00B23CB);
    NextAbscissaS(204, 0x2B9A9AD3_E0D16D3F_13951F9A_17EF86E4_326B96DA_2C809132_E345E885_A00B23CB, 0x04F4E6A7_12537CA3_E2FECFCB_59B00C00_F4FDA3FC_58B19C5E_41B3E326_DBD95DE3);
    NextAbscissaS(205, 0x04F4E6A7_12537CA3_E2FECFCB_59B00C00_F4FDA3FC_58B19C5E_41B3E326_DBD95DE3, 0xDEC7FF48_CABC0EE4_4E7ACA15_5361F136_A7275DA9_007496D3_FECA3A3E_997E23F1);
    NextAbscissaS(206, 0xDEC7FF48_CABC0EE4_4E7ACA15_5361F136_A7275DA9_007496D3_FECA3A3E_997E23F1, 0x9E15B26C_955C494A_5F2183AC_5E8C0F0D_AB55933D_389F9DD1_BCB56C47_DDBF3BCD);
  }

  lemma Abscissas12()
    ensures ClearTo(219, 0x6C1209B9_9AD79B9D_26E6EED4_AB76FFDE_2582A143_5F00281B_833FA19F_88C6230D)
  {
    hide PointAtS, ClearTo;
    Abscissas11();
    NextAbscissaS(207, 0x9E15B26C_955C494A_5F2183AC_5E8C0F0D_AB55933D_389F9DD1_BCB56C47_DDBF3BCD, 0x809B7C7A_6DC4EC39_1DA13CC3_BC4CA5A7_4EFB5B5D_010A005D_264E6747_07D8FB29);
    NextAbscissaS(208, 0x809B7C7A_6DC4EC39_1DA13CC3_BC4CA5A7_4EFB5B5D_010A005D_264E6747_07D8FB29, 0xB9D80498_3182D190_F29B13C1_BE69F6AC_2BB7AA51_E6B1A9AD_1557318D_F1539655);
    NextAbscissaS(209, 0xB9D80498_3182D190_F29B13C1_BE69F6AC_2BB7AA51_E6B1A9AD_1557318D_F1539655, 0xED954C18_57824316_D42B235E_123AF009_004F6E74_165C78E4_7662A828_6401383A);
    NextAbscissaS(210, 0xED954C18_57824316_D42B235E_123AF009_004F6E74_165C78E4_7662A828_6401383A, 0x82678454_08F53E86_37199D4C_2DCE31B9_74B066ED_1CBA660D_BB4B7C9E_F9005B3A);
    NextAbscissaS(211, 0x82678454_08F53E86_37199D4C_2DCE31B9_74B066ED_1CBA660D_BB4B7C9E_F9005B3A, 0x536CE967_6E0B161C_17EF8569_E6123C7B_376D2C1A_05D70CEE_3E711E5B_50A43BE3);
    NextAbscissaS(212, 0x536CE967_6E0B161C_17EF8569_E6123C7B_376D2C1A_05D70CEE_3E711E5B_50A43BE3, 0x49FA8B94_F97F1804_8ED78BCB_C6CEE98F_9DED5824_2E2181C6_8DFA2AC7_BC7AD0E3);
    NextAbscissaS(213, 0x49FA8B94_F97F1804_8ED78BCB_C6CEE98F_9DED5824_2E2181C6_8DFA2AC7_BC7AD0E3, 0xA66B6394_CFBC4E4B_6184AC1D_0ED25DEA_F3069304_3D108222_6A439814_D98A3984);
    NextAbscissaS(214, 0xA66B6394_CFBC4E4B_6184AC1D_0ED25DEA_F3069304_3D108222_6A439814_D98A3984, 0x7CF14A3A_B1F95020_04CF62FA_D1250127_264C841D_68EC77CA_D05BC734_BB30B025);
    NextAbscissaS(215, 0x7CF14A3A_B1F95020_04CF62FA_D1250127_264C841D_68EC77CA_D05BC734_BB30B025, 0xA20D5EA2_D93C40FB_E0C33DBE_076974DE_E99ADB77_2C284666_13D2FCFE_6750CC70);
    NextAbscissaS(216, 0xA20D5EA2_D93C40FB_E0C33DBE_076974DE_E99ADB77_2C284666_13D2FCFE_6750CC70, 0xAE372C56_A99E3540_3AE639EC_94352B27_A1A62521_EA0330B4_8655123B_5030A44F);
    NextAbscissaS(217, 0xAE372C56_A99E3540_3AE639EC_94352B27_A1A62521_EA0330B4_8655123B_5030A44F, 0x24D3E833_157E41FC_3138A75C_47EB68C9_66A217A0_CBA7DA67_57159B69_794BC2B3);
    NextAbscissaS(218, 0x24D3E833_157E41FC_3138A75C_47EB68C9_66A217A0_CBA7DA67_57159B69_794BC2B3, 0x6C1209B9_9AD79B9D_26E6EED4_AB76FFDE_2582A143_5F00281B_833FA19F_88C6230D);
  }

  lemma Abscissas13()
    ensures ClearTo(231, 0x9D37D3AA_CA31EDAD_E532F093_131F1E31_D07301F4_9BC68B9F_48C65A03_06D8713E)
  {
    hide PointAtS, ClearTo;
    Abscissas12();
    NextAbscissaS(219, 0x6C1209B9_9AD79B9D_26E6EED4_AB76FFDE_2582A143_5F00281B_833FA19F_88C6230D, 0x1DCD9DAA_62F125E7_8D83EC5D_950919BF_F8DBC5A9_704C61B3_6EA3FC25_2A15708E);
    NextAbscissaS(220, 0x1DCD9DAA_62F125E7_8D83EC5D_950919BF_F8DBC5A9_704C61B3_6EA3FC25_2A15708E, 0x88C76B4B_92429063_4132C1AA_C5D86891_DF483137_05C9D45C_35A82D52_AD790240);
    NextAbscissaS(221, 0x88C76B4B_92429063_4132C1AA_C5D86891_DF483137_05C9D45C_35A82D52_AD790240, 0xE42360D5_D46A0C3A_787E814F_F56B63BD_54879EEC_49228368_73DBC6F8_A7A26C37);
    NextAbscissaS(222, 0xE42360D5_D46A0C3A_787E814F_F56B63BD_54879EEC_49228368_73DBC6F8_A7A26C37, 0xE304B213_F38FD7CC_D44DDB3F_08222764_3A436244_34C84928_B9479D95_57923434);
    NextAbscissaS(223, 0xE304B213_F38FD7CC_D44DDB3F_08222764_3A436244_34C84928_B9479D95_57923434, 0x66C744AA_9668C8E0_860A4ABB_C8DCE484_2363031D_D10E560C_C067A6A3_0C50DB44);
    NextAbscissaS(224, 0x66C744AA_9668C8E0_860A4ABB_C8DCE484_2363031D_D10E560C_C067A6A3_0C50DB44, 0xD20B7671_F06B11B2_B8B839E8_082569C5_5BE23A64_4EF792E7_7F67C462_CAF45352);
    NextAbscissaS(225, 0xD20B7671_F06B11B2_B8B839E8_082569C5_5BE23A64_4EF792E7_7F67C462_CAF45352, 0xF269C416_C49BCB85_C99A7D78_69FE4FAF_D4C1118D_789EED2A_23E0DD8E_DD893775);
    NextAbscissaS(226, 0xF269C416_C49BCB85_C99A7D78_69FE4FAF_D4C1118D_789EED2A_23E0DD8E_DD893775, 0x3B4CBCEE_FB56F02F_AB4A1E01_2B816E5A_8E6D15FD_7E3B426C_655CB9A3_16937BEC);
    NextAbscissaS(227, 0x3B4CBCEE_FB56F02F_AB4A1E01_2B816E5A_8E6D15FD_7E3B426C_655CB9A3_16937BEC, 0x7F95CD14_A1BDA398_7A0BC1F5_59719DDF_26177691_BDF6B596_5BA64C68_997C7D88);
    NextAbscissaS(228, 0x7F95CD14_A1BDA398_7A0BC1F5_59719DDF_26177691_BDF6B596_5BA64C68_997C7D88, 0x6C0044C3_B306F8E2_144D9E00_377A76C0_F8112A5C_4829DA8A_CAABB8BA_4A191FD3);
    NextAbscissaS(229, 0x6C0044C3_B306F8E2_144D9E00_377A76C0_F8112A5C_4829DA8A_CAABB8BA_4A191FD3, 0x010369CD_8C17591A_5E15A137_38239308_EB70CC19_DE86DFCC_414A22FF_95AE55DC);
    NextAbscissaS(230, 0x010369CD_8C17591A_5E15A137_38239308_EB70CC19_DE86DFCC_414A22FF_95AE55DC, 0x9D37D3AA_CA31EDAD_E532F093_131F1E31_D07301F4_9BC68B9F_48C65A03_06D8713E);
  }

  lemma Abscissas14()
    ensures ClearTo(243, 0xAD410D8D_9C635760_DC9DD8C0_1D4A8C48_13917A77_B79E4683_619D5479_BB85E201)
  {
    hide PointAtS, ClearTo;
    Abscissas13();
    NextAbscissaS(231, 0x9D37D3AA_CA31EDAD_E532F093_131F1E31_D07301F4_9BC68B9F_48C65A03_06D8713E, 0xC020941E_F4DA08D4_7064120E_5BDAE2DF_36937DE0_997E0B25_24E5A26E_6718EFF3);
    NextAbscissaS(232, 0xC020941E_F4DA08D4_7064120E_5BDAE2DF_36937DE0_997E0B25_24E5A26E_6718EFF3, 0x0ECEA043_50C6937E_0026889C_22BC4938_BE46EFB7_542394E6_5688BF8B_DBF31DD8);
    NextAbscissaS(233, 0x0ECEA043_50C6937E_0026889C_22BC4938_BE46EFB7_542394E6_5688BF8B_DBF31DD8, 0x4CFF6706_4F584DA0_4E8C526F_7455B76C_4E1E110F_57A18613_806815A4_8CF42C24);
    NextAbscissaS(234, 0x4CFF6706_4F584DA0_4E8C526F_7455B76C_4E1E110F_57A18613_806815A4_8CF42C24, 0xE7376A9D_4A46D752_89566130_0CA97DF7_44DA18CA_BC12E9AA_98DBAFA2_FB2CDC78);
    NextAbscissaS(235, 0xE7376A9D_4A46D752_89566130_0CA97DF7_44DA18CA_BC12E9AA_98DBAFA2_FB2CDC78, 0xB2FDC815_AA8D2663_1C0F7E2C_EB6A7861_35683054_6663D063_BF1EAE89_E9023126);
    NextAbscissaS(236, 0xB2FDC815_AA8D2663_1C0F7E2C_EB6A7861_35683054_6663D063_BF1EAE89_E9023126, 0x2F4F67F2_001B6416_170B8230_91085333_8404978A_A64A2C55_5FAB722A_906F571E);
    NextAbscissaS(237, 0x2F4F67F2_001B6416_170B8230_91085333_8404978A_A64A2C55_5FAB722A_906F571E, 0x465583E2_E1E8D9FD_831AC9BE_5ED7CCF3_02EE419C_22F06850_8E458660_F5BFBC94);
    NextAbscissaS(238, 0x465583E2_E1E8D9FD_831AC9BE_5ED7CCF3_02EE419C_22F06850_8E458660_F5BFBC94, 0x074EE720_BFD288D6_D75721F3_F781BDBD_55913965_00E2817E_5E6487CD_AAFD14E3);
    NextAbscissaS(239, 0x074EE720_BFD288D6_D75721F3_F781BDBD_55913965_00E2817E_5E6487CD_AAFD14E3, 0x76D2933B_F642C1E2_4605FA89_A5A7F53E_1887BB0D_1E8E96F2_35A54DAF_87A81D69);
    NextAbscissaS(240, 0x76D2933B_F642C1E2_4605FA89_A5A7F53E_1887BB0D_1E8E96F2_35A54DAF_87A81D69, 0x0FBF705F_D91FAFFE_BEE04895_6E39C06C_D358CEF0_BEF442DF_B3CE1CD3_4CC2E7F6);
    NextAbscissaS(241, 0x0FBF705F_D91FAFFE_BEE04895_6E39C06C_D358CEF0_BEF442DF_B3CE1CD3_4CC2E7F6, 0x19B9E814_8B33C0E0_7F7D2FEB_563BA15D_58A3069C_90AA0D26_81CE3F71_913EF0D4);
    NextAbscissaS(242, 0x19B9E814_8B33C0E0_7F7D2FEB_563BA15D_58A3069C_90AA0D26_81CE3F71_913EF0D4, 0xAD410D8D_9C635760_DC9DD8C0_1D4A8C48_13917A77_B79E4683_619D5479_BB85E201);
  }

  lemma Abscissas15()
    ensures ClearTo(255, 0x3A9ED373_6EED3EEC_9AEB5AC0_21B54652_56817B1F_08DE6CD0_FBCEE548_BA044BB5)
  {
    hide PointAtS, ClearTo;
    Abscissas14();
    NextAbscissaS(243, 0xAD410D8D_9C635760_DC9DD8C0_1D4A8C48_13917A77_B79E4683_619D5479_BB85E201, 0x697927B0_C4D6F784_AF235FB8_D54F3081_64593AB5_2182CB48_B65F74F5_B8CBE638);
    NextAbscissaS(244, 0x697927B0_C4D6F784_AF235FB8_D54F3081_64593AB5_2182CB48_B65F74F5_B8CBE638, 0x0B9076B8_111480FD_5F95BC3E_DFD426F0_F53059A1_675E9256_973A2EFF_AA977A2D);
    NextAbscissaS(245, 0x0B9076B8_111480FD_5F95BC3E_DFD426F0_F53059A1_675E9256_973A2EFF_AA977A2D, 0xE4F323AA_8B8E12FC_C7A1F39F_3A3E807E_EB736818_59339FA7_EB361121_AEED230D);
    NextAbscissaS(246, 0xE4F323AA_8B8E12FC_C7A1F39F_3A3E807E_EB736818_59339FA7_EB361121_AEED230D, 0xF351DB29_607BA135_284457DB_061CCED5_DC126671_E1845769_065A32CF_2A7469C4);
    NextAbscissaS(247, 0xF351DB29_607BA135_284457DB_061CCED5_DC126671_E1845769_065A32CF_2A7469C4, 0xCB25841A_B9A2F72C_FFF4EEA9_C0AB5405_396450ED_002BCF59_17F68DAA_BB085212);
    NextAbscissaS(248, 0xCB25841A_B9A2F72C_FFF4EEA9_C0AB5405_396450ED_002BCF59_17F68DAA_BB085212, 0x77E77361_F340B8E1_B0C5AF9A_AAED6DA8_286E3C7B_115AAFE6_B6A9AA96_65C035F1);
    NextAbscissaS(249, 0x77E77361_F340B8E1_B0C5AF9A_AAED6DA8_286E3C7B_115AAFE6_B6A9AA96_65C035F1, 0xDDF257F6_13F14E19_6021C8C9_6F388BC4_6E10082D_4614998C_27A3EF6F_D36F7FC8);
    NextAbscissaS(250, 0xDDF257F6_13F14E19_6021C8C9_6F388BC4_6E10082D_4614998C_27A3EF6F_D36F7FC8, 0xC7B5502C_E373C9D8_996C8CA0_2B8E37CF_D453D70B_1823D83A_CADD5623_B37C2B65);
    NextAbscissaS(251, 0xC7B5502C_E373C9D8_996C8CA0_2B8E37CF_D453D70B_1823D83A_CADD5623_B37C2B65, 0x5A13403A_91C0EB5A_C9F47FA0_AE45B5C7_EE643116_494587AC_374D3796_0617A071);
    NextAbscissaS(252, 0x5A13403A_91C0EB5A_C9F47FA0_AE45B5C7_EE643116_494587AC_374D3796_0617A071, 0x21D8A03C_127C2291_3C3E396E_D7B900D2_5B7575DE_BBCF4430_E63AFEDA_AF27EDD8);
    NextAbscissaS(253, 0x21D8A03C_127C2291_3C3E396E_D7B900D2_5B7575DE_BBCF4430_E63AFEDA_AF27EDD8, 0x455E5FEB_63493F91_5F216F23_1F30E628_89E73083_34652C75_0EBD1ACC_5B71585C);
    NextAbscissaS(254, 0x455E5FEB_63493F91_5F216F23_1F30E628_89E73083_34652C75_0EBD1ACC_5B71585C, 0x3A9ED373_6EED3EEC_9AEB5AC0_21B54652_56817B1F_08DE6CD0_FBCEE548_BA044BB5);
  }

  // ------------------------------------------------------------- the last offset

  /** S - 2^63 S. */
  function R(): CurvePoint {
    Multiple(1 - Two(63), S())
  }

  lemma PointR()
    ensures R() == Affine(0x87973EDC_B9E1E158_7E492E33_444F1EF9_35386607_5B97ADE4_47713D0F_2D70A2BC,
                          0xE3192F6E_3A1E5E02_D3AD2E0E_79B8293E_451E912E_F4497157_D196297A_20FB53A7)
  {
    hide Multiple, Doubling, Two, AddPoints, OnCurve;
    Points6();
    StartOfChain(); SIs();
    DoublingIsMultiple(S(), 63);
    SmallMultiples(S());
    NegatedMultiple(Two(63), S());
    MultiplePlus(1, -Two(63), S());
    var p, q: CurvePoint := S(), Multiple(-Two(63), S());
    CurvePointInRange(p, 7); CurvePointInRange(q, 7);
    CongruentResidue(0 - 0x63045ABF_9C3DDA4C_2738786D_08AA889E_E7FEAAE2_53831647_0BB4E029_50C3C34F, 0x9CFBA540_63C225B3_D8C78792_F7557761_1801551D_AC7CE9B8_F44B1FD5_AF3C38E0);
    LeadsToSum(0x7F6A4D38_A4EB9F97_F581336B_5E96802D_0B94D575_A6302832_12C8135E_90C525DF, p, q,
      0x87973EDC_B9E1E158_7E492E33_444F1EF9_35386607_5B97ADE4_47713D0F_2D70A2BC,
      0xE3192F6E_3A1E5E02_D3AD2E0E_79B8293E_451E912E_F4497157_D196297A_20FB53A7);
  }

  lemma AbscissasOfR()
    ensures AllClear(R(), 0, 3)
  {
    hide PointAt, R, Abscissa, AllClear, OnCurve;
    PointR();
    PointAtIntro(R(), 0, 0x87973EDC_B9E1E158_7E492E33_444F1EF9_35386607_5B97ADE4_47713D0F_2D70A2BC, 0xE3192F6E_3A1E5E02_D3AD2E0E_79B8293E_451E912E_F4497157_D196297A_20FB53A7);
    FirstAbscissa(R(), 0, 0x87973EDC_B9E1E158_7E492E33_444F1EF9_35386607_5B97ADE4_47713D0F_2D70A2BC, 0xE3192F6E_3A1E5E02_D3AD2E0E_79B8293E_451E912E_F4497157_D196297A_20FB53A7);
    NextAbscissa(R(), 0, 0, 0x87973EDC_B9E1E158_7E492E33_444F1EF9_35386607_5B97ADE4_47713D0F_2D70A2BC,
                 0x4B82E023_245CB50D_709266D2_F0CAF3C7_AF2E404D_FFA65FDC_C6635292_43E2D7D0);
    NextAbscissa(R(), 0, 1, 0x4B82E023_245CB50D_709266D2_F0CAF3C7_AF2E404D_FFA65FDC_C6635292_43E2D7D0,
                 0x8B466F17_3D8FB1C4_8F03EED1_BE9BF478_A1C90A8A_A88E0D8C_8157E6C6_1C0E3CB8);
    NextAbscissa(R(), 0, 2, 0x8B466F17_3D8FB1C4_8F03EED1_BE9BF478_A1C90A8A_A88E0D8C_8157E6C6_1C0E3CB8,
                 0x4AD9D400_5C0A15AB_5D0A0B1C_B3EB86E3_A7B275AA_61D1AEA5_D56CE890_163A9AA0);
  }

  lemma PointAtIntro(b: CurvePoint, k: nat, x: int, y: int)
    requires b == Affine(x, y) && k == 0
    ensures PointAt(b, k, x, y)
  {
  }

  // ------------------------------------------------------------- what follows for the table

  /** Points of the same abscissa are equal or opposite. */
  lemma SameAbscissa(p: CurvePoint, q: CurvePoint)
    requires p.Affine? && q.Affine? && p.x == q.x
    ensures p == q || p == Negate(q)
  {
    hide Res, OnCurve, Zero;
    CurvePointInRange(p, 7); CurvePointInRange(q, 7);
    CurveEquation(p, 7); CurveEquation(q, 7);
    SquaresDiffer(p.y, q.y);
    ZeroDifference(p.y, q.y);
    if p.y != q.y {
      NegateIsZeroSum(q.y);
      Combine2(p.y - SubP(0, q.y), 1, p.y + q.y, -1, SubP(0, q.y) + q.y);
      NegateTwice(q);
      ZeroDifference(p.y, SubP(0, q.y));
    }
  }

  lemma LastAbscissa()
    ensures Multiple(Two(255), S()).Affine? && Multiple(Two(255), S()).x == 0x3A9ED373_6EED3EEC_9AEB5AC0_21B54652_56817B1F_08DE6CD0_FBCEE548_BA044BB5
  {
    hide Two, Multiple, Doubling, S, AllClear, OnCurve;
    Abscissas15();
    DoublingIsMultiple(S(), 255);
  }

  lemma OffsetIsMultiple() returns (sign: int)
    ensures (sign == 1 || sign == -1) && FirstOffset() == Multiple(sign * Two(255), S())
  {
    hide Two, Multiple, S, FirstOffset, Negate, OnCurve;
    LastAbscissa();
    FirstOffsetAbscissa();
    SameAbscissa(FirstOffset(), Multiple(Two(255), S()));
    NegatedMultiple(Two(255), S());
    sign := if FirstOffset() == Multiple(Two(255), S()) then 1 else -1;
  }

  lemma FirstOffsetAbscissa()
    ensures FirstOffset().Affine? && FirstOffset().x == 0x3A9ED373_6EED3EEC_9AEB5AC0_21B54652_56817B1F_08DE6CD0_FBCEE548_BA044BB5
  {
    hide AddPoints, OnCurve;
    PointDecoding.NumsIsOnCurve(); GeneratorOnCurve();
    var p: CurvePoint := Affine(PointDecoding.NUMS_X, PointDecoding.NUMS_Y);
    LeadsToSum(0x9B9036BD_9012AF42_04FB1EDC_4790C9C0_AEBBCC6E_E7F18C80_B81CEAB5_A3A43D58, p, G(),
      0x3A9ED373_6EED3EEC_9AEB5AC0_21B54652_56817B1F_08DE6CD0_FBCEE548_BA044BB5,
      0x7BCC5928_BDC9C023_DFC663B8_9E4F6969_AB751798_8E600EC1_D242010C_45C7974A);
    SecpAdd(p, G());
  }

  /** An odd multiple of G is not opposite to a clear point, also after doublings. */
  lemma NoRelation(m: int, k: nat, n: nat, sign: int, b: CurvePoint)
    requires 0 < m < 16 && m % 2 == 1 && Clear(Multiple(Two(n), b)) && (sign == 1 || sign == -1) && k < 256
    ensures LinearCombination(m * Two(k), G(), sign * Two(n + k), b) != Infinity
  {
    hide LinearCombination, Multiple, Two, G, AddPoints, Negate, Avoids, OnCurve;
    var q, c := Multiple(sign * Two(n), b), LinearCombination(m, G(), sign * Two(n), b);
    NegatedMultiple(Two(n), b);
    OddMultiples(m);
    CombinationOfMultiples(m, G(), sign * Two(n), b);
    if c == Infinity {
      OppositeOfSum(Multiple(m, G()), q);
      NegateKeepsAbscissa(Multiple(m, G())); NegateKeepsAbscissa(Multiple(Two(n), b));
      assert false;
    }
    PowerIsNonzero(k);
    MultipleIsNonzero(Two(k), c);
    MultipleOfCombination(Two(k), m, G(), sign * Two(n), b);
    TwoAdd(n, k);
    FactorOrder(Two(k), m, sign, Two(n));
  }

  lemma PowerIsNonzero(k: nat)
    requires k < 256
    ensures Two(k) % N != 0
  {
    hide Two;
    TwoGrows(k, 255);
    TwoTo255();
    RemainderIsUnique(Two(k), 0, Two(k), N);
  }

  lemma SameCombination(x: int, p: CurvePoint, y: int, q: CurvePoint, y': int, q': CurvePoint)
    requires Multiple(y, q) == Multiple(y', q')
    ensures LinearCombination(x, p, y, q) == LinearCombination(x, p, y', q')
  {
    hide Multiple, AddPoints;
    CombinationOfMultiples(x, p, y, q); CombinationOfMultiples(x, p, y', q');
  }

  /** An entry of the rows below 63, without the power of two that all its terms share. */
  lemma EarlyRow(m: int, k: nat)
    requires 0 < m < 16 && m % 2 == 1 && k <= 189
    ensures LinearCombination(m * Two(k), G(), 1, FirstOffset()) != Infinity
  {
    hide LinearCombination, Multiple, Two, G, S, FirstOffset, OnCurve, Clear, AddPoints;
    var sign := OffsetIsMultiple();
    SClear(255 - k);
    NoRelation(m, k, 255 - k, sign, S());
    SmallMultiples(FirstOffset());
    SameCombination(m * Two(k), G(), 1, FirstOffset(), sign * Two(255), S());
  }

  lemma SClear(n: nat)
    requires 63 <= n <= 255
    ensures Clear(Multiple(Two(n), S()))
  {
    hide Two, Multiple, Doubling, S, OnCurve, Clear;
    Abscissas15();
    DoublingIsMultiple(S(), n);
  }

  lemma RClear(n: nat)
    requires n <= 3
    ensures Clear(Multiple(Two(n), R()))
  {
    hide Two, Multiple, Doubling, R, OnCurve, Clear;
    AbscissasOfR();
    DoublingIsMultiple(R(), n);
  }

  /** An entry of row 63. */
  lemma LastRow(m: int, k: nat)
    requires 0 < m < 16 && m % 2 == 1 && 252 <= k <= 255
    ensures LinearCombination(m * Two(k), G(), 1 - Two(63), FirstOffset()) != Infinity
  {
    hide LinearCombination, Multiple, Two, G, S, FirstOffset, OnCurve, Clear, AddPoints;
    var sign := OffsetIsMultiple();
    RClear(255 - k);
    NoRelation(m, k, 255 - k, sign, R());
    MultipleOfMultiple(1 - Two(63), sign * Two(255), S());
    MultipleOfMultiple(sign * Two(255), 1 - Two(63), S());
    assert (1 - Two(63)) * (sign * Two(255)) == (sign * Two(255)) * (1 - Two(63));
    SameCombination(m * Two(k), G(), 1 - Two(63), FirstOffset(), sign * Two(255), R());
  }

  lemma FactorOrder(t: int, m: int, sign: int, u: int)
    ensures t * m == m * t && t * (sign * u) == sign * (u * t)
  {
  }

  lemma NegateKeepsAbscissa(p: Point)
    ensures Negate(p).Affine? <==> p.Affine?
    ensures p.Affine? ==> Negate(p).x == p.x
  {
  }
}
