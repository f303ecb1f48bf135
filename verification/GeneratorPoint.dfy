/** The generator of secp256k1, and points that are small combinations of it and its image under the endomorphism. */
module GeneratorPoint {
  import opened NumberTheory
  import opened Params
  import opened AbelianGroup
  import opened FieldElement
  import opened Curve
  import opened Jacobian
  import opened GroupTables
  import opened Associativity
  import opened CurveGroup

  const GX: int := 0x79BE667E_F9DCBBAC_55A06295_CE870B07_029BFCDB_2DCE28D9_59F2815B_16F81798
  const GY: int := 0x483ADA77_26A3C465_5DA4FBFC_0E1108A8_FD17B448_A6855419_9C47D08F_FB10D4B8

  lemma GeneratorOnCurve()
    ensures OnCurve(Affine(GX, GY), 7)
  {
    hide Res, Mul;
    var x, y := GX, GY;
    var x2, x3 := 0x8550E7D2_38FCF308_6BA9ADCF_0FB52A9D_E3652194_D06CB5BB_38D50229_B854FC49,
                0x4866D6A5_AB41AB2C_6BCC57CC_D3735DA5_F16F80A5_48E5E20A_44E4E9B8_118C26EB;
    MulIsProduct(x, x); MulIsProduct(x2, x); MulIsProduct(y, y);
    ResIsMod(x * x); ResIsMod(x2 * x); ResIsMod(y * y); ResOfSmall(x3 + 7); ResOfSmall(x); ResOfSmall(y);
    assert MulP(x, x) == x2;
    assert MulP(x2, x) == x3;
    assert MulP(y, y) == x3 + 7;
  }

  function G(): CurvePoint {
    GeneratorOnCurve();
    Affine(GX, GY)
  }

  /** Its image under (x, y) -> (BETA x, y). */
  function ImageOfG(): CurvePoint {
    EndomorphismOnCurve(G());
    Endomorphism(G())
  }

  /** (x, y) is the point u G + v (image of G). */
  ghost predicate Reaches(x: int, y: int, u: int, v: int) {
    Affine(x, y) == LinearCombination(u, G(), v, ImageOfG())
  }

  // ------------------------------------------------------------- steps

  /** The line of slope l through two points leads to (x2, y2). This is defined through functions that call each other for the
      same reason as Res; for numbers they compute. */
  ghost predicate Leads(l: int, x: int, y: int, x1: int, y1: int, x2: int, y2: int)
    decreases Distance(l), 2
  {
    LeadsAgain(l, x, y, x1, y1, x2, y2)
  }

  ghost predicate LeadsAgain(l: int, x: int, y: int, x1: int, y1: int, x2: int, y2: int)
    decreases Distance(l), 1
  {
    LeadsStep(l, x, y, x1, y1, x2, y2)
  }

  ghost predicate LeadsStep(l: int, x: int, y: int, x1: int, y1: int, x2: int, y2: int)
    decreases Distance(l), 0
  {
    if l < 0 then Leads(l + P, x, y, x1, y1, x2, y2)
    else
      0 <= x2 < P && 0 <= y2 < P && (l * l - x - x1 - x2) % P == 0 && (l * (x - x2) - y - y2) % P == 0
      && if x != x1 then (l * (x1 - x) - (y1 - y)) % P == 0 else y == y1 && y != 0 && (l * (2 * y) - 3 * x * x) % P == 0
  }

  lemma {:induction false} LeadsToSum(l: int, p: CurvePoint, q: CurvePoint, x2: int, y2: int)
    requires p.Affine? && q.Affine? && Leads(l, p.x, p.y, q.x, q.y, x2, y2)
    ensures AddPoints(p, q) == Affine(x2, y2)
    decreases Distance(l)
  {
    hide Res, Slope, ThirdPoint, AddPoints, OnCurve;
    assert Leads(l, p.x, p.y, q.x, q.y, x2, y2) == LeadsAgain(l, p.x, p.y, q.x, q.y, x2, y2)
        == LeadsStep(l, p.x, p.y, q.x, q.y, x2, y2);
    if l < 0 {
      LeadsToSum(l + P, p, q, x2, y2);
    } else {
      CurvePointInRange(p, 7); CurvePointInRange(q, 7);
      SlopeForm(l, p, q);
      if p.x != q.x {
        CongruentResidues(l * (q.x - p.x), q.y - p.y);
      } else {
        CongruentResidues(l * (2 * p.y), 3 * p.x * p.x);
      }
      SlopeGivesSum(l, p, q);
      ThirdPointForm(l, p, q);
      CongruentResidue(l * l - p.x - q.x, x2);
      CongruentResidue(l * (p.x - x2) - p.y, y2);
    }
  }

  lemma CongruentResidues(e: int, f: int)
    requires (e - f) % P == 0
    ensures Res(e) == Res(f)
  {
    hide Res;
    ResIsMod(e - f);
    ResOfSmall(0);
    Replace(e - f, 0, f);
  }

  lemma Doubled(x: int, y: int, u: int, v: int, l: int, x2: int, y2: int)
    requires Reaches(x, y, u, v) && Leads(l, x, y, x, y, x2, y2)
    ensures Reaches(x2, y2, 2 * u, 2 * v)
  {
    hide Leads, AddPoints, LinearCombination, G, ImageOfG, OnCurve;
    LeadsToSum(l, LinearCombination(u, G(), v, ImageOfG()), LinearCombination(u, G(), v, ImageOfG()), x2, y2);
    CombinationDoubled(u, G(), v, ImageOfG());
  }

  lemma Added(x: int, y: int, u: int, v: int, x1: int, y1: int, u1: int, v1: int, l: int, x2: int, y2: int)
    requires Reaches(x, y, u, v) && Reaches(x1, y1, u1, v1) && Leads(l, x, y, x1, y1, x2, y2)
    ensures Reaches(x2, y2, u + u1, v + v1)
  {
    hide Leads, AddPoints, LinearCombination, G, ImageOfG, OnCurve;
    LeadsToSum(l, LinearCombination(u, G(), v, ImageOfG()), LinearCombination(u1, G(), v1, ImageOfG()), x2, y2);
    CombinationsAdd(u, v, u1, v1, G(), ImageOfG());
  }

  lemma CongruentResidue(e: int, x: int)
    requires 0 <= x < P && (e - x) % P == 0
    ensures Res(e) == x
  {
    hide Res;
    ResIsMod(e - x);
    ResOfSmall(0); ResOfSmall(x);
    Replace(e - x, 0, x);
  }

  lemma Negated(x: int, y: int, u: int, v: int)
    requires Reaches(x, y, u, v) && 0 < y < P
    ensures Reaches(x, P - y, -u, -v)
  {
    hide Res, LinearCombination, G, ImageOfG;
    NegatedCombination(u, v, G(), ImageOfG());
    CongruentResidue(0 - y, P - y);
  }

  // ------------------------------------------------------------- the six units

  const BX: int := 0xBCACE2E9_9DA01887_AB0102B6_96902325_87284406_7F15E98D_A7BBA044_00B88FCB
  const BBX: int := 0xC994B697_68832BCB_FF5E9AB3_9AE8D1D3_763BBF1E_531BED98_FE51DE5E_E84F50FB
  const MY: int := 0xB7C52588_D95C3B9A_A25B0403_F1EEF757_02E84BB7_597AABE6_63B82F6F_04EF2777

  lemma Units()
    ensures Reaches(GX, GY, 1, 0) && Reaches(BX, GY, 0, 1) && Reaches(BBX, GY, -1, -1)
    ensures Reaches(GX, MY, -1, 0) && Reaches(BX, MY, 0, -1) && Reaches(BBX, MY, 1, 1)
  {
    hide Res, Mul, LinearCombination, Reaches;
    FirstUnits();
    Added(GX, GY, 1, 0, BX, GY, 0, 1, 0, BBX, MY);
    Negated(GX, GY, 1, 0); Negated(BX, GY, 0, 1); Negated(BBX, MY, 1, 1);
  }

  lemma ImageCoordinates()
    ensures ImageOfG() == Affine(BX, GY) && Endomorphism(Affine(BX, GY)) == Affine(BBX, GY)
  {
    hide Res;
    CongruentResidue(BETA * GX, BX); CongruentResidue(BETA * BX, BBX);
  }

  lemma FirstUnits()
    ensures Reaches(GX, GY, 1, 0) && Reaches(BX, GY, 0, 1)
  {
    hide Res, AddPoints;
    SmallMultiples(G()); SmallMultiples(ImageOfG());
    SumWithInfinity(G()); SumWithInfinity(ImageOfG());
    hide Multiple;
    ImageCoordinates();
  }
}
