/** The simplified rule set of backend/tools.py: `calculate_auto_premium` and
    `calculate_home_premium` with fewer factors and flat breakdowns. The home
    base rate is half a unit per thousand of coverage and is modelled with
    `real`; rounding of the monthly figure is not modelled. */
module SimpleRating {
  import opened Text

  const ReferenceYear: int := 2025

  // ===========================================================================
  // Auto
  // ===========================================================================

  datatype SimpleAutoBreakdown = SimpleAutoBreakdown(
    baseRate: int,
    ageAdjustment: int,
    experienceDiscount: int,
    accidentSurcharge: int,
    violationSurcharge: int,
    vehicleAgeFactor: int)

  datatype SimpleAutoQuote = SimpleAutoQuote(monthlyPremium: real, annualPremium: int, breakdown: SimpleAutoBreakdown)

  function SimpleAutoTotal(b: SimpleAutoBreakdown): int {
    b.baseRate + b.ageAdjustment + b.experienceDiscount + b.accidentSurcharge
    + b.violationSurcharge + b.vehicleAgeFactor
  }

  /** `calculate_auto_premium(age, vehicle_year, years_licensed, accidents=0,
      violations=0)`: the annual premium is the sum of the six breakdown entries. */
  function SimpleAutoPremium(age: int, vehicleYear: int, yearsLicensed: int, accidents: int, violations: int)
    : (q: SimpleAutoQuote)
    ensures SimpleAutoTotal(q.breakdown) == q.annualPremium
    ensures q.monthlyPremium * 12.0 == q.annualPremium as real
  {
    var ageFactor := if age < 25 then 400 else if age < 30 then 200 else 0;
    var experienceFactor := if yearsLicensed > 10 then -100 else 0;
    var accidentFactor := accidents * 300;
    var violationFactor := violations * 200;
    var vehicleAge := ReferenceYear - vehicleYear;
    var vehicleFactor := if vehicleAge < 5 then 100 else if vehicleAge > 15 then -50 else 0;
    var annual := 800 + ageFactor + experienceFactor + accidentFactor + violationFactor + vehicleFactor;
    SimpleAutoQuote(annual as real / 12.0, annual,
      SimpleAutoBreakdown(800, ageFactor, experienceFactor, accidentFactor, violationFactor, vehicleFactor))
  }

  /** The call with `accidents` and `violations` left at their default of 0. */
  function SimpleAutoPremiumDefaults(age: int, vehicleYear: int, yearsLicensed: int): SimpleAutoQuote {
    SimpleAutoPremium(age, vehicleYear, yearsLicensed, 0, 0)
  }

  /** Age: under 25 adds 400, 25 to 29 adds 200, every other age (seniors
      included) adds nothing. Vehicle age from 2025: under 5 adds 100, over
      15 takes off 50, otherwise nothing. Experience: 100 off above ten years. */
  lemma SimpleAutoFactors(age: int, vehicleYear: int, yearsLicensed: int, accidents: int, violations: int)
    ensures var b := SimpleAutoPremium(age, vehicleYear, yearsLicensed, accidents, violations).breakdown;
      && (b.ageAdjustment == 400 <==> age < 25)
      && (b.ageAdjustment == 200 <==> 25 <= age < 30)
      && (b.ageAdjustment == 0 <==> age >= 30)
      && (b.vehicleAgeFactor == 100 <==> 2025 - vehicleYear < 5)
      && (b.vehicleAgeFactor == -50 <==> 2025 - vehicleYear > 15)
      && (b.vehicleAgeFactor == 0 <==> 5 <= 2025 - vehicleYear <= 15)
      && (b.experienceDiscount == -100 <==> yearsLicensed > 10)
      && b.accidentSurcharge == 300 * accidents
      && b.violationSurcharge == 200 * violations
  {
  }

  /** Driver aged 28, 2020 vehicle, ten years licensed, no incidents: 1000 a year. */
  lemma SimpleAutoWorkedExample()
    ensures SimpleAutoPremiumDefaults(28, 2020, 10).annualPremium == 1000
    ensures SimpleAutoPremiumDefaults(28, 2020, 10) == SimpleAutoPremium(28, 2020, 10, 0, 0)
  {
  }

  // ===========================================================================
  // Home
  // ===========================================================================

  datatype SimpleHomeBreakdown = SimpleHomeBreakdown(
    baseRate: real,
    ageAdjustment: int,
    sizeAdjustment: int,
    constructionAdjustment: int)

  datatype SimpleHomeQuote = SimpleHomeQuote(monthlyPremium: real, annualPremium: real, breakdown: SimpleHomeBreakdown)

  /** Lower-cased construction type -> adjustment; anything else adds 0. */
  const SimpleConstructionFactors: map<string, int> := map["masonry" := -100, "frame" := 0, "mobile" := 200]

  function SimpleHomeTotal(b: SimpleHomeBreakdown): real {
    b.baseRate + b.ageAdjustment as real + b.sizeAdjustment as real + b.constructionAdjustment as real
  }

  /** `calculate_home_premium`: the annual premium is the sum of the four
      breakdown entries. */
  function SimpleHomePremium(yearBuilt: int, squareFootage: int, constructionType: string, dwellingCoverage: int)
    : (q: SimpleHomeQuote)
    ensures SimpleHomeTotal(q.breakdown) == q.annualPremium
    ensures q.monthlyPremium * 12.0 == q.annualPremium
  {
    var baseRate := (dwellingCoverage as real / 1000.0) * 0.5;
    var homeAge := ReferenceYear - yearBuilt;
    var ageFactor := if homeAge < 10 then -50 else if homeAge > 50 then 200 else 0;
    var sizeFactor := if squareFootage > 3000 then 150 else if squareFootage < 1500 then -50 else 0;
    var key := Lower(constructionType);
    var constructionFactor := if key in SimpleConstructionFactors then SimpleConstructionFactors[key] else 0;
    var annual := baseRate + ageFactor as real + sizeFactor as real + constructionFactor as real;
    SimpleHomeQuote(annual / 12.0, annual, SimpleHomeBreakdown(baseRate, ageFactor, sizeFactor, constructionFactor))
  }

  /** Base rate is half a unit per thousand of coverage; home age from 2025:
      under 10 takes off 50, over 50 adds 200; size over 3000 adds 150, under
      1500 takes off 50; construction by lower-cased name. */
  lemma SimpleHomeFactors(yearBuilt: int, squareFootage: int, constructionType: string, dwellingCoverage: int)
    ensures var b := SimpleHomePremium(yearBuilt, squareFootage, constructionType, dwellingCoverage).breakdown;
      && b.baseRate * 2000.0 == dwellingCoverage as real
      && (b.ageAdjustment == -50 <==> 2025 - yearBuilt < 10)
      && (b.ageAdjustment == 200 <==> 2025 - yearBuilt > 50)
      && (b.ageAdjustment == 0 <==> 10 <= 2025 - yearBuilt <= 50)
      && (b.sizeAdjustment == 150 <==> squareFootage > 3000)
      && (b.sizeAdjustment == -50 <==> squareFootage < 1500)
      && (b.sizeAdjustment == 0 <==> 1500 <= squareFootage <= 3000)
      && (Lower(constructionType) == "masonry" ==> b.constructionAdjustment == -100)
      && (Lower(constructionType) == "mobile" ==> b.constructionAdjustment == 200)
      && (Lower(constructionType) !in {"masonry", "mobile"} ==> b.constructionAdjustment == 0)
  {
  }

  /** The construction lookup ignores letter case. */
  lemma {:induction false} SimpleHomeCaseInsensitive(yearBuilt: int, squareFootage: int, constructionType: string, dwellingCoverage: int)
    ensures SimpleHomePremium(yearBuilt, squareFootage, constructionType, dwellingCoverage)
         == SimpleHomePremium(yearBuilt, squareFootage, Lower(constructionType), dwellingCoverage)
  {
    LowerIdempotent(constructionType);
  }

  /** "MOBILE" is priced as a mobile home. */
  lemma SimpleHomeUpperCaseExample()
    ensures SimpleHomePremium(2000, 2000, "MOBILE", 100000).breakdown.constructionAdjustment == 200
  {
    assert Lower("MOBILE") == "mobile";
  }

  /** Built 2015, 2000 sq ft, frame, 300000 coverage: 150 a year. */
  lemma SimpleHomeWorkedExample()
    ensures SimpleHomePremium(2015, 2000, "frame", 300000).annualPremium == 150.0
  {
    assert Lower("frame") == "frame";
  }
}
