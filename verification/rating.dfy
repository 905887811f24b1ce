/** The rating engine of the graph agent: `calculate_auto_premium` and
    `calculate_home_premium` of backend/langgraph_agent.py. Both are additive
    factor models against the fixed reference year 2025. Auto premiums are
    integers; home premiums use true division and are modelled with `real`,
    which is exact. The final rounding to cents is not modelled: the monthly
    premium is exactly the annual premium divided by twelve. */
module Rating {
  import opened Text

  /** The calendar year the vehicle and property ages are measured against. */
  const ReferenceYear: int := 2025

  /** A breakdown entry that carries both an amount and its reason. */
  datatype Adjustment = Adjustment(amount: int, reason: string)

  // ===========================================================================
  // Auto
  // ===========================================================================

  /** The arguments of `calculate_auto_premium` once bound (defaults applied). */
  datatype AutoProfile = AutoProfile(
    age: int,
    vehicleYear: int,
    vehicleMake: string,
    vehicleModel: string,
    yearsLicensed: int,
    accidents: int,
    violations: int,
    liabilityLimit: string,
    collision: bool,
    comprehensive: bool,
    deductible: int)

  datatype AutoCoverageSummary = AutoCoverageSummary(
    liability: string, collision: bool, comprehensive: bool, deductible: string)

  datatype AutoBreakdown = AutoBreakdown(
    baseRate: int,
    ageAdjustment: Adjustment,
    vehicleAge: Adjustment,
    coverageCost: int,
    driverHistory: int,
    deductibleDiscount: int)

  /** The dictionary `calculate_auto_premium` returns. */
  datatype AutoQuote = AutoQuote(
    monthlyPremium: real,
    annualPremium: int,
    vehicle: string,
    coverageSummary: AutoCoverageSummary,
    breakdown: AutoBreakdown)

  const AutoBaseRate: int := 800

  /** Liability limit -> yearly cost; any other limit costs `DefaultLiabilityFactor`. */
  const LiabilityFactors: map<string, int> := map[
    "50000/100000" := 0,
    "100000/300000" := 150,
    "250000/500000" := 300,
    "500000/1000000" := 500]

  const DefaultLiabilityFactor: int := 150

  function DriverAgeAdjustment(age: int): Adjustment {
    if age < 25 then Adjustment(400, "Young driver surcharge")
    else if age < 30 then Adjustment(200, "Moderate age adjustment")
    else if age > 65 then Adjustment(150, "Senior driver adjustment")
    else Adjustment(0, "Optimal age range")
  }

  function VehicleAgeAdjustment(vehicleYear: int): Adjustment {
    var vehicleAge := ReferenceYear - vehicleYear;
    if vehicleAge > 10 then Adjustment(-100, "Older vehicle discount")
    else if vehicleAge < 3 then Adjustment(200, "New vehicle premium")
    else Adjustment(0, "Standard vehicle age")
  }

  function LiabilityFactor(limit: string): int {
    if limit in LiabilityFactors then LiabilityFactors[limit] else DefaultLiabilityFactor
  }

  /** The sum of the six breakdown entries. */
  function AutoBreakdownTotal(b: AutoBreakdown): int {
    b.baseRate + b.ageAdjustment.amount + b.vehicleAge.amount
    + b.coverageCost + b.driverHistory + b.deductibleDiscount
  }

  /** `calculate_auto_premium`: nine additive factors; the breakdown groups
      them into six entries that add up to the annual premium. */
  function CalculateAutoPremium(p: AutoProfile): (q: AutoQuote)
    ensures AutoBreakdownTotal(q.breakdown) == q.annualPremium
    ensures q.monthlyPremium * 12.0 == q.annualPremium as real
  {
    var age := DriverAgeAdjustment(p.age);
    var vehicle := VehicleAgeAdjustment(p.vehicleYear);
    var liabilityFactor := LiabilityFactor(p.liabilityLimit);
    var coverageFactor := (if p.collision then 200 else 0) + (if p.comprehensive then 150 else 0);
    var deductibleFactor := if p.deductible >= 1000 then -50 else 0;
    var experienceFactor := if p.yearsLicensed > 10 then -100 else 0;
    var accidentFactor := p.accidents * 300;
    var violationFactor := p.violations * 200;
    var annual := AutoBaseRate + age.amount + vehicle.amount + liabilityFactor
                  + coverageFactor + deductibleFactor + experienceFactor
                  + accidentFactor + violationFactor;
    AutoQuote(
      annual as real / 12.0,
      annual,
      IntToString(p.vehicleYear) + " " + p.vehicleMake + " " + p.vehicleModel,
      AutoCoverageSummary(p.liabilityLimit, p.collision, p.comprehensive, "$" + IntToString(p.deductible)),
      AutoBreakdown(
        AutoBaseRate,
        age,
        vehicle,
        coverageFactor + liabilityFactor,
        experienceFactor + accidentFactor + violationFactor,
        deductibleFactor))
  }

  /** The four age brackets, each with its fixed reason. */
  lemma AutoAgeBrackets(p: AutoProfile)
    ensures var a := CalculateAutoPremium(p).breakdown.ageAdjustment;
      && (p.age < 25 <==> a == Adjustment(400, "Young driver surcharge"))
      && (25 <= p.age < 30 <==> a == Adjustment(200, "Moderate age adjustment"))
      && (p.age > 65 <==> a == Adjustment(150, "Senior driver adjustment"))
      && (30 <= p.age <= 65 <==> a == Adjustment(0, "Optimal age range"))
  {
  }

  /** The three vehicle-age brackets, measured from 2025. */
  lemma AutoVehicleAgeBrackets(p: AutoProfile)
    ensures var v := CalculateAutoPremium(p).breakdown.vehicleAge;
      && (2025 - p.vehicleYear > 10 <==> v == Adjustment(-100, "Older vehicle discount"))
      && (2025 - p.vehicleYear < 3 <==> v == Adjustment(200, "New vehicle premium"))
      && (3 <= 2025 - p.vehicleYear <= 10 <==> v == Adjustment(0, "Standard vehicle age"))
  {
  }

  /** An unrecognised liability limit is priced like "100000/300000". */
  lemma UnknownLiabilityPricedAsDefault(p: AutoProfile)
    requires p.liabilityLimit !in LiabilityFactors
    ensures CalculateAutoPremium(p).annualPremium
         == CalculateAutoPremium(p.(liabilityLimit := "100000/300000")).annualPremium
    ensures CalculateAutoPremium(p).breakdown
         == CalculateAutoPremium(p.(liabilityLimit := "100000/300000")).breakdown
  {
  }

  /** The deductible discount applies exactly from a deductible of 1000 up,
      and the experience discount exactly above ten licensed years. */
  lemma AutoDiscountThresholds(p: AutoProfile)
    ensures var b := CalculateAutoPremium(p).breakdown;
      && (b.deductibleDiscount == -50 <==> p.deductible >= 1000)
      && (b.deductibleDiscount == 0 <==> p.deductible < 1000)
      && b.driverHistory - 300 * p.accidents - 200 * p.violations == (if p.yearsLicensed > 10 then -100 else 0)
  {
  }

  /** One more accident, all else equal, costs exactly 300 a year more. */
  lemma OneMoreAccident(p: AutoProfile)
    ensures CalculateAutoPremium(p.(accidents := p.accidents + 1)).annualPremium
         == CalculateAutoPremium(p).annualPremium + 300
  {
  }

  /** One more violation, all else equal, costs exactly 200 a year more. */
  lemma OneMoreViolation(p: AutoProfile)
    ensures CalculateAutoPremium(p.(violations := p.violations + 1)).annualPremium
         == CalculateAutoPremium(p).annualPremium + 200
  {
  }

  /** Driver aged 28, 2020 vehicle, ten years licensed, clean record, default
      coverage: 800 + 200 (age) + 0 (vehicle) + 150 (liability) + 350
      (collision and comprehensive) = 1500 a year, 125 a month. */
  lemma AutoWorkedExample()
    ensures var q := CalculateAutoPremium(
              AutoProfile(28, 2020, "Toyota", "Camry", 10, 0, 0, "100000/300000", true, true, 500));
      && q.annualPremium == 1500 && q.monthlyPremium == 125.0
      && q.breakdown.ageAdjustment == Adjustment(200, "Moderate age adjustment")
      && q.breakdown.coverageCost == 500
      && q.vehicle == "2020 Toyota Camry"
      && q.coverageSummary.deductible == "$500"
  {
  }

  // ===========================================================================
  // Home
  // ===========================================================================

  /** The arguments of `calculate_home_premium` once bound (defaults applied). */
  datatype HomeProfile = HomeProfile(
    yearBuilt: int,
    squareFootage: int,
    constructionType: string,
    roofType: string,
    dwellingCoverage: int,
    stories: int,
    securitySystem: bool,
    fireAlarm: bool,
    hasPool: bool)

  datatype PropertyInfo = PropertyInfo(yearBuilt: int, squareFootage: int, construction: string, stories: int)

  datatype HomeFeatures = HomeFeatures(securitySystem: bool, fireAlarm: bool, pool: bool)

  datatype HomeCoverageSummary = HomeCoverageSummary(dwelling: string, features: HomeFeatures)

  datatype HomeBreakdown = HomeBreakdown(
    baseRate: int,
    coverageCost: real,
    propertyAge: Adjustment,
    construction: Adjustment,
    sizeAdjustment: real,
    safetyDiscounts: int,
    poolSurcharge: int)

  /** The dictionary `calculate_home_premium` returns. */
  datatype HomeQuote = HomeQuote(
    monthlyPremium: real,
    annualPremium: real,
    propertyInfo: PropertyInfo,
    coverageSummary: HomeCoverageSummary,
    breakdown: HomeBreakdown)

  const HomeBaseRate: int := 1200

  const ConstructionFactors: map<string, Adjustment> := map[
    "frame" := Adjustment(200, "Wood frame construction"),
    "brick" := Adjustment(0, "Brick construction"),
    "stone" := Adjustment(-100, "Stone construction discount"),
    "concrete" := Adjustment(-150, "Concrete construction discount")]

  const DefaultConstruction: Adjustment := Adjustment(0, "Standard construction")

  function PropertyAgeAdjustment(yearBuilt: int): Adjustment {
    var propertyAge := ReferenceYear - yearBuilt;
    if propertyAge > 50 then Adjustment(400, "Older home surcharge")
    else if propertyAge > 30 then Adjustment(200, "Mature home adjustment")
    else if propertyAge < 10 then Adjustment(-100, "New home discount")
    else Adjustment(0, "Standard age")
  }

  /** Exact-case dictionary lookup with a default. */
  function ConstructionAdjustment(constructionType: string): Adjustment {
    if constructionType in ConstructionFactors then ConstructionFactors[constructionType]
    else DefaultConstruction
  }

  /** The sum of the seven breakdown entries. */
  function HomeBreakdownTotal(b: HomeBreakdown): real {
    b.baseRate as real + b.coverageCost + b.propertyAge.amount as real + b.construction.amount as real
    + b.sizeAdjustment + b.safetyDiscounts as real + b.poolSurcharge as real
  }

  /** `calculate_home_premium`. The annual premium includes the stories factor
      but the breakdown has no entry for it, so the breakdown falls short of
      the annual premium by exactly that factor. */
  function CalculateHomePremium(p: HomeProfile): (q: HomeQuote)
    ensures HomeBreakdownTotal(q.breakdown) == q.annualPremium - ((p.stories - 1) * 100) as real
    ensures q.monthlyPremium * 12.0 == q.annualPremium
  {
    var coverageFactor := p.dwellingCoverage as real / 1000.0;
    var age := PropertyAgeAdjustment(p.yearBuilt);
    var construction := ConstructionAdjustment(p.constructionType);
    var sizeFactor := (p.squareFootage - 2000) as real / 10.0;
    var storiesFactor := (p.stories - 1) * 100;
    var safetyDiscount := (if p.securitySystem then -100 else 0) + (if p.fireAlarm then -75 else 0);
    var poolFactor := if p.hasPool then 150 else 0;
    var annual := HomeBaseRate as real + coverageFactor + age.amount as real + construction.amount as real
                  + sizeFactor + storiesFactor as real + safetyDiscount as real + poolFactor as real;
    HomeQuote(
      annual / 12.0,
      annual,
      PropertyInfo(p.yearBuilt, p.squareFootage, p.constructionType, p.stories),
      HomeCoverageSummary("$" + IntToGroupedString(p.dwellingCoverage),
                          HomeFeatures(p.securitySystem, p.fireAlarm, p.hasPool)),
      HomeBreakdown(HomeBaseRate, coverageFactor, age, construction, sizeFactor, safetyDiscount, poolFactor))
  }

  /** The four property-age brackets, measured from 2025. */
  lemma HomeAgeBrackets(p: HomeProfile)
    ensures var a := CalculateHomePremium(p).breakdown.propertyAge;
      && (2025 - p.yearBuilt > 50 <==> a == Adjustment(400, "Older home surcharge"))
      && (30 < 2025 - p.yearBuilt <= 50 <==> a == Adjustment(200, "Mature home adjustment"))
      && (2025 - p.yearBuilt < 10 <==> a == Adjustment(-100, "New home discount"))
      && (10 <= 2025 - p.yearBuilt <= 30 <==> a == Adjustment(0, "Standard age"))
  {
  }

  /** An unknown construction type adds nothing, with reason "Standard construction". */
  lemma UnknownConstructionIsStandard(p: HomeProfile)
    requires p.constructionType !in ConstructionFactors
    ensures CalculateHomePremium(p).breakdown.construction == Adjustment(0, "Standard construction")
  {
  }

  /** The roof type never influences the result. */
  lemma RoofTypeIgnored(p: HomeProfile, roof: string)
    ensures CalculateHomePremium(p.(roofType := roof)) == CalculateHomePremium(p)
  {
  }

  /** The breakdown adds up to the annual premium exactly for one-storey homes. */
  lemma HomeBreakdownMatchesIffOneStorey(p: HomeProfile)
    ensures var q := CalculateHomePremium(p);
      HomeBreakdownTotal(q.breakdown) == q.annualPremium <==> p.stories == 1
  {
  }

  /** Built 2015, 2000 sq ft, frame, 300000 coverage, one storey, no extras:
      1200 + 300 + 0 + 200 + 0 = 1700 a year. */
  lemma HomeWorkedExample()
    ensures var q := CalculateHomePremium(
              HomeProfile(2015, 2000, "frame", "asphalt", 300000, 1, false, false, false));
      && q.annualPremium == 1700.0 && q.monthlyPremium * 12.0 == 1700.0
      && q.breakdown.construction == Adjustment(200, "Wood frame construction")
      && q.breakdown.propertyAge == Adjustment(0, "Standard age")
  {
  }
}
