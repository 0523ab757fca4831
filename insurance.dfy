/** The insurance page: premium savings from raising deductibles, the
    emergency-fund and net-worth thresholds, the boat-premium heuristic, the
    ordered list of recommendations and the "Apply All Recommendations" button. */
module Insurance {
  import opened JsMath

  // The bodies below keep the page's own literals; the contracts name these
  // constants, so each contract checks a literal against what it stands for.
  const DeductibleReadyFund: real := 10000.0
  const UmbrellaNetWorth: real := 500000.0
  const UmbrellaEstimate: real := 400.0
  const BoatRate: real := 0.0125
  const HsaIndividualLimit: real := 3850.0
  const HsaDeductibleFloor: real := 1500.0
  /** Five times Katie's 80000 salary. */
  const RecommendedLife: real := 400000.0

  /** autoSavings and homeSavings: what leaving the low-deductible plan saves
      on one policy; nothing once the higher deductible is already chosen. */
  function DeductibleSavings(lowDeductible: bool, currentPremium: real, higherPremium: real): (r: real)
    ensures lowDeductible ==> r + higherPremium == currentPremium
    ensures !lowDeductible ==> r == 0.0
  {
    if lowDeductible then currentPremium - higherPremium else 0.0
  }

  /** The progress bar's width: the fund as a share of its goal, capped at 100.
      A zero goal divides by zero: a positive fund shows 100, a zero fund NaN. */
  function EmergencyFundPercentage(fund: real, goal: real): (r: Number)
    ensures r != PosInfinity
    ensures r.Finite? ==> r.value <= 100.0
    ensures goal > 0.0 && 0.0 <= fund <= goal ==> r == Finite(fund / goal * 100.0)
    ensures goal > 0.0 && fund >= goal ==> r == Finite(100.0)
    ensures r == NaN <==> fund == 0.0 && goal == 0.0
  {
    Min100(Scale(Divide(fund, goal), 100.0))
  }

  /** Higher deductibles are advised once the fund reaches a fixed 10000,
      whatever goal the user typed. */
  function ReadyForHigherDeductibles(fund: real): (r: bool)
    ensures r <==> fund >= DeductibleReadyFund
  {
    fund >= 10000.0
  }

  function UmbrellaRecommended(netWorth: real): (r: bool)
    ensures r <==> netWorth > UmbrellaNetWorth
  {
    netWorth > 500000.0
  }

  /** The boat premium heuristic: 1.25% of the boat's value, rounded. */
  function BoatPremium(boatValue: real): (r: int)
    ensures r as real - 0.5 <= boatValue * BoatRate < r as real + 0.5
    ensures boatValue >= 0.0 ==> r >= 0
  {
    Round(boatValue * 0.0125)
  }

  lemma BoatPremiumExample()
    ensures BoatPremium(80000.0) == 1000
  {
    RoundOfInt(1000);
  }

  /** One entry of the recommendations list (the text is left out; the
      amounts it quotes are kept). */
  datatype Recommendation =
    | BoatAdvice
    | LifeAdvice(current: real, recommended: real)
    | DeductibleAdvice(savings: real)
    | UmbrellaAdvice
    | HsaAdvice

  /** The values the recommendations effect depends on. */
  datatype RecommendationInputs = RecommendationInputs(
    hasBoatInsurance: bool,
    katieLifeInsurance: real,
    recommendedLifeInsurance: real,
    readyForHigherDeductibles: bool,
    lowDeductible: bool,
    totalAnnualSavings: real,
    umbrellaRecommended: bool,
    hasUmbrellaPolicy: bool,
    hasHSA: bool,
    healthDeductible: real)

  /** Position of each kind of entry in the list. */
  function Rank(r: Recommendation): nat {
    match r
    case BoatAdvice => 0
    case LifeAdvice(_, _) => 1
    case DeductibleAdvice(_) => 2
    case UmbrellaAdvice => 3
    case HsaAdvice => 4
  }

  /** The entry the check of rank k pushes, with the amounts it quotes. */
  function Entry(d: RecommendationInputs, k: nat): Recommendation {
    if k == 0 then BoatAdvice
    else if k == 1 then LifeAdvice(d.katieLifeInsurance, d.recommendedLifeInsurance)
    else if k == 2 then DeductibleAdvice(d.totalAnnualSavings)
    else if k == 3 then UmbrellaAdvice
    else HsaAdvice
  }

  predicate BoatFires(d: RecommendationInputs) { !d.hasBoatInsurance }
  predicate LifeFires(d: RecommendationInputs) { d.katieLifeInsurance < d.recommendedLifeInsurance }
  predicate DeductibleFires(d: RecommendationInputs) { d.readyForHigherDeductibles && d.lowDeductible }
  predicate UmbrellaFires(d: RecommendationInputs) { d.umbrellaRecommended && !d.hasUmbrellaPolicy }
  predicate HsaFires(d: RecommendationInputs) { !d.hasHSA && d.healthDeductible > 1500.0 }

  /** Whether the check of rank k fires. */
  predicate Fires(d: RecommendationInputs, k: nat) {
    if k == 0 then BoatFires(d)
    else if k == 1 then LifeFires(d)
    else if k == 2 then DeductibleFires(d)
    else if k == 3 then UmbrellaFires(d)
    else HsaFires(d)
  }

  lemma RankOfEntry(d: RecommendationInputs, k: nat)
    requires k < 5
    ensures Rank(Entry(d, k)) == k
  {
  }

  /** `if (c) list.push(x)`. */
  function PushIf(s: seq<Recommendation>, c: bool, x: Recommendation): seq<Recommendation> {
    if c then s + [x] else s
  }

  /** The list after the first n checks have pushed their entries. */
  function Pushed(d: RecommendationInputs, n: nat): seq<Recommendation>
    requires n <= 5
  {
    if n == 0 then [] else PushIf(Pushed(d, n - 1), Fires(d, n - 1), Entry(d, n - 1))
  }

  /** The recommendations effect: all five checks, in order. */
  function Recommendations(d: RecommendationInputs): seq<Recommendation> {
    Pushed(d, 5)
  }

  /** After n checks: at most n entries, in strictly increasing rank, each
      one from a check that fired and quoting the current amounts, and the
      entry of every check that fired is there. */
  lemma {:induction false} PushedFacts(d: RecommendationInputs, n: nat)
    requires n <= 5
    ensures |Pushed(d, n)| <= n
    ensures forall i, j :: 0 <= i < j < |Pushed(d, n)| ==> Rank(Pushed(d, n)[i]) < Rank(Pushed(d, n)[j])
    ensures forall i :: 0 <= i < |Pushed(d, n)| ==>
              Rank(Pushed(d, n)[i]) < n && Fires(d, Rank(Pushed(d, n)[i]))
              && Pushed(d, n)[i] == Entry(d, Rank(Pushed(d, n)[i]))
    ensures forall k: nat :: k < n && Fires(d, k) ==> Entry(d, k) in Pushed(d, n)
  {
    if n > 0 {
      PushedFacts(d, n - 1);
      RankOfEntry(d, n - 1);
    }
  }

  /** Each of the five entries is in the list exactly when its check fires. */
  lemma RecommendationsMembership(d: RecommendationInputs, k: nat)
    requires k < 5
    ensures Entry(d, k) in Recommendations(d) <==> Fires(d, k)
  {
    PushedFacts(d, 5);
    RankOfEntry(d, k);
  }

  /** The list is empty exactly when no check fires. */
  lemma RecommendationsEmpty(d: RecommendationInputs)
    ensures Recommendations(d) == [] <==>
              !BoatFires(d) && !LifeFires(d) && !DeductibleFires(d) && !UmbrellaFires(d) && !HsaFires(d)
  {
    PushedFacts(d, 5);
    if Recommendations(d) != [] {
      assert Fires(d, Rank(Recommendations(d)[0]));
    } else {
      assert !Fires(d, 0) && !Fires(d, 1) && !Fires(d, 2) && !Fires(d, 3) && !Fires(d, 4);
    }
  }

  /** What "Apply All Recommendations" does to the recommendations' inputs:
      every firing check gets its fix; giving up the low deductible also
      ends the savings it offered. */
  function Optimized(d: RecommendationInputs): (o: RecommendationInputs)
    ensures o.hasBoatInsurance
    ensures o.katieLifeInsurance >= o.recommendedLifeInsurance
    ensures o.recommendedLifeInsurance == d.recommendedLifeInsurance
    ensures o.readyForHigherDeductibles == d.readyForHigherDeductibles
    ensures o.lowDeductible == (d.lowDeductible && !d.readyForHigherDeductibles)
    ensures o.umbrellaRecommended == d.umbrellaRecommended
    ensures o.hasUmbrellaPolicy == (d.hasUmbrellaPolicy || d.umbrellaRecommended)
    ensures o.hasHSA == (d.hasHSA || d.healthDeductible > HsaDeductibleFloor)
    ensures o.healthDeductible == d.healthDeductible
  {
    var lowAfter := if d.readyForHigherDeductibles && d.lowDeductible then false else d.lowDeductible;
    d.(hasBoatInsurance := true,
       katieLifeInsurance := if LifeFires(d) then d.recommendedLifeInsurance else d.katieLifeInsurance,
       hasUmbrellaPolicy := if UmbrellaFires(d) then true else d.hasUmbrellaPolicy,
       hasHSA := if HsaFires(d) then true else d.hasHSA,
       lowDeductible := lowAfter,
       totalAnnualSavings := if lowAfter then d.totalAnnualSavings else 0.0)
  }

  /** The inputs that agree with `d` except for the fields "Apply All
      Recommendations" sets are `Optimized(d)`. */
  lemma OptimizedFields(d: RecommendationInputs, o: RecommendationInputs)
    requires o.hasBoatInsurance
    requires o.katieLifeInsurance == if LifeFires(d) then d.recommendedLifeInsurance else d.katieLifeInsurance
    requires o.recommendedLifeInsurance == d.recommendedLifeInsurance
    requires o.readyForHigherDeductibles == d.readyForHigherDeductibles
    requires o.lowDeductible == (d.lowDeductible && !d.readyForHigherDeductibles)
    requires o.totalAnnualSavings == if o.lowDeductible then d.totalAnnualSavings else 0.0
    requires o.umbrellaRecommended == d.umbrellaRecommended
    requires o.hasUmbrellaPolicy == (d.hasUmbrellaPolicy || d.umbrellaRecommended)
    requires o.hasHSA == (d.hasHSA || d.healthDeductible > HsaDeductibleFloor)
    requires o.healthDeductible == d.healthDeductible
    ensures o == Optimized(d)
  {
  }

  /** After applying every recommendation, recomputing the list gives the
      empty list ("Your insurance coverage is optimized!"); and when the list
      was already empty, the button changes nothing. */
  lemma OptimizeClearsRecommendations(d: RecommendationInputs)
    requires !d.lowDeductible ==> d.totalAnnualSavings == 0.0
    ensures Recommendations(Optimized(d)) == []
    ensures Recommendations(d) == [] ==> Optimized(d) == d
  {
    RecommendationsEmpty(d);
    RecommendationsEmpty(Optimized(d));
  }

  /** The insurance page's state: one field per useState that the logic uses. */
  class InsuranceOptimization {
    var emergencyFund: real
    var emergencyFundGoal: real
    var lowDeductible: bool
    var currentAutoPremium: real
    var higherAutoPremium: real
    var currentHomePremium: real
    var higherHomePremium: real
    var healthDeductible: real
    var hasHSA: bool
    var hsaContribution: real
    var katieLifeInsurance: real
    var recommendedLifeInsurance: real
    var hasBoatInsurance: bool
    var boatInsurancePremium: real
    var boatValue: real
    var hasUmbrellaPolicy: bool
    var umbrellaPremium: real
    var umbrellaRecommended: bool
    var netWorth: real
    var readyForHigherDeductibles: bool
    var annualSavings: real
    var insuranceRecommendations: seq<Recommendation>

    /** autoSavings + homeSavings, recomputed on every render. */
    function TotalAnnualSavings(): real
      reads this`lowDeductible, this`currentAutoPremium, this`higherAutoPremium,
            this`currentHomePremium, this`higherHomePremium
    {
      DeductibleSavings(lowDeductible, currentAutoPremium, higherAutoPremium)
      + DeductibleSavings(lowDeductible, currentHomePremium, higherHomePremium)
    }

    /** The dependency list of the recommendations effect, read off the state. */
    function Deps(): (d: RecommendationInputs)
      reads this`hasBoatInsurance, this`katieLifeInsurance, this`recommendedLifeInsurance,
            this`readyForHigherDeductibles, this`lowDeductible, this`currentAutoPremium,
            this`higherAutoPremium, this`currentHomePremium, this`higherHomePremium,
            this`umbrellaRecommended, this`hasUmbrellaPolicy, this`hasHSA, this`healthDeductible
      ensures !d.lowDeductible ==> d.totalAnnualSavings == 0.0
    {
      RecommendationInputs(hasBoatInsurance, katieLifeInsurance, recommendedLifeInsurance,
                           readyForHigherDeductibles, lowDeductible, TotalAnnualSavings(),
                           umbrellaRecommended, hasUmbrellaPolicy, hasHSA, healthDeductible)
    }

    /** The derived flags agree with the values they are computed from, as
        they do once the effects have run: the constructor starts settled,
        and UpdateUmbrella and UpdateDeductibleReadiness each restore their
        half, so running both after any change settles the state again. */
    predicate Settled()
      reads this`readyForHigherDeductibles, this`emergencyFund, this`umbrellaRecommended, this`netWorth
    {
      readyForHigherDeductibles == ReadyForHigherDeductibles(emergencyFund)
      && umbrellaRecommended == UmbrellaRecommended(netWorth)
    }

    /** The initial state. `useState(3,247)`, `useState(3,564)` and
        `useState(2,850)` pass a second argument that React ignores, so those
        three premiums start at 3, 3 and 2. */
    constructor ()
      ensures emergencyFund == 4000.0 && emergencyFundGoal == 10000.0 && lowDeductible
      ensures currentAutoPremium == 4059.0 && higherAutoPremium == 3.0
      ensures currentHomePremium == 3.0 && higherHomePremium == 2.0
      ensures healthDeductible == 3000.0 && !hasHSA && hsaContribution == 0.0
      ensures katieLifeInsurance == 80000.0 && recommendedLifeInsurance == 0.0
      ensures !hasBoatInsurance && boatInsurancePremium == 0.0 && boatValue == 80000.0
      ensures !hasUmbrellaPolicy && umbrellaPremium == 0.0 && !umbrellaRecommended
      ensures netWorth == 50000.0 && !readyForHigherDeductibles && annualSavings == 0.0
      ensures insuranceRecommendations == []
      ensures Settled()
      ensures TotalAnnualSavings() == 4057.0
    {
      emergencyFund, emergencyFundGoal := 4000.0, 10000.0;
      lowDeductible := true;
      currentAutoPremium, higherAutoPremium := 4059.0, 3.0;
      currentHomePremium, higherHomePremium := 3.0, 2.0;
      healthDeductible, hasHSA, hsaContribution := 3000.0, false, 0.0;
      katieLifeInsurance, recommendedLifeInsurance := 80000.0, 0.0;
      hasBoatInsurance, boatInsurancePremium, boatValue := false, 0.0, 80000.0;
      hasUmbrellaPolicy, umbrellaPremium, umbrellaRecommended := false, 0.0, false;
      netWorth := 50000.0;
      readyForHigherDeductibles, annualSavings := false, 0.0;
      insuranceRecommendations := [];
    }

    /** The mount effect: recommended life cover is five times 80000. */
    method SetRecommendedLife()
      modifies this`recommendedLifeInsurance
      ensures recommendedLifeInsurance == RecommendedLife
    {
      recommendedLifeInsurance := 80000.0 * 5.0;
    }

    /** The umbrella effect: recommend above 500000 of net worth, and quote a
        400 premium when recommended and not yet held. */
    method UpdateUmbrella()
      modifies this`umbrellaRecommended, this`umbrellaPremium
      ensures umbrellaRecommended == UmbrellaRecommended(netWorth)
      ensures umbrellaPremium == if netWorth > UmbrellaNetWorth && !hasUmbrellaPolicy
                                 then UmbrellaEstimate else old(umbrellaPremium)
      ensures readyForHigherDeductibles == ReadyForHigherDeductibles(emergencyFund) ==> Settled()
    {
      umbrellaRecommended := netWorth > 500000.0;
      if netWorth > 500000.0 && !hasUmbrellaPolicy {
        umbrellaPremium := 400.0;
      }
    }

    /** The deductible effect: readiness from the fund, and the savings on offer. */
    method UpdateDeductibleReadiness()
      modifies this`readyForHigherDeductibles, this`annualSavings
      ensures readyForHigherDeductibles == ReadyForHigherDeductibles(emergencyFund)
      ensures annualSavings == TotalAnnualSavings()
      ensures umbrellaRecommended == UmbrellaRecommended(netWorth) ==> Settled()
    {
      readyForHigherDeductibles := emergencyFund >= 10000.0;
      annualSavings := TotalAnnualSavings();
    }

    /** The recommendations effect. */
    method UpdateRecommendations()
      modifies this`insuranceRecommendations
      ensures insuranceRecommendations == Recommendations(Deps())
    {
      ghost var d := Deps();
      var recommendations: seq<Recommendation> := [];
      recommendations := PushIf(recommendations, !hasBoatInsurance, BoatAdvice);
      assert recommendations == Pushed(d, 1);
      recommendations := PushIf(recommendations, katieLifeInsurance < recommendedLifeInsurance,
                                LifeAdvice(katieLifeInsurance, recommendedLifeInsurance));
      assert recommendations == Pushed(d, 2);
      recommendations := PushIf(recommendations, readyForHigherDeductibles && lowDeductible,
                                DeductibleAdvice(TotalAnnualSavings()));
      assert recommendations == Pushed(d, 3);
      recommendations := PushIf(recommendations, umbrellaRecommended && !hasUmbrellaPolicy, UmbrellaAdvice);
      assert recommendations == Pushed(d, 4);
      recommendations := PushIf(recommendations, !hasHSA && healthDeductible > 1500.0, HsaAdvice);
      insuranceRecommendations := recommendations;
    }

    /** calculateBoatInsurance: quote 1.25% of the boat's value and mark it insured. */
    method CalculateBoatInsurance()
      modifies this`boatInsurancePremium, this`hasBoatInsurance
      ensures boatInsurancePremium == BoatPremium(boatValue) as real
      ensures hasBoatInsurance
    {
      var premium := Round(boatValue * 0.0125);
      boatInsurancePremium := premium as real;
      hasBoatInsurance := true;
    }

    /** Typing a new boat value re-quotes the premium from it. */
    method ChangeBoatValue(value: real)
      modifies this`boatValue, this`boatInsurancePremium
      ensures boatValue == value
      ensures boatInsurancePremium == BoatPremium(value) as real
    {
      boatValue := value;
      boatInsurancePremium := Round(value * 0.0125) as real;
    }

    /** The boat switch: on quotes the premium, off clears it. */
    method ToggleBoatInsurance(checked: bool)
      modifies this`boatInsurancePremium, this`hasBoatInsurance
      ensures hasBoatInsurance == checked
      ensures boatInsurancePremium == if checked then BoatPremium(boatValue) as real else 0.0
    {
      hasBoatInsurance := checked;
      if checked {
        CalculateBoatInsurance();
      } else {
        boatInsurancePremium := 0.0;
      }
    }

    /** addUmbrellaPolicy. */
    method AddUmbrellaPolicy()
      modifies this`hasUmbrellaPolicy
      ensures hasUmbrellaPolicy
    {
      hasUmbrellaPolicy := true;
    }

    /** "Apply All Recommendations": the fix for every check that fires. The
        new state's dependency list is `Optimized` of the old one
        (`OptimizedFields`), so `OptimizeClearsRecommendations` says the
        recommendations recomputed from it are empty. */
    method OptimizeInsurance()
      modifies this`hasBoatInsurance, this`boatInsurancePremium, this`katieLifeInsurance,
               this`hasUmbrellaPolicy, this`hasHSA, this`hsaContribution, this`lowDeductible
      ensures hasBoatInsurance
      ensures boatInsurancePremium == if old(hasBoatInsurance) then old(boatInsurancePremium)
                                      else BoatPremium(boatValue) as real
      ensures katieLifeInsurance == if old(katieLifeInsurance < recommendedLifeInsurance)
                                    then recommendedLifeInsurance else old(katieLifeInsurance)
      ensures hasUmbrellaPolicy == (old(hasUmbrellaPolicy) || umbrellaRecommended)
      ensures hasHSA == (old(hasHSA) || healthDeductible > HsaDeductibleFloor)
      ensures hsaContribution == if old(!hasHSA) && healthDeductible > HsaDeductibleFloor
                                 then HsaIndividualLimit else old(hsaContribution)
      ensures lowDeductible == (old(lowDeductible) && !readyForHigherDeductibles)
    {
      if !hasBoatInsurance {
        CalculateBoatInsurance();
      }
      if katieLifeInsurance < recommendedLifeInsurance {
        katieLifeInsurance := recommendedLifeInsurance;
      }
      if umbrellaRecommended && !hasUmbrellaPolicy {
        AddUmbrellaPolicy();
      }
      if !hasHSA && healthDeductible > 1500.0 {
        hasHSA := true;
        hsaContribution := 3850.0;
      }
      if readyForHigherDeductibles && lowDeductible {
        lowDeductible := false;
      }
    }
  }
}
