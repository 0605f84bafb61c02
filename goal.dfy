/**
 * The hydration-goal calculator (src/services/goalService.ts).
 *
 * A daily goal of 8 glasses is adjusted by four itemised factors taken from
 * the current weather and the user's activity level, clamped below at 6,
 * and explained by a recommendation sentence naming the user's city.
 * Temperatures arrive already rounded to whole degrees Celsius and humidity
 * is a whole percentage, so both are integers here.
 */
module Goal {

  /** The weather snapshot the calculator reads. */
  datatype Weather = Weather(temperature: int, humidity: int, weatherCondition: string, feelsLike: int)

  /** The location snapshot; only `city` is read by the calculator. */
  datatype Location = Location(latitude: real, longitude: real, city: string, country: string)

  datatype Activity = Low | Moderate | High

  /** The itemised deltas that were added to the base goal. */
  datatype Factors = Factors(temperature: int, humidity: int, climate: int, activity: int)

  datatype HydrationGoal = HydrationGoal(baseGoal: int, adjustedGoal: int, factors: Factors, recommendation: string)

  const BaseGoal: int := 8
  const MinimumGoal: int := 6

  /** Conditions that add a glass. */
  const HotConditions: seq<string> := ["clear", "sunny"]
  /** Declared next to HotConditions by the calculator but never consulted. */
  const ModerateConditions: seq<string> := ["clouds", "mist", "fog"]

  const HotAdvice: string := "and hot weather conditions, increase your water intake significantly."
  const WarmAdvice: string := "and warm weather, stay well hydrated throughout the day."
  const CoolAdvice: string := "and cool weather, maintain regular hydration even if you feel less thirsty."
  const ModerateAdvice: string := "and moderate climate, maintain steady hydration levels."

  function Max(a: int, b: int): int { if a >= b then a else b }

  /** Temperature delta: four disjoint bands. */
  function TemperatureFactor(t: int): (r: int)
    ensures r == 2 <==> t > 30
    ensures r == 1 <==> 25 < t <= 30
    ensures r == -1 <==> t < 10
    ensures r == 0 <==> 10 <= t <= 25
  {
    if t > 30 then 2
    else if t > 25 then 1
    else if t < 10 then -1
    else 0
  }

  /** Humidity delta: the same +1 for the humid band and for the dry band. */
  function HumidityFactor(h: int): (r: int)
    ensures r == 1 <==> h > 80 || h < 30
    ensures r == 0 <==> 30 <= h <= 80
  {
    if h > 80 then 1
    else if h < 30 then 1
    else 0
  }

  /** `hotConditions.includes(condition)`: an exact string match. */
  predicate IsHotCondition(condition: string)
  {
    condition in HotConditions
  }

  /** Climate delta: +1 for a hot condition, otherwise nothing. */
  function ClimateFactor(condition: string): (r: int)
    ensures r == 0 || r == 1
  {
    if IsHotCondition(condition) then 1 else 0
  }

  /** The climate delta is +1 exactly for "clear" and "sunny". */
  lemma ClimateFactorHot(condition: string)
    ensures ClimateFactor(condition) == 1 <==> condition == "clear" || condition == "sunny"
    ensures ClimateFactor(condition) == 0 <==> condition != "clear" && condition != "sunny"
  {
  }

  function ActivityFactor(level: Activity): (r: int)
    ensures r == 2 <==> level == High
    ensures r == 1 <==> level == Moderate
    ensures r == 0 <==> level == Low
  {
    match level
    case High => 2
    case Moderate => 1
    case Low => 0
  }

  function FactorsOf(weather: Weather, level: Activity): Factors
  {
    Factors(TemperatureFactor(weather.temperature), HumidityFactor(weather.humidity),
            ClimateFactor(weather.weatherCondition), ActivityFactor(level))
  }

  function Total(f: Factors): int
  {
    f.temperature + f.humidity + f.climate + f.activity
  }

  function RecommendationPrefix(city: string): string
  {
    "Based on your location (" + city + ") "
  }

  /** The advice clause, chosen by the temperature thresholds in the same order as the factor. */
  function Advice(t: int): string
  {
    if t > 30 then HotAdvice
    else if t > 25 then WarmAdvice
    else if t < 10 then CoolAdvice
    else ModerateAdvice
  }

  /** The four advice clauses are pairwise distinct, so the clause identifies the band. */
  lemma AdviceDistinct()
    ensures HotAdvice != WarmAdvice && HotAdvice != CoolAdvice && HotAdvice != ModerateAdvice
    ensures WarmAdvice != CoolAdvice && WarmAdvice != ModerateAdvice && CoolAdvice != ModerateAdvice
  {
    assert |HotAdvice| == 69 && |WarmAdvice| == 56 && |CoolAdvice| == 75 && |ModerateAdvice| == 55;
  }

  /** The advice clause and the temperature factor pick the same band. */
  lemma AdviceFollowsTemperatureFactor(t: int)
    ensures Advice(t) == HotAdvice <==> TemperatureFactor(t) == 2
    ensures Advice(t) == WarmAdvice <==> TemperatureFactor(t) == 1
    ensures Advice(t) == CoolAdvice <==> TemperatureFactor(t) == -1
    ensures Advice(t) == ModerateAdvice <==> TemperatureFactor(t) == 0
  {
    AdviceDistinct();
  }

  /** The recommendation: the city, then the advice clause for the temperature. */
  function Recommendation(city: string, t: int): string
  {
    RecommendationPrefix(city) + Advice(t)
  }

  /**
   * The recommendation names the city and ends with one of the four advice
   * clauses, the hot one exactly above 30 degrees.
   */
  lemma RecommendationShape(city: string, t: int)
    ensures var r, p := Recommendation(city, t), RecommendationPrefix(city);
      && |r| > |p|
      && r[..|p|] == p
      && r[|p|..] in {HotAdvice, WarmAdvice, CoolAdvice, ModerateAdvice}
      && (r[|p|..] == HotAdvice <==> t > 30)
  {
    var r, p := Recommendation(city, t), RecommendationPrefix(city);
    assert r[..|p|] == p && r[|p|..] == Advice(t);
    AdviceFollowsTemperatureFactor(t);
  }

  /**
   * The goal the calculator returns.  The clamp at MinimumGoal never fires:
   * the factors sum to between -1 and 6, so the goal lies in 7..14.
   */
  function GoalSpec(weather: Weather, location: Location, level: Activity := Moderate): (g: HydrationGoal)
    ensures g.baseGoal == BaseGoal
    ensures g.adjustedGoal == BaseGoal + Total(g.factors)
    ensures 7 <= g.adjustedGoal <= 14
    ensures g.adjustedGoal >= MinimumGoal
  {
    var f := FactorsOf(weather, level);
    HydrationGoal(BaseGoal, Max(BaseGoal + Total(f), MinimumGoal), f,
                  Recommendation(location.city, weather.temperature))
  }

  /** The temperature section: the first band that matches sets the factor and moves the goal. */
  method AdjustForTemperature(temperature: int, factors: Factors, adjustedGoal: int)
    returns (factors': Factors, adjustedGoal': int)
    requires factors.temperature == 0
    ensures factors' == factors.(temperature := TemperatureFactor(temperature))
    ensures adjustedGoal' == adjustedGoal + TemperatureFactor(temperature)
  {
    factors', adjustedGoal' := factors, adjustedGoal;
    if temperature > 30 {
      factors' := factors'.(temperature := 2);
      adjustedGoal' := adjustedGoal' + 2;
    } else if temperature > 25 {
      factors' := factors'.(temperature := 1);
      adjustedGoal' := adjustedGoal' + 1;
    } else if temperature < 10 {
      factors' := factors'.(temperature := -1);
      adjustedGoal' := adjustedGoal' - 1;
    }
  }

  /** The humidity section: humid and dry air each add a glass. */
  method AdjustForHumidity(humidity: int, factors: Factors, adjustedGoal: int)
    returns (factors': Factors, adjustedGoal': int)
    requires factors.humidity == 0
    ensures factors' == factors.(humidity := HumidityFactor(humidity))
    ensures adjustedGoal' == adjustedGoal + HumidityFactor(humidity)
  {
    factors', adjustedGoal' := factors, adjustedGoal;
    if humidity > 80 {
      factors' := factors'.(humidity := 1);
      adjustedGoal' := adjustedGoal' + 1;
    } else if humidity < 30 {
      factors' := factors'.(humidity := 1);
      adjustedGoal' := adjustedGoal' + 1;
    }
  }

  /** The climate section: a hot condition adds a glass. */
  method AdjustForClimate(condition: string, factors: Factors, adjustedGoal: int)
    returns (factors': Factors, adjustedGoal': int)
    requires factors.climate == 0
    ensures factors' == factors.(climate := ClimateFactor(condition))
    ensures adjustedGoal' == adjustedGoal + ClimateFactor(condition)
  {
    factors', adjustedGoal' := factors, adjustedGoal;
    if IsHotCondition(condition) {
      factors' := factors'.(climate := 1);
      adjustedGoal' := adjustedGoal' + 1;
    }
  }

  /** The activity section: one branch per level. */
  method AdjustForActivity(level: Activity, factors: Factors, adjustedGoal: int)
    returns (factors': Factors, adjustedGoal': int)
    ensures factors' == factors.(activity := ActivityFactor(level))
    ensures adjustedGoal' == adjustedGoal + ActivityFactor(level)
  {
    factors', adjustedGoal' := factors, adjustedGoal;
    match level {
      case High =>
        factors' := factors'.(activity := 2);
        adjustedGoal' := adjustedGoal' + 2;
      case Moderate =>
        factors' := factors'.(activity := 1);
        adjustedGoal' := adjustedGoal' + 1;
      case Low =>
        factors' := factors'.(activity := 0);
    }
  }

  /** The recommendation section: the city, then the advice for the temperature band. */
  method BuildRecommendation(city: string, temperature: int) returns (recommendation: string)
    ensures recommendation == Recommendation(city, temperature)
  {
    recommendation := RecommendationPrefix(city);
    if temperature > 30 {
      recommendation := recommendation + HotAdvice;
    } else if temperature > 25 {
      recommendation := recommendation + WarmAdvice;
    } else if temperature < 10 {
      recommendation := recommendation + CoolAdvice;
    } else {
      recommendation := recommendation + ModerateAdvice;
    }
  }

  /** Assembling the goal from its parts yields GoalSpec. */
  lemma GoalSpecFromParts(weather: Weather, location: Location, level: Activity, a: int, f: Factors, r: string)
    requires f == FactorsOf(weather, level)
    requires a == Max(BaseGoal + Total(f), MinimumGoal)
    requires r == Recommendation(location.city, weather.temperature)
    ensures HydrationGoal(BaseGoal, a, f, r) == GoalSpec(weather, location, level)
  {
  }

  /** The calculator itself, accumulating the goal section by section as the source does. */
  method CalculateHydrationGoal(weatherData: Weather, locationData: Location, activityLevel: Activity := Moderate)
    returns (goal: HydrationGoal)
    ensures goal == GoalSpec(weatherData, locationData, activityLevel)
  {
    var adjustedGoal := BaseGoal;
    var factors := Factors(0, 0, 0, 0);
    factors, adjustedGoal := AdjustForTemperature(weatherData.temperature, factors, adjustedGoal);
    factors, adjustedGoal := AdjustForHumidity(weatherData.humidity, factors, adjustedGoal);
    factors, adjustedGoal := AdjustForClimate(weatherData.weatherCondition, factors, adjustedGoal);
    factors, adjustedGoal := AdjustForActivity(activityLevel, factors, adjustedGoal);
    adjustedGoal := Max(adjustedGoal, MinimumGoal);
    var recommendation := BuildRecommendation(locationData.city, weatherData.temperature);
    GoalSpecFromParts(weatherData, locationData, activityLevel, adjustedGoal, factors, recommendation);
    goal := HydrationGoal(BaseGoal, adjustedGoal, factors, recommendation);
  }

  /** Both ends of 7..14 are reached, so the range is exact. */
  lemma GoalRangeIsTight(location: Location)
    ensures GoalSpec(Weather(5, 50, "rain", 3), location, Low).adjustedGoal == 7
    ensures GoalSpec(Weather(32, 85, "clear", 35), location, High).adjustedGoal == 14
  {
  }

  /** Hot, humid, clear weather and high activity: factors (2, 1, 1, 2), goal 14. */
  lemma WorkedExample(location: Location)
    ensures GoalSpec(Weather(32, 85, "clear", 35), location, High).factors == Factors(2, 1, 1, 2)
    ensures GoalSpec(Weather(32, 85, "clear", 35), location, High).adjustedGoal == 14
  {
  }

  /** The fallback weather (25 degrees, 60%, "moderate") with the default activity gives 9 glasses. */
  lemma FallbackWeatherGoal(location: Location)
    ensures GoalSpec(Weather(25, 60, "moderate", 26), location).factors == Factors(0, 0, 0, 1)
    ensures GoalSpec(Weather(25, 60, "moderate", 26), location).adjustedGoal == 9
  {
  }

  /** The unused moderate conditions add nothing. */
  lemma ModerateConditionsAddNothing(condition: string)
    requires condition in ModerateConditions
    ensures ClimateFactor(condition) == 0
  {
  }
}
