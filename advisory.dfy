/** The agricultural advisory rules of the dashboard's "Agricultural Alerts"
    tab: four independent strict-threshold rules over a weather snapshot,
    each contributing at most one tip, in a fixed order. */
module Advisory {
  import opened Weather

  /** The `type` of a tip, which selects the alert's styling. */
  datatype TipType = Warning | Info | Success

  /** Which rule produced a tip (a tag of the model; the source's tips carry
      only `type` and `message`). */
  datatype Category = Heat | Humidity | Wind | RainOutlook

  datatype Tip = Tip(category: Category, tipType: TipType, message: string)

  // Each message is written as its first sentence followed by the rest: the
  // verifier reads the characters of the short first part, which is how it
  // tells the English and the Hindi text of a rule apart.
  const HeatEn: string := "High temperature alert! " + "Increase irrigation frequency and provide shade for livestock."
  const HeatHi: string := "उच्च तापमान चेतावनी! " + "सिंचाई की आवृत्ति बढ़ाएं और पशुओं के लिए छाया प्रदान करें।"
  const HumidityEn: string := "High humidity detected. " + "Monitor crops for fungal diseases and ensure proper ventilation."
  const HumidityHi: string := "उच्च आर्द्रता का पता चला। " + "फंगल रोगों के लिए फसलों की निगरानी करें और उचित वेंटिलेशन सुनिश्चित करें।"
  const WindEn: string := "Strong winds expected. " + "Avoid spraying pesticides and secure loose farm equipment."
  const WindHi: string := "तेज हवाओं की उम्मीद। " + "कीटनाशकों का छिड़काव न करें और ढीले कृषि उपकरणों को सुरक्षित करें।"
  const RainEn: string := "Rain expected in coming days. " + "Good time for sowing and transplanting activities."
  const RainHi: string := "आने वाले दिनों में बारिश की उम्मीद। " + "बुआई और रोपाई गतिविधियों के लिए अच्छा समय।"

  // ---------------------------------------------------------------------------
  // The rain outlook and the forecast badge
  // ---------------------------------------------------------------------------

  /** `forecastday.some(day => day.day.daily_chance_of_rain > 60)` */
  function RainExpected(days: seq<ForecastDay>): (r: bool)
    ensures r <==> exists i :: 0 <= i < |days| && days[i].dailyChanceOfRain > 60.0
    ensures days == [] ==> !r
  {
    if days == [] then false
    else if days[0].dailyChanceOfRain > 60.0 then true
    else
      var r := RainExpected(days[1..]);
      assert forall i :: 1 <= i < |days| ==> days[i] == days[1..][i - 1];
      r
  }

  /** The variant of the rain-chance badge on a forecast card. */
  datatype BadgeVariant = Default | Secondary

  /** The badge is highlighted under the same test as the rain-outlook rule. */
  function RainBadge(day: ForecastDay): (v: BadgeVariant)
    ensures v == Default <==> RainExpected([day])
  {
    if day.dailyChanceOfRain > 60.0 then Default else Secondary
  }

  // ---------------------------------------------------------------------------
  // The rule table: the reference definition of the advisory list
  // ---------------------------------------------------------------------------

  /** The rules in the order in which they are evaluated and reported. */
  const RuleOrder: seq<Category> := [Heat, Humidity, Wind, RainOutlook]

  /** Position of a rule in RuleOrder. */
  function Rank(c: Category): (k: nat)
    ensures k < |RuleOrder| && RuleOrder[k] == c
  {
    match c
    case Heat => 0
    case Humidity => 1
    case Wind => 2
    case RainOutlook => 3
  }

  /** The trigger of each rule; every comparison is a strict `>`. */
  predicate Fires(c: Category, w: WeatherData) {
    match c
    case Heat => w.current.tempC > 35.0
    case Humidity => w.current.humidity > 80.0
    case Wind => w.current.windKph > 20.0
    case RainOutlook => RainExpected(w.forecast)
  }

  function Severity(c: Category): TipType {
    match c
    case Heat => Warning
    case Humidity => Info
    case Wind => Warning
    case RainOutlook => Success
  }

  /** The message text: English for En, Hindi otherwise. */
  function Message(c: Category, lang: Language): string {
    match c
    case Heat => if lang == En then HeatEn else HeatHi
    case Humidity => if lang == En then HumidityEn else HumidityHi
    case Wind => if lang == En then WindEn else WindHi
    case RainOutlook => if lang == En then RainEn else RainHi
  }

  function TipFor(c: Category, lang: Language): Tip {
    Tip(c, Severity(c), Message(c, lang))
  }

  /** The rules of `cs` that fire on `w`, in the order of `cs`. */
  function Fired(cs: seq<Category>, w: WeatherData): seq<Category> {
    if cs == [] then []
    else (if Fires(cs[0], w) then [cs[0]] else []) + Fired(cs[1..], w)
  }

  function TipsFor(cs: seq<Category>, lang: Language): seq<Tip> {
    seq(|cs|, i requires 0 <= i < |cs| => TipFor(cs[i], lang))
  }

  /** What the Agricultural Alerts tab shows: no tips without a snapshot,
      otherwise one tip per firing rule, in rule order. */
  function AgriculturalTips(data: Option<WeatherData>, lang: Language): (r: seq<Tip>)
    ensures data.None? ==> r == []
    ensures forall i :: 0 <= i < |r| ==> r[i] == TipFor(r[i].category, lang)
  {
    match data
    case None => []
    case Some(w) => TipsFor(Fired(RuleOrder, w), lang)
  }

  function Categories(tips: seq<Tip>): seq<Category> {
    seq(|tips|, i requires 0 <= i < |tips| => tips[i].category)
  }

  predicate HasTip(tips: seq<Tip>, c: Category, ty: TipType) {
    exists i :: 0 <= i < |tips| && tips[i].category == c && tips[i].tipType == ty
  }

  predicate Ranked(cs: seq<Category>) {
    forall i, j :: 0 <= i < j < |cs| ==> Rank(cs[i]) < Rank(cs[j])
  }

  function Indicator(b: bool): nat { if b then 1 else 0 }

  // ---------------------------------------------------------------------------
  // The operation, built step by step as the source does
  // ---------------------------------------------------------------------------

  method GetAgriculturalTips(data: Option<WeatherData>, language: Language) returns (tips: seq<Tip>)
    ensures tips == AgriculturalTips(data, language)
    ensures data.None? ==> tips == []
  {
    if data.None? {
      return [];
    }
    var w := data.value;
    tips := [];
    var temp := w.current.tempC;
    var humidity := w.current.humidity;
    var windSpeed := w.current.windKph;

    if temp > 35.0 {
      tips := tips + [Tip(Heat, Warning, if language == En then HeatEn else HeatHi)];
    }
    assert tips == TipsFor(OneIf(Heat, w), language);
    ghost var done := tips;
    if humidity > 80.0 {
      tips := tips + [Tip(Humidity, Info, if language == En then HumidityEn else HumidityHi)];
    }
    assert tips == done + TipsFor(OneIf(Humidity, w), language);
    done := tips;
    if windSpeed > 20.0 {
      tips := tips + [Tip(Wind, Warning, if language == En then WindEn else WindHi)];
    }
    assert tips == done + TipsFor(OneIf(Wind, w), language);
    done := tips;
    var rainExpected := RainExpected(w.forecast);
    if rainExpected {
      tips := tips + [Tip(RainOutlook, Success, if language == En then RainEn else RainHi)];
    }
    assert tips == done + TipsFor(OneIf(RainOutlook, w), language);
    FiredRuleOrder(w);
    TipsForRuleOrder(w, language);
  }

  // ---------------------------------------------------------------------------
  // Lemmas about the reference definition
  // ---------------------------------------------------------------------------

  function OneIf(c: Category, w: WeatherData): seq<Category> {
    if Fires(c, w) then [c] else []
  }

  lemma TipsForAppend(a: seq<Category>, b: seq<Category>, lang: Language)
    ensures TipsFor(a + b, lang) == TipsFor(a, lang) + TipsFor(b, lang)
  {
    assert forall i :: 0 <= i < |a| + |b| ==>
      TipsFor(a + b, lang)[i] == (TipsFor(a, lang) + TipsFor(b, lang))[i];
  }

  /** The tips of the four rules, rule by rule. */
  lemma TipsForRuleOrder(w: WeatherData, lang: Language)
    ensures TipsFor(OneIf(Heat, w) + OneIf(Humidity, w) + OneIf(Wind, w) + OneIf(RainOutlook, w), lang)
      == TipsFor(OneIf(Heat, w), lang) + TipsFor(OneIf(Humidity, w), lang)
       + TipsFor(OneIf(Wind, w), lang) + TipsFor(OneIf(RainOutlook, w), lang)
  {
    var a, b, c, d := OneIf(Heat, w), OneIf(Humidity, w), OneIf(Wind, w), OneIf(RainOutlook, w);
    TipsForAppend(a + b + c, d, lang);
    TipsForAppend(a + b, c, lang);
    TipsForAppend(a, b, lang);
  }

  /** RuleOrder unrolled: the four rules are evaluated independently. */
  lemma FiredRuleOrder(w: WeatherData)
    ensures Fired(RuleOrder, w) == OneIf(Heat, w) + OneIf(Humidity, w) + OneIf(Wind, w) + OneIf(RainOutlook, w)
  {
    var r0: seq<Category> := [Heat, Humidity, Wind, RainOutlook];
    var r1: seq<Category> := [Humidity, Wind, RainOutlook];
    var r2: seq<Category> := [Wind, RainOutlook];
    var r3: seq<Category> := [RainOutlook];
    assert r0[1..] == r1 && r1[1..] == r2 && r2[1..] == r3 && r3[1..] == [];
    assert Fired(r3, w) == OneIf(RainOutlook, w);
    assert Fired(r2, w) == OneIf(Wind, w) + Fired(r3, w);
    assert Fired(r1, w) == OneIf(Humidity, w) + Fired(r2, w);
    assert Fired(r0, w) == OneIf(Heat, w) + Fired(r1, w);
  }

  lemma {:induction false} FiredMembers(cs: seq<Category>, w: WeatherData, c: Category)
    ensures c in Fired(cs, w) <==> c in cs && Fires(c, w)
  {
    if cs != [] {
      FiredMembers(cs[1..], w, c);
      var head := OneIf(cs[0], w);
      assert Fired(cs, w) == head + Fired(cs[1..], w);
      assert c in cs <==> c == cs[0] || c in cs[1..] by {
        assert cs == [cs[0]] + cs[1..];
      }
      assert c in head <==> c == cs[0] && Fires(c, w);
    }
  }

  lemma {:induction false} FiredRanked(cs: seq<Category>, w: WeatherData)
    requires Ranked(cs)
    ensures Ranked(Fired(cs, w))
  {
    if cs != [] {
      var tail := Fired(cs[1..], w);
      FiredRanked(cs[1..], w);
      forall j | 0 <= j < |tail| ensures Rank(cs[0]) < Rank(tail[j]) {
        FiredMembers(cs[1..], w, tail[j]);
        var k :| 0 <= k < |cs[1..]| && cs[1..][k] == tail[j];
        assert cs[k + 1] == tail[j];
      }
    }
  }

  /** Strict thresholds: each rule reports its tip, with its type, exactly
      when its strict comparison holds, so 35, 80, 20 and 60 do not fire. */
  lemma RuleThresholds(w: WeatherData, lang: Language)
    ensures var tips := AgriculturalTips(Some(w), lang);
      && (HasTip(tips, Heat, Warning) <==> w.current.tempC > 35.0)
      && (HasTip(tips, Humidity, Info) <==> w.current.humidity > 80.0)
      && (HasTip(tips, Wind, Warning) <==> w.current.windKph > 20.0)
      && (HasTip(tips, RainOutlook, Success) <==>
            exists i :: 0 <= i < |w.forecast| && w.forecast[i].dailyChanceOfRain > 60.0)
  {
    RuleTip(w, lang, Heat);
    RuleTip(w, lang, Humidity);
    RuleTip(w, lang, Wind);
    RuleTip(w, lang, RainOutlook);
  }

  /** One rule's tip is present, with that rule's type, exactly when it fires. */
  lemma RuleTip(w: WeatherData, lang: Language, c: Category)
    ensures HasTip(AgriculturalTips(Some(w), lang), c, Severity(c)) <==> Fires(c, w)
  {
    var tips := AgriculturalTips(Some(w), lang);
    var fired := Fired(RuleOrder, w);
    FiredMembers(RuleOrder, w, c);
    assert c in RuleOrder by { assert RuleOrder[Rank(c)] == c; }
    if Fires(c, w) {
      var k :| 0 <= k < |fired| && fired[k] == c;
      assert tips[k].category == c && tips[k].tipType == Severity(c);
    }
    if HasTip(tips, c, Severity(c)) {
      var k :| 0 <= k < |tips| && tips[k].category == c && tips[k].tipType == Severity(c);
      assert fired[k] == c;
    }
  }

  /** Order: the tips are those of the firing rules in the fixed order
      heat, humidity, wind, rain outlook, each with its rule's type and
      message. */
  lemma TipsInRuleOrder(w: WeatherData, lang: Language)
    ensures var tips := AgriculturalTips(Some(w), lang);
      && Ranked(Categories(tips))
      && (forall i :: 0 <= i < |tips| ==> tips[i] == TipFor(tips[i].category, lang))
  {
    assert Ranked(RuleOrder);
    FiredRanked(RuleOrder, w);
    var tips := AgriculturalTips(Some(w), lang);
    assert Categories(tips) == Fired(RuleOrder, w);
  }

  /** The number of tips is the number of rules that fired: at most four. */
  lemma TipCount(w: WeatherData, lang: Language)
    ensures var n := |AgriculturalTips(Some(w), lang)|;
      && n == Indicator(w.current.tempC > 35.0) + Indicator(w.current.humidity > 80.0)
            + Indicator(w.current.windKph > 20.0) + Indicator(RainExpected(w.forecast))
      && n <= 4
  {
    FiredRuleOrder(w);
  }

  /** No tip at all exactly when no threshold is exceeded. */
  lemma NoTipsIff(w: WeatherData, lang: Language)
    ensures AgriculturalTips(Some(w), lang) == [] <==>
      && w.current.tempC <= 35.0 && w.current.humidity <= 80.0 && w.current.windKph <= 20.0
      && forall i :: 0 <= i < |w.forecast| ==> w.forecast[i].dailyChanceOfRain <= 60.0
  {
    TipCount(w, lang);
  }

  /** The language changes the message text and nothing else. */
  lemma LanguageAffectsTextOnly(w: WeatherData)
    ensures var en, hi := AgriculturalTips(Some(w), En), AgriculturalTips(Some(w), Hi);
      && |en| == |hi|
      && Categories(en) == Categories(hi)
      && (forall i :: 0 <= i < |en| ==> en[i].tipType == hi[i].tipType && en[i].message != hi[i].message)
  {
  }

  /** The demo fixture raises exactly one tip: the rain outlook (day three has
      an 80% chance of rain). */
  lemma DemoTips(lang: Language)
    ensures AgriculturalTips(Some(Demo), lang) == [Tip(RainOutlook, Success, Message(RainOutlook, lang))]
  {
  }

  /** A hot and humid day with calm wind and a dry forecast raises the heat
      and humidity tips, in that order. */
  lemma HotAndHumid(w: WeatherData, lang: Language)
    requires w.current.tempC == 36.0 && w.current.humidity == 81.0 && w.current.windKph == 10.0
    requires forall i :: 0 <= i < |w.forecast| ==> w.forecast[i].dailyChanceOfRain <= 60.0
    ensures AgriculturalTips(Some(w), lang) == [TipFor(Heat, lang), TipFor(Humidity, lang)]
  {
    FiredRuleOrder(w);
    TipsForAppend([Heat], [Humidity], lang);
  }

  /** Some forecast badge is highlighted exactly when the rain tip is shown. */
  lemma BadgeMatchesRainTip(w: WeatherData, lang: Language)
    ensures (exists i :: 0 <= i < |w.forecast| && RainBadge(w.forecast[i]) == Default) <==>
      HasTip(AgriculturalTips(Some(w), lang), RainOutlook, Success)
  {
    RuleThresholds(w, lang);
  }
}
