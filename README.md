# Bharat Kisan Weather App: advisory rules and condition icons

The dashboard is a single React component, and two pieces of it contain logic:

- The **agricultural advisory rules** (`getAgriculturalTips`) turn a weather
  snapshot and the interface language into an ordered list of tips.
  There are four independent rules with strict thresholds:
  - heat: temperature above 35 °C gives a warning;
  - humidity: humidity above 80 % gives an info tip;
  - wind: wind above 20 km/h gives a warning;
  - rain outlook: some forecast day with a chance of rain above 60 % gives a
    success tip.

  With no snapshot the list is empty. The language only chooses between the
  English and the Hindi text of each message.
- The **condition classifier** (`getWeatherIcon`) lower-cases a condition
  text and picks an icon. It tests "rain", "cloud", "snow" and "thunder" in
  that order, and falls back to the sun.

The project has three modules:

- `Weather` (`weather.dfy`): the fields of the snapshot that these functions
  read, the language, and the Delhi demo fixture.
- `Advisory` (`advisory.dfy`): the rules.
  - `GetAgriculturalTips` is a method that appends to a sequence step by step, as the
    source pushes onto its array.
  - The method is proved equal to the reference function `AgriculturalTips`.
    That function defines the result as the firing rules of an explicit
    ordered rule list, each mapped to its tip.
  - The lemmas about `AgriculturalTips` state thresholds, order, count,
    language independence, the demo instance and the forecast badge.
- `Icons` (`icons.dfy`): the classifier.
  - `WeatherIcon` is the early-return chain.
  - It is proved equal to a first-match search over an ordered keyword table.
  - The lemmas state precedence, case-insensitivity and the icons of the demo fixture.

Numbers are JavaScript numbers and are modelled as `real`. They are only
ever compared with integer constants.

The advisory rules have no UV rule and no precipitation rule, and they put
no numbers into the message text; the model adds none. The language type
allows only `'en'` and `'hi'`, and the code picks the English text when the
language is `'en'` and the Hindi text otherwise.

## Model

| member | source | states |
|---|---|---|
| `Advisory.GetAgriculturalTips` | src/App.tsx:241-288 | the list built push by push equals the reference rule-list definition; with no snapshot it is empty |
| `Advisory.RainExpected` | src/App.tsx:277 | true iff some forecast day has a rain chance strictly above 60; false for an empty forecast |
| `Advisory.RainBadge` | src/App.tsx:467 | a forecast badge is highlighted (`default`) iff the rain-outlook test of line 277 holds for that one day |
| `Advisory.AgriculturalTips` | src/App.tsx:241-288 | the reference definition: no tips without a snapshot; otherwise every tip carries its own rule's type and message |
| `Advisory.FiredRuleOrder` | src/App.tsx:244-287 | the rule list evaluates the four rules independently, each contributing zero or one entry, in order heat, humidity, wind, rain |
| `Advisory.FiredMembers` | src/App.tsx:244-287 | a rule is among the fired ones iff it is in the rule list and its condition holds |
| `Advisory.FiredRanked` | src/App.tsx:244-287 | filtering a list ordered by rule rank keeps it ordered |
| `Advisory.RuleTip` | src/App.tsx:249-285 | a rule's tip with that rule's type is present iff the rule fires |
| `Advisory.RuleThresholds` | src/App.tsx:249-285 | heat warning iff temp > 35, humidity info iff humidity > 80, wind warning iff wind > 20, rain success iff some day's rain chance > 60 (so exactly 35, 80, 20, 60 do not fire) |
| `Advisory.TipsInRuleOrder` | src/App.tsx:244-287 | the tips are in strictly increasing rule order (heat, humidity, wind, rain), each with its rule's type and message |
| `Advisory.TipCount` | src/App.tsx:244-287 | the number of tips is the number of rules whose condition holds, and at most 4 |
| `Advisory.NoTipsIff` | src/App.tsx:244-287 | no tips iff temp <= 35, humidity <= 80, wind <= 20 and every day's rain chance <= 60 |
| `Advisory.LanguageAffectsTextOnly` | src/App.tsx:252-283 | English and Hindi give lists of equal length with the same categories and types at every position and a different message at every position |
| `Advisory.DemoTips` | src/App.tsx:72-151 | the demo fixture (28 °C, 65 %, 12 km/h, day three 80 %) yields exactly the rain tip of type success |
| `Advisory.HotAndHumid` | src/App.tsx:249-265 | 36 °C, 81 %, calm wind and a dry forecast yield exactly [heat, humidity] in that order |
| `Advisory.BadgeMatchesRainTip` | src/App.tsx:467 | some forecast badge is highlighted iff the rain-outlook tip is emitted |
| `Icons.ToLower` | src/App.tsx:233 | the lower-cased text has no upper-case ASCII letter and agrees with the input up to case |
| `Icons.Includes` | src/App.tsx:234-237 | `includes` holds iff the keyword occurs at some position of the text |
| `Icons.MissingChar` | src/App.tsx:234-237 | a keyword with a character that the text lacks is not included |
| `Icons.WeatherIcon` | src/App.tsx:232-239 | the chain of early returns equals the first match of the ordered keyword table on the lower-cased text |
| `Icons.IconRulesUnrolled` | src/App.tsx:234-238 | the first match over the keyword table tests rain, cloud, snow, thunder in that order, then the sun |
| `Icons.FirstMatchFrom` | src/App.tsx:234-238 | a first match is the sun or the icon of a keyword that occurs |
| `Icons.FirstMatchPicks` | src/App.tsx:234-237 | a first match picks keyword k iff it occurs and no earlier keyword does |
| `Icons.FirstMatchDefault` | src/App.tsx:238 | a first match is the sun iff no keyword occurs |
| `Icons.TableDistinct` | src/App.tsx:234-238 | the four keywords select four different icons, none of them the sun |
| `Icons.IconPicksRule` | src/App.tsx:232-239 | the classifier picks table entry k iff its keyword occurs in the lower-cased text and no earlier keyword does |
| `Icons.IconDefault` | src/App.tsx:238 | the classifier gives the sun iff no keyword of the table occurs in the lower-cased text |
| `Icons.IconPrecedence` | src/App.tsx:232-239 | rain iff "rain" occurs; cloud iff "cloud" does and "rain" does not; snow and thunder likewise; sun iff none occurs (all on the lower-cased text) |
| `Icons.CaseInsensitive` | src/App.tsx:233 | two texts that differ only in ASCII letter case get the same icon |
| `Icons.RainBeatsCloud` | src/App.tsx:234-235 | "Patchy RAIN and Cloud" contains "cloud" once lower-cased, yet maps to the rain icon |
| `Icons.PartlyCloudy` | src/App.tsx:235 | "Partly cloudy" maps to the cloud icon |
| `Icons.Sunny` | src/App.tsx:238 | "Sunny" maps to the sun icon |
| `Icons.LightRain` | src/App.tsx:234 | "Light rain" maps to the rain icon |
| `Icons.DemoIcons` | src/App.tsx:82-137 | the demo fixture's conditions map to cloud (current), then sun, cloud and rain (the three forecast days) |

## Left out

- Rendering is not modelled: JSX, CSS classes, the Card, Tabs, Alert and
  Badge components and the lucide icons. Icons are an enumeration, and the
  badge is reduced to its variant.
- The React state is not modelled: `useState`, the `useEffect` that loads the
  demo data, and the language toggle. The snapshot and the language become
  parameters of the operations.
- `searchWeather` is not modelled. It is asynchronous, waits on
  `setTimeout` and logs errors. Its only effect on the data is to write the
  searched name into the location, which neither rule reads. The copy of the
  demo data is shallow, so the shared location object changes too.
- `formatDate` is not modelled. It depends on JavaScript `Date` and on locale
  formatting.
- The `translations` table, the "no alerts" fallback text and the static
  seasonal tips are not modelled. They are constant strings with no behaviour.
- Snapshot fields that the rules and the classifier do not read are left out
  of `Weather.WeatherData`: location, `temp_f`, `wind_dir`, pressure,
  visibility, UV, feels-like, the condition `icon` URLs, min/max
  temperatures, humidity and wind per day, and sunrise/sunset.
- Floating point is not modelled. Numbers are exact reals, which agrees with
  JavaScript for finite numbers in the strict comparisons against 35, 80, 20
  and 60. NaN is not modelled: for NaN both `> 35` and `<= 35` are false, so
  `Advisory.NoTipsIff` has no JavaScript counterpart there.
- `Icons.WeatherIcon`: lower-cases only the ASCII letters A-Z. JavaScript's
  `toLowerCase` also folds non-ASCII letters, but every keyword is ASCII.
  Only two non-ASCII letters lower-case to something containing an ASCII
  letter. U+212A becomes "k", which is in no keyword. U+0130 becomes "i"
  followed by a combining dot, so it never forms the "in" of "rain".
- `Advisory.Tip`: the `category` field is a tag of the model that names the
  rule. The source's tip objects carry only `type` and `message`.
