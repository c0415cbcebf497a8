/** The icon shown for a weather condition text: the first of "rain",
    "cloud", "snow" and "thunder" that the lower-cased text contains decides
    the icon, and a text containing none of them gets the sun. */
module Icons {
  import opened Weather

  datatype Icon = CloudRain | Cloud | CloudSnow | Zap | Sun

  // ---------------------------------------------------------------------------
  // Lower-casing and substring search
  // ---------------------------------------------------------------------------

  function LowerChar(c: char): char {
    if 'A' <= c <= 'Z' then (c as int + 32) as char else c
  }

  /** `toLowerCase`, on ASCII letters: the result has no upper-case ASCII
      letter and agrees with the input up to case. */
  function ToLower(s: string): (r: string)
    ensures forall i :: 0 <= i < |r| ==> !('A' <= r[i] <= 'Z')
    ensures SameUpToCase(s, r)
  {
    seq(|s|, i requires 0 <= i < |s| => LowerChar(s[i]))
  }

  /** `p` occurs in `s` starting at position `i`. */
  predicate OccursAt(s: string, p: string, i: nat) {
    i + |p| <= |s| && s[i..i + |p|] == p
  }

  /** `s.includes(p)`: `p` occurs somewhere in `s`. */
  function Includes(s: string, p: string): (r: bool)
    ensures r <==> exists i: nat :: i <= |s| && OccursAt(s, p, i)
    decreases |s|
  {
    if OccursAt(s, p, 0) then true
    else if s == [] then false
    else
      var r := Includes(s[1..], p);
      assert r ==> exists i: nat :: i <= |s| && OccursAt(s, p, i) by {
        if r {
          var j: nat :| j <= |s[1..]| && OccursAt(s[1..], p, j);
          assert s[1..][j..j + |p|] == s[j + 1..j + 1 + |p|];
          assert OccursAt(s, p, j + 1);
        }
      }
      assert (exists i: nat :: i <= |s| && OccursAt(s, p, i)) ==> r by {
        if exists i: nat :: i <= |s| && OccursAt(s, p, i) {
          var i: nat :| i <= |s| && OccursAt(s, p, i);
          assert i != 0;
          assert s[1..][i - 1..i - 1 + |p|] == s[i..i + |p|];
          assert OccursAt(s[1..], p, i - 1);
        }
      }
      r
  }

  /** A keyword with a character that the text lacks does not occur in it. */
  lemma MissingChar(s: string, p: string, k: nat)
    requires k < |p| && p[k] !in s
    ensures !Includes(s, p)
  {
  }

  // ---------------------------------------------------------------------------
  // The classifier and its reference definition
  // ---------------------------------------------------------------------------

  /** The keywords in the order they are tested, with the icon each selects. */
  const IconRules: seq<(string, Icon)> :=
    [("rain", CloudRain), ("cloud", Cloud), ("snow", CloudSnow), ("thunder", Zap)]

  /** The icon of the first rule whose keyword occurs in `text`, else the sun. */
  function FirstMatch(rules: seq<(string, Icon)>, text: string): Icon {
    if rules == [] then Sun
    else if Includes(text, rules[0].0) then rules[0].1
    else FirstMatch(rules[1..], text)
  }

  /** `getWeatherIcon`: an early-return chain on the lower-cased condition. */
  function WeatherIcon(condition: string): (icon: Icon)
    ensures icon == FirstMatch(IconRules, ToLower(condition))
  {
    var conditionLower := ToLower(condition);
    IconRulesUnrolled(conditionLower);
    if Includes(conditionLower, "rain") then CloudRain
    else if Includes(conditionLower, "cloud") then Cloud
    else if Includes(conditionLower, "snow") then CloudSnow
    else if Includes(conditionLower, "thunder") then Zap
    else Sun
  }

  lemma IconRulesUnrolled(text: string)
    ensures FirstMatch(IconRules, text) ==
      if Includes(text, "rain") then CloudRain
      else if Includes(text, "cloud") then Cloud
      else if Includes(text, "snow") then CloudSnow
      else if Includes(text, "thunder") then Zap
      else Sun
  {
    var r0: seq<(string, Icon)> := IconRules;
    var r1: seq<(string, Icon)> := [("cloud", Cloud), ("snow", CloudSnow), ("thunder", Zap)];
    var r2: seq<(string, Icon)> := [("snow", CloudSnow), ("thunder", Zap)];
    var r3: seq<(string, Icon)> := [("thunder", Zap)];
    assert r0[1..] == r1 && r1[1..] == r2 && r2[1..] == r3 && r3[1..] == [];
    assert FirstMatch(r3, text) == if Includes(text, "thunder") then Zap else Sun;
    assert FirstMatch(r2, text) == if Includes(text, "snow") then CloudSnow else FirstMatch(r3, text);
    assert FirstMatch(r1, text) == if Includes(text, "cloud") then Cloud else FirstMatch(r2, text);
    assert FirstMatch(r0, text) == if Includes(text, "rain") then CloudRain else FirstMatch(r1, text);
  }

  // ---------------------------------------------------------------------------
  // Properties
  // ---------------------------------------------------------------------------

  /** Two texts that differ only in the case of ASCII letters. */
  predicate SameUpToCase(s: string, t: string) {
    |s| == |t| && forall i :: 0 <= i < |s| ==> LowerChar(s[i]) == LowerChar(t[i])
  }

  /** The classifier ignores letter case. */
  lemma CaseInsensitive(s: string, t: string)
    requires SameUpToCase(s, t)
    ensures WeatherIcon(s) == WeatherIcon(t)
  {
    assert ToLower(s) == ToLower(t);
  }

  /** The icons of a rule list: each is distinct and none is the sun. */
  predicate DistinctIcons(rules: seq<(string, Icon)>) {
    && (forall i :: 0 <= i < |rules| ==> rules[i].1 != Sun)
    && (forall i, j :: 0 <= i < j < |rules| ==> rules[i].1 != rules[j].1)
  }

  /** A first match is the sun or the icon of a rule whose keyword occurs. */
  lemma {:induction false} FirstMatchFrom(rules: seq<(string, Icon)>, text: string)
    ensures var m := FirstMatch(rules, text);
      m == Sun || exists i :: 0 <= i < |rules| && rules[i].1 == m && Includes(text, rules[i].0)
  {
    if rules != [] && !Includes(text, rules[0].0) {
      FirstMatchFrom(rules[1..], text);
      var m := FirstMatch(rules, text);
      if m != Sun {
        var i :| 0 <= i < |rules[1..]| && rules[1..][i].1 == m && Includes(text, rules[1..][i].0);
        assert rules[i + 1] == rules[1..][i];
      }
    }
  }

  /** A first match picks rule `k` exactly when its keyword occurs and no
      earlier keyword does. */
  lemma {:induction false} FirstMatchPicks(rules: seq<(string, Icon)>, text: string, k: nat)
    requires DistinctIcons(rules) && k < |rules|
    ensures FirstMatch(rules, text) == rules[k].1 <==>
      Includes(text, rules[k].0) && forall j :: 0 <= j < k ==> !Includes(text, rules[j].0)
  {
    if Includes(text, rules[0].0) {
      assert k > 0 ==> rules[0].1 != rules[k].1;
    } else if k == 0 {
      FirstMatchFrom(rules[1..], text);
      var m := FirstMatch(rules[1..], text);
      if m != Sun {
        var i :| 0 <= i < |rules[1..]| && rules[1..][i].1 == m && Includes(text, rules[1..][i].0);
        assert rules[i + 1] == rules[1..][i];
        assert rules[0].1 != rules[i + 1].1;
      }
    } else {
      var tail := rules[1..];
      assert DistinctIcons(tail) by {
        forall i, j | 0 <= i < j < |tail| ensures tail[i].1 != tail[j].1 {
          assert tail[i] == rules[i + 1] && tail[j] == rules[j + 1];
        }
      }
      FirstMatchPicks(tail, text, k - 1);
      assert forall j :: 0 <= j < k - 1 ==> tail[j] == rules[j + 1];
      assert forall j :: 0 <= j < k ==> j == 0 || rules[j] == tail[j - 1];
    }
  }

  /** A first match gives the sun exactly when no keyword occurs. */
  lemma {:induction false} FirstMatchDefault(rules: seq<(string, Icon)>, text: string)
    requires DistinctIcons(rules)
    ensures FirstMatch(rules, text) == Sun <==> forall j :: 0 <= j < |rules| ==> !Includes(text, rules[j].0)
  {
    if rules != [] && !Includes(text, rules[0].0) {
      var tail := rules[1..];
      FirstMatchDefault(tail, text);
      assert forall j :: 0 <= j < |rules| ==> j == 0 || rules[j] == tail[j - 1];
    }
  }

  /** Precedence rain > cloud > snow > thunder > sun, case-insensitively. */
  lemma IconPrecedence(condition: string)
    ensures var lower, icon := ToLower(condition), WeatherIcon(condition);
      && (icon == CloudRain <==> Includes(lower, "rain"))
      && (icon == Cloud <==> !Includes(lower, "rain") && Includes(lower, "cloud"))
      && (icon == CloudSnow <==>
            !Includes(lower, "rain") && !Includes(lower, "cloud") && Includes(lower, "snow"))
      && (icon == Zap <==>
            !Includes(lower, "rain") && !Includes(lower, "cloud") && !Includes(lower, "snow")
            && Includes(lower, "thunder"))
      && (icon == Sun <==>
            !Includes(lower, "rain") && !Includes(lower, "cloud") && !Includes(lower, "snow")
            && !Includes(lower, "thunder"))
  {
  }

  /** The keyword table has distinct icons, none of them the sun. */
  lemma TableDistinct()
    ensures DistinctIcons(IconRules)
  {
  }

  /** The classifier picks the icon of table entry `k` exactly when its
      keyword occurs in the lower-cased text and no earlier keyword does. */
  lemma IconPicksRule(condition: string, k: nat)
    requires k < |IconRules|
    ensures WeatherIcon(condition) == IconRules[k].1 <==>
      Includes(ToLower(condition), IconRules[k].0)
      && forall j :: 0 <= j < k ==> !Includes(ToLower(condition), IconRules[j].0)
  {
    TableDistinct();
    FirstMatchPicks(IconRules, ToLower(condition), k);
  }

  /** The classifier gives the sun exactly when no keyword of the table occurs. */
  lemma IconDefault(condition: string)
    ensures WeatherIcon(condition) == Sun <==>
      forall j :: 0 <= j < |IconRules| ==> !Includes(ToLower(condition), IconRules[j].0)
  {
    TableDistinct();
    FirstMatchDefault(IconRules, ToLower(condition));
  }

  /** A text mentioning both rain and cloud, in any case, shows the rain icon. */
  lemma RainBeatsCloud(condition: string)
    requires condition == "Patchy RAIN and Cloud"
    ensures Includes(ToLower(condition), "cloud")
    ensures WeatherIcon(condition) == CloudRain
  {
    var lower := ToLower(condition);
    assert lower[7..11] == "rain" && lower[16..21] == "cloud";
    assert OccursAt(lower, "rain", 7) && OccursAt(lower, "cloud", 16);
  }

  /** The icons of the demo fixture: the current "Partly cloudy" condition
      and the forecast days "Sunny", "Partly cloudy" and "Light rain". */
  lemma DemoIcons()
    ensures WeatherIcon(Demo.current.conditionText) == Cloud
    ensures WeatherIcon(Demo.forecast[0].conditionText) == Sun
    ensures WeatherIcon(Demo.forecast[1].conditionText) == Cloud
    ensures WeatherIcon(Demo.forecast[2].conditionText) == CloudRain
  {
    PartlyCloudy(Demo.current.conditionText);
    Sunny(Demo.forecast[0].conditionText);
    PartlyCloudy(Demo.forecast[1].conditionText);
    LightRain(Demo.forecast[2].conditionText);
  }

  lemma PartlyCloudy(condition: string)
    requires condition == "Partly cloudy"
    ensures WeatherIcon(condition) == Cloud
  {
    var lower := ToLower(condition);
    assert lower == "partly cloudy";
    MissingChar(lower, "rain", 2);
    assert lower[7..12] == "cloud";
    assert OccursAt(lower, "cloud", 7);
  }

  lemma Sunny(condition: string)
    requires condition == "Sunny"
    ensures WeatherIcon(condition) == Sun
  {
    var lower := ToLower(condition);
    assert lower == "sunny";
    MissingChar(lower, "rain", 0);
    MissingChar(lower, "cloud", 0);
    MissingChar(lower, "snow", 2);
    MissingChar(lower, "thunder", 0);
  }

  lemma LightRain(condition: string)
    requires condition == "Light rain"
    ensures WeatherIcon(condition) == CloudRain
  {
    var lower := ToLower(condition);
    assert lower == "light rain";
    assert lower[6..10] == "rain";
    assert OccursAt(lower, "rain", 6);
  }
}
