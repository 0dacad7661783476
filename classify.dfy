/**
  The small classifiers of demo.js: which browser a user-agent string names
  (demo.js:198-216) and how a status report from the device is shown
  (demo.js:128-140). All of them are pure.
*/
module Classify {
  import opened Options

  /** `p` occurs in `s` starting at position `j`. */
  predicate OccursAt(s: string, p: string, j: nat) {
    j + |p| <= |s| && s[j..j + |p|] == p
  }

  /** `p` occurs somewhere in `s`. */
  ghost predicate Occurs(s: string, p: string) {
    exists j: nat :: OccursAt(s, p, j)
  }

  /**
    String.prototype.indexOf searching from `i`: the first position at or
    after `i` where `p` occurs, and -1 when there is none.
  */
  function IndexOf(s: string, p: string, i: nat): (r: int)
    requires i <= |s|
    ensures r != -1 ==> i <= r && OccursAt(s, p, r)
    ensures r != -1 ==> forall j: nat :: i <= j < r ==> !OccursAt(s, p, j)
    ensures r == -1 <==> forall j: nat :: i <= j ==> !OccursAt(s, p, j)
    decreases |s| - i
  {
    if OccursAt(s, p, i) then i
    else if i == |s| then -1
    else IndexOf(s, p, i + 1)
  }

  /** The test `ua.indexOf(key) !== -1` used throughout browser(). */
  predicate Has(ua: string, key: string) {
    IndexOf(ua, key, 0) != -1
  }

  /** The `indexOf` test answers exactly whether the key occurs. */
  lemma HasOccurs(ua: string, key: string)
    ensures Has(ua, key) <==> Occurs(ua, key)
  {
    if Has(ua, key) {
      assert OccursAt(ua, key, IndexOf(ua, key, 0) as nat);
    }
  }

  datatype BrowserName = Edge | Chrome | Safari | Opera | Firefox

  /**
    browser() (demo.js:198-212) on the lower-cased user agent `ua`; None is
    the `undefined` it returns when no key matches. The tests are tried in
    order, so "edge" wins over everything and "chrome" over "safari".
  */
  function Browser(ua: string): (r: Option<BrowserName>)
    ensures r == Some(Edge) <==> Occurs(ua, "edge")
    ensures r == Some(Chrome) <==> Occurs(ua, "chrome") && !Occurs(ua, "edge")
    ensures r == Some(Safari) <==> Occurs(ua, "safari") && !Occurs(ua, "chrome") && !Occurs(ua, "edge")
    ensures r == Some(Opera) <==>
      Occurs(ua, "opera") && !Occurs(ua, "safari") && !Occurs(ua, "chrome") && !Occurs(ua, "edge")
    ensures r == Some(Firefox) <==>
      Occurs(ua, "firefox") && !Occurs(ua, "opera") && !Occurs(ua, "safari") && !Occurs(ua, "chrome") && !Occurs(ua, "edge")
    ensures r == None <==>
      !Occurs(ua, "firefox") && !Occurs(ua, "opera") && !Occurs(ua, "safari") && !Occurs(ua, "chrome") && !Occurs(ua, "edge")
  {
    HasOccurs(ua, "edge");
    HasOccurs(ua, "chrome");
    HasOccurs(ua, "safari");
    HasOccurs(ua, "opera");
    HasOccurs(ua, "firefox");
    if Has(ua, "edge") then Some(Edge)
    else if Has(ua, "chrome") && !Has(ua, "edge") then Some(Chrome)
    else if Has(ua, "safari") && !Has(ua, "chrome") then Some(Safari)
    else if Has(ua, "opera") then Some(Opera)
    else if Has(ua, "firefox") then Some(Firefox)
    else None
  }

  /** isSafari() (demo.js:214-216): a Safari user agent is one that mentions neither Chrome nor Edge. */
  function IsSafari(ua: string): (r: bool)
    ensures r <==> Occurs(ua, "safari") && !Occurs(ua, "chrome") && !Occurs(ua, "edge")
  {
    Browser(ua) == Some(Safari)
  }

  /** What the status panel shows: its text and its colours. */
  datatype Indicator = Indicator(text: string, background: string, color: string)

  const DetectedLabel := "消灯: 人を検出しました"
  const SwitchedOffLabel := "消灯: ボタンが押されました"
  const IrradiatingLabel := "紫外線照射中"

  /**
    The status display of the data channel's message handler
    (demo.js:127-140): "detect" (a person was seen, the lamp is off) is
    yellow on black, "OFF" (switched off by the button) white on blue, and
    every other status means the lamp is on, white on red.
  */
  function StatusIndicator(status: string): (r: Indicator)
    ensures r.background == "yellow" <==> status == "detect"
    ensures r.background == "blue" <==> status == "OFF"
    ensures r.background == "red" <==> status != "detect" && status != "OFF"
    ensures r.color == "black" <==> status == "detect"
    ensures r.color == "white" <==> status != "detect"
    ensures r.text == DetectedLabel <==> status == "detect"
    ensures r.text == SwitchedOffLabel <==> status == "OFF"
    ensures r.text == IrradiatingLabel <==> r.background == "red"
  {
    if status == "detect" then Indicator(DetectedLabel, "yellow", "black")
    else if status == "OFF" then Indicator(SwitchedOffLabel, "blue", "white")
    else Indicator(IrradiatingLabel, "red", "white")
  }

  /** The three texts differ, so the text alone tells which status arrived. */
  lemma StatusLabelDetermines(s1: string, s2: string)
    ensures StatusIndicator(s1).text == StatusIndicator(s2).text <==>
      StatusIndicator(s1).background == StatusIndicator(s2).background
  {
    assert DetectedLabel[0] != IrradiatingLabel[0];
    assert SwitchedOffLabel[4] != DetectedLabel[4];
  }
}
