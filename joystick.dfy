/**
  The joystick panel (demo.js:408-558): the object that remembers which
  gamepad is selected, which axis mapping its name selects, and which axes
  have been seen moving since the pad was first read.
*/
module Joystick {
  import opened Options

  /** The gamepad fields the panel reads: `index` (absent when undefined or null), `id` and `axes`. */
  datatype Gamepad = Gamepad(index: Option<nat>, id: string, axes: seq<real>)

  /** axesMapper holds five entries (demo.js:417-489); entry 0 is the null "no mapping". */
  const MapperCount: nat := 5

  /** The text a regular expression's `test` sees for the selected id: `null` becomes "null". */
  function UidText(uid: Option<string>): string {
    match uid
    case None => "null"
    case Some(s) => s
  }

  // ---------------------------------------------------------------------
  // Naming a gamepad

  function DigitChar(d: nat): char
    requires d < 10
  {
    "0123456789"[d]
  }

  /** The decimal text JavaScript gives a non-negative integer. */
  function Decimal(n: nat): (r: string)
    ensures |r| > 0
    ensures forall k :: 0 <= k < |r| ==> '0' <= r[k] <= '9'
    decreases n
  {
    if n < 10 then [DigitChar(n)] else Decimal(n / 10) + [DigitChar(n % 10)]
  }

  /** The value of a text of decimal digits. */
  function DecimalValue(s: string): nat
    requires forall k :: 0 <= k < |s| ==> '0' <= s[k] <= '9'
  {
    if s == [] then 0 else 10 * DecimalValue(s[..|s| - 1]) + (s[|s| - 1] - '0') as nat
  }

  /** Reading the decimal text back gives the number, so different indices give different texts. */
  lemma {:induction false} DecimalRoundTrip(n: nat)
    ensures DecimalValue(Decimal(n)) == n
    decreases n
  {
    var r := Decimal(n);
    if n >= 10 {
      DecimalRoundTrip(n / 10);
      assert r[..|r| - 1] == Decimal(n / 10);
    }
  }

  /** The id `index + id` that getSelectedGamepadData compares with the selection (demo.js:516). */
  function Uid(index: nat, id: string): string {
    Decimal(index) + id
  }

  /** Gamepad entry `g` is the selected pad (demo.js:514-516): present, with an index, and named `uid`. */
  predicate Selects(g: Option<Gamepad>, uid: Option<string>) {
    g.Some? && g.value.index.Some? && uid.Some? && Uid(g.value.index.value, g.value.id) == uid.value
  }

  // ---------------------------------------------------------------------
  // Which axes have moved

  /** One entry of axesCheck (demo.js:549-553): the first value read, and two flags. */
  datatype AxisCheck = AxisCheck(show: bool, value: real, customStyle: bool)

  /** A first reading outside [-1.01, 1.01] (demo.js:539). */
  predicate OutOfRange(v: real) {
    v < -1.01 || v > 1.01
  }

  /** The entries a first reading of `axes` creates (demo.js:547-554). */
  function Initial(axes: seq<real>): (r: seq<AxisCheck>)
    ensures |r| == |axes|
  {
    seq(|axes|, k requires 0 <= k < |axes| => AxisCheck(false, axes[k], false))
  }

  /**
    One axis of one later reading (demo.js:532-544): the axis is shown once
    its reading differs from the first one, and gets its own style once it is
    shown and its first reading lies out of range. The first reading itself
    is never replaced, and flags are only ever raised.
  */
  function Advance(c: AxisCheck, x: real): (r: AxisCheck)
    ensures r.value == c.value
    ensures c.show ==> r.show
    ensures c.customStyle ==> r.customStyle
    ensures r.show <==> c.show || x != c.value
  {
    var show := c.show || c.value != x;
    c.(show := show, customStyle := c.customStyle || (show && OutOfRange(c.value)))
  }

  /** The count checkNewAxesMove adds for one axis: one per flag it raises. */
  function Flips(c: AxisCheck, x: real): nat {
    (if c.value != x && !c.show then 1 else 0)
    + (if (c.show || c.value != x) && OutOfRange(c.value) && !c.customStyle then 1 else 0)
  }

  function AdvanceAll(cs: seq<AxisCheck>, xs: seq<real>): (r: seq<AxisCheck>)
    requires |cs| == |xs|
    ensures |r| == |cs|
  {
    seq(|cs|, k requires 0 <= k < |cs| => Advance(cs[k], xs[k]))
  }

  /** The result of checkNewAxesMove: the counts of the axes, summed in order. */
  function TotalFlips(cs: seq<AxisCheck>, xs: seq<real>): nat
    requires |cs| == |xs|
  {
    if cs == [] then 0
    else TotalFlips(cs[..|cs| - 1], xs[..|xs| - 1]) + Flips(cs[|cs| - 1], xs[|xs| - 1])
  }

  /** How many of an entry's two flags are raised. */
  function Raised(c: AxisCheck): nat {
    (if c.show then 1 else 0) + (if c.customStyle then 1 else 0)
  }

  function TotalRaised(cs: seq<AxisCheck>): nat {
    if cs == [] then 0 else TotalRaised(cs[..|cs| - 1]) + Raised(cs[|cs| - 1])
  }

  /** An entry never has its own style without being shown. */
  predicate Consistent(c: AxisCheck) {
    c.customStyle ==> c.show
  }

  /** The count of one axis is exactly the number of flags that reading raised. */
  lemma FlipsRaise(c: AxisCheck, x: real)
    ensures Raised(Advance(c, x)) == Raised(c) + Flips(c, x)
  {
  }

  /** A reading keeps every entry consistent. */
  lemma AdvanceConsistent(c: AxisCheck, x: real)
    requires Consistent(c)
    ensures Consistent(Advance(c, x))
  {
  }

  /** The result counts exactly the flags raised across all axes. */
  lemma {:induction false} TotalFlipsRaise(cs: seq<AxisCheck>, xs: seq<real>)
    requires |cs| == |xs|
    ensures TotalRaised(AdvanceAll(cs, xs)) == TotalRaised(cs) + TotalFlips(cs, xs)
  {
    if cs != [] {
      var n := |cs| - 1;
      TotalFlipsRaise(cs[..n], xs[..n]);
      assert AdvanceAll(cs, xs)[..n] == AdvanceAll(cs[..n], xs[..n]);
      FlipsRaise(cs[n], xs[n]);
    }
  }

  lemma {:induction false} TotalRaisedBound(cs: seq<AxisCheck>)
    ensures TotalRaised(cs) <= 2 * |cs|
  {
    if cs != [] {
      TotalRaisedBound(cs[..|cs| - 1]);
    }
  }

  /** A reading adds at most two to the result per axis. */
  lemma TotalFlipsBound(cs: seq<AxisCheck>, xs: seq<real>)
    requires |cs| == |xs|
    ensures TotalFlips(cs, xs) <= 2 * |cs| - TotalRaised(cs)
  {
    TotalFlipsRaise(cs, xs);
    TotalRaisedBound(AdvanceAll(cs, xs));
  }

  /** Reading the same axes again changes nothing and counts nothing. */
  lemma {:induction false} AdvanceAgain(cs: seq<AxisCheck>, xs: seq<real>)
    requires |cs| == |xs|
    ensures AdvanceAll(AdvanceAll(cs, xs), xs) == AdvanceAll(cs, xs)
    ensures TotalFlips(AdvanceAll(cs, xs), xs) == 0
  {
    var once := AdvanceAll(cs, xs);
    TotalFlipsRaise(once, xs);
    assert AdvanceAll(once, xs) == once;
  }

  // ---------------------------------------------------------------------
  // The panel

  class JoystickPanel {
    /** selectedGamepadUID; None is null. */
    var selectedGamepadUID: Option<string>
    var axesMapperSelect: nat
    /** axesCheck; null until the selected pad is first read. */
    var axesCheck: array?<AxisCheck>
    /** gamepadsList; None is the null it holds until the pads are first listed. */
    var gamepadsList: Option<seq<Option<Gamepad>>>

    /** The panel as declared (demo.js:408-490). */
    constructor ()
      ensures selectedGamepadUID == None && axesMapperSelect == 0
      ensures axesCheck == null && gamepadsList == None
    {
      selectedGamepadUID := None;
      axesMapperSelect := 0;
      axesCheck := null;
      gamepadsList := None;
    }

    /**
      selectGamepad (demo.js:492-505). `test(i, s)` is what
      `axesMapper[i].query.test(s)` answers; the regular expressions
      themselves are not modelled. The first mapping from 1 on whose query
      matches is selected, 0 when none does; the axis record is dropped; the
      answer is whether the id is truthy.
    */
    method SelectGamepad(uid: Option<string>, test: (nat, string) -> bool) returns (r: bool)
      modifies this
      ensures selectedGamepadUID == uid && axesCheck == null && gamepadsList == old(gamepadsList)
      ensures axesMapperSelect < MapperCount
      ensures axesMapperSelect != 0 ==> test(axesMapperSelect, UidText(uid))
      ensures forall j :: 1 <= j < MapperCount && (axesMapperSelect == 0 || j < axesMapperSelect) ==> !test(j, UidText(uid))
      ensures r <==> uid.Some? && uid.value != ""
    {
      selectedGamepadUID := uid;
      axesMapperSelect := 0;
      var s := UidText(uid);
      var i := 1;
      while i < MapperCount
        invariant 1 <= i <= MapperCount
        invariant axesMapperSelect == 0
        invariant forall j :: 1 <= j < i ==> !test(j, s)
      {
        if test(i, s) {
          axesMapperSelect := i;
          break;
        }
        i := i + 1;
      }
      axesCheck := null;
      r := uid.Some? && uid.value != "";
    }

    /**
      getSelectedGamepadData (demo.js:507-523): the first listed pad that
      is present, has an index and whose `index + id` is the selected id;
      None (null) when there is none. The list must have been filled first.
    */
    method GetSelectedGamepadData() returns (r: Option<Gamepad>)
      requires gamepadsList.Some?
      ensures var list := gamepadsList.value;
        r.None? <==> forall k :: 0 <= k < |list| ==> !Selects(list[k], selectedGamepadUID)
      ensures var list := gamepadsList.value;
        r.Some? ==> exists k :: (0 <= k < |list| && list[k] == r && Selects(list[k], selectedGamepadUID)
          && forall j :: 0 <= j < k ==> !Selects(list[j], selectedGamepadUID))
    {
      var list := gamepadsList.value;
      r := None;
      var i := 0;
      while i < |list|
        invariant 0 <= i <= |list|
        invariant forall j :: 0 <= j < i ==> !Selects(list[j], selectedGamepadUID)
      {
        if Selects(list[i], selectedGamepadUID) {
          r := list[i];
          return;
        }
        i := i + 1;
      }
    }

    /**
      checkNewAxesMove (demo.js:525-558). When the record matches the pad's
      axis count, every entry is advanced in place and the result is the
      number of flags raised; otherwise (and when the pad has axes) a fresh
      record of the first reading replaces it and the result is 0.
    */
    method CheckNewAxesMove(gamepad: Gamepad) returns (result: nat)
      modifies this, axesCheck
      ensures selectedGamepadUID == old(selectedGamepadUID) && axesMapperSelect == old(axesMapperSelect)
      ensures gamepadsList == old(gamepadsList)
      ensures |gamepad.axes| == 0 ==>
        result == 0 && axesCheck == old(axesCheck) && (axesCheck != null ==> axesCheck[..] == old(axesCheck[..]))
      ensures |gamepad.axes| > 0 && old(axesCheck) != null && old(axesCheck.Length) == |gamepad.axes| ==>
        && axesCheck == old(axesCheck)
        && axesCheck[..] == AdvanceAll(old(axesCheck[..]), gamepad.axes)
        && result == TotalFlips(old(axesCheck[..]), gamepad.axes)
      ensures |gamepad.axes| > 0 && (old(axesCheck) == null || old(axesCheck.Length) != |gamepad.axes|) ==>
        && axesCheck != null && fresh(axesCheck)
        && axesCheck[..] == Initial(gamepad.axes)
        && result == 0
    {
      result := 0;
      var axes := gamepad.axes;
      var n := |axes|;
      if n > 0 {
        if axesCheck != null && axesCheck.Length == n {
          var a := axesCheck;
          ghost var before := a[..];
          var i := 0;
          while i < n
            modifies a
            invariant 0 <= i <= n
            invariant forall k :: 0 <= k < i ==> a[k] == Advance(before[k], axes[k])
            invariant forall k :: i <= k < n ==> a[k] == before[k]
            invariant result == TotalFlips(before[..i], axes[..i])
          {
            var v := a[i].value;
            if v != axes[i] {
              if !a[i].show {
                result := result + 1;
                a[i] := a[i].(show := true);
              }
            }
            if a[i].show && (v < -1.01 || v > 1.01) {
              if !a[i].customStyle {
                result := result + 1;
                a[i] := a[i].(customStyle := true);
              }
            }
            assert before[..i + 1][..i] == before[..i] && axes[..i + 1][..i] == axes[..i];
            i := i + 1;
          }
          assert before[..n] == before && axes[..n] == axes;
          assert a[..] == AdvanceAll(before, axes);
        } else {
          var b := new AxisCheck[n];
          var i := 0;
          while i < n
            modifies b
            invariant 0 <= i <= n
            invariant forall k :: 0 <= k < i ==> b[k] == AxisCheck(false, axes[k], false)
          {
            b[i] := AxisCheck(false, axes[i], false);
            i := i + 1;
          }
          axesCheck := b;
          assert b[..] == Initial(axes);
        }
      }
    }
  }
}
