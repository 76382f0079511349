/** The few string primitives the script relies on: the `/\d+/` regex,
    `parseInt(_, 10)`, `String.prototype.toLowerCase` and
    `String.prototype.indexOf`. Strings are `seq<char>`. */
module Text {

  datatype Option<T> = None | Some(value: T)

  // ---------------------------------------------------------------------------
  // Decimal digits: the regex /\d+/ and parseInt(_, 10)
  // ---------------------------------------------------------------------------

  /** `\d` in a JavaScript regex without the `u` flag is exactly [0-9]. */
  predicate IsDigit(c: char) {
    '0' <= c <= '9'
  }

  predicate AllDigits(s: string) {
    forall k :: 0 <= k < |s| ==> IsDigit(s[k])
  }

  /** The first index at or after `i` holding a digit, if any. */
  function FirstDigitFrom(s: string, i: nat): (r: Option<nat>)
    requires i <= |s|
    ensures r.Some? ==> i <= r.value < |s|
    decreases |s| - i
  {
    if i == |s| then None
    else if IsDigit(s[i]) then Some(i)
    else FirstDigitFrom(s, i + 1)
  }

  /** The end of the digit run that starts at `i`: the first non-digit at or after `i`. */
  function DigitRunEnd(s: string, i: nat): (j: nat)
    requires i <= |s|
    ensures i <= j <= |s|
    decreases |s| - i
  {
    if i < |s| && IsDigit(s[i]) then DigitRunEnd(s, i + 1) else i
  }

  /** What `s.match(/\d+/)` finds: the half-open range [start, end) of the
      leftmost, longest run of digits, or None when `s` has no digit. */
  function FirstDigitRun(s: string): (r: Option<(nat, nat)>)
    ensures r.Some? ==> r.value.0 <= r.value.1 <= |s|
  {
    match FirstDigitFrom(s, 0)
    case None => None
    case Some(i) => Some((i, DigitRunEnd(s, i)))
  }

  lemma {:induction false} FirstDigitFromFinds(s: string, i: nat)
    requires i <= |s|
    ensures FirstDigitFrom(s, i).None? <==> forall k :: i <= k < |s| ==> !IsDigit(s[k])
    ensures FirstDigitFrom(s, i).Some? ==>
      var d := FirstDigitFrom(s, i).value;
      IsDigit(s[d]) && forall k :: i <= k < d ==> !IsDigit(s[k])
    decreases |s| - i
  {
    if i < |s| && !IsDigit(s[i]) {
      FirstDigitFromFinds(s, i + 1);
    }
  }

  lemma {:induction false} DigitRunEndIsMaximal(s: string, i: nat)
    requires i <= |s|
    ensures forall k :: i <= k < DigitRunEnd(s, i) ==> IsDigit(s[k])
    ensures DigitRunEnd(s, i) == |s| || !IsDigit(s[DigitRunEnd(s, i)])
    decreases |s| - i
  {
    if i < |s| && IsDigit(s[i]) {
      DigitRunEndIsMaximal(s, i + 1);
    }
  }

  /** The match is the leftmost run of digits, and it is maximal: it is
      absent exactly when `s` has no digit, nothing before it is a digit,
      everything in it is, and it stops at a non-digit or at the end. */
  lemma FirstDigitRunIsLeftmostLongest(s: string)
    ensures FirstDigitRun(s).None? <==> forall k :: 0 <= k < |s| ==> !IsDigit(s[k])
    ensures FirstDigitRun(s).Some? ==>
      var (i, j) := FirstDigitRun(s).value;
      i < j &&
      (forall k :: 0 <= k < i ==> !IsDigit(s[k])) &&
      (forall k :: i <= k < j ==> IsDigit(s[k])) &&
      (j == |s| || !IsDigit(s[j]))
  {
    FirstDigitFromFinds(s, 0);
    if FirstDigitFrom(s, 0).Some? {
      var i := FirstDigitFrom(s, 0).value;
      DigitRunEndIsMaximal(s, i);
      assert DigitRunEnd(s, i) > i by {
        assert IsDigit(s[i]);
      }
    }
  }

  function DigitValue(c: char): (d: nat)
    requires IsDigit(c)
    ensures d <= 9
  {
    c as int - '0' as int
  }

  /** The base-10 value of a string of digits, as `parseInt(ds, 10)` gives it. */
  function DecimalValue(ds: string): nat
    requires AllDigits(ds)
  {
    if ds == [] then 0
    else DecimalValue(ds[..|ds| - 1]) * 10 + DigitValue(ds[|ds| - 1])
  }

  /** A digit string is worth 0 exactly when all its digits are '0'. */
  lemma {:induction false} DecimalValueZero(ds: string)
    requires AllDigits(ds)
    ensures DecimalValue(ds) == 0 <==> forall k :: 0 <= k < |ds| ==> ds[k] == '0'
  {
    if ds != [] {
      var init := ds[..|ds| - 1];
      DecimalValueZero(init);
      assert forall k :: 0 <= k < |init| ==> init[k] == ds[k];
    }
  }

  /** Leading zeros do not change the value: the radix 10 is explicit, so
      "010" is ten, not an octal eight. */
  lemma {:induction false} DecimalValueLeadingZero(ds: string)
    requires AllDigits(ds)
    ensures AllDigits("0" + ds) && DecimalValue("0" + ds) == DecimalValue(ds)
  {
    var z := "0" + ds;
    assert AllDigits(z) by {
      forall k | 0 <= k < |z| ensures IsDigit(z[k]) {
        if k > 0 { assert z[k] == ds[k - 1]; }
      }
    }
    if ds != [] {
      var init := ds[..|ds| - 1];
      assert z[..|z| - 1] == "0" + init;
      assert z[|z| - 1] == ds[|ds| - 1];
      DecimalValueLeadingZero(init);
    } else {
      assert z[..|z| - 1] == [];
    }
  }

  // ---------------------------------------------------------------------------
  // toLowerCase
  // ---------------------------------------------------------------------------

  predicate IsUpper(c: char) {
    'A' <= c <= 'Z'
  }

  function LowerChar(c: char): (l: char)
    ensures !IsUpper(l)
    ensures IsUpper(c) ==> l as int == c as int + 32
    ensures !IsUpper(c) ==> l == c
  {
    if IsUpper(c) then (c as int + 32) as char else c
  }

  /** `s.toLowerCase()`, restricted to the ASCII letters. */
  function Lower(s: string): string {
    seq(|s|, k requires 0 <= k < |s| => LowerChar(s[k]))
  }

  // ---------------------------------------------------------------------------
  // indexOf
  // ---------------------------------------------------------------------------

  /** `w` occurs in `s` starting at index `i`. */
  predicate OccursAt(s: string, w: string, i: int) {
    0 <= i && i + |w| <= |s| && s[i..i + |w|] == w
  }

  /** The first occurrence of `w` in `s` at or after `from`, or -1. */
  function IndexOfFrom(s: string, w: string, from: nat): int
    decreases |s| - from
  {
    if from + |w| > |s| then -1
    else if s[from..from + |w|] == w then from
    else IndexOfFrom(s, w, from + 1)
  }

  /** `s.indexOf(w)`. */
  function IndexOf(s: string, w: string): int {
    IndexOfFrom(s, w, 0)
  }

  /** `s.indexOf(w) !== -1`. */
  predicate Contains(s: string, w: string) {
    IndexOf(s, w) != -1
  }

  /** The search from `from` finds the leftmost occurrence at or after `from`. */
  lemma {:induction false} IndexOfFromFinds(s: string, w: string, from: nat)
    ensures var r := IndexOfFrom(s, w, from);
      (r == -1 || (from <= r && OccursAt(s, w, r))) &&
      (r == -1 ==> forall k :: from <= k ==> !OccursAt(s, w, k)) &&
      (r != -1 ==> forall k :: from <= k < r ==> !OccursAt(s, w, k))
    decreases |s| - from
  {
    if from + |w| <= |s| && s[from..from + |w|] != w {
      IndexOfFromFinds(s, w, from + 1);
    }
  }

  /** `indexOf` answers -1 exactly when there is no occurrence, and otherwise
      the index of the leftmost one. */
  lemma IndexOfFinds(s: string, w: string)
    ensures IndexOf(s, w) == -1 <==> forall k :: !OccursAt(s, w, k)
    ensures IndexOf(s, w) != -1 ==>
      OccursAt(s, w, IndexOf(s, w)) && forall k :: 0 <= k < IndexOf(s, w) ==> !OccursAt(s, w, k)
  {
    IndexOfFromFinds(s, w, 0);
  }

  /** So `Contains` is substring containment. */
  lemma ContainsIff(s: string, w: string)
    ensures Contains(s, w) <==> exists k :: OccursAt(s, w, k)
  {
    IndexOfFinds(s, w);
  }
}
