/** The indent pass, `indents()`: every style that has a point size gets its
    left, right and first-line indents re-derived from that point size and
    from the number, if any, in its name. */
module Indents {
  import opened Text
  import opened Styles

  // ---------------------------------------------------------------------------
  // The multiplier in a style name
  // ---------------------------------------------------------------------------

  /** `parseInt(name.match(/\d+/)[0], 10)`, or None when the name has no digit. */
  function Multiplier(name: string): Option<nat> {
    match FirstDigitRun(name)
    case None => None
    case Some(run) =>
      var digits := name[run.0..run.1];
      assert AllDigits(digits) by {
        FirstDigitRunIsLeftmostLongest(name);
        forall k | 0 <= k < |digits| ensures IsDigit(digits[k]) {
          assert digits[k] == name[run.0 + k];
        }
      }
      Some(DecimalValue(digits))
  }

  /** The test `if (multiplier)`: JavaScript treats both null and 0 as false. */
  predicate HasMultiplier(name: string) {
    Multiplier(name).Some? && Multiplier(name).value != 0
  }

  /** A multiplier is in force exactly when the name has a digit and its first
      digit run holds a digit other than '0': "Body 2" and "List 03" have
      one; "Body" and "Level 00" do not, and get the plain rule. */
  lemma MultiplierInForce(name: string)
    ensures (forall k :: 0 <= k < |name| ==> !IsDigit(name[k])) ==> !HasMultiplier(name)
    ensures FirstDigitRun(name).Some? ==>
      var (i, j) := FirstDigitRun(name).value;
      (HasMultiplier(name) <==> exists k :: i <= k < j && name[k] != '0')
  {
    FirstDigitRunIsLeftmostLongest(name);
    if FirstDigitRun(name).Some? {
      var (i, j) := FirstDigitRun(name).value;
      var digits := name[i..j];
      assert AllDigits(digits) by {
        forall k | 0 <= k < |digits| ensures IsDigit(digits[k]) {
          assert digits[k] == name[i + k];
        }
      }
      DecimalValueZero(digits);
      assert forall k :: i <= k < j ==> name[k] == digits[k - i];
    }
  }

  // ---------------------------------------------------------------------------
  // The three per-field rules
  // ---------------------------------------------------------------------------

  /** The rule used for the right indent, and for the left indent of a style
      without a multiplier: the indent changes exactly when it is neither 0 nor
      one font size, and then it becomes one font size. */
  function PlainIndentRule(fontSize: real, prior: real): (r: real)
    ensures r != prior <==> prior != 0.0 && prior != fontSize
    ensures r != prior ==> r == fontSize
  {
    if prior != 0.0 && prior != fontSize then fontSize else prior
  }

  /** A font size scaled by a name's multiplier, the branch `fontSize * multiplier`. */
  function Scale(fontSize: real, n: nat): real {
    fontSize * n as real
  }

  /** The left-indent rule: with a multiplier N in force the indent becomes
      `fontSize * N` whatever it was; otherwise the plain rule applies. */
  function LeftIndentRule(fontSize: real, multiplier: Option<nat>, prior: real): (r: real)
    ensures multiplier.Some? && multiplier.value != 0 ==> r == Scale(fontSize, multiplier.value)
    ensures multiplier.None? || multiplier.value == 0 ==>
      (r != prior <==> prior != 0.0 && prior != fontSize) && (r == prior || r == fontSize)
  {
    if multiplier.Some? && multiplier.value != 0 then Scale(fontSize, multiplier.value)
    else PlainIndentRule(fontSize, prior)
  }

  /** The first-line rule: 0 stays 0, an outdent becomes one font size of
      outdent, an indent becomes one font size of indent. */
  function FirstLineIndentRule(fontSize: real, prior: real): (r: real)
    ensures prior == 0.0 ==> r == 0.0
    ensures prior < 0.0 ==> r == -fontSize
    ensures prior > 0.0 ==> r == fontSize
    ensures r == 0.0 || r == fontSize || r == -fontSize
  {
    if prior != 0.0 then
      if prior < 0.0 then -fontSize
      else if prior != fontSize then fontSize
      else prior
    else prior
  }

  // ---------------------------------------------------------------------------
  // One style, and the whole catalog
  // ---------------------------------------------------------------------------

  /** The style gets past both `continue`s of the loop and reaches the log line. */
  predicate IndentReaches(s: Style) {
    s.name != NoParagraphStyle && s.pointSize.Some?
  }

  /** The style as the loop body leaves it. */
  function IndentStyle(s: Style): Style {
    if !IndentReaches(s) then s
    else
      var f := s.pointSize.value;
      s.(leftIndent := LeftIndentRule(f, Multiplier(s.name), s.leftIndent),
         rightIndent := PlainIndentRule(f, s.rightIndent),
         firstLineIndent := FirstLineIndentRule(f, s.firstLineIndent))
  }

  /** What the loop body writes to the console for one style. */
  function IndentLogOf(s: Style): seq<LogLine> {
    if IndentReaches(s) then [Updated(s.name)] else []
  }

  /** The catalog after the pass: every style rewritten on its own. */
  function IndentAll(ss: seq<Style>): seq<Style> {
    seq(|ss|, i requires 0 <= i < |ss| => IndentStyle(ss[i]))
  }

  /** The console output of the pass, in catalog order. */
  function IndentLog(ss: seq<Style>): seq<LogLine> {
    LogUpTo(IndentLogOf, ss, |ss|)
  }

  // ---------------------------------------------------------------------------
  // Properties
  // ---------------------------------------------------------------------------

  /** The pass writes only the three indents, and a skipped style keeps them too. */
  lemma IndentStyleFrame(s: Style)
    ensures SameButIndents(s, IndentStyle(s))
    ensures !IndentReaches(s) ==> IndentStyle(s) == s
  {
  }

  predicate NonNegativePointSize(s: Style) {
    s.pointSize.Some? ==> s.pointSize.value >= 0.0
  }

  /** Running the rules again on their own output changes nothing. The point
      size must not be negative: with a negative size an outdent becomes a
      positive indent, which the next run turns back into an outdent. */
  lemma IndentStyleIdempotent(s: Style)
    requires NonNegativePointSize(s)
    ensures IndentStyle(IndentStyle(s)) == IndentStyle(s)
  {
  }

  /** The whole indent pass is idempotent. */
  lemma IndentAllIdempotent(ss: seq<Style>)
    requires forall i :: 0 <= i < |ss| ==> NonNegativePointSize(ss[i])
    ensures IndentAll(IndentAll(ss)) == IndentAll(ss)
  {
  }

  /** The right indent does not depend on the name: renaming a style (to
      anything but the sentinel) leaves its new right indent as it was. */
  lemma RightIndentIgnoresName(s: Style, newName: string)
    requires s.name != NoParagraphStyle && newName != NoParagraphStyle
    ensures IndentStyle(s.(name := newName)).rightIndent == IndentStyle(s).rightIndent
  {
  }

  /** Every style that reaches the last line of the loop body is logged, even
      when none of its indents changed; every change is therefore logged. */
  lemma IndentChangeIsLogged(s: Style)
    ensures IndentStyle(s) != s ==> IndentLogOf(s) == [Updated(s.name)]
    ensures IndentReaches(s) <==> IndentLogOf(s) != []
  {
  }

  /** The log holds an `Updated` line for exactly the styles that reach the
      end of the loop body, and nothing else. */
  lemma IndentLogLines(ss: seq<Style>, e: LogLine)
    ensures e in IndentLog(ss) <==>
      exists i :: 0 <= i < |ss| && IndentReaches(ss[i]) && e == Updated(ss[i].name)
  {
    LogLinesUpTo(IndentLogOf, ss, |ss|, e);
    if e in IndentLog(ss) {
      var i :| 0 <= i < |ss| && e in IndentLogOf(ss[i]);
      assert IndentReaches(ss[i]) && e == Updated(ss[i].name);
    }
  }

  /** "Body 2" at 10 pt: the multiplier 2 sets the left indent to 20 whatever
      it was, a right indent of one font size stays, and the outdent becomes
      one font size of outdent. */
  lemma BodyTwoExample()
    ensures
      var s := Style("Body 2", Some(10.0), None, 5.0, 10.0, -3.0, 0.0, 0.0);
      IndentStyle(s) == s.(leftIndent := 20.0, firstLineIndent := -10.0)
  {
  }

  /** "Quote" at 12 pt with no left indent: no multiplier and an indent of 0,
      so the left indent stays 0; the style is still logged. */
  lemma QuoteExample()
    ensures
      var s := Style("Quote", Some(12.0), None, 0.0, 0.0, 0.0, 0.0, 0.0);
      IndentStyle(s) == s && IndentLogOf(s) == [Updated("Quote")]
  {
  }

  // ---------------------------------------------------------------------------
  // The pass itself
  // ---------------------------------------------------------------------------

  /** The body of the `try` block once the two skips are passed: read the three
      indents and the multiplier, then apply the left, right and first-line
      rules to the style's fields. */
  method RewriteIndents(style: Style) returns (r: Style)
    requires IndentReaches(style)
    ensures r == IndentStyle(style)
  {
    r := style;
    var name := style.name;
    var fontSize := style.pointSize.value;
    var leftIndent := style.leftIndent;
    var rightIndent := style.rightIndent;
    var firstLineIndent := style.firstLineIndent;

    var multiplier := Multiplier(name);

    if multiplier.Some? && multiplier.value != 0 {
      r := r.(leftIndent := Scale(fontSize, multiplier.value));
    } else if leftIndent != 0.0 && leftIndent != fontSize {
      r := r.(leftIndent := fontSize);
    }

    if rightIndent != 0.0 && rightIndent != fontSize {
      r := r.(rightIndent := fontSize);
    }

    if firstLineIndent != 0.0 {
      if firstLineIndent < 0.0 {
        r := r.(firstLineIndent := -fontSize);
      } else if firstLineIndent != fontSize {
        r := r.(firstLineIndent := fontSize);
      }
    }
  }

  /** `indents()`: one loop over the catalog, rewriting each style's indents in
      place and logging every style it does not skip. */
  method IndentPass(paraStyles: array<Style>) returns (log: seq<LogLine>)
    modifies paraStyles
    ensures paraStyles[..] == IndentAll(old(paraStyles[..]))
    ensures log == IndentLog(old(paraStyles[..]))
  {
    ghost var catalog := paraStyles[..];
    log := [];
    for i := 0 to paraStyles.Length
      invariant forall k :: 0 <= k < i ==> paraStyles[k] == IndentStyle(catalog[k])
      invariant forall k :: i <= k < paraStyles.Length ==> paraStyles[k] == catalog[k]
      invariant log == LogUpTo(IndentLogOf, catalog, i)
    {
      var style := paraStyles[i];
      var name := style.name;
      if name == NoParagraphStyle {
        continue;
      }

      var fontSize := style.pointSize;
      if fontSize.None? {
        continue;
      }

      var updated := RewriteIndents(style);
      paraStyles[i] := updated;

      log := log + [Updated(name)];
    }
  }
}
