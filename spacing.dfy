/** The spacing pass, `spaceBefore()`: every style not excluded by its name
    and with a leading set gets its space before (and, for the style named
    "break", its space after) re-derived from that leading. */
module Spacing {
  import opened Text
  import opened Styles

  /** The second name the pass skips outright, compared case-sensitively. */
  const BasicParagraphSmall: string := "Basic Paragraph Small"

  /** Words whose presence anywhere in the lower-cased name excludes a style. */
  const ExcludeWords: seq<string> := ["footnote", "endnote", "caption", "table"]

  /** The one name, compared after lower-casing, that gets symmetric spacing. */
  const BreakName: string := "break"

  // ---------------------------------------------------------------------------
  // Exclusion by name
  // ---------------------------------------------------------------------------

  /** Some excluded word occurs in the (already lower-cased) name. */
  predicate HasExcludedWord(lowerName: string) {
    exists j :: 0 <= j < |ExcludeWords| && Contains(lowerName, ExcludeWords[j])
  }

  /** The style is skipped silently, before its leading is even looked at. */
  predicate IsExcluded(name: string) {
    name == NoParagraphStyle || name == BasicParagraphSmall || HasExcludedWord(Lower(name))
  }

  /** The inner loop over `excludeWords`: set `skip` at the first word found in
      the lower-cased name and stop looking. */
  method ScanExcludeWords(lowerName: string) returns (skip: bool)
    ensures skip <==> HasExcludedWord(lowerName)
  {
    skip := false;
    var j := 0;
    while j < |ExcludeWords|
      invariant 0 <= j <= |ExcludeWords|
      invariant forall k :: 0 <= k < j ==> !Contains(lowerName, ExcludeWords[k])
    {
      if IndexOf(lowerName, ExcludeWords[j]) != -1 {
        skip := true;
        break;
      }
      j := j + 1;
    }
  }

  // ---------------------------------------------------------------------------
  // One style, and the whole catalog
  // ---------------------------------------------------------------------------

  /** The `try` block: what becomes of a style that was not excluded. */
  function SpacingRewrite(s: Style): Style {
    match s.leading
    case None => s
    case Some(leading) =>
      if Lower(s.name) == BreakName then s.(spaceBefore := leading, spaceAfter := leading)
      else if s.spaceBefore != 0.0 then s.(spaceBefore := leading)
      else s
  }

  /** The console lines the `try` block writes for a style that was not excluded. */
  function SpacingLines(s: Style): seq<LogLine> {
    match s.leading
    case None => [SkippingNoLeading(s.name)]
    case Some(leading) =>
      if Lower(s.name) == BreakName then [UpdatedBreak(leading)]
      else if s.spaceBefore != 0.0 then [UpdatedSpaceBefore(s.name, leading)]
      else []
  }

  /** The style as the loop body leaves it. */
  function SpaceStyle(s: Style): Style {
    if IsExcluded(s.name) then s else SpacingRewrite(s)
  }

  /** What the loop body writes to the console for one style. */
  function SpaceLogOf(s: Style): seq<LogLine> {
    if IsExcluded(s.name) then [] else SpacingLines(s)
  }

  /** The pass writes only the two spaces; an excluded style, or one without
      a leading, keeps them too; the space after changes only for the style
      named "break", and a space that changes becomes the leading. */
  lemma SpaceStyleFrame(s: Style)
    ensures SameButSpaces(s, SpaceStyle(s))
    ensures IsExcluded(s.name) || s.leading.None? ==> SpaceStyle(s) == s
    ensures SpaceStyle(s).spaceAfter != s.spaceAfter ==>
      Lower(s.name) == BreakName && SpaceStyle(s).spaceAfter == s.leading.value
    ensures SpaceStyle(s).spaceBefore != s.spaceBefore ==>
      s.leading.Some? && SpaceStyle(s).spaceBefore == s.leading.value
  {
  }

  /** At most one line per style, and none for an excluded one. */
  lemma SpaceLogOfShape(s: Style)
    ensures |SpaceLogOf(s)| <= 1
    ensures IsExcluded(s.name) ==> SpaceLogOf(s) == []
  {
  }

  /** The catalog after the pass: every style rewritten on its own. */
  function SpaceAll(ss: seq<Style>): seq<Style> {
    seq(|ss|, i requires 0 <= i < |ss| => SpaceStyle(ss[i]))
  }

  /** The console output of the pass, in catalog order. */
  function SpaceLog(ss: seq<Style>): seq<LogLine> {
    LogUpTo(SpaceLogOf, ss, |ss|)
  }

  // ---------------------------------------------------------------------------
  // Properties
  // ---------------------------------------------------------------------------

  /** Exclusion is decided first: an excluded style is neither changed nor
      logged, whatever its leading and spaces are. */
  lemma ExclusionComesFirst(s: Style, leading: Option<real>, before: real, after: real)
    requires IsExcluded(s.name)
    ensures
      var t := s.(leading := leading, spaceBefore := before, spaceAfter := after);
      SpaceStyle(t) == t && SpaceLogOf(t) == []
  {
  }

  /** A style that is not excluded and has no leading is left as it is and
      gets exactly one "Skipping" line. */
  lemma NoLeadingIsReported(s: Style)
    requires !IsExcluded(s.name) && s.leading.None?
    ensures SpaceStyle(s) == s && SpaceLogOf(s) == [SkippingNoLeading(s.name)]
  {
  }

  /** The style named "break", in any case, gets both spaces set to its leading. */
  lemma BreakGetsBothSpaces(s: Style)
    requires !IsExcluded(s.name) && s.leading.Some? && Lower(s.name) == BreakName
    ensures SpaceStyle(s).spaceBefore == s.leading.value
    ensures SpaceStyle(s).spaceAfter == s.leading.value
    ensures SpaceLogOf(s) == [UpdatedBreak(s.leading.value)]
  {
  }

  /** Every other style with a leading: the space before is set to the
      leading exactly when it is nonzero, and then the update line names the
      style and the leading; the space after never changes. */
  lemma DefaultRule(s: Style)
    requires !IsExcluded(s.name) && s.leading.Some? && Lower(s.name) != BreakName
    ensures SpaceStyle(s).spaceAfter == s.spaceAfter
    ensures s.spaceBefore != 0.0 ==> SpaceStyle(s).spaceBefore == s.leading.value
    ensures s.spaceBefore == 0.0 ==> SpaceStyle(s).spaceBefore == 0.0
    ensures SpaceLogOf(s) ==
      if s.spaceBefore != 0.0 then [UpdatedSpaceBefore(s.name, s.leading.value)] else []
  {
  }

  /** Every change the pass makes to a style is announced on the console
      (the converse fails: a line is written even when the value is already
      the leading). */
  lemma SpaceChangeIsLogged(s: Style)
    ensures SpaceStyle(s) != s ==> |SpaceLogOf(s)| == 1 && !SpaceLogOf(s)[0].SkippingNoLeading?
  {
  }

  /** Running the rules again on their own output changes nothing. */
  lemma SpaceStyleIdempotent(s: Style)
    ensures SpaceStyle(SpaceStyle(s)) == SpaceStyle(s)
  {
  }

  /** The whole spacing pass is idempotent. */
  lemma SpaceAllIdempotent(ss: seq<Style>)
    ensures SpaceAll(SpaceAll(ss)) == SpaceAll(ss)
  {
  }

  /** Every line of the log comes from a style that was not excluded, and
      each such style's lines are all there. */
  lemma SpaceLogLines(ss: seq<Style>, e: LogLine)
    ensures e in SpaceLog(ss) <==>
      exists i :: 0 <= i < |ss| && !IsExcluded(ss[i].name) && e in SpacingLines(ss[i])
  {
    LogLinesUpTo(SpaceLogOf, ss, |ss|, e);
    if e in SpaceLog(ss) {
      var i :| 0 <= i < |ss| && e in SpaceLogOf(ss[i]);
      assert !IsExcluded(ss[i].name) && e in SpacingLines(ss[i]);
    }
  }

  /** "Caption Text" is excluded: no change and no line, even with a leading
      and a nonzero space before. */
  lemma CaptionTextExample()
    ensures
      var s := Style("Caption Text", None, Some(14.0), 0.0, 0.0, 0.0, 6.0, 0.0);
      SpaceStyle(s) == s && SpaceLogOf(s) == []
  {
    var lower := "caption text";
    assert Lower("Caption Text") == lower;
    assert OccursAt(lower, "caption", 0);
    assert Contains(lower, ExcludeWords[2]);
  }

  /** "Footnote Break" is excluded before the `break` case is considered. */
  lemma FootnoteBreakExample()
    ensures
      var s := Style("Footnote Break", None, Some(12.0), 0.0, 0.0, 0.0, 6.0, 3.0);
      SpaceStyle(s) == s && SpaceLogOf(s) == []
  {
    var lower := "footnote break";
    assert Lower("Footnote Break") == lower;
    assert OccursAt(lower, "footnote", 0);
    assert Contains(lower, ExcludeWords[0]);
  }

  // ---------------------------------------------------------------------------
  // The pass itself
  // ---------------------------------------------------------------------------

  /** The body of the `try` block: look up the leading, skip with a line when
      there is none, give the `break` style both spaces, and otherwise set the
      space before when it is nonzero. */
  method RewriteSpacing(style: Style) returns (r: Style, lines: seq<LogLine>)
    ensures r == SpacingRewrite(style)
    ensures lines == SpacingLines(style)
  {
    r := style;
    var styleName := style.name;
    var leadingValue := style.leading;
    if leadingValue.None? {
      lines := [SkippingNoLeading(styleName)];
      return;
    }

    if Lower(styleName) == BreakName {
      var leading := leadingValue.value;
      r := r.(spaceBefore := leading);
      r := r.(spaceAfter := leading);
      lines := [UpdatedBreak(leading)];
      return;
    }

    lines := [];
    if r.spaceBefore != 0.0 {
      r := r.(spaceBefore := leadingValue.value);
      lines := [UpdatedSpaceBefore(styleName, leadingValue.value)];
    }
  }

  /** One iteration of the loop: the two name checks, the scan for excluded
      words, then the `try` block. */
  method SpacingStep(style: Style) returns (r: Style, lines: seq<LogLine>)
    ensures r == SpaceStyle(style)
    ensures lines == SpaceLogOf(style)
  {
    var styleName := style.name;
    if styleName == NoParagraphStyle || styleName == BasicParagraphSmall {
      return style, [];
    }

    var lowerName := Lower(styleName);
    var skip := ScanExcludeWords(lowerName);
    if skip {
      return style, [];
    }

    r, lines := RewriteSpacing(style);
  }

  /** `spaceBefore()`: one loop over the catalog, rewriting each style's spaces
      in place and logging what it did. */
  method SpacingPass(paraStyles: array<Style>) returns (log: seq<LogLine>)
    modifies paraStyles
    ensures paraStyles[..] == SpaceAll(old(paraStyles[..]))
    ensures log == SpaceLog(old(paraStyles[..]))
  {
    ghost var catalog := paraStyles[..];
    log := [];
    for i := 0 to paraStyles.Length
      invariant forall k :: 0 <= k < i ==> paraStyles[k] == SpaceStyle(catalog[k])
      invariant forall k :: i <= k < paraStyles.Length ==> paraStyles[k] == catalog[k]
      invariant log == LogUpTo(SpaceLogOf, catalog, i)
    {
      var updated, lines := SpacingStep(paraStyles[i]);
      paraStyles[i] := updated;
      log := log + lines;
    }
  }
}
