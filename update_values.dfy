/** `main()`: the indent pass over the whole catalog, then the spacing pass
    over the catalog the first pass left behind. */
module UpdateValues {
  import opened Text
  import opened Styles
  import opened Indents
  import opened Spacing

  /** The two passes touch disjoint attributes and read nothing the other
      writes, so on one style they commute. */
  lemma PassesCommuteOnStyle(s: Style)
    ensures SpaceStyle(IndentStyle(s)) == IndentStyle(SpaceStyle(s))
    ensures SpaceLogOf(IndentStyle(s)) == SpaceLogOf(s)
    ensures IndentLogOf(SpaceStyle(s)) == IndentLogOf(s)
  {
    IndentStyleFrame(s);
    SpaceStyleFrame(s);
  }

  /** Running the spacing pass first would leave the same catalog. */
  lemma PassesCommute(ss: seq<Style>)
    ensures SpaceAll(IndentAll(ss)) == IndentAll(SpaceAll(ss))
  {
  }

  /** The spacing pass writes the same lines whether or not the indent pass
      ran before it, and the indent pass the same lines whether or not the
      spacing pass ran before it. */
  lemma LogsIgnoreTheOtherPass(ss: seq<Style>)
    ensures SpaceLog(IndentAll(ss)) == SpaceLog(ss)
    ensures IndentLog(SpaceAll(ss)) == IndentLog(ss)
  {
    forall k | 0 <= k < |ss|
      ensures SpaceLogOf(IndentAll(ss)[k]) == SpaceLogOf(ss[k])
      ensures IndentLogOf(SpaceAll(ss)[k]) == IndentLogOf(ss[k])
    {
      PassesCommuteOnStyle(ss[k]);
    }
    LogUpToAgree(SpaceLogOf, IndentAll(ss), ss, |ss|);
    LogUpToAgree(IndentLogOf, SpaceAll(ss), ss, |ss|);
  }

  /** The script's run on an open document: every style gets its indents
      and then its spaces re-derived; the console shows every indent line
      before any spacing line, and each pass's lines are those it would
      write on the untouched catalog. */
  method Run(paraStyles: array<Style>) returns (log: seq<LogLine>)
    modifies paraStyles
    ensures paraStyles[..] == SpaceAll(IndentAll(old(paraStyles[..])))
    ensures log == IndentLog(old(paraStyles[..])) + SpaceLog(old(paraStyles[..]))
  {
    ghost var catalog := paraStyles[..];
    var indentLog := IndentPass(paraStyles);
    var spaceLog := SpacingPass(paraStyles);
    LogsIgnoreTheOtherPass(catalog);
    log := indentLog + spaceLog;
  }
}
