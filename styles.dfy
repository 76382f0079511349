/** The paragraph-style record both passes read and rewrite, and the log
    lines they write to the console. */
module Styles {
  import opened Text

  /** The catalog's built-in sentinel style. */
  const NoParagraphStyle: string := "[No Paragraph Style]"

  /** One entry of `allParagraphStyles`, restricted to the attributes the
      script touches. An absent `pointSize` or `leading` is the host's
      `NothingEnum.NOTHING`. Lengths are exact reals. */
  datatype Style = Style(
    name: string,
    pointSize: Option<real>,
    leading: Option<real>,
    leftIndent: real,
    rightIndent: real,
    firstLineIndent: real,
    spaceBefore: real,
    spaceAfter: real)

  /** The console lines, one constructor per distinct `$.writeln` message. */
  datatype LogLine =
    | Updated(name: string)                          // indent pass, every style it reaches
    | SkippingNoLeading(name: string)                // spacing pass, no leading set
    | UpdatedBreak(leading: real)                    // spacing pass, the `break` style
    | UpdatedSpaceBefore(name: string, value: real)  // spacing pass, default rule fired

  /** The two styles agree on every attribute except the three indents. */
  predicate SameButIndents(a: Style, b: Style) {
    a.name == b.name && a.pointSize == b.pointSize && a.leading == b.leading &&
    a.spaceBefore == b.spaceBefore && a.spaceAfter == b.spaceAfter
  }

  /** The two styles agree on every attribute except the two spaces. */
  predicate SameButSpaces(a: Style, b: Style) {
    a.name == b.name && a.pointSize == b.pointSize && a.leading == b.leading &&
    a.leftIndent == b.leftIndent && a.rightIndent == b.rightIndent &&
    a.firstLineIndent == b.firstLineIndent
  }

  // ---------------------------------------------------------------------------
  // The console output of a pass
  // ---------------------------------------------------------------------------

  /** The console output of a pass whose loop body writes `linesOf(s)` for a
      style `s`, once it has been through the first `n` styles of `ss`. */
  function LogUpTo(linesOf: Style -> seq<LogLine>, ss: seq<Style>, n: nat): seq<LogLine>
    requires n <= |ss|
  {
    if n == 0 then [] else LogUpTo(linesOf, ss, n - 1) + linesOf(ss[n - 1])
  }

  /** The first `n` lines depend only on what the first `n` styles write. */
  lemma {:induction false} LogUpToAgree(linesOf: Style -> seq<LogLine>, ss: seq<Style>, tt: seq<Style>, n: nat)
    requires n <= |ss| && n <= |tt|
    requires forall k :: 0 <= k < n ==> linesOf(ss[k]) == linesOf(tt[k])
    ensures LogUpTo(linesOf, ss, n) == LogUpTo(linesOf, tt, n)
  {
    if n > 0 {
      LogUpToAgree(linesOf, ss, tt, n - 1);
    }
  }

  /** A line is in the output exactly when one of the styles wrote it. */
  lemma {:induction false} LogLinesUpTo(linesOf: Style -> seq<LogLine>, ss: seq<Style>, n: nat, e: LogLine)
    requires n <= |ss|
    ensures e in LogUpTo(linesOf, ss, n) <==> exists i :: 0 <= i < n && e in linesOf(ss[i])
  {
    if n > 0 {
      LogLinesUpTo(linesOf, ss, n - 1, e);
    }
  }
}
