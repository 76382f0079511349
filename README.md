# Update Indents and Spaces, in Dafny

A model of `updateValues.jsx`, an InDesign script that normalises a document's
paragraph styles. The script makes two passes over the catalog of paragraph
styles, `allParagraphStyles`:

- **Indent pass** (`indents()`). It skips the sentinel `[No Paragraph Style]`
  and every style without a point size. For each other style it re-derives
  three indents from the point size F:
  - left indent: F × n when the name holds a number n (the first run of
    digits, read in base 10) and n is nonzero; otherwise F, unless the indent
    is 0 or already F;
  - right indent: F, unless it is 0 or already F;
  - first-line indent: stays 0 when it is 0; otherwise −F when it is
    negative and F when it is positive.

  It logs `Updated: <name>` for every style it does not skip, whether or not
  anything changed.
- **Spacing pass** (`spaceBefore()`). It silently skips:
  - `[No Paragraph Style]` and `Basic Paragraph Small`, compared exactly;
  - every style whose lower-cased name contains `footnote`, `endnote`,
    `caption` or `table`.

  For each other style:
  - no leading: it logs a "Skipping" line;
  - the name, lower-cased, is `break`: both spaces become the leading;
  - otherwise, the space before becomes the leading if it is nonzero.

The catalog is an `array<Style>` of records. Each pass is a method with a
`for` loop that writes `paraStyles[i]` in place. It is proved equal to a
per-style specification function applied to every element (`IndentAll`,
`SpaceAll`), and its console output equal to a log function (`IndentLog`,
`SpaceLog`). The per-style rules have their own lemmas: frames, case
analysis, idempotence, what is logged, and worked examples. `UpdateValues.Run`
sequences the two passes. The passes are proved to commute, and neither
pass's log depends on the other.

Modules:
- `Text`: the string primitives the script uses.
  - `/\d+/` as `FirstDigitRun`;
  - `parseInt(_, 10)` as `DecimalValue`;
  - `toLowerCase` as `Lower`;
  - `indexOf` as `IndexOf`.
- `Styles`: the style record, the log lines, and the generic log of a pass.
- `Indents`, `Spacing`, `UpdateValues`: the two passes and `main()`.

Only the list of excluded words is matched case-insensitively
(updateValues.jsx:80, 90-94). The two exact names at line 88 are compared
with `==`, so `basic paragraph small` is not skipped by that test, and the
model compares them the same way.

## Model

| member | source | states |
|---|---|---|
| Text.FirstDigitRunIsLeftmostLongest | updateValues.jsx:44 | the match is absent exactly when the name has no digit; otherwise it is the leftmost run of digits, non-empty and maximal |
| Text.DecimalValueZero | updateValues.jsx:45-48 | a parsed digit run is 0 exactly when every digit is '0' |
| Text.DecimalValueLeadingZero | updateValues.jsx:45 | with radix 10, leading zeros do not change the value |
| Text.LowerChar | updateValues.jsx:91 | lower-casing yields no upper-case letter; it maps 'A'..'Z' to 'a'..'z' and leaves every other character alone (ASCII only, see "Left out") |
| Text.IndexOfFinds | updateValues.jsx:94 | `indexOf` is -1 exactly when there is no occurrence; otherwise it is the leftmost occurrence |
| Text.ContainsIff | updateValues.jsx:94 | `indexOf(w) !== -1` holds exactly when `w` occurs somewhere in the name |
| Styles.LogUpToAgree | updateValues.jsx:31-73 | the first n console lines depend only on what the first n styles write |
| Styles.LogLinesUpTo | updateValues.jsx:83-124 | a line is in a pass's output exactly when some style's loop iteration wrote it |
| Indents.MultiplierInForce | updateValues.jsx:44-48 | a name with no digit has no multiplier; with a digit run, `if (multiplier)` holds exactly when the run has a digit other than '0' |
| Indents.PlainIndentRule | updateValues.jsx:55-57 | the indent changes exactly when it is neither 0 nor F, and then it becomes F |
| Indents.LeftIndentRule | updateValues.jsx:47-52 | a nonzero multiplier n gives F×n; no multiplier, or 0, falls back to the plain rule |
| Indents.FirstLineIndentRule | updateValues.jsx:59-66 | 0 stays 0, negative becomes −F, positive becomes F; the result is always 0, F or −F |
| Indents.IndentStyleFrame | updateValues.jsx:34-66 | only the three indents can change; a skipped style is left as it is |
| Indents.IndentStyleIdempotent | updateValues.jsx:40-66 | applying the rules to their own result changes nothing (for a non-negative point size) |
| Indents.IndentAllIdempotent | updateValues.jsx:31-73 | running the whole indent pass twice equals running it once (for non-negative point sizes) |
| Indents.RightIndentIgnoresName | updateValues.jsx:54-57 | the new right indent does not depend on the style's name |
| Indents.IndentChangeIsLogged | updateValues.jsx:34-68 | a style gets a line exactly when it is not skipped, so every change is logged |
| Indents.IndentLogLines | updateValues.jsx:31-73 | the log holds `Updated(name)` for exactly the styles that are not skipped, and nothing else |
| Indents.BodyTwoExample | updateValues.jsx:44-66 | "Body 2" at 10 pt with indents 5 / 10 / −3 ends with 20 / 10 / −10 |
| Indents.QuoteExample | updateValues.jsx:47-68 | "Quote" at 12 pt with zero indents is unchanged but still logged |
| Indents.RewriteIndents | updateValues.jsx:40-66 | the loop body past its two skips produces the rule-derived style |
| Indents.IndentPass | updateValues.jsx:28-76 | the array ends as every style rewritten by the indent rules; the log is the one line per non-skipped style, in order |
| Spacing.ScanExcludeWords | updateValues.jsx:91-98 | the inner loop with `break` sets `skip` exactly when some excluded word occurs in the lower-cased name |
| Spacing.SpaceStyleFrame | updateValues.jsx:101-120 | only the two spaces can change; excluded or leading-less styles are untouched; a changed space becomes the leading, and the space after changes only for `break` |
| Spacing.SpaceLogOfShape | updateValues.jsx:83-124 | each style writes at most one line, and an excluded style writes none |
| Spacing.ExclusionComesFirst | updateValues.jsx:87-99 | an excluded name is neither changed nor logged, whatever its leading and spaces |
| Spacing.NoLeadingIsReported | updateValues.jsx:102-106 | a non-excluded style without leading stays as it is and gets exactly the "Skipping" line |
| Spacing.BreakGetsBothSpaces | updateValues.jsx:108-115 | the style named `break`, in any case, gets both spaces set to its leading and the `break` line |
| Spacing.DefaultRule | updateValues.jsx:117-120 | otherwise the space after stays; the space before becomes the leading when it is nonzero and stays 0 when it is 0; when it is nonzero the console gets the update line with the style's name and the leading, and otherwise no line |
| Spacing.SpaceChangeIsLogged | updateValues.jsx:101-120 | every change is announced by one update line |
| Spacing.SpaceStyleIdempotent | updateValues.jsx:83-124 | applying the spacing rules to their own result changes nothing |
| Spacing.SpaceAllIdempotent | updateValues.jsx:83-124 | running the whole spacing pass twice equals running it once |
| Spacing.SpaceLogLines | updateValues.jsx:83-124 | a line is logged exactly when a non-excluded style writes it |
| Spacing.CaptionTextExample | updateValues.jsx:90-99 | "Caption Text", with a leading and a nonzero space before, is neither changed nor logged |
| Spacing.FootnoteBreakExample | updateValues.jsx:90-115 | "Footnote Break" is excluded before the `break` case is reached |
| Spacing.RewriteSpacing | updateValues.jsx:101-120 | the `try` block produces the rule-derived style and its lines |
| Spacing.SpacingStep | updateValues.jsx:84-120 | one loop iteration produces the spacing-rule style and its lines |
| Spacing.SpacingPass | updateValues.jsx:79-127 | the array ends as every style rewritten by the spacing rules; the log is each style's lines, in order |
| UpdateValues.PassesCommuteOnStyle | updateValues.jsx:22-23 | on one style, the passes commute, and neither changes what the other logs |
| UpdateValues.PassesCommute | updateValues.jsx:22-23 | indents-then-spaces leaves the same catalog as spaces-then-indents |
| UpdateValues.LogsIgnoreTheOtherPass | updateValues.jsx:22-23 | each pass's log is the one it would write on the untouched catalog |
| UpdateValues.Run | updateValues.jsx:17-25 | after `main()` the catalog is the spacing pass applied to the indent pass's result; the console shows all indent lines, then all spacing lines |

## Left out

- The host: `app.activeDocument`, the `app.documents.length === 0` check and its `alert`. `Run` models the branch with an open document, and `allParagraphStyles` is its array argument.
- `$.writeln`: console text is a `LogLine` value, one constructor per message, not a formatted string.
- `try`/`catch`: a host property access or assignment that throws is not modelled, and neither are the "Error" lines. Every style is assumed readable and writable, so the model makes no claim about partial updates.
- JavaScript coercions: `Number(leadingValue)`, `Leading.AUTO` and the `NothingEnum.NOTHING` sentinel. An unset point size or leading is `None`, and a set one is a real.
- Floating point: lengths are exact reals, so IEEE rounding of `fontSize * multiplier` is not captured.
- `Text.Lower`: lowers only the ASCII letters 'A'..'Z'. Non-ASCII case mappings of `toLowerCase` are not modelled.
- `Text.LowerChar`: leaves every character outside 'A'..'Z' unchanged, whereas `toLowerCase` also maps letters such as 'É' to 'é' and the Kelvin sign U+212A to 'k'. So a name spelled "BREAK" with a Kelvin sign reaches the `break` case in the script but not in the model.
- `Indents.Multiplier`: the value of the digit run is an unbounded natural. Precision loss in `parseInt` for runs beyond 2^53 is not modelled.
- `Indents.IndentAllIdempotent`: requires every point size in the catalog to be non-negative, for the reason given on the next line.
- `Indents.IndentStyleIdempotent`: requires a non-negative point size. With a negative size, an outdent becomes a positive indent, which the next run turns back into an outdent.
- In-place writes: the script assigns host style properties one at a time. The model replaces the whole record in `paraStyles[i]`, and the styles do not alias one another.
