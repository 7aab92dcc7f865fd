# testmon gutter markers in Dafny

A model of the decision logic of testmon's PyCharm gutter-icon provider
(`GutterIconRelatedItemLineMarkerProvider`). For a Python statement, testmon's
cache holds "file marks" of the gutter-link kind. Each mark records the text
the statement had when the mark was made (`checkContent`) and a target file
and zero-based line (`targetPath`, `targetLine`). The provider does three things:

- **Mark filtering and marker emission** (`collectNavigationMarkers`). It walks
  the marks in order. It keeps a mark when the target file is found and the
  trimmed `checkContent` is exactly the statement's text. For each kept mark
  whose target element is found, it appends one marker to the caller's
  collection. The marker sits on the statement's first leaf, navigates to the
  target element, and carries the tooltip `File <name>, Line <targetLine>`.
  A mark whose target element is not found is skipped and the loop goes on.
- **Target-line resolution** (`findTargetPsiElement`). It gets the target
  file's document and returns the element at the start offset of the stored
  line. It computes a clamp (one past the last line becomes the last line),
  but the bounds test that follows reads the *unclamped* line. So a line equal
  to the line count is rejected, and the clamp never changes the line used.
- **First-leaf descent** (`getFirstLeafElement`). It follows `firstChild`
  until an element has no children.

Modules:

- `Wrappers` (wrappers.dfy): `Option`, used for every nullable host value.
- `Text` (text.dfy): Kotlin's `String.trim()` with the JVM whitespace set. It
  also renders a non-negative number as decimal text, for the string template
  of the tooltip.
- `Psi` (psi.dfy): PSI elements as a tree value, `firstChild` chains, and the
  first-leaf descent.
- `Sequences` (sequences.dfy): `KeepSome`, which keeps the present results of
  a per-element function in order. This is the shape of a loop that appends
  at most one item per element it visits.
- `GutterIcon` (gutter_icon.dfy): marks, documents, target files, the cache,
  markers, `FindTargetPsiElement`, the per-mark decision `MarkerFor`, and the
  method `CollectNavigationMarkers` with its loop. It also holds the lemmas
  about them.
- `Scenarios` (scenarios.dfy): concrete scenarios. A statement `call_target()` in
  `a.py` has a mark pointing at line 5 of `b.py`.

The IntelliJ host is given as values rather than called. The statement's file
path is passed as the answer of `getFileFullPath`. The cache service is an
optional value whose `getPyFileMarks` is a function. `findVirtualFile` is a
function from path to optional file. A target file carries its name, its
optional document (`lineCount` and a `lineStartOffset` function) and its
`findElementAt` function.

Three consequences of the code as written:

- The clamp at lines 81-85 never takes effect, because line 87 tests the
  unclamped `targetLine`. A line equal to the line count is rejected
  (`ClampedLine`, `LineOnePastEndYieldsNothing`).
- The tooltip shows the stored zero-based line with no +1 (`TooltipTextSpec`).
- Only the stored content is trimmed, so a statement text with whitespace at
  either end never matches (`MarkersNeedUntrimmedText`).

## Model

| member | source | states |
|---|---|---|
| `GutterIcon.CollectNavigationMarkers` | pycharm/src/main/java/sk/infinit/testmon/extensions/GutterIconRelatedItemLineMarkerProvider.kt:29-60 | The new collection is the old one followed by the marker of every mark that yields one, in mark order. When the element is not a statement, or the file path, the cache service or the cache's answer is absent, the collection is unchanged. At most one marker is appended per mark. |
| `GutterIcon.MarkersForSnoc` | pycharm/src/main/java/sk/infinit/testmon/extensions/GutterIconRelatedItemLineMarkerProvider.kt:42-57 | One more loop iteration appends the marker of that mark if it yields one, and nothing otherwise. |
| `GutterIcon.SkippedMarkContinues` | pycharm/src/main/java/sk/infinit/testmon/extensions/GutterIconRelatedItemLineMarkerProvider.kt:47-48 | A mark that yields no marker contributes nothing. The marks after it are still processed: the result is that of the marks before it followed by that of the marks after it. |
| `GutterIcon.KeptMarkInPlace` | pycharm/src/main/java/sk/infinit/testmon/extensions/GutterIconRelatedItemLineMarkerProvider.kt:42-57 | A mark that yields a marker contributes exactly that marker, between the markers of the marks before it and those of the marks after it. |
| `GutterIcon.MarkersForSound` | pycharm/src/main/java/sk/infinit/testmon/extensions/GutterIconRelatedItemLineMarkerProvider.kt:42-57 | Every marker in the result was produced by some mark of the list. |
| `GutterIcon.MarkerForCharacterization` | pycharm/src/main/java/sk/infinit/testmon/extensions/GutterIconRelatedItemLineMarkerProvider.kt:43-56 | A mark yields a marker if and only if its target file is found, its trimmed content equals the statement's text, and its target element is found. The marker is on the statement's first leaf, points at that element, and has the tooltip for the target file's name and the stored line. |
| `GutterIcon.MarkersAttachToFirstLeaf` | pycharm/src/main/java/sk/infinit/testmon/extensions/GutterIconRelatedItemLineMarkerProvider.kt:55-56 | Every marker produced for a statement is attached to the statement's first leaf, which has no children. |
| `GutterIcon.MarkersNeedUntrimmedText` | pycharm/src/main/java/sk/infinit/testmon/extensions/GutterIconRelatedItemLineMarkerProvider.kt:45-47 | If any marker is produced, the statement's text has no whitespace at either end, because only the stored content is trimmed. |
| `GutterIcon.PaddedContentMatches` | pycharm/src/main/java/sk/infinit/testmon/extensions/GutterIconRelatedItemLineMarkerProvider.kt:45-47 | Stored content that is the statement's text with whitespace before and after it still matches. |
| `GutterIcon.ClampedLine` | pycharm/src/main/java/sk/infinit/testmon/extensions/GutterIconRelatedItemLineMarkerProvider.kt:81-85 | The clamp gives a valid line whenever the stored line is at most the line count of a non-empty document. Whenever the stored line is below the line count (the only case in which the clamp is used) it is the stored line itself. |
| `GutterIcon.FindTargetPsiElement` | pycharm/src/main/java/sk/infinit/testmon/extensions/GutterIconRelatedItemLineMarkerProvider.kt:74-92 | No target without a document. No target when the stored line is at least the line count, including exactly the line count. Otherwise the target is the element found at the start offset of exactly the stored line. |
| `GutterIcon.TooltipTextSpec` | pycharm/src/main/java/sk/infinit/testmon/extensions/GutterIconRelatedItemLineMarkerProvider.kt:53 | The tooltip is `File `, the target file name, `, Line `, then decimal digits without a leading zero whose value is the stored line, unadjusted. |
| `Psi.GetFirstLeafElement` | pycharm/src/main/java/sk/infinit/testmon/extensions/GutterIconRelatedItemLineMarkerProvider.kt:62-69 | The result has no first child. It is reached from the element by following `firstChild` exactly `FirstLeafDepth` times. A childless element is its own first leaf. |
| `Psi.FirstLeafIsFirstChildless` | pycharm/src/main/java/sk/infinit/testmon/extensions/GutterIconRelatedItemLineMarkerProvider.kt:62-69 | Along the `firstChild` chain, the first leaf is the first and only element without a child. Every element before it has a first child. |
| `Text.TrimSpec` | pycharm/src/main/java/sk/infinit/testmon/extensions/GutterIconRelatedItemLineMarkerProvider.kt:45 | `trim()` returns a contiguous piece of the string with only whitespace before and after it. That piece has no whitespace at either end. |
| `Text.TrimUnique` | pycharm/src/main/java/sk/infinit/testmon/extensions/GutterIconRelatedItemLineMarkerProvider.kt:45 | Whitespace padding around a text without outer whitespace is exactly what `trim()` removes, so the trim is determined by that description. |
| `Text.TrimFixedPoint` | pycharm/src/main/java/sk/infinit/testmon/extensions/GutterIconRelatedItemLineMarkerProvider.kt:45-47 | A string is its own trim if and only if it has no whitespace at either end. |
| `Text.NatToStringRoundTrip` | pycharm/src/main/java/sk/infinit/testmon/extensions/GutterIconRelatedItemLineMarkerProvider.kt:53 | Reading back the decimal digits rendered for a line number gives that line number. |
| `Scenarios.MatchingMarkYieldsOneMarker` | pycharm/src/main/java/sk/infinit/testmon/extensions/GutterIconRelatedItemLineMarkerProvider.kt:42-56 | A matching mark for line 5 of a 10-line file gives one marker. It is on the statement's first leaf, points at the leaf of line 5, and reads `File b.py, Line 5`. |
| `Scenarios.EditedStatementYieldsNothing` | pycharm/src/main/java/sk/infinit/testmon/extensions/GutterIconRelatedItemLineMarkerProvider.kt:47 | A statement edited since the mark was recorded gets no marker. |
| `Scenarios.TruncatedTargetYieldsNothing` | pycharm/src/main/java/sk/infinit/testmon/extensions/GutterIconRelatedItemLineMarkerProvider.kt:87-89 | A target file shrunk to 4 lines gives no marker for line 5. |
| `Scenarios.LineOnePastEndYieldsNothing` | pycharm/src/main/java/sk/infinit/testmon/extensions/GutterIconRelatedItemLineMarkerProvider.kt:81-89 | A stored line equal to the line count gives no marker: the clamp does not apply. |
| `Scenarios.TwoMarksInOrder` | pycharm/src/main/java/sk/infinit/testmon/extensions/GutterIconRelatedItemLineMarkerProvider.kt:42-58 | Two matching marks give two markers in mark order. A mark whose file is not found between them is skipped. |
| `Scenarios.PaddedContentYieldsMarker` | pycharm/src/main/java/sk/infinit/testmon/extensions/GutterIconRelatedItemLineMarkerProvider.kt:45-47 | Stored content with leading spaces and a trailing newline still yields the marker. |
| `Scenarios.CaseDifferenceYieldsNothing` | pycharm/src/main/java/sk/infinit/testmon/extensions/GutterIconRelatedItemLineMarkerProvider.kt:47 | Stored content differing only in letter case yields no marker. |
| `Scenarios.InnerSpaceYieldsNothing` | pycharm/src/main/java/sk/infinit/testmon/extensions/GutterIconRelatedItemLineMarkerProvider.kt:47 | Stored content differing by an inner space yields no marker. |
| `Scenarios.NoStatementNoPathYieldsNothing` | pycharm/src/main/java/sk/infinit/testmon/extensions/GutterIconRelatedItemLineMarkerProvider.kt:30-40 | No marks are visited for an element that is not a statement, a file without a path, an absent cache service, or a cache that answers null. |

## Left out

- IntelliJ platform calls (`ServiceManager.getService`, `toPsi`, `viewProvider.document`, `findElementAt`, `getLineStartOffset`) are host code. Their answers are parameters or function-valued fields.
- `getFileFullPath`, `findVirtualFile` and the `Cache` service with `getPyFileMarks` are not part of this model. They are taken as given optional-valued functions, so how marks are stored and queried is not modelled.
- `NavigationGutterIconBuilder`, `AllIcons` and gutter rendering are not modelled. A marker is a record of its anchor element, target element and tooltip; the icon is not kept.
- GutterIcon.FindTargetPsiElement: a stored line is a natural number. A negative `targetLine` passes the bounds test in the code and then fails inside the host's `getLineStartOffset`. That failure is not modelled.
- GutterIcon.FindTargetPsiElement: the `as PyFile` cast is assumed to succeed. A cast failure (an exception in the host) is not modelled.
- GutterIcon.CollectNavigationMarkers: the caller's mutable collection is a sequence passed in and returned. Aliasing of that collection with other state is not captured.
- PSI elements are tree values compared structurally. Object identity of PSI elements is not captured.
- Strings are sequences of Unicode scalar values, while Kotlin strings are UTF-16 code units. Unpaired surrogates are not modelled.
- Text.IsWhitespace: the whitespace set is that of Java 9 and later (Unicode 6.3 and later). On Java 8, U+180E is also a space separator and `trim()` strips it; the model does not.
- Thread safety of the cache is not modelled, because the provider does not deal with it.
