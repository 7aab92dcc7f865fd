/** The testmon gutter-marker provider (`GutterIconRelatedItemLineMarkerProvider`):
    for a Python statement, the stored gutter-link marks of its file that still
    match the statement's text each yield one navigation marker that points at
    the recorded line of the mark's target file.

    The IntelliJ host is given as values: the statement's file path as
    `getFileFullPath` resolved it, the cache service (absent or present) with its
    `getPyFileMarks` query, `findVirtualFile`, and for each target file its name,
    its document (`lineCount`, `getLineStartOffset`) and `findElementAt`. */
module GutterIcon {
  import opened Wrappers
  import opened Text
  import opened Psi
  import opened Sequences

  /** The kinds of file mark the cache stores; only gutter links are read here. */
  datatype FileMarkType = GutterLink | OtherMarkType

  /** A stored file mark: the text the statement had when the mark was recorded,
      and the file and zero-based line the mark points to. */
  datatype PyFileMark = PyFileMark(checkContent: string, targetPath: string, targetLine: nat)

  /** A document of the host editor. `lineStartOffset` is meaningful for the
      lines `0 .. lineCount - 1`. */
  datatype Document = Document(lineCount: nat, lineStartOffset: nat -> nat)

  /** A target file as the provider sees it: its name, its document (absent when
      the host has none) and the PSI lookup `findElementAt(offset)`. */
  datatype VirtualFile = VirtualFile(name: string, document: Option<Document>, findElementAt: nat -> Option<Element>)

  /** The testmon cache service; `getPyFileMarks(path, type)` may answer null. */
  datatype Cache = Cache(getPyFileMarks: (string, FileMarkType) -> Option<seq<PyFileMark>>)

  /** One gutter marker: the element it is attached to, the element it navigates
      to, and its tooltip. */
  datatype LineMarkerInfo = LineMarkerInfo(element: Element, target: Element, tooltipText: string)

  /** The clamp computed before the bounds test: one past the last line becomes
      the last line. Whenever the caller goes on to use it (`targetLine <
      lineCount`) it is `targetLine` itself, so the clamp never takes effect. */
  function ClampedLine(targetLine: nat, lineCount: nat): (lineNumber: int)
    ensures 0 < lineCount && targetLine <= lineCount ==> 0 <= lineNumber < lineCount
    ensures targetLine < lineCount ==> lineNumber == targetLine
  {
    if targetLine == lineCount then targetLine - 1 else targetLine
  }

  /** `findTargetPsiElement`: no target without a document, and none when the
      stored line is not below the line count, including the line one past the
      last (the bounds test reads the unclamped line). Otherwise the element at
      the start offset of exactly the stored line. */
  function FindTargetPsiElement(fileMark: PyFileMark, targetFile: VirtualFile): (r: Option<Element>)
    ensures targetFile.document.None? ==> r.None?
    ensures targetFile.document.Some? && fileMark.targetLine >= targetFile.document.value.lineCount ==> r.None?
    ensures targetFile.document.Some? && fileMark.targetLine < targetFile.document.value.lineCount ==>
      r == targetFile.findElementAt(targetFile.document.value.lineStartOffset(fileMark.targetLine))
  {
    match targetFile.document
    case None => None
    case Some(document) =>
      var targetLine := fileMark.targetLine;
      var lineNumber := ClampedLine(targetLine, document.lineCount);
      if targetLine >= document.lineCount then None
      else targetFile.findElementAt(document.lineStartOffset(lineNumber))
  }

  /** The anchor test: the trimmed check content equals the statement's text,
      which itself is compared untrimmed and case-sensitively. */
  predicate ContentMatches(fileMark: PyFileMark, statementText: string) {
    Trim(fileMark.checkContent) == statementText
  }

  /** `"File ${name}, Line ${targetLine}"`. */
  function TooltipText(fileName: string, targetLine: nat): string {
    "File " + fileName + ", Line " + NatToString(targetLine)
  }

  /** The tooltip names the target file, then the stored line, which reads back
      unchanged from its decimal digits (no 1-based adjustment). */
  lemma TooltipTextSpec(fileName: string, targetLine: nat)
    ensures var t := TooltipText(fileName, targetLine);
      && |t| > 12 + |fileName|
      && t[..5] == "File " && t[5..5 + |fileName|] == fileName
      && t[5 + |fileName|..12 + |fileName|] == ", Line "
      && IsDecimal(t[12 + |fileName|..]) && DecimalValue(t[12 + |fileName|..]) == targetLine
      && (|t| == 13 + |fileName| || t[12 + |fileName|] != '0')
  {
    NatToStringRoundTrip(targetLine);
    assert TooltipText(fileName, targetLine)[12 + |fileName|..] == NatToString(targetLine);
  }

  /** What one loop iteration contributes for `fileMark`: a marker on the first
      leaf of the statement, or nothing when the target file is not found, the
      content does not match, or the target element is not found. */
  function MarkerFor(statement: Element, fileMark: PyFileMark, findVirtualFile: string -> Option<VirtualFile>): Option<LineMarkerInfo> {
    match findVirtualFile(fileMark.targetPath)
    case None => None
    case Some(targetFile) =>
      if !ContentMatches(fileMark, statement.text) then None
      else match FindTargetPsiElement(fileMark, targetFile)
        case None => None
        case Some(target) =>
          Some(LineMarkerInfo(GetFirstLeafElement(statement), target, TooltipText(targetFile.name, fileMark.targetLine)))
  }

  /** The markers the loop appends for `marks`, in mark order. */
  function MarkersFor(statement: Element, marks: seq<PyFileMark>, findVirtualFile: string -> Option<VirtualFile>): seq<LineMarkerInfo> {
    KeepSome(mark => MarkerFor(statement, mark, findVirtualFile), marks)
  }

  /** The marks the loop walks: none when the element is not a statement or the
      file path, the cache service or the cache's answer is absent; otherwise
      the gutter-link marks the cache holds for the statement's file. */
  function MarksToVisit(psiElement: Element, fileFullPath: Option<string>, cache: Option<Cache>): seq<PyFileMark> {
    if psiElement.kind != PyStatement || fileFullPath.None? || cache.None? then []
    else match cache.value.getPyFileMarks(fileFullPath.value, GutterLink)
      case None => []
      case Some(marks) => marks
  }

  /** `collectNavigationMarkers`: appends to the caller's collection one marker
      per matching mark, in mark order, and leaves what was there before. */
  method CollectNavigationMarkers(
    psiElement: Element,
    fileFullPath: Option<string>,
    cache: Option<Cache>,
    findVirtualFile: string -> Option<VirtualFile>,
    resultCollection: seq<LineMarkerInfo>
  ) returns (collected: seq<LineMarkerInfo>)
    ensures collected == resultCollection +
      MarkersFor(psiElement, MarksToVisit(psiElement, fileFullPath, cache), findVirtualFile)
    ensures || psiElement.kind != PyStatement || fileFullPath.None? || cache.None?
            || cache.value.getPyFileMarks(fileFullPath.value, GutterLink).None?
            ==> collected == resultCollection
    ensures |resultCollection| <= |collected| <= |resultCollection| + |MarksToVisit(psiElement, fileFullPath, cache)|
  {
    collected := resultCollection;
    if psiElement.kind != PyStatement {
      return;
    }
    if fileFullPath.None? {
      return;
    }
    if cache.None? {
      return;
    }
    var marks := cache.value.getPyFileMarks(fileFullPath.value, GutterLink);
    if marks.None? {
      return;
    }
    var pyFileMarks := marks.value;
    for i := 0 to |pyFileMarks|
      invariant collected == resultCollection + MarkersFor(psiElement, pyFileMarks[..i], findVirtualFile)
    {
      var fileMark := pyFileMarks[i];
      ghost var before := MarkersFor(psiElement, pyFileMarks[..i], findVirtualFile);
      assert pyFileMarks[..i + 1] == pyFileMarks[..i] + [fileMark];
      MarkersForSnoc(psiElement, pyFileMarks[..i], fileMark, findVirtualFile);
      var targetVirtualFile := findVirtualFile(fileMark.targetPath);
      var fileMarkContent := Trim(fileMark.checkContent);
      if targetVirtualFile.Some? && fileMarkContent == psiElement.text {
        var targetPsiElement := FindTargetPsiElement(fileMark, targetVirtualFile.value);
        if targetPsiElement.None? {
          assert MarkerFor(psiElement, fileMark, findVirtualFile) == None;
          continue;
        }
        var tooltip := TooltipText(targetVirtualFile.value.name, fileMark.targetLine);
        var leafElement := GetFirstLeafElement(psiElement);
        var marker := LineMarkerInfo(leafElement, targetPsiElement.value, tooltip);
        assert MarkerFor(psiElement, fileMark, findVirtualFile) == Some(marker);
        collected := collected + [marker];
        assert collected == resultCollection + (before + [marker]);
      } else {
        assert MarkerFor(psiElement, fileMark, findVirtualFile) == None;
      }
    }
    assert pyFileMarks[..|pyFileMarks|] == pyFileMarks;
    KeepSomeLength(mark => MarkerFor(psiElement, mark, findVirtualFile), pyFileMarks);
  }

  /** One more mark appends its marker, if it yields one. */
  lemma MarkersForSnoc(statement: Element, marks: seq<PyFileMark>, mark: PyFileMark, findVirtualFile: string -> Option<VirtualFile>)
    ensures MarkersFor(statement, marks + [mark], findVirtualFile) ==
            MarkersFor(statement, marks, findVirtualFile) +
            match MarkerFor(statement, mark, findVirtualFile)
            case None => []
            case Some(marker) => [marker]
  {
    KeepSomeSnoc(m => MarkerFor(statement, m, findVirtualFile), marks, mark);
  }

  /** A mark that yields no marker (its target file or element is not found, or
      its content does not match) is skipped and the loop carries on with the
      marks after it. */
  lemma SkippedMarkContinues(statement: Element, before: seq<PyFileMark>, mark: PyFileMark, after: seq<PyFileMark>, findVirtualFile: string -> Option<VirtualFile>)
    requires MarkerFor(statement, mark, findVirtualFile).None?
    ensures MarkersFor(statement, before + [mark] + after, findVirtualFile) ==
            MarkersFor(statement, before, findVirtualFile) + MarkersFor(statement, after, findVirtualFile)
  {
    KeepSomeAt(m => MarkerFor(statement, m, findVirtualFile), before, mark, after);
  }

  /** A mark that yields a marker contributes exactly that marker, in its place
      in mark order. */
  lemma KeptMarkInPlace(statement: Element, before: seq<PyFileMark>, mark: PyFileMark, after: seq<PyFileMark>, findVirtualFile: string -> Option<VirtualFile>)
    requires MarkerFor(statement, mark, findVirtualFile).Some?
    ensures MarkersFor(statement, before + [mark] + after, findVirtualFile) ==
            MarkersFor(statement, before, findVirtualFile) + [MarkerFor(statement, mark, findVirtualFile).value] +
            MarkersFor(statement, after, findVirtualFile)
  {
    KeepSomeAt(m => MarkerFor(statement, m, findVirtualFile), before, mark, after);
  }

  /** Every marker comes from some mark that passed all the tests. */
  lemma MarkersForSound(statement: Element, marks: seq<PyFileMark>, findVirtualFile: string -> Option<VirtualFile>, m: LineMarkerInfo)
    requires m in MarkersFor(statement, marks, findVirtualFile)
    ensures exists i :: 0 <= i < |marks| && MarkerFor(statement, marks[i], findVirtualFile) == Some(m)
  {
    KeepSomeSound(mark => MarkerFor(statement, mark, findVirtualFile), marks, m);
  }

  /** What a mark must satisfy to yield a marker, and what that marker is: the
      target file resolves, the trimmed content equals the statement's text, the
      target element resolves; the marker sits on the statement's first leaf,
      points at that element and carries the tooltip for the stored line. */
  lemma MarkerForCharacterization(statement: Element, fileMark: PyFileMark, findVirtualFile: string -> Option<VirtualFile>)
    ensures MarkerFor(statement, fileMark, findVirtualFile).Some? <==>
      && findVirtualFile(fileMark.targetPath).Some?
      && Trim(fileMark.checkContent) == statement.text
      && FindTargetPsiElement(fileMark, findVirtualFile(fileMark.targetPath).value).Some?
    ensures MarkerFor(statement, fileMark, findVirtualFile).Some? ==>
      var marker := MarkerFor(statement, fileMark, findVirtualFile).value;
      var targetFile := findVirtualFile(fileMark.targetPath).value;
      && marker.element == GetFirstLeafElement(statement)
      && FirstChild(marker.element) == None
      && Some(marker.target) == FindTargetPsiElement(fileMark, targetFile)
      && marker.tooltipText == TooltipText(targetFile.name, fileMark.targetLine)
  {
  }

  /** The statement's text is not trimmed before the comparison, so a statement
      whose text begins or ends with whitespace never receives a marker. */
  lemma MarkersNeedUntrimmedText(statement: Element, marks: seq<PyFileMark>, findVirtualFile: string -> Option<VirtualFile>)
    requires MarkersFor(statement, marks, findVirtualFile) != []
    ensures NoOuterWhitespace(statement.text)
  {
    var m := MarkersFor(statement, marks, findVirtualFile)[0];
    MarkersForSound(statement, marks, findVirtualFile, m);
    var i :| 0 <= i < |marks| && MarkerFor(statement, marks[i], findVirtualFile) == Some(m);
    MarkerForCharacterization(statement, marks[i], findVirtualFile);
    TrimSpec(marks[i].checkContent);
  }

  /** Every marker produced for a statement sits on the statement's first leaf,
      an element without children. */
  lemma MarkersAttachToFirstLeaf(statement: Element, marks: seq<PyFileMark>, findVirtualFile: string -> Option<VirtualFile>, m: LineMarkerInfo)
    requires m in MarkersFor(statement, marks, findVirtualFile)
    ensures m.element == GetFirstLeafElement(statement) && m.element.children == []
  {
    MarkersForSound(statement, marks, findVirtualFile, m);
  }

  /** Check content that is the statement's text padded with whitespace on
      either side still matches; the padding is all `trim` forgives. */
  lemma PaddedContentMatches(a: string, text: string, b: string, targetPath: string, targetLine: nat)
    requires AllWhitespace(a) && AllWhitespace(b) && NoOuterWhitespace(text)
    ensures ContentMatches(PyFileMark(a + text + b, targetPath, targetLine), text)
  {
    TrimUnique(a, text, b);
  }

}
