/** Concrete scenarios for the marker provider: a statement `call_target()` in `a.py`
    with a gutter-link mark pointing at line 5 of `b.py`. */
module Scenarios {
  import opened Wrappers
  import opened Text
  import opened Psi
  import opened GutterIcon

  const CallName := Element(OtherElement, "call_target", [])
  const CallArgs := Element(OtherElement, "()", [])
  const CallExpr := Element(OtherElement, "call_target()", [CallName, CallArgs])

  function Statement(text: string): Element {
    Element(PyStatement, text, [CallExpr])
  }

  /** The leaf at the start of line 5 of `b.py`, and the leaf found anywhere else. */
  const LineFiveLeaf := Element(OtherElement, "def", [])
  const OtherLeaf := Element(OtherElement, "pass", [])

  /** `b.py` with `lineCount` lines of ten characters each. */
  function TargetFile(lineCount: nat): VirtualFile {
    VirtualFile("b.py", Some(Document(lineCount, line => 10 * line)),
                offset => if offset == 50 then Some(LineFiveLeaf) else Some(OtherLeaf))
  }

  function FindFile(lineCount: nat): string -> Option<VirtualFile> {
    path => if path == "b.py" then Some(TargetFile(lineCount)) else None
  }

  function CacheWith(marks: seq<PyFileMark>): Cache {
    Cache((path, kind) => if path == "a.py" && kind == GutterLink then Some(marks) else None)
  }

  const MarkToLineFive := PyFileMark("call_target()", "b.py", 5)

  function ScenarioMarkers(text: string, marks: seq<PyFileMark>, lineCount: nat): seq<LineMarkerInfo> {
    MarkersFor(Statement(text), MarksToVisit(Statement(text), Some("a.py"), Some(CacheWith(marks))), FindFile(lineCount))
  }

  lemma ScenarioMarkersOf(text: string, marks: seq<PyFileMark>, lineCount: nat)
    ensures ScenarioMarkers(text, marks, lineCount) == MarkersFor(Statement(text), marks, FindFile(lineCount))
  {
  }

  lemma ScenarioOneMark(text: string, mark: PyFileMark, lineCount: nat)
    ensures ScenarioMarkers(text, [mark], lineCount) ==
            match MarkerFor(Statement(text), mark, FindFile(lineCount))
            case None => []
            case Some(marker) => [marker]
  {
    ScenarioMarkersOf(text, [mark], lineCount);
    MarkersForSnoc(Statement(text), [], mark, FindFile(lineCount));
    assert [] + [mark] == [mark];
  }

  lemma CallTextTrimmed()
    ensures Trim("call_target()") == "call_target()"
  {
    TrimFixedPoint("call_target()");
  }

  lemma TooltipsOfLines()
    ensures TooltipText("b.py", 5) == "File b.py, Line 5"
    ensures TooltipText("b.py", 7) == "File b.py, Line 7"
  {
    assert NatToString(5) == "5";
    assert NatToString(7) == "7";
  }

  lemma StatementLeaf(text: string)
    ensures GetFirstLeafElement(Statement(text)) == CallName
  {
  }

  lemma TargetAt(mark: PyFileMark, lineCount: nat)
    ensures FindTargetPsiElement(mark, TargetFile(lineCount)) ==
            if mark.targetLine >= lineCount then None
            else if mark.targetLine == 5 then Some(LineFiveLeaf) else Some(OtherLeaf)
  {
  }

  /** The mark still matches and line 5 exists: one marker on the statement's
      first leaf, pointing at the leaf of line 5, labelled with the stored line. */
  lemma MatchingMarkYieldsOneMarker()
    ensures ScenarioMarkers("call_target()", [MarkToLineFive], 10) ==
            [LineMarkerInfo(CallName, LineFiveLeaf, "File b.py, Line 5")]
  {
    ScenarioOneMark("call_target()", MarkToLineFive, 10);
    CallTextTrimmed();
    TargetAt(MarkToLineFive, 10);
    TooltipsOfLines();
    StatementLeaf("call_target()");
  }

  /** The statement was edited since the mark was recorded: no marker. */
  lemma EditedStatementYieldsNothing()
    ensures ScenarioMarkers("call_target2()", [MarkToLineFive], 10) == []
  {
    ScenarioOneMark("call_target2()", MarkToLineFive, 10);
    CallTextTrimmed();
  }

  /** `b.py` shrank to four lines: line 5 is gone, no marker. */
  lemma TruncatedTargetYieldsNothing()
    ensures ScenarioMarkers("call_target()", [MarkToLineFive], 4) == []
  {
    ScenarioOneMark("call_target()", MarkToLineFive, 4);
    TargetAt(MarkToLineFive, 4);
  }

  /** The stored line is exactly the line count: the clamp does not apply and
      no marker is produced. */
  lemma LineOnePastEndYieldsNothing()
    ensures ScenarioMarkers("call_target()", [MarkToLineFive], 5) == []
  {
    ScenarioOneMark("call_target()", MarkToLineFive, 5);
    TargetAt(MarkToLineFive, 5);
  }

  const MarkToCFile := PyFileMark("call_target()", "c.py", 1)
  const MarkToLineSeven := PyFileMark("call_target()", "b.py", 7)

  lemma MarkersOfEachMark()
    ensures MarkerFor(Statement("call_target()"), MarkToLineFive, FindFile(10)) ==
            Some(LineMarkerInfo(CallName, LineFiveLeaf, "File b.py, Line 5"))
    ensures MarkerFor(Statement("call_target()"), MarkToCFile, FindFile(10)) == None
    ensures MarkerFor(Statement("call_target()"), MarkToLineSeven, FindFile(10)) ==
            Some(LineMarkerInfo(CallName, OtherLeaf, "File b.py, Line 7"))
  {
    CallTextTrimmed();
    TargetAt(MarkToLineFive, 10);
    TargetAt(MarkToLineSeven, 10);
    TooltipsOfLines();
    StatementLeaf("call_target()");
  }

  /** Two matching marks with different target lines give two markers, in mark
      order; a mark for a file that cannot be found between them is skipped. */
  lemma TwoMarksInOrder()
    ensures ScenarioMarkers("call_target()", [MarkToLineFive, MarkToCFile, MarkToLineSeven], 10) ==
            [LineMarkerInfo(CallName, LineFiveLeaf, "File b.py, Line 5"), LineMarkerInfo(CallName, OtherLeaf, "File b.py, Line 7")]
  {
    var stmt := Statement("call_target()");
    var find := FindFile(10);
    var first := LineMarkerInfo(CallName, LineFiveLeaf, "File b.py, Line 5");
    var second := LineMarkerInfo(CallName, OtherLeaf, "File b.py, Line 7");
    MarkersOfEachMark();
    MarkersForSnoc(stmt, [], MarkToLineFive, find);
    assert [] + [MarkToLineFive] == [MarkToLineFive];
    assert MarkersFor(stmt, [MarkToLineFive], find) == [first];
    MarkersForSnoc(stmt, [MarkToLineFive], MarkToCFile, find);
    assert [MarkToLineFive] + [MarkToCFile] == [MarkToLineFive, MarkToCFile];
    assert MarkersFor(stmt, [MarkToLineFive, MarkToCFile], find) == [first];
    MarkersForSnoc(stmt, [MarkToLineFive, MarkToCFile], MarkToLineSeven, find);
    assert [MarkToLineFive, MarkToCFile] + [MarkToLineSeven] == [MarkToLineFive, MarkToCFile, MarkToLineSeven];
    assert MarkersFor(stmt, [MarkToLineFive, MarkToCFile, MarkToLineSeven], find) == [first, second];
    ScenarioMarkersOf("call_target()", [MarkToLineFive, MarkToCFile, MarkToLineSeven], 10);
  }

  lemma PaddedTextTrimmed()
    ensures Trim("  call_target()\n") == "call_target()"
  {
    assert "  " + "call_target()" + "\n" == "  call_target()\n";
    PaddedContentMatches("  ", "call_target()", "\n", "b.py", 5);
  }

  /** Surrounding whitespace in the stored content is forgiven. */
  lemma PaddedContentYieldsMarker()
    ensures ScenarioMarkers("call_target()", [PyFileMark("  call_target()\n", "b.py", 5)], 10) ==
            [LineMarkerInfo(CallName, LineFiveLeaf, "File b.py, Line 5")]
  {
    var mark := PyFileMark("  call_target()\n", "b.py", 5);
    ScenarioOneMark("call_target()", mark, 10);
    PaddedTextTrimmed();
    TargetAt(mark, 10);
    TooltipsOfLines();
    StatementLeaf("call_target()");
  }

  lemma InnerDifferencesTrimmed()
    ensures Trim("Call_target()") == "Call_target()"
    ensures Trim("call_target( )") == "call_target( )"
  {
    TrimFixedPoint("Call_target()");
    TrimFixedPoint("call_target( )");
  }

  /** A difference in case is not forgiven. */
  lemma CaseDifferenceYieldsNothing()
    ensures ScenarioMarkers("call_target()", [PyFileMark("Call_target()", "b.py", 5)], 10) == []
  {
    ScenarioOneMark("call_target()", PyFileMark("Call_target()", "b.py", 5), 10);
    InnerDifferencesTrimmed();
  }

  /** A difference inside the text is not forgiven. */
  lemma InnerSpaceYieldsNothing()
    ensures ScenarioMarkers("call_target()", [PyFileMark("call_target( )", "b.py", 5)], 10) == []
  {
    ScenarioOneMark("call_target()", PyFileMark("call_target( )", "b.py", 5), 10);
    InnerDifferencesTrimmed();
  }

  /** An element that is not a statement, a file with no known path, an absent
      cache service, or a cache with no marks for the file: nothing is visited. */
  lemma NoStatementNoPathYieldsNothing()
    ensures MarksToVisit(CallExpr, Some("a.py"), Some(CacheWith([MarkToLineFive]))) == []
    ensures MarksToVisit(Statement("call_target()"), None, Some(CacheWith([MarkToLineFive]))) == []
    ensures MarksToVisit(Statement("call_target()"), Some("a.py"), None) == []
    ensures MarksToVisit(Statement("call_target()"), Some("b.py"), Some(CacheWith([MarkToLineFive]))) == []
  {
  }

}
