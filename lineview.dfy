/**
 * How the converter reads one source line before any plugin sees it: the
 * line is padded to the 80 fixed-format columns behind one leading blank
 * (so that string index n is column n), anything past column 80 is an
 * end-of-line comment, columns 1-5 are the gutter, column 7 tells comment
 * and directive lines apart, and column 6 names the specification type.
 * Also here: the text written for comment and directive lines, and the
 * splice of keywords into the statement on the line above.
 */
module LineViews {
  import opened JsString

  const MaxFixedLength := 80

  /** The line as the converter indexes it: a leading blank, then padded to 80 columns. */
  function Padded(raw: string): (p: string)
    ensures |p| == 1 + (if |raw| > MaxFixedLength then |raw| else MaxFixedLength)
    ensures p == " " + PadEnd(raw, MaxFixedLength)
  {
    " " + PadEnd(raw, MaxFixedLength)
  }

  /** Comment and directive lines lose their specification letter: column 6 becomes a blank. */
  function BlankSpecLetter(line: string): (r: string)
    ensures |r| == |line|
  {
    if |line| >= 8 && (line[7] == '*' || line[7] == '/') then line[..6] + " " + line[7..] else line
  }

  datatype View = View(
    line: string,
    comment: string,
    ignoredColumns: string,
    isDirective: bool,
    isComment: bool,
    spec: string)

  predicate IsCommentText(p: string)
    requires |p| > 7
  {
    p[7] == '*' || IndexOf(Trim(p), "//") == 0
  }

  function ViewOf(raw: string, fullyFree: bool): (v: View)
    ensures |v.ignoredColumns| == 7 && |v.line| >= 8
  {
    Classify(Padded(raw), IsCommentText(Padded(raw)), fullyFree)
  }

  /** The view of a padded line `p`, given whether it is a comment. */
  function Classify(p: string, isComment: bool, fullyFree: bool): (v: View)
    requires |p| > MaxFixedLength
    ensures |v.ignoredColumns| == 7 && |v.line| >= 8
  {
    var isDirective := p[7] == '/';
    var split := |p| > MaxFixedLength + 1 && !isComment;
    var comment := if split then p[MaxFixedLength + 1..] else "";
    var line := if split then p[..MaxFixedLength + 1] else p;
    var gutter := if fullyFree then Spaces(7) else Substring(p, 1, 6) + "  ";
    var line := if isComment || isDirective then BlankSpecLetter(line) else line;
    View(line, comment, gutter, isDirective, isComment, SpecLetter(line[6]))
  }

  /** The specification type named by the character in column 6: `line[6].trim().toUpperCase()`. */
  function SpecLetter(c: char): string {
    if IsSpace(c) then "" else [UpperChar(c)]
  }

  lemma SpecLetterTrimmed(c: char)
    ensures SpecLetter(c) == Upper(Trim([c]))
  {
    if IsSpace(c) {
      assert TrimEnd([c]) == [];
    } else {
      assert TrimEnd([c]) == [c];
      assert LeadingSpaces([c]) == 0;
    }
  }

  /** Long lines: the first 80 columns are converted and the rest is kept as a comment. */
  lemma EndOfLineComment(raw: string, fullyFree: bool)
    requires |raw| > MaxFixedLength
    requires !IsCommentText(Padded(raw)) && Padded(raw)[7] != '/'
    ensures ViewOf(raw, fullyFree).line == " " + raw[..MaxFixedLength]
    ensures ViewOf(raw, fullyFree).comment == raw[MaxFixedLength..]
  {
    var p := Padded(raw);
    assert p == " " + raw;
  }

  /** Short lines are padded with blanks to the full 80 columns and carry no comment. */
  lemma ShortLinePadded(raw: string, fullyFree: bool)
    requires |raw| <= MaxFixedLength
    requires !IsCommentText(Padded(raw)) && Padded(raw)[7] != '/'
    ensures ViewOf(raw, fullyFree).line == " " + PadEnd(raw, MaxFixedLength)
    ensures |ViewOf(raw, fullyFree).line| == MaxFixedLength + 1
    ensures ViewOf(raw, fullyFree).comment == ""
  {
  }

  /** The specification type is column 6 of the source line, upper-cased, blank when blank. */
  lemma SpecColumn(raw: string, fullyFree: bool)
    requires |raw| >= 6
    requires !IsCommentText(Padded(raw)) && Padded(raw)[7] != '/'
    ensures ViewOf(raw, fullyFree).spec == Upper(Trim([raw[5]]))
  {
    var p := Padded(raw);
    assert p[6] == raw[5];
    SpecLetterTrimmed(raw[5]);
  }

  /** Comment and directive lines never name a specification type. */
  lemma CommentsHaveNoSpec(raw: string, fullyFree: bool)
    requires Padded(raw)[7] == '*' || Padded(raw)[7] == '/'
    ensures ViewOf(raw, fullyFree).spec == ""
  {
    var p := Padded(raw);
    ClassifiedCommentSpec(p, IsCommentText(p), fullyFree);
  }

  lemma ClassifiedCommentSpec(p: string, isComment: bool, fullyFree: bool)
    requires |p| > MaxFixedLength && ((isComment && p[7] == '*') || p[7] == '/')
    ensures Classify(p, isComment, fullyFree).spec == ""
  {
    var split := |p| > MaxFixedLength + 1 && !isComment;
    var line := if split then p[..MaxFixedLength + 1] else p;
    assert line[7] == p[7];
    assert BlankSpecLetter(line)[6] == ' ';
  }

  /** The gutter written in front of converted lines: columns 1-5 and two blanks, or all blanks for **FREE. */
  lemma Gutter(raw: string, fullyFree: bool)
    ensures var g := ViewOf(raw, fullyFree).ignoredColumns;
      if fullyFree then AllSpaces(g) else g == PadEnd(raw, MaxFixedLength)[..5] + "  "
  {
    var p := Padded(raw);
    assert p[1..6] == PadEnd(raw, MaxFixedLength)[..5];
  }

  /** A compile-time table begins at a line (not the first) whose first two columns are `**`. */
  predicate IsTableMarker(index: int, line: string) {
    0 < index && StartsWith(line, " **")
  }

  lemma TableMarkerColumns(raw: string, fullyFree: bool)
    ensures StartsWith(ViewOf(raw, fullyFree).line, " **") <==> StartsWith(raw, "**")
  {
    var p := Padded(raw);
    ClassifiedPrefix(p, IsCommentText(p), fullyFree);
    PaddedPrefix(raw);
  }

  /** Classifying never touches the first three characters. */
  lemma ClassifiedPrefix(p: string, isComment: bool, fullyFree: bool)
    requires |p| > MaxFixedLength
    ensures Classify(p, isComment, fullyFree).line[..3] == p[..3]
  {
  }

  lemma PaddedPrefix(raw: string)
    ensures Padded(raw)[..3] == " **" <==> StartsWith(raw, "**")
  {
    var q := PadEnd(raw, MaxFixedLength);
    assert Padded(raw)[..3] == " " + q[..2];
    if |raw| >= 2 {
      assert q[..2] == q[..|raw|][..2] == raw[..2];
      if Padded(raw)[..3] == " **" {
        assert raw[..2] == (" " + raw[..2])[1..] == "**";
      }
    } else {
      assert q[1] == ' ';
      assert Padded(raw)[2] == ' ';
    }
  }

  /**
   * The text after `//` on a converted comment line: an ILEDoc opener or
   * closer in column 7 becomes a third `/`, a `*` comment keeps what follows
   * the `*`, a `//` comment keeps what follows the `//`.
   */
  function CommentText(line: string): string
    requires |line| >= 8
  {
    var marker := TrimEnd(SubstringFrom(line, 6));
    if marker == " **" || marker == " */" then "/"
    else if line[7] == '*' then TrimEnd(SubstringFrom(line, 8))
    else TrimEnd(SliceFrom(line, IndexOf(line, "//") + 2))
  }

  /** A comment line: seven blanks, the current indentation, `//` and the comment text. */
  function CommentLine(line: string, spaces: int): string
    requires |line| >= 8
  {
    Spaces(7) + Spaces(spaces) + "//" + CommentText(line)
  }

  lemma CommentLineShape(line: string, spaces: nat)
    requires |line| >= 8
    ensures var r := CommentLine(line, spaces);
      r[..7 + spaces] == Spaces(7 + spaces) && r[7 + spaces..9 + spaces] == "//"
  {
    var r := CommentLine(line, spaces);
    assert Spaces(7) + Spaces(spaces) == Spaces(7 + spaces);
    assert r[..7 + spaces] == Spaces(7) + Spaces(spaces);
  }

  /** The directive keyword: columns 8-15, trimmed and upper-cased. */
  function DirectiveTest(line: string): string {
    Upper(Trim(Substring(line, 8, 16)))
  }

  /** A directive kept as it is, moved to the current indentation. */
  function DirectiveLine(line: string, spaces: int): string {
    Spaces(7) + Spaces(spaces) + Trim(SubstringFrom(line, 7))
  }

  /** `/FREE` and `/END-FREE` are dropped; `/EXEC SQL` and `/END-EXEC` open and close embedded SQL. */
  predicate IsFreeDirective(test: string) {
    test == "FREE" || test == "END-FREE"
  }

  /**
   * Keywords given on their own line, spliced into the statement above: in
   * front of its first `;` (after a blank), or in place of a `+`/`-`
   * continuation marker standing right before that `;`.
   */
  function MergeAbove(prev: string, keywords: string): string {
    var e := IndexOf(prev, ";");
    var endStmt := SubstringFrom(prev, e);
    var marker := Substring(prev, e - 1, e);
    if marker == "+" then Substring(prev, 0, e - 1) + Trim(keywords) + endStmt
    else if marker == "-" then Substring(prev, 0, e - 1) + TrimEnd(keywords) + endStmt
    else Substring(prev, 0, e) + " " + Trim(keywords) + endStmt
  }

  /** Before a plain `;` the keywords are inserted after one blank and everything else is kept. */
  lemma MergeBeforeTerminator(prev: string, keywords: string)
    requires IndexOf(prev, ";") > 0
    requires prev[IndexOf(prev, ";") - 1] != '+' && prev[IndexOf(prev, ";") - 1] != '-'
    ensures var e := IndexOf(prev, ";");
      MergeAbove(prev, keywords) == prev[..e] + " " + Trim(keywords) + prev[e..]
  {
    var e := IndexOf(prev, ";");
    assert Substring(prev, e - 1, e) == [prev[e - 1]];
  }

  /** A `+` marker is replaced by the keywords, which join the statement with no blank in between. */
  lemma MergeAtPlusMarker(prev: string, keywords: string)
    requires IndexOf(prev, ";") > 0 && prev[IndexOf(prev, ";") - 1] == '+'
    ensures var e := IndexOf(prev, ";");
      MergeAbove(prev, keywords) == prev[..e - 1] + Trim(keywords) + prev[e..]
  {
    var e := IndexOf(prev, ";");
    assert Substring(prev, e - 1, e) == [prev[e - 1]];
  }

  /** Every merge keeps the statement's terminator and whatever followed it. */
  lemma MergeKeepsTerminator(prev: string, keywords: string)
    requires IndexOf(prev, ";") >= 0
    ensures EndsWith(MergeAbove(prev, keywords), prev[IndexOf(prev, ";")..])
  {
  }

  /** With no `;` above, the keywords end up in front of the whole line. */
  lemma MergeWithoutTerminator(prev: string, keywords: string)
    requires IndexOf(prev, ";") == -1
    ensures MergeAbove(prev, keywords) == " " + Trim(keywords) + prev
  {
  }
}
