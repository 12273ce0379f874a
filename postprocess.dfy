/**
 * The keyword clean-up applied to every written declaration line: first the
 * VARYING rewrite (`Char(n) … VARYING` becomes `Varchar(n)`), then the
 * quoting of DTAARA/EXTNAME/EXTFLD names. Each step is guarded by the
 * block type and a pattern test, modelled exactly; what a step does once
 * its guard lets a line through is a regular-expression rewrite, supplied
 * here as a function parameter.
 */
module PostProcess {
  import opened JsString
  import opened JsNumber

  /** `s` holds `pat` at `i`, compared with ASCII letters folded; `pat` is given in upper case. */
  predicate CiAt(s: string, pat: string, i: int) {
    0 <= i && i + |pat| <= |s| && Upper(s[i..i + |pat|]) == pat
  }

  predicate IsWordChar(c: char) {
    'a' <= c <= 'z' || 'A' <= c <= 'Z' || '0' <= c <= '9' || c == '_'
  }

  /** The first position at or after `i` that is not a blank (` *` in a pattern). */
  function SkipBlanks(s: string, i: nat): (r: nat)
    ensures i <= r && (r <= |s| || r == i)
    ensures forall k :: i <= k < r ==> s[k] == ' '
    ensures r < |s| ==> s[r] != ' '
    decreases |s| - i
  {
    if i < |s| && s[i] == ' ' then SkipBlanks(s, i + 1) else i
  }

  /** `\b(Char|Graph|Ucs2)\(` at `p`: the length of the matched text, or 0. */
  function TypeOpen(s: string, p: nat): nat {
    if p > 0 && p - 1 < |s| && IsWordChar(s[p - 1]) then 0
    else if CiAt(s, "CHAR(", p) then 5
    else if CiAt(s, "GRAPH(", p) then 6
    else if CiAt(s, "UCS2(", p) then 5
    else 0
  }

  /** `[ ;]` at `i`. */
  predicate BlankOrSemicolon(s: string, i: nat) {
    i < |s| && (s[i] == ' ' || s[i] == ';')
  }

  /** ` *\( *\d *\)[ ;]` at `i`: a one-digit length in parentheses, then a blank or `;`. */
  predicate VaryingLength(s: string, i: nat) {
    var a := SkipBlanks(s, i);
    a < |s| && s[a] == '(' && DigitThenClose(s, a + 1)
  }

  /** ` *\d *\)[ ;]` at `j`. */
  predicate DigitThenClose(s: string, j: nat) {
    var b := SkipBlanks(s, j);
    b < |s| && IsDigit(s[b]) && CloseThenEnd(s, b + 1)
  }

  /** ` *\)[ ;]` at `j`. */
  predicate CloseThenEnd(s: string, j: nat) {
    var c := SkipBlanks(s, j);
    c < |s| && s[c] == ')' && BlankOrSemicolon(s, c + 1)
  }

  /** ` VARYING( *\( *\d *\))?[ ;]` at `q`. */
  predicate VaryingAt(s: string, q: nat) {
    CiAt(s, " VARYING", q) && (BlankOrSemicolon(s, q + 8) || VaryingLength(s, q + 8))
  }

  /** The test `\b(Char|Graph|Ucs2)\(.* VARYING( *\( *\d *\))?[ ;]`, case-insensitive. */
  predicate VaryingCandidate(s: string) {
    exists p: nat, q: nat | p <= q <= |s| :: TypeOpen(s, p) > 0 && p + TypeOpen(s, p) <= q && VaryingAt(s, q)
  }

  predicate IsParameterBlock(blockType: string) {
    blockType == "DS" || blockType == "PR" || blockType == "PI"
  }

  predicate IsStandaloneDecl(line: string) {
    StartsWith(TrimStart(line), "Dcl-S ")
  }

  /** The VARYING step lets a line through: a DS, PR or PI block or a `Dcl-S`, and the pattern test. */
  predicate VaryingApplies(line: string, blockType: string) {
    (IsParameterBlock(blockType) || IsStandaloneDecl(line)) && VaryingCandidate(line)
  }

  /**
   * The VARYING step: a trailing `;` is taken off before the rewrite and put
   * back after it.
   */
  function FixVarying(line: string, blockType: string, rewrite: string -> string): (r: string)
    ensures !VaryingApplies(line, blockType) ==> r == line
    ensures VaryingApplies(line, blockType) && EndsWith(line, ";") ==>
      r == rewrite(line[..|line| - 1]) + ";"
    ensures VaryingApplies(line, blockType) && !EndsWith(line, ";") ==> r == rewrite(line)
  {
    if !IsParameterBlock(blockType) && !IsStandaloneDecl(line) then line
    else if !VaryingCandidate(line) then line
    else if LastChar(line) == ";" then rewrite(line[..|line| - 1]) + ";"
    else rewrite(line)
  }

  /** The test `Dcl-.*DTAARA *\(`, case-insensitive. */
  predicate DtaaraDecl(s: string) {
    exists i: nat, j: nat | i <= j <= |s| :: CiAt(s, "DCL-", i) && i + 4 <= j && CiAt(s, "DTAARA", j) &&
      SkipBlanks(s, j + 6) < |s| && s[SkipBlanks(s, j + 6)] == '('
  }

  /** The quoting step lets a line through: inside a DS, or outside any block on a DTAARA declaration. */
  predicate QuotingApplies(line: string, blockType: string) {
    blockType == "DS" || (blockType == "" && DtaaraDecl(line))
  }

  function QuoteNames(line: string, blockType: string, rewrite: string -> string): (r: string)
    ensures !QuotingApplies(line, blockType) ==> r == line
    ensures QuotingApplies(line, blockType) ==> r == rewrite(line)
  {
    if blockType != "DS" && (blockType != "" || !DtaaraDecl(line)) then line else rewrite(line)
  }

  /** Both steps, in order. */
  function PostProcessKeywords(line: string, blockType: string, varying: string -> string, quoting: string -> string): string {
    QuoteNames(FixVarying(line, blockType, varying), blockType, quoting)
  }

  /** A line neither step lets through is written exactly as it came. */
  lemma UntouchedUnlessGuarded(line: string, blockType: string, varying: string -> string, quoting: string -> string)
    requires !VaryingApplies(line, blockType) && !QuotingApplies(line, blockType)
    ensures PostProcessKeywords(line, blockType, varying, quoting) == line
  {
  }

  /**
   * Outside DS, PR and PI blocks and the no-block case (a calculation, a
   * prototype body's end, a procedure boundary), post-processing changes
   * nothing but a `Dcl-S` line.
   */
  lemma OtherBlocksUntouched(line: string, blockType: string, varying: string -> string, quoting: string -> string)
    requires !IsParameterBlock(blockType) && blockType != "" && !IsStandaloneDecl(line)
    ensures PostProcessKeywords(line, blockType, varying, quoting) == line
  {
  }

  /** Without the VARYING keyword after a character type, the VARYING step never fires. */
  lemma NoVaryingKeyword(line: string, blockType: string, rewrite: string -> string)
    requires forall q :: 0 <= q ==> !CiAt(line, " VARYING", q)
    ensures FixVarying(line, blockType, rewrite) == line
  {
  }

  /** A rewrite that keeps its input keeps the line, and a terminated line stays terminated. */
  lemma SemicolonKept(line: string, blockType: string)
    requires EndsWith(line, ";")
    ensures FixVarying(line, blockType, s => s) == line
  {
    if VaryingApplies(line, blockType) {
      assert line[..|line| - 1] + ";" == line;
    }
  }

  /** A case-folded comparison cannot tell a line from its upper-cased copy. */
  lemma {:induction false} CiAtUpper(s: string, pat: string, i: int)
    ensures CiAt(Upper(s), pat, i) == CiAt(s, pat, i)
  {
    if 0 <= i && i + |pat| <= |s| {
      var a, b := Upper(Upper(s)[i..i + |pat|]), Upper(s[i..i + |pat|]);
      assert |a| == |b|;
      forall k | 0 <= k < |a| ensures a[k] == b[k] {
        assert Upper(s)[i + k] == UpperChar(s[i + k]);
      }
      assert a == b;
    }
  }

  /** Upper-casing keeps blanks where they are, so ` *` skips the same run. */
  lemma {:induction false} SkipBlanksUpper(s: string, i: nat)
    ensures SkipBlanks(Upper(s), i) == SkipBlanks(s, i)
    decreases |s| - i
  {
    if i < |s| && s[i] == ' ' {
      SkipBlanksUpper(s, i + 1);
    } else if i < |s| {
      assert Upper(s)[i] == UpperChar(s[i]) != ' ';
    }
  }

  lemma TypeOpenUpper(s: string, p: nat)
    ensures TypeOpen(Upper(s), p) == TypeOpen(s, p)
  {
    CiAtUpper(s, "CHAR(", p);
    CiAtUpper(s, "GRAPH(", p);
    CiAtUpper(s, "UCS2(", p);
    if p > 0 && p - 1 < |s| {
      assert Upper(s)[p - 1] == UpperChar(s[p - 1]);
    }
  }

  lemma BlankOrSemicolonUpper(s: string, i: nat)
    ensures BlankOrSemicolon(Upper(s), i) == BlankOrSemicolon(s, i)
  {
    if i < |s| {
      assert Upper(s)[i] == UpperChar(s[i]);
    }
  }

  /** The character at `i` is one of the unlettered ones the patterns look for exactly when its upper case is. */
  lemma SameMark(s: string, i: nat)
    requires i < |s|
    ensures Upper(s)[i] == '(' <==> s[i] == '('
    ensures Upper(s)[i] == ')' <==> s[i] == ')'
    ensures IsDigit(Upper(s)[i]) <==> IsDigit(s[i])
  {
    assert Upper(s)[i] == UpperChar(s[i]);
  }

  lemma CloseThenEndUpper(s: string, j: nat)
    ensures CloseThenEnd(Upper(s), j) == CloseThenEnd(s, j)
  {
    SkipBlanksUpper(s, j);
    var c := SkipBlanks(s, j);
    if c < |s| {
      SameMark(s, c);
      BlankOrSemicolonUpper(s, c + 1);
    }
  }

  lemma DigitThenCloseUpper(s: string, j: nat)
    ensures DigitThenClose(Upper(s), j) == DigitThenClose(s, j)
  {
    SkipBlanksUpper(s, j);
    var b := SkipBlanks(s, j);
    if b < |s| {
      SameMark(s, b);
      CloseThenEndUpper(s, b + 1);
    }
  }

  lemma VaryingLengthUpper(s: string, i: nat)
    ensures VaryingLength(Upper(s), i) == VaryingLength(s, i)
  {
    SkipBlanksUpper(s, i);
    var a := SkipBlanks(s, i);
    if a < |s| {
      SameMark(s, a);
      DigitThenCloseUpper(s, a + 1);
    }
  }

  lemma VaryingAtUpper(s: string, q: nat)
    ensures VaryingAt(Upper(s), q) == VaryingAt(s, q)
  {
    CiAtUpper(s, " VARYING", q);
    BlankOrSemicolonUpper(s, q + 8);
    VaryingLengthUpper(s, q + 8);
  }

  /** The VARYING test is case-insensitive: an upper-cased line passes it exactly when the line does. */
  lemma VaryingCandidateUpper(s: string)
    ensures VaryingCandidate(Upper(s)) == VaryingCandidate(s)
  {
    var u := Upper(s);
    if VaryingCandidate(s) {
      var p: nat, q: nat :| p <= q <= |s| && TypeOpen(s, p) > 0 && p + TypeOpen(s, p) <= q && VaryingAt(s, q);
      TypeOpenUpper(s, p);
      VaryingAtUpper(s, q);
      assert TypeOpen(u, p) > 0 && p + TypeOpen(u, p) <= q && VaryingAt(u, q);
    }
    if VaryingCandidate(u) {
      var p: nat, q: nat :| p <= q <= |u| && TypeOpen(u, p) > 0 && p + TypeOpen(u, p) <= q && VaryingAt(u, q);
      TypeOpenUpper(s, p);
      VaryingAtUpper(s, q);
      assert TypeOpen(s, p) > 0 && p + TypeOpen(s, p) <= q && VaryingAt(s, q);
    }
  }

  lemma DtaaraAtUpper(s: string, i: nat, j: nat)
    ensures (CiAt(Upper(s), "DCL-", i) && i + 4 <= j && CiAt(Upper(s), "DTAARA", j) &&
        SkipBlanks(Upper(s), j + 6) < |Upper(s)| && Upper(s)[SkipBlanks(Upper(s), j + 6)] == '(') ==
      (CiAt(s, "DCL-", i) && i + 4 <= j && CiAt(s, "DTAARA", j) &&
        SkipBlanks(s, j + 6) < |s| && s[SkipBlanks(s, j + 6)] == '(')
  {
    CiAtUpper(s, "DCL-", i);
    CiAtUpper(s, "DTAARA", j);
    SkipBlanksUpper(s, j + 6);
    var k := SkipBlanks(s, j + 6);
    if k < |s| {
      assert Upper(s)[k] == UpperChar(s[k]);
    }
  }

  /** The data-area test is case-insensitive: an upper-cased line passes it exactly when the line does. */
  lemma DtaaraDeclUpper(s: string)
    ensures DtaaraDecl(Upper(s)) == DtaaraDecl(s)
  {
    var u := Upper(s);
    if DtaaraDecl(s) {
      var i: nat, j: nat :| i <= j <= |s| && CiAt(s, "DCL-", i) && i + 4 <= j && CiAt(s, "DTAARA", j) &&
        SkipBlanks(s, j + 6) < |s| && s[SkipBlanks(s, j + 6)] == '(';
      DtaaraAtUpper(s, i, j);
    }
    if DtaaraDecl(u) {
      var i: nat, j: nat :| i <= j <= |u| && CiAt(u, "DCL-", i) && i + 4 <= j && CiAt(u, "DTAARA", j) &&
        SkipBlanks(u, j + 6) < |u| && u[SkipBlanks(u, j + 6)] == '(';
      DtaaraAtUpper(s, i, j);
    }
  }

  /** A `Dcl-S NAME Char(LEN) VARYING;` line is let through, whatever the name and length. */
  lemma StandaloneVarying(name: string, len: string)
    ensures VaryingApplies("Dcl-S " + name + " Char(" + len + ") VARYING;", "")
  {
    var s := "Dcl-S " + name + " Char(" + len + ") VARYING;";
    var p := 6 + |name| + 1;
    var q := |s| - 9;
    var a := "Dcl-S " + name + " Char(" + len + ")";
    assert s == a + " VARYING;";
    assert s[..6] == "Dcl-S ";
    StandaloneHead(s);
    var b := "Dcl-S " + name + " Char(";
    assert s[..|b|] == b;
    assert b[p - 1..p + 5] == " Char(";
    CharOpenAt(s, p);
    assert s[q..] == " VARYING;";
    VaryingBeforeSemicolon(s, q);
  }

  lemma StandaloneHead(s: string)
    requires |s| >= 6 && s[..6] == "Dcl-S "
    ensures IsStandaloneDecl(s)
  {
    assert !IsSpace(s[0]);
    assert LeadingSpaces(s) == 0;
    assert TrimStart(s) == s;
  }

  /** `Char(` right after a blank opens a character type. */
  lemma CharOpenAt(s: string, p: nat)
    requires 0 < p && p + 5 <= |s| && s[p - 1..p + 5] == " Char("
    ensures TypeOpen(s, p) == 5
  {
    assert s[p - 1] == ' ';
    assert s[p..p + 5] == "Char(";
    UpperCharOpen();
  }

  /** ` VARYING;` is the keyword followed by the terminator. */
  lemma VaryingBeforeSemicolon(s: string, q: nat)
    requires q + 9 <= |s| && s[q..q + 9] == " VARYING;"
    ensures VaryingAt(s, q)
  {
    assert s[q..q + 8] == s[q..q + 9][..8] == " VARYING;"[..8] == " VARYING";
    UpperVarying();
    assert s[q + 8] == ';';
  }

  lemma UpperCharOpen()
    ensures Upper("Char(") == "CHAR("
  {
  }

  lemma UpperVarying()
    ensures Upper(" VARYING") == " VARYING"
  {
  }
}
