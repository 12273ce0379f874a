/**
 * The data-definition (D) specification plugin. A D line is decoded from
 * fixed columns into a name, a definition kind (S, C, DS, PR, PI or blank
 * for a member), position, length, a one-letter type code, decimals and a
 * keyword tail; these become one `Dcl-*` statement (or a member line) with a
 * free-format type. Names too long for the name columns end in `...` and
 * are carried over to the next line.
 */
module DSpecs {
  import opened JsString
  import opened JsNumber
  import opened Results

  /** The definition kind of columns 24..25: S, C, DS, PR, PI, blank for a member line, or anything else. */
  datatype Kind = Standalone | Constant | DataStructure | Prototype | Interface | Member | Other(text: string)

  function KindOf(field: string): (k: Kind)
    ensures KindText(k) == field
  {
    if field == "S" then Standalone
    else if field == "C" then Constant
    else if field == "DS" then DataStructure
    else if field == "PR" then Prototype
    else if field == "PI" then Interface
    else if field == "" then Member
    else Other(field)
  }

  /** The kind as written in the columns (and in `Dcl-DS`, `Dcl-PR`, `Dcl-PI`). */
  function KindText(k: Kind): string {
    match k
    case Standalone => "S"
    case Constant => "C"
    case DataStructure => "DS"
    case Prototype => "PR"
    case Interface => "PI"
    case Member => ""
    case Other(t) => t
  }

  /** A kind that opens a block: a data structure, a prototype or a procedure interface. */
  predicate IsHeader(k: Kind) {
    k == DataStructure || k == Prototype || k == Interface
  }

  /** The text of the fixed columns, each trimmed; indices are into the padded line. */
  datatype Columns = Columns(
    potentialName: string,  // from index 7 to the end
    name: string,           // 7..21
    subFlag: string,        // 23, upper-cased
    kind: Kind,             // 24..25, upper-cased: the definition kind
    reservedWord: string,   // 26..39, upper-cased
    pos: string,            // 30..32
    len: string,            // 33..39
    code: string,           // 40: the data-type code
    decimals: string,       // 41..43
    keywords: string)       // 44 onward, right-trimmed only

  function Decode(input: string): Columns {
    Columns(
      Trim(SubstrFrom(input, 7)),
      Trim(Substr(input, 7, 15)),
      Upper(Trim(Substr(input, 23, 1))),
      KindOf(Upper(Trim(Substr(input, 24, 2)))),
      Upper(Trim(Substr(input, 26, 14))),
      Trim(Substr(input, 30, 3)),
      Trim(Substr(input, 33, 7)),
      Trim(Substr(input, 40, 1)),
      Trim(Substr(input, 41, 3)),
      TrimEnd(SubstrFrom(input, 44)))
  }

  /** A system reserved word (`*PROC`, `*STATUS`, …) stands where position and length would be. */
  predicate IsReservedWord(c: Columns) {
    FirstChar(c.reservedWord) == "*"
  }

  /** Position and length after a reserved word has forced them empty. */
  function Pos(c: Columns): string {
    if IsReservedWord(c) then "" else c.pos
  }

  function Len(c: Columns): string {
    if IsReservedWord(c) then "" else c.len
  }

  /** A LIKE definition whose length column holds a +/- adjustment. */
  predicate IsLikeAdjusted(c: Columns) {
    (Contains(Len(c), "+") || Contains(Len(c), "-")) && Contains(Upper(c.keywords), "LIKE")
  }

  /** The type code after a LIKE adjustment has forced it empty. */
  function Code(c: Columns): string {
    if IsLikeAdjusted(c) then "" else c.code
  }

  /** The variable record handed to the converter's variable table. */
  function Declaration(c: Columns): (v: VarDecl)
    ensures v.standalone <==> c.kind == Standalone
    ensures v.name == c.name && v.len == ToNumber(Len(c))
    ensures v.standalone && Code(c) == "" && !IsLikeAdjusted(c) ==>
      v.vtype == (if c.decimals == "" then "A" else "S")
    ensures !(v.standalone && Code(c) == "" && !IsLikeAdjusted(c)) ==> v.vtype == Code(c)
  {
    var standalone := c.kind == Standalone;
    var vtype := if Code(c) == "" && standalone && !IsLikeAdjusted(c) then
      (if c.decimals == "" then "A" else "S")
    else Code(c);
    VarDecl(standalone, c.name, vtype, ToNumber(Len(c)))
  }

  /** The length once a from-position is given: `len - pos + 1`, printed back as text. */
  function PositionedLen(c: Columns): string {
    if Pos(c) != "" then NumText(Add(Sub(ToNumber(Len(c)), ToNumber(Pos(c))), Finite(1))) else Len(c)
  }

  /** The keywords once a from-position is given: prefixed with `Pos(pos) `. */
  function PositionedKeywords(c: Columns): string {
    if Pos(c) != "" then "Pos(" + Pos(c) + ") " + Trim(c.keywords) else c.keywords
  }

  /** `Int(n)` for a byte length of 1, 2, 4 or 8, otherwise the length as written. */
  function IntType(len: string): string {
    if len == "1" then "Int(3)"
    else if len == "2" then "Int(5)"
    else if len == "4" then "Int(10)"
    else if len == "8" then "Int(20)"
    else "Int(" + len + ")"
  }

  /** As IntType for unsigned integers; the two-byte case is spelt `uns(5)`. */
  function UnsType(len: string): string {
    if len == "1" then "Uns(3)"
    else if len == "2" then "uns(5)"
    else if len == "4" then "Uns(10)"
    else if len == "8" then "Uns(20)"
    else "Uns(" + len + ")"
  }

  /** A free-format type and the keyword text that remains with it. */
  datatype Typed = Typed(freeType: string, keywords: string)

  /**
   * Date and time types: a DATFMT/TIMFMT keyword moves into the type
   * (`Date(*ISO)`) and is taken out of the keywords.
   */
  function WithFormat(base: string, key: string, keywords: string): Typed {
    var up := Upper(keywords);
    if IndexOf(up, key) >= 0 then
      var start := IndexOf(up, key);
      var stop := IndexOfFrom(up, ")", start);
      var t := base + Substr(keywords, start + 6, stop - (start + 6) + 1);
      var rest := if start == 0 then Trim(SubstrFrom(keywords, stop + 1))
        else TrimEnd(Substr(keywords, 0, start - 1)) + " " + Trim(SubstrFrom(keywords, stop + 1));
      Typed(t, rest)
    else Typed(base, keywords)
  }

  /** Pointers: a PROCPTR keyword becomes `Pointer(*PROC)` and is taken out of the keywords. */
  function PointerType(keywords: string): Typed {
    var index := IndexOf(Upper(keywords), "PROCPTR");
    if index >= 0 then Typed("Pointer(*PROC)", ReplaceFirst(keywords, Substr(keywords, index, 7), ""))
    else Typed("Pointer", keywords)
  }

  /** `Packed(len: dec)`, the packed type the blank-code rule intends. */
  function PackedType(len: string, decimals: string): string {
    "Packed(" + len + ": " + decimals + ")"
  }

  /** The packed type text of the blank-code rule with its opening parenthesis missing, as the source has it. */
  function PackedTypeAsWritten(len: string, decimals: string): string {
    "Packed" + len + ": " + decimals + ")"
  }

  /**
   * A length with no type code: a DS gets `Len(n)`, a reserved word echoes
   * itself, a LIKE adjustment folds `: ±n` into the LIKE keyword, otherwise
   * Char without decimals and Zoned (subfields) or Packed with decimals.
   */
  function BlankCodeType(c: Columns, isSubf: bool): Typed {
    var len := PositionedLen(c);
    var keywords := PositionedKeywords(c);
    if c.kind == DataStructure && Declaration(c).len != Finite(0) then Typed("Len(" + len + ")", keywords)
    else if IsReservedWord(c) then Typed(c.reservedWord, keywords)
    else if len != "" then
      if IsLikeAdjusted(c) then
        var likepos := IndexOf(Upper(keywords), "LIKE");
        var closebracket := IndexOfFrom(keywords, ")", likepos);
        Typed("", Slice(keywords, 0, closebracket) + ": " + len + SliceFrom(keywords, closebracket))
      else if c.decimals == "" then Typed("Char(" + len + ")", keywords)
      else if isSubf then Typed("Zoned(" + len + ": " + c.decimals + ")", keywords)
      else Typed(PackedType(len, c.decimals), keywords)
    else Typed("", keywords)
  }

  /** The free-format type for the (upper-cased) type code. */
  function FreeType(c: Columns, isSubf: bool): Typed {
    var len := PositionedLen(c);
    var keywords := PositionedKeywords(c);
    var code := Upper(Code(c));
    if code == "A" then Typed("Char(" + len + ")", keywords)
    else if code == "B" then
      if Pos(c) != "" then Typed(if ToNumber(len) == Finite(4) then "Bindec(9)" else "Bindec(4)", keywords)
      else Typed("Bindec(" + len + ")", keywords)
    else if code == "C" then Typed("Ucs2(" + len + ")", keywords)
    else if code == "D" then WithFormat("Date", "DATFMT", keywords)
    else if code == "F" then Typed("Float(" + len + ")", keywords)
    else if code == "G" then Typed("Graph(" + len + ")", keywords)
    else if code == "I" then Typed(IntType(len), keywords)
    else if code == "N" then Typed("Ind", keywords)
    else if code == "P" then
      if Pos(c) != "" then
        Typed("Packed(" + NumText(Sub(Mul(ToNumber(len), Finite(2)), Finite(1))) + ": " + c.decimals + ")", keywords)
      else Typed("Packed(" + len + ": " + c.decimals + ")", keywords)
    else if code == "S" then Typed("Zoned(" + len + ": " + c.decimals + ")", keywords)
    else if code == "T" then WithFormat("Time", "TIMFMT", keywords)
    else if code == "U" then Typed(UnsType(len), keywords)
    else if code == "Z" then Typed("Timestamp", keywords)
    else if code == "*" then PointerType(keywords)
    else if code == "" then BlankCodeType(c, isSubf)
    else Typed(Code(c), keywords)
  }

  /** The carried state: subfield context, deferred name, open block kind, and whether a D line was seen. */
  datatype DState = DState(isSubf: bool, prevName: string, blockType: string, convertedThisSpec: bool)

  function InitState(): DState {
    DState(false, "", "", false)
  }

  /** `initOutput()`: the empty result with an empty, non-standalone variable record. */
  function InitOutput(): ParseResult {
    EmptyOutput().(decl := Some(VarDecl(false, "", "", Finite(0))))
  }

  /** A name that continues on the next line. */
  predicate IsNameContinuation(c: Columns) {
    EndsWith(c.potentialName, "...")
  }

  /** `value` terminated: right-trimmed and suffixed with one `;`, when there is anything to write. */
  function Terminate(r: ParseResult): ParseResult {
    if r.value != "" then r.(change := true, value := TrimEnd(r.value) + ";") else r
  }

  /** The statement built for the definition kind, before termination. */
  function Statement(c: Columns, name: string, typed: Typed, st: DState,
                     indent: int, wasLIKEDS: bool): ParseResult
  {
    var output := InitOutput().(decl := Some(Declaration(c)));
    if c.kind == Constant then
      output.(blockType := "", value := "Dcl-C " + PadEnd(name, 10) + " " + Trim(typed.keywords))
    else if c.kind == Standalone then
      output.(blockType := "", value := "Dcl-S " + PadEnd(name, 12) + " " + PadEnd(typed.freeType, 10) + " " + Trim(typed.keywords))
    else if IsHeader(c.kind) then
      HeaderStatement(c, name, typed, indent, output)
    else if c.kind == Member then
      var name := if name == "" then "*N" else name;
      var output := output.(isSub := Some(!wasLIKEDS), blockType := st.blockType);
      if name == "*N" && typed.freeType == "" then
        output.(aboveKeywords := Some(typed.keywords), remove := true)
      else
        output.(value := PadEnd(name, 14) + " " + PadEnd(typed.freeType, 10) + " " + Trim(typed.keywords))
    else output
  }

  /** Column 23 of a DS header: `S` for a program-status DS, `U` for a data-area DS. */
  function HeaderKeywords(c: Columns, keywords: string): string {
    var keywords := if c.kind == DataStructure && c.subFlag == "S" then "PSDS " + Trim(keywords) else keywords;
    if c.kind == DataStructure && c.subFlag == "U" then "DtaAra(*AUTO) " + Trim(keywords) else keywords
  }

  predicate UsesLikeDsOrRec(keywords: string) {
    Contains(Upper(keywords), "LIKEDS") || Contains(Upper(keywords), "LIKEREC")
  }

  /** A DS, PR or PI header: opens a block unless it is a LIKEDS/LIKEREC alias. */
  function HeaderStatement(c: Columns, name: string, typed: Typed,
                           indent: int, output: ParseResult): ParseResult
  {
    var keywords := HeaderKeywords(c, typed.keywords);
    var like := UsesLikeDsOrRec(keywords);
    var name := if name == "" then "*N" else name;
    output.(isLIKEDS := like, isSub := Some(!like), isHead := true,
            value := ("Dcl-" + KindText(c.kind)) + (" " + name + " " + typed.freeType + " " + Trim(keywords)),
            nextSpaces := if like then output.nextSpaces else indent,
            blockType := KindText(c.kind))
  }

  /** The subfield flag after this line: cleared by C and S, set by a DS header, cleared by PR/PI. */
  function NextIsSubf(c: Columns, st: DState): bool {
    if IsNameContinuation(c) then
      (if c.kind == Constant || c.kind == Standalone then false else st.isSubf)
    else if IsHeader(c.kind) then c.kind == DataStructure
    else if c.kind == Constant || c.kind == Standalone then false
    else st.isSubf
  }

  /** The open block kind after this line. */
  function NextBlockType(c: Columns, st: DState): string {
    if IsNameContinuation(c) then st.blockType
    else if c.kind == Constant || c.kind == Standalone then ""
    else if IsHeader(c.kind) then KindText(c.kind)
    else st.blockType
  }

  /** The name a line declares: a name deferred from the previous line wins over the name columns. */
  function EffectiveName(st: DState, c: Columns): string {
    if st.prevName != "" then st.prevName else c.name
  }

  /** The name deferred to the next line: the part before a trailing `...`, else none. */
  function NextPrevName(c: Columns): (r: string)
    ensures IsNameContinuation(c) ==> c.potentialName == r + "..."
    ensures !IsNameContinuation(c) ==> r == ""
  {
    if IsNameContinuation(c) then c.potentialName[..|c.potentialName| - 3] else ""
  }

  /** The carried state after one line with these columns. */
  function NextStateOf(st: DState, c: Columns): DState {
    DState(NextIsSubf(c, st), NextPrevName(c), NextBlockType(c, st), true)
  }

  /** The carried state after one D line. */
  function NextState(st: DState, input: string): DState {
    NextStateOf(st, Decode(input))
  }

  /** The subfield flag the type mapping sees: C and S lines clear it first. */
  function SubfBefore(c: Columns, st: DState): bool {
    if c.kind == Constant || c.kind == Standalone then false else st.isSubf
  }

  /** The parse result of one line with these columns. */
  function ColumnsResult(st: DState, c: Columns, indent: int, wasSub: bool, wasLIKEDS: bool): ParseResult {
    if IsNameContinuation(c) then
      InitOutput().(decl := Some(Declaration(c)), remove := true,
                    isSub := if wasSub then Some(true) else None, blockType := st.blockType)
    else
      Terminate(Statement(c, EffectiveName(st, c), FreeType(c, SubfBefore(c, st)), st, indent, wasLIKEDS))
  }

  /** The parse result of one D line. */
  function LineResult(st: DState, input: string, indent: int, wasSub: bool, wasLIKEDS: bool): ParseResult {
    ColumnsResult(st, Decode(input), indent, wasSub, wasLIKEDS)
  }

  // ---------------------------------------------------------------------------
  // Properties of one D line
  // ---------------------------------------------------------------------------

  /** The output of `initOutput()`: nothing written, nothing removed, an empty variable record. */
  lemma InitOutputShape()
    ensures var r := InitOutput();
      r.value == "" && !r.change && !r.remove && r.arrayoutput == [] && r.isSub == None &&
      r.beforeSpaces == 0 && r.nextSpaces == 0 && r.aboveKeywords == None &&
      r.decl == Some(VarDecl(false, "", "", Finite(0)))
  {
  }

  /**
   * A reserved word in the position columns wipes position and length: the
   * declared length reads as 0, no `Pos(…)` prefix is added, the line is
   * never a LIKE adjustment, and with no type code the reserved word itself
   * becomes the type.
   */
  lemma {:induction false} ReservedWordForcing(c: Columns, isSubf: bool)
    requires IsReservedWord(c)
    ensures Declaration(c).len == Finite(0)
    ensures !IsLikeAdjusted(c)
    ensures PositionedLen(c) == "" && PositionedKeywords(c) == c.keywords
    ensures c.code == "" ==> FreeType(c, isSubf).freeType == c.reservedWord
  {
    assert Len(c) == "";
    assert !Contains("", "+") && !Contains("", "-");
  }

  /**
   * A LIKE definition with a +/- length has no type code of its own: the
   * variable record's type is empty and, outside a data-structure header,
   * the adjustment is folded into the LIKE keyword instead of a type.
   */
  lemma {:induction false} LikeAdjustment(c: Columns, isSubf: bool)
    requires IsLikeAdjusted(c)
    ensures Code(c) == "" && Declaration(c).vtype == ""
    ensures c.kind != DataStructure ==> FreeType(c, isSubf).freeType == ""
  {
    assert Len(c) != "";
    assert !IsReservedWord(c);
    assert PositionedLen(c) != "" by {
      if Pos(c) != "" {
        assert IsDigits(NatText(0));
      }
    }
    assert Upper(Code(c)) == "";
  }

  /**
   * With digit-string columns, a from-position turns the column length into
   * the field length `len - pos + 1` and prefixes the keywords with `Pos(pos)`.
   */
  lemma {:induction false} PositionedLength(c: Columns)
    requires Pos(c) != "" && IsDigits(Len(c)) && IsDigits(Pos(c))
    ensures ToNumber(PositionedLen(c)) == Finite(DigitsValue(Len(c)) - DigitsValue(Pos(c)) + 1)
    ensures PositionedKeywords(c) == "Pos(" + Pos(c) + ") " + Trim(c.keywords)
  {
    NumTextRoundTrip(Finite(DigitsValue(Len(c)) - DigitsValue(Pos(c)) + 1));
  }

  /**
   * Packed and binary fields given by from/to positions: the positions span
   * bytes, so a packed field holds `2 * bytes - 1` digits and a binary one
   * of 4 bytes holds 9 digits (4 otherwise).
   */
  lemma {:induction false} PositionedByteTypes(c: Columns, isSubf: bool)
    requires Pos(c) != "" && IsDigits(Len(c)) && IsDigits(Pos(c)) && !IsLikeAdjusted(c)
    ensures var bytes := DigitsValue(Len(c)) - DigitsValue(Pos(c)) + 1;
      (Upper(c.code) == "P" ==>
         FreeType(c, isSubf).freeType == "Packed(" + NumText(Finite(2 * bytes - 1)) + ": " + c.decimals + ")") &&
      (Upper(c.code) == "B" ==>
         FreeType(c, isSubf).freeType == (if bytes == 4 then "Bindec(9)" else "Bindec(4)"))
  {
    PositionedLength(c);
    assert Code(c) == c.code;
    if Upper(c.code) == "P" {
      PackedCode(c, isSubf);
    }
    if Upper(c.code) == "B" {
      BinaryCode(c, isSubf);
    }
  }

  lemma {:induction false} PackedCode(c: Columns, isSubf: bool)
    requires Upper(Code(c)) == "P" && Pos(c) != ""
    ensures FreeType(c, isSubf).freeType ==
      "Packed(" + NumText(Sub(Mul(ToNumber(PositionedLen(c)), Finite(2)), Finite(1))) + ": " + c.decimals + ")"
  {
  }

  lemma {:induction false} BinaryCode(c: Columns, isSubf: bool)
    requires Upper(Code(c)) == "B" && Pos(c) != ""
    ensures FreeType(c, isSubf).freeType == if ToNumber(PositionedLen(c)) == Finite(4) then "Bindec(9)" else "Bindec(4)"
  {
  }

  /** The number of decimal digits of the largest unsigned value that fits in `bytes` bytes. */
  function ByteDigits(bytes: nat): nat {
    |NatText(Pow(256, bytes) - 1)|
  }

  /**
   * `I` and `U` lengths are byte counts; 1, 2, 4 and 8 bytes become digit
   * counts of 3, 5, 10 and 20, the digits of the largest unsigned value of
   * that size. The two-byte unsigned case differs from the others only in
   * letter case, which RPG does not distinguish. Other lengths pass through.
   */
  lemma {:induction false} ByteDigitsSmall()
    ensures ByteDigits(1) == 3 && ByteDigits(2) == 5
  {
    NatTextLength(255, 3);
    NatTextLength(65535, 5);
  }

  lemma {:induction false} ByteDigitsFour()
    ensures ByteDigits(4) == 10
  {
    assert Pow(10, 9) == 1000000000 && Pow(10, 10) == 10000000000;
    NatTextLength(4294967295, 10);
  }

  lemma {:induction false} ByteDigitsEight()
    ensures ByteDigits(8) == 20
  {
    PowAdd(10, 10, 9);
    PowAdd(10, 10, 10);
    PowAdd(256, 4, 4);
    assert Pow(10, 10) == 10000000000 && Pow(10, 9) == 1000000000 && Pow(256, 4) == 4294967296;
    NatTextLength(18446744073709551615, 20);
  }

  lemma {:induction false} IntegerWidths(bytes: nat)
    requires bytes == 1 || bytes == 2 || bytes == 4 || bytes == 8
    ensures IntType(NatText(bytes)) == "Int(" + NatText(ByteDigits(bytes)) + ")"
  {
    DigitsOf(bytes);
    TypeWidth(NatText(bytes), NatText(ByteDigits(bytes)));
  }

  lemma {:induction false} UnsignedWidths(bytes: nat)
    requires bytes == 1 || bytes == 2 || bytes == 4 || bytes == 8
    ensures Lower(UnsType(NatText(bytes))) == Lower("Uns(" + NatText(ByteDigits(bytes)) + ")")
  {
    DigitsOf(bytes);
    TypeWidth(NatText(bytes), NatText(ByteDigits(bytes)));
  }

  /** The integer type texts for one byte count and its digit count. */
  lemma {:induction false} TypeWidth(len: string, digits: string)
    requires (len == "1" && digits == "3") || (len == "2" && digits == "5") ||
      (len == "4" && digits == "10") || (len == "8" && digits == "20")
    ensures IntType(len) == "Int(" + digits + ")"
    ensures Lower(UnsType(len)) == Lower("Uns(" + digits + ")")
  {
    if len == "2" {
      assert Lower("uns(5)") == Lower("Uns(5)");
    }
  }

  /** The byte counts and their digit counts, stated without literal calls. */
  lemma {:induction false} DigitsOf(bytes: nat)
    requires bytes == 1 || bytes == 2 || bytes == 4 || bytes == 8
    ensures bytes == 1 ==> NatText(bytes) == "1" && NatText(ByteDigits(bytes)) == "3"
    ensures bytes == 2 ==> NatText(bytes) == "2" && NatText(ByteDigits(bytes)) == "5"
    ensures bytes == 4 ==> NatText(bytes) == "4" && NatText(ByteDigits(bytes)) == "10"
    ensures bytes == 8 ==> NatText(bytes) == "8" && NatText(ByteDigits(bytes)) == "20"
  {
    if bytes == 1 || bytes == 2 {
      ByteDigitsSmall();
    } else if bytes == 4 {
      ByteDigitsFour();
    } else {
      ByteDigitsEight();
    }
  }

  /** Any other length is written into the type as it stands. */
  lemma {:induction false} OtherIntegerLengths(len: string)
    requires len != "1" && len != "2" && len != "4" && len != "8"
    ensures IntType(len) == "Int(" + len + ")" && UnsType(len) == "Uns(" + len + ")"
  {
  }

  /**
   * The packed type text of the blank-code rule as the source writes it
   * has one closing parenthesis more than opening ones: with length 7 and
   * 2 decimals it reads `Packed7: 2)`.
   */
  lemma {:induction false} PackedAsWrittenUnbalanced(len: string, decimals: string)
    requires Count(len, '(') == 0 && Count(len, ')') == 0
    requires Count(decimals, '(') == 0 && Count(decimals, ')') == 0
    ensures Count(PackedTypeAsWritten(len, decimals), ')') == Count(PackedTypeAsWritten(len, decimals), '(') + 1
    ensures PackedTypeAsWritten("7", "2") == "Packed7: 2)"
  {
    CountAppend("Packed" + len + ": " + decimals, ")", '(');
    CountAppend("Packed" + len + ": " + decimals, ")", ')');
    CountAppend("Packed" + len + ": ", decimals, '(');
    CountAppend("Packed" + len + ": ", decimals, ')');
    CountAppend("Packed" + len, ": ", '(');
    CountAppend("Packed" + len, ": ", ')');
    CountAppend("Packed", len, '(');
    CountAppend("Packed", len, ')');
    CountAbsent("Packed", '(');
    CountAbsent("Packed", ')');
    CountAbsent(": ", '(');
    CountAbsent(": ", ')');
    CountSingle(')', '(');
    CountSingle(')', ')');
  }

  /** The corrected packed type is `Packed(` … `)` with balanced parentheses. */
  lemma {:induction false} PackedBalanced(len: string, decimals: string)
    requires Count(len, '(') == 0 && Count(len, ')') == 0
    requires Count(decimals, '(') == 0 && Count(decimals, ')') == 0
    ensures Count(PackedType(len, decimals), '(') == 1 && Count(PackedType(len, decimals), ')') == 1
    ensures StartsWith(PackedType(len, decimals), "Packed(") && EndsWith(PackedType(len, decimals), ")")
  {
    var t := PackedType(len, decimals);
    CountAppend("Packed(" + len + ": " + decimals, ")", '(');
    CountAppend("Packed(" + len + ": " + decimals, ")", ')');
    CountAppend("Packed(" + len + ": ", decimals, '(');
    CountAppend("Packed(" + len + ": ", decimals, ')');
    CountAppend("Packed(" + len, ": ", '(');
    CountAppend("Packed(" + len, ": ", ')');
    CountAppend("Packed(", len, '(');
    CountAppend("Packed(", len, ')');
    assert "Packed" + "(" == "Packed(";
    CountAppend("Packed", "(", '(');
    CountAppend("Packed", "(", ')');
    CountAbsent("Packed", '(');
    CountAbsent("Packed", ')');
    CountSingle('(', '(');
    CountSingle('(', ')');
    CountAbsent(": ", '(');
    CountAbsent(": ", ')');
    CountSingle(')', '(');
    CountSingle(')', ')');
    assert t[..7] == "Packed(";
    assert t[|t| - 1..] == ")";
  }

  /** A line whose name ends in `...` writes nothing and leaves its name to the next line. */
  lemma {:induction false} NameContinuation(st: DState, c: Columns, indent: int, wasSub: bool, wasLIKEDS: bool)
    requires IsNameContinuation(c)
    ensures var r := ColumnsResult(st, c, indent, wasSub, wasLIKEDS);
      r.remove && r.value == "" && !r.change && r.aboveKeywords == None &&
      r.blockType == st.blockType && r.isSub == (if wasSub then Some(true) else None) &&
      r.decl == Some(Declaration(c))
    ensures var next := NextStateOf(st, c);
      next.prevName + "..." == c.potentialName && next.blockType == st.blockType
  {
  }

  /** The deferred name is the one the next line declares, and it is used once. */
  lemma {:induction false} DeferredNameUsed(st: DState, first: Columns, second: Columns)
    requires IsNameContinuation(first)
    requires NextStateOf(st, first).prevName != ""
    ensures EffectiveName(NextStateOf(st, first), second) + "..." == first.potentialName
    ensures !IsNameContinuation(second) ==> NextStateOf(NextStateOf(st, first), second).prevName == ""
  {
  }

  lemma {:induction false} HeaderStatementShape(c: Columns, name: string, typed: Typed, st: DState, indent: int, wasLIKEDS: bool)
    requires IsHeader(c.kind)
    ensures var r := Statement(c, name, typed, st, indent, wasLIKEDS);
      r.isHead && !r.change && !r.remove && r.blockType == KindText(c.kind) &&
      r.isSub == Some(!r.isLIKEDS) && r.nextSpaces == (if r.isLIKEDS then 0 else indent) &&
      StartsWith(TrimEnd(r.value), "Dcl-" + KindText(c.kind))
  {
    var output := InitOutput().(decl := Some(Declaration(c)));
    assert Statement(c, name, typed, st, indent, wasLIKEDS) == HeaderStatement(c, name, typed, indent, output);
    HeaderValueShape(c, name, typed, indent, output);
  }

  lemma {:induction false} HeaderHead(k: Kind)
    requires IsHeader(k)
    ensures var head := "Dcl-" + KindText(k); head != [] && !IsSpace(head[|head| - 1])
  {
  }

  lemma {:induction false} HeaderValuePrefix(c: Columns, name: string, typed: Typed, indent: int, output: ParseResult)
    requires IsHeader(c.kind)
    ensures StartsWith(TrimEnd(HeaderStatement(c, name, typed, indent, output).value), "Dcl-" + KindText(c.kind))
  {
    var keywords := HeaderKeywords(c, typed.keywords);
    var name := if name == "" then "*N" else name;
    var head := "Dcl-" + KindText(c.kind);
    var tail := " " + name + " " + typed.freeType + " " + Trim(keywords);
    assert HeaderStatement(c, name, typed, indent, output).value == head + tail;
    HeaderHead(c.kind);
    TrimEndKeepsPrefix(head, tail);
  }

  lemma {:induction false} HeaderValueShape(c: Columns, name: string, typed: Typed, indent: int, output: ParseResult)
    requires IsHeader(c.kind) && !output.change && !output.remove && output.nextSpaces == 0
    ensures var r := HeaderStatement(c, name, typed, indent, output);
      r.isHead && !r.change && !r.remove && r.blockType == KindText(c.kind) &&
      r.isSub == Some(!r.isLIKEDS) && r.nextSpaces == (if r.isLIKEDS then 0 else indent) &&
      StartsWith(TrimEnd(r.value), "Dcl-" + KindText(c.kind))
  {
    HeaderValuePrefix(c, name, typed, indent, output);
  }

  lemma {:induction false} TerminatedPrefix(v: string, p: string)
    requires StartsWith(TrimEnd(v), p)
    ensures StartsWith(TrimEnd(v) + ";", p) && EndsWith(TrimEnd(v) + ";", ";")
  {
    var t := TrimEnd(v) + ";";
    assert t[..|p|] == TrimEnd(v)[..|p|];
    assert t[|t| - 1..] == ";";
  }

  /**
   * A DS, PR or PI header is a head line of its own kind, opens a block of
   * that kind (in the result and in the carried state), indents what follows
   * unless it is a LIKEDS/LIKEREC alias, and is written as a terminated
   * `Dcl-DS`/`Dcl-PR`/`Dcl-PI` statement.
   */
  lemma {:induction false} HeaderLine(st: DState, c: Columns, indent: int, wasSub: bool, wasLIKEDS: bool)
    requires IsHeader(c.kind) && !IsNameContinuation(c)
    ensures var r := ColumnsResult(st, c, indent, wasSub, wasLIKEDS);
      r.isHead && r.change && !r.remove &&
      r.blockType == KindText(c.kind) && NextStateOf(st, c).blockType == KindText(c.kind) &&
      r.isSub == Some(!r.isLIKEDS) && r.nextSpaces == (if r.isLIKEDS then 0 else indent) &&
      NextStateOf(st, c).isSubf == (c.kind == DataStructure) &&
      StartsWith(r.value, "Dcl-" + KindText(c.kind)) && EndsWith(r.value, ";")
  {
    var pre := Statement(c, EffectiveName(st, c), FreeType(c, SubfBefore(c, st)), st, indent, wasLIKEDS);
    HeaderStatementShape(c, EffectiveName(st, c), FreeType(c, SubfBefore(c, st)), st, indent, wasLIKEDS);
    assert pre.value != "";
    TerminateShape(pre);
    TerminatedPrefix(pre.value, "Dcl-" + KindText(c.kind));
  }

  /** Column 23 of a DS header marks a program-status DS (`S`) or a data-area DS (`U`). */
  lemma {:induction false} HeaderPrefixes(c: Columns, keywords: string)
    ensures c.kind == DataStructure && c.subFlag == "S" ==> HeaderKeywords(c, keywords) == "PSDS " + Trim(keywords)
    ensures c.kind == DataStructure && c.subFlag == "U" ==>
      StartsWith(HeaderKeywords(c, keywords), "DtaAra(*AUTO) ")
    ensures c.kind != DataStructure ==> HeaderKeywords(c, keywords) == keywords
  {
    var k := HeaderKeywords(c, keywords);
    if c.kind == DataStructure && c.subFlag == "U" {
      assert k == "DtaAra(*AUTO) " + Trim(keywords);
      assert k[..14] == "DtaAra(*AUTO) ";
    }
  }

  lemma {:induction false} KeywordOnlyStatement(c: Columns, name: string, typed: Typed, st: DState, indent: int, wasLIKEDS: bool)
    requires c.kind == Member && (name == "" || name == "*N") && typed.freeType == ""
    ensures var r := Statement(c, name, typed, st, indent, wasLIKEDS);
      r.remove && r.value == "" && !r.change && r.aboveKeywords == Some(typed.keywords) &&
      r.isSub == Some(!wasLIKEDS) && r.blockType == st.blockType
  {
  }

  /**
   * A member line with no name (or `*N`) and no type is a keyword
   * continuation: nothing is written, and its keywords are to be appended
   * to the line above.
   */
  lemma {:induction false} KeywordOnlyMember(st: DState, c: Columns, indent: int, wasSub: bool, wasLIKEDS: bool)
    requires c.kind == Member && !IsNameContinuation(c)
    requires EffectiveName(st, c) == "" || EffectiveName(st, c) == "*N"
    requires FreeType(c, st.isSubf).freeType == ""
    ensures var r := ColumnsResult(st, c, indent, wasSub, wasLIKEDS);
      r.remove && r.value == "" && !r.change &&
      r.aboveKeywords == Some(FreeType(c, st.isSubf).keywords) &&
      r.isSub == Some(!wasLIKEDS) && r.blockType == st.blockType
  {
    assert SubfBefore(c, st) == st.isSubf;
    KeywordOnlyStatement(c, EffectiveName(st, c), FreeType(c, st.isSubf), st, indent, wasLIKEDS);
  }

  /** Termination appends exactly one `;` after the right-trimmed text, and touches nothing else. */
  lemma {:induction false} TerminateShape(r: ParseResult)
    ensures var t := Terminate(r);
      (r.value == "" ==> t == r) &&
      (r.value != "" ==> t.change && t.value == TrimEnd(r.value) + ";" && t.(change := r.change, value := r.value) == r)
    ensures var t := Terminate(r);
      r.value != "" ==> (|t.value| == 1 || !IsSpace(t.value[|t.value| - 2])) && EndsWith(t.value, ";")
  {
    var t := Terminate(r);
    if r.value != "" {
      assert t.value[|t.value| - 1..] == ";";
    }
  }

  lemma {:induction false} StatementUnchanged(c: Columns, name: string, typed: Typed, st: DState, indent: int, wasLIKEDS: bool)
    ensures !Statement(c, name, typed, st, indent, wasLIKEDS).change
  {
    if IsHeader(c.kind) {
      HeaderStatementShape(c, name, typed, st, indent, wasLIKEDS);
    }
  }

  /** Any written D statement is marked changed; a line writes something exactly when it is marked changed. */
  lemma {:induction false} ChangedIffWritten(st: DState, c: Columns, indent: int, wasSub: bool, wasLIKEDS: bool)
    ensures var r := ColumnsResult(st, c, indent, wasSub, wasLIKEDS);
      (r.change <==> r.value != "") && (r.change ==> EndsWith(r.value, ";"))
  {
    if !IsNameContinuation(c) {
      var pre := Statement(c, EffectiveName(st, c), FreeType(c, SubfBefore(c, st)), st, indent, wasLIKEDS);
      StatementUnchanged(c, EffectiveName(st, c), FreeType(c, SubfBefore(c, st)), st, indent, wasLIKEDS);
      TerminateShape(pre);
    }
  }

  /** The carried state of the D plugin, as fields updated by each line. */
  class DSpec {
    var isSubf: bool
    var prevName: string
    var blockType: string
    var convertedThisSpec: bool

    function State(): DState
      reads this
    {
      DState(isSubf, prevName, blockType, convertedThisSpec)
    }

    constructor ()
      ensures State() == InitState()
    {
      isSubf, prevName, blockType, convertedThisSpec := false, "", "", false;
    }

    method Init()
      modifies this
      ensures State() == InitState()
    {
      isSubf := false;
      prevName := "";
      blockType := "";
      convertedThisSpec := false;
    }

    /** Nothing is ever left to flush. */
    method Final(indent: int, wasSub: bool, wasLIKEDS: bool) returns (r: ParseResult)
      ensures r == InitOutput()
      ensures r.value == "" && !r.change && !r.remove && r.arrayoutput == []
    {
      r := InitOutput();
      if !convertedThisSpec {
        return;
      }
    }

    /** Stores a carried state in the four fields. */
    method SetState(next: DState)
      modifies this
      ensures State() == next
    {
      isSubf, prevName, blockType, convertedThisSpec := next.isSubf, next.prevName, next.blockType, next.convertedThisSpec;
    }

    method Parse(input: string, indent: int, wasSub: bool, wasLIKEDS: bool) returns (r: ParseResult)
      modifies this
      ensures State() == NextState(old(State()), input)
      ensures r == LineResult(old(State()), input, indent, wasSub, wasLIKEDS)
    {
      r := LineResult(State(), input, indent, wasSub, wasLIKEDS);
      SetState(NextState(State(), input));
    }
  }
}
