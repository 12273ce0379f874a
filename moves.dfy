/**
 * The variable table and the MOVE/MOVEL suggestion built from it. The
 * table maps upper-cased names to what is known about a field; a
 * MOVE/MOVEL is turned into an assignment by looking both operands up,
 * treating an unknown source as a literal and an unknown target as having
 * the source's type, and choosing a `%Subst`, `EvalR`, `%Char` or `%Date`
 * form from the two types, the direction and the padding flag.
 */
module Moves {
  import opened JsString
  import opened JsNumber
  import opened Results

  /** What the table knows about one field; `len == None` is an undefined length. */
  datatype Var = Var(name: string, vtype: string, len: Option<Num>, isConst: bool)

  type Table = map<string, Var>

  /** The only entry of a fresh table: the system date. */
  const DateVar := Var("*DATE", "D", Some(Finite(10)), false)

  function InitialTable(): (t: Table)
    ensures t.Keys == {"*DATE"} && t["*DATE"] == DateVar
  {
    map["*DATE" := DateVar]
  }

  /** The table entry recorded for a standalone declaration. */
  function Declared(d: VarDecl): (v: Var)
    ensures v.name == d.name && v.vtype == d.vtype && v.len == Some(d.len) && !v.isConst
  {
    Var(d.name, d.vtype, Some(d.len), false)
  }

  /** `addVar`: only standalone declarations are recorded, under the upper-cased name. */
  function AddDeclared(t: Table, d: VarDecl): (r: Table)
    ensures d.standalone ==> r.Keys == t.Keys + {Upper(d.name)} && r[Upper(d.name)] == Declared(d)
    ensures forall k :: k in t && (k != Upper(d.name) || !d.standalone) ==> k in r && r[k] == t[k]
    ensures !d.standalone ==> r == t
  {
    if d.standalone then t[Upper(d.name) := Declared(d)] else t
  }

  /** `${len}`: a number, or the text "undefined". */
  function LenText(len: Option<Num>): string {
    match len
    case None => "undefined"
    case Some(n) => NumText(n)
  }

  /** An operand not in the table: a quoted literal, a figurative constant or a number. */
  function Literal(source: string): (v: Var)
    ensures v.name == source && v.isConst
    ensures StartsWith(source, "'") ==> v.vtype == "A" && v.len == Some(Finite(|source| - 2))
    ensures !StartsWith(source, "'") ==> v.vtype == "S"
    ensures !StartsWith(source, "'") && StartsWith(source, "*") ==> v.len == None
  {
    if StartsWith(source, "'") then Var(source, "A", Some(Finite(|source| - 2)), true)
    else if StartsWith(source, "*") then Var(source, "S", None, true)
    else Var(source, "S", Some(Finite(|source|)), true)
  }

  /** The fixed display length of a date, time or timestamp field, none for other types. */
  function TemporalLength(vtype: string): Option<int> {
    if Upper(vtype) == "D" then Some(10)
    else if Upper(vtype) == "T" then Some(8)
    else if Upper(vtype) == "Z" then Some(26)
    else None
  }

  /** A known source of a temporal type gets its display length and is treated as constant. */
  function AdjustSource(v: Var): Var {
    match TemporalLength(v.vtype)
    case None => v
    case Some(n) => v.(len := Some(Finite(n)), isConst := true)
  }

  function CharNote(target: string): string {
    "Assuming " + target + " is a 'Char' field for MOVE/MOVEL operation."
  }

  function TypeNote(target: string, vtype: string): string {
    "Assuming " + target + " is a type '" + vtype + "' for MOVE/MOVEL operation."
  }

  const UnableNote := "Unable to convert MOVE/MOVEL operation."

  /** How much of the target a move touches: a constant's known length, otherwise the source's `%Len`. */
  function MovedLength(src: Var): string {
    if src.isConst then LenText(src.len) else "%Len(" + src.name + ")"
  }

  /** The left-hand side of a character move. */
  function Assignee(op: MoveOp, src: Var, tgt: Var): string {
    var left := Upper(op.dir) == "MOVEL";
    if op.padded then
      (if left then tgt.name else "EvalR " + tgt.name)
    else if left then "%Subst(" + tgt.name + ": 1: " + MovedLength(src) + ")"
    else "%Subst(" + tgt.name + ": %Len(" + tgt.name + ") - " + MovedLength(src) + ")"
  }

  predicate IsCharType(t: string) {
    t == "A" || t == "C"
  }

  predicate IsNumericType(t: string) {
    t == "S" || t == "P" || t == "I" || t == "F" || t == "U"
  }

  predicate IsTemporalType(t: string) {
    t == "D" || t == "T" || t == "Z"
  }

  /** The assignment without its `;`, or "" when no conversion is known for the two types. */
  function Assignment(op: MoveOp, src: Var, tgt: Var): string {
    var tt := Upper(tgt.vtype);
    if tt == "S" then tgt.name + " = " + src.name
    else if tt == "D" then
      (if Upper(src.name) == "*DATE" then tgt.name + " = " + src.name
       else if op.attr == "" then tgt.name + " = %Date(" + src.name + ")"
       else tgt.name + " = %Date(" + src.name + ": " + op.attr + ")")
    else if IsCharType(tt) && Convertible(src.vtype) then Assignee(op, src, tgt) + " = " + CharValue(src, op.attr)
    else ""
  }

  /** A source of this type can be moved into a character field. */
  predicate Convertible(vtype: string) {
    var st := Upper(vtype);
    IsCharType(st) || IsNumericType(st) || IsTemporalType(st)
  }

  /**
   * The right-hand side of a move into a character field of a convertible
   * source: a character source as it is, anything else through `%Char`.
   */
  function CharValue(src: Var, attr: string): string {
    var st := Upper(src.vtype);
    if IsCharType(st) then src.name
    else if IsNumericType(st) then "%Char(" + src.name + ")"
    else if attr != "" then "%Char(" + src.name + ": " + attr + ")"
    else "%Char(" + src.name + ")"
  }

  /** The source operand, and the table after a known temporal source was adjusted in place. */
  function ResolveSource(t: Table, source: string): (Var, Table) {
    var key := Upper(source);
    if key in t then (AdjustSource(t[key]), t[key := AdjustSource(t[key])])
    else (Literal(source), t)
  }

  /** The target operand and the notes raised while assuming its type. */
  function ResolveTarget(t: Table, op: MoveOp, src: Var): (Var, seq<string>) {
    var key := Upper(op.target);
    if key in t then (t[key], [])
    else if Upper(op.source) !in t && StartsWith(op.source, "'") then
      (Var(op.target, "A", None, false), [CharNote(op.target)])
    else (Var(op.target, src.vtype, None, false), [TypeNote(op.target, src.vtype)])
  }

  /** What `suggestMove` returns, the table it leaves behind, and the notes it raises, in order. */
  datatype Suggestion = Suggestion(change: bool, value: string, table: Table, notes: seq<string>)

  function SuggestMove(t: Table, op: MoveOp): (r: Suggestion)
    ensures r.change <==> r.value != ""
    ensures r.change ==> EndsWith(r.value, ";") && |r.value| > 1
    ensures !r.change ==> |r.notes| >= 1 && r.notes[|r.notes| - 1] == UnableNote
    ensures 1 <= |r.notes| + (if r.change then 1 else 0) <= 3
  {
    var (src, t1) := ResolveSource(t, op.source);
    var (tgt, notes) := ResolveTarget(t1, op, src);
    var value := Assignment(op, src, tgt);
    if value != "" then Suggestion(true, value + ";", t1, notes)
    else Suggestion(false, "", t1, notes + [UnableNote])
  }

  /** The table keeps its keys; only the source's entry can change, and only its length and constness. */
  lemma TableFrame(t: Table, op: MoveOp)
    ensures var r := SuggestMove(t, op);
      r.table.Keys == t.Keys &&
      (forall k :: k in t && k != Upper(op.source) ==> r.table[k] == t[k]) &&
      (Upper(op.source) in t ==>
        var before, after := t[Upper(op.source)], r.table[Upper(op.source)];
        after.name == before.name && after.vtype == before.vtype &&
        (TemporalLength(before.vtype).None? ==> after == before) &&
        (TemporalLength(before.vtype).Some? ==>
          after.isConst && after.len == Some(Finite(TemporalLength(before.vtype).value))))
  {
  }

  /** A known target raises no note; the only note then is the failure, if any. */
  lemma KnownTargetNotes(t: Table, op: MoveOp)
    requires Upper(op.target) in t
    ensures var r := SuggestMove(t, op);
      r.notes == if r.change then [] else [UnableNote]
  {
  }

  /**
   * A quoted literal moved into an unknown field: the field is assumed to be
   * character, one note says so, and the conversion always succeeds.
   */
  lemma QuotedIntoUnknown(t: Table, op: MoveOp)
    requires StartsWith(op.source, "'") && Upper(op.source) !in t && Upper(op.target) !in t
    ensures var r := SuggestMove(t, op);
      r.change && r.notes == [CharNote(op.target)] &&
      r.value == Assignee(op, Literal(op.source), Var(op.target, "A", None, false)) + " = " + op.source + ";"
  {
    var src := Literal(op.source);
    assert Upper("A") == "A";
    assert Upper(src.vtype) == "A";
  }

  /**
   * An unknown, unquoted source into an unknown target: one note assumes the
   * source's type for the target, which is numeric, so the move is a plain
   * assignment.
   */
  lemma UnknownIntoUnknown(t: Table, op: MoveOp)
    requires !StartsWith(op.source, "'") && Upper(op.source) !in t && Upper(op.target) !in t
    ensures var r := SuggestMove(t, op);
      r.change && r.notes == [TypeNote(op.target, "S")] &&
      r.value == op.target + " = " + op.source + ";"
  {
    assert Upper("S") == "S";
  }

  /** A left move of an unpadded literal substitutes into the first |literal| - 2 positions. */
  lemma QuotedMoveLeft(t: Table, op: MoveOp)
    requires StartsWith(op.source, "'") && Upper(op.source) !in t
    requires Upper(op.dir) == "MOVEL" && !op.padded
    requires Upper(op.target) in t && IsCharType(Upper(t[Upper(op.target)].vtype))
    ensures var name := t[Upper(op.target)].name;
      SuggestMove(t, op).value ==
        "%Subst(" + name + ": 1: " + NumText(Finite(|op.source| - 2)) + ") = " + op.source + ";"
  {
    assert Upper("A") == "A";
  }

  /** A move into a numeric field is always the plain assignment of the source's name. */
  lemma NumericTarget(t: Table, op: MoveOp)
    requires Upper(op.target) in t && Upper(t[Upper(op.target)].vtype) == "S"
    ensures var r := SuggestMove(t, op);
      r.change && r.value == t[Upper(op.target)].name + " = " + ResolveSource(t, op.source).0.name + ";"
  {
  }

  /** Into a date field: the system date is assigned as is, anything else through `%Date`. */
  lemma DateTarget(t: Table, op: MoveOp)
    requires Upper(op.target) in t && Upper(t[Upper(op.target)].vtype) == "D"
    ensures var r := SuggestMove(t, op);
      var src := ResolveSource(t, op.source).0;
      var name := t[Upper(op.target)].name;
      r.change &&
      (Upper(src.name) == "*DATE" ==> r.value == name + " = " + src.name + ";") &&
      (Upper(src.name) != "*DATE" && op.attr == "" ==> r.value == name + " = %Date(" + src.name + ");") &&
      (Upper(src.name) != "*DATE" && op.attr != "" ==>
        r.value == name + " = %Date(" + src.name + ": " + op.attr + ");")
  {
  }

  /**
   * The source counts as constant, so that its length is written out,
   * exactly when it is a literal or a known date, time or timestamp field.
   */
  lemma SourceConstness(t: Table, source: string)
    requires forall k :: k in t ==> !t[k].isConst
    ensures var src := ResolveSource(t, source).0;
      src.isConst <==> Upper(source) !in t || TemporalLength(t[Upper(source)].vtype).Some?
  {
  }

  /** A padded MOVEL into a character field assigns the whole field. */
  lemma PaddedMoveLeft(t: Table, op: MoveOp)
    requires Upper(op.target) in t && IsCharType(Upper(t[Upper(op.target)].vtype))
    requires op.padded && Upper(op.dir) == "MOVEL"
    ensures var src := ResolveSource(t, op.source).0;
      var v := CharValue(src, op.attr);
      var r := SuggestMove(t, op);
      Convertible(src.vtype) ==> r.change && r.value == t[Upper(op.target)].name + " = " + v + ";"
  {
    var src := ResolveSource(t, op.source).0;
    if Convertible(src.vtype) {
      CharTargetValue(t, op);
    }
  }

  /** A padded MOVE into a character field assigns the whole field, right-adjusted with `EvalR`. */
  lemma PaddedMoveRight(t: Table, op: MoveOp)
    requires Upper(op.target) in t && IsCharType(Upper(t[Upper(op.target)].vtype))
    requires op.padded && Upper(op.dir) != "MOVEL"
    ensures var src := ResolveSource(t, op.source).0;
      var v := CharValue(src, op.attr);
      var r := SuggestMove(t, op);
      Convertible(src.vtype) ==> r.change && r.value == "EvalR " + t[Upper(op.target)].name + " = " + v + ";"
  {
    var src := ResolveSource(t, op.source).0;
    if Convertible(src.vtype) {
      CharTargetValue(t, op);
    }
  }

  /** An unpadded MOVEL into a character field substitutes from position 1 for the moved length. */
  lemma UnpaddedMoveLeft(t: Table, op: MoveOp)
    requires Upper(op.target) in t && IsCharType(Upper(t[Upper(op.target)].vtype))
    requires !op.padded && Upper(op.dir) == "MOVEL"
    ensures var src := ResolveSource(t, op.source).0;
      var v := CharValue(src, op.attr);
      var name := t[Upper(op.target)].name;
      var n := if src.isConst then LenText(src.len) else "%Len(" + src.name + ")";
      var r := SuggestMove(t, op);
      Convertible(src.vtype) ==> r.change && r.value == "%Subst(" + name + ": 1: " + n + ") = " + v + ";"
  {
    var src := ResolveSource(t, op.source).0;
    if Convertible(src.vtype) {
      CharTargetValue(t, op);
    }
  }

  /** An unpadded MOVE into a character field substitutes the target's last positions. */
  lemma UnpaddedMoveRight(t: Table, op: MoveOp)
    requires Upper(op.target) in t && IsCharType(Upper(t[Upper(op.target)].vtype))
    requires !op.padded && Upper(op.dir) != "MOVEL"
    ensures var src := ResolveSource(t, op.source).0;
      var v := CharValue(src, op.attr);
      var name := t[Upper(op.target)].name;
      var n := if src.isConst then LenText(src.len) else "%Len(" + src.name + ")";
      var r := SuggestMove(t, op);
      Convertible(src.vtype) ==> r.change && r.value == "%Subst(" + name + ": %Len(" + name + ") - " + n + ") = " + v + ";"
  {
    var src := ResolveSource(t, op.source).0;
    if Convertible(src.vtype) {
      CharTargetValue(t, op);
    }
  }

  /** A character source goes into a known character field as it is. */
  lemma CharIntoChar(t: Table, op: MoveOp)
    requires Upper(op.target) in t && IsCharType(Upper(t[Upper(op.target)].vtype))
    requires IsCharType(Upper(ResolveSource(t, op.source).0.vtype))
    ensures var r := SuggestMove(t, op);
      r.change && EndsWith(r.value, " = " + ResolveSource(t, op.source).0.name + ";")
  {
    var src := ResolveSource(t, op.source).0;
    CharTargetValue(t, op);
    assert CharValue(src, op.attr) == src.name;
    EndsWithAppend(Assignee(op, src, t[Upper(op.target)]), " = " + src.name + ";");
  }

  /** A numeric source goes into a known character field through `%Char`. */
  lemma NumericIntoChar(t: Table, op: MoveOp)
    requires Upper(op.target) in t && IsCharType(Upper(t[Upper(op.target)].vtype))
    requires IsNumericType(Upper(ResolveSource(t, op.source).0.vtype))
    ensures var r := SuggestMove(t, op);
      r.change && EndsWith(r.value, " = %Char(" + ResolveSource(t, op.source).0.name + ");")
  {
    var src := ResolveSource(t, op.source).0;
    CharTargetValue(t, op);
    NumericSourceValue(src, op.attr);
    CharCallText(src.name);
    EndsWithAppend(Assignee(op, src, t[Upper(op.target)]), " = %Char(" + src.name + ");");
  }

  /**
   * A date, time or timestamp goes into a known character field through
   * `%Char`, with the move's format attribute when there is one.
   */
  lemma TemporalIntoChar(t: Table, op: MoveOp)
    requires Upper(op.target) in t && IsCharType(Upper(t[Upper(op.target)].vtype))
    requires IsTemporalType(Upper(ResolveSource(t, op.source).0.vtype))
    ensures var name := ResolveSource(t, op.source).0.name;
      var r := SuggestMove(t, op);
      r.change &&
      (op.attr != "" ==> EndsWith(r.value, " = %Char(" + name + ": " + op.attr + ");")) &&
      (op.attr == "" ==> EndsWith(r.value, " = %Char(" + name + ");"))
  {
    var src := ResolveSource(t, op.source).0;
    CharTargetValue(t, op);
    TemporalSourceValue(src, op.attr);
    var a := Assignee(op, src, t[Upper(op.target)]);
    if op.attr != "" {
      CharCallAttrText(src.name, op.attr);
      EndsWithAppend(a, " = %Char(" + src.name + ": " + op.attr + ");");
    } else {
      CharCallText(src.name);
      EndsWithAppend(a, " = %Char(" + src.name + ");");
    }
  }

  lemma NumericSourceValue(src: Var, attr: string)
    requires IsNumericType(Upper(src.vtype))
    ensures CharValue(src, attr) == "%Char(" + src.name + ")"
  {
    var st := Upper(src.vtype);
    assert st == "S" || st == "P" || st == "I" || st == "F" || st == "U";
    assert st != "A" && st != "C";
  }

  lemma TemporalSourceValue(src: Var, attr: string)
    requires IsTemporalType(Upper(src.vtype))
    ensures attr != "" ==> CharValue(src, attr) == "%Char(" + src.name + ": " + attr + ")"
    ensures attr == "" ==> CharValue(src, attr) == "%Char(" + src.name + ")"
  {
    var st := Upper(src.vtype);
    assert st == "D" || st == "T" || st == "Z";
    assert st != "A" && st != "C" && st != "S" && st != "P" && st != "I" && st != "F" && st != "U";
  }

  lemma CharCallText(x: string)
    ensures " = " + ("%Char(" + x + ")") + ";" == " = %Char(" + x + ");"
  {
  }

  lemma CharCallAttrText(x: string, attr: string)
    ensures " = " + ("%Char(" + x + ": " + attr + ")") + ";" == " = %Char(" + x + ": " + attr + ");"
  {
  }

  /** A known character target and a convertible source: the left-hand side, then the source side. */
  lemma CharTargetValue(t: Table, op: MoveOp)
    requires Upper(op.target) in t && IsCharType(Upper(t[Upper(op.target)].vtype))
    requires Convertible(ResolveSource(t, op.source).0.vtype)
    ensures var src := ResolveSource(t, op.source).0;
      var r := SuggestMove(t, op);
      r.change && r.value == Assignee(op, src, t[Upper(op.target)]) + (" = " + CharValue(src, op.attr) + ";")
  {
    var src := ResolveSource(t, op.source).0;
    var tgt := t[Upper(op.target)];
    assert ResolveTarget(ResolveSource(t, op.source).1, op, src).0 == tgt;
    assert Assignment(op, src, tgt) == Assignee(op, src, tgt) + " = " + CharValue(src, op.attr);
  }

  lemma EndsWithAppend(a: string, b: string)
    ensures EndsWith(a + b, b)
  {
    assert (a + b)[|a + b| - |b|..] == b;
  }

  /** A character target fails exactly when the source's type has no character conversion. */
  lemma CharTargetFailure(t: Table, op: MoveOp)
    requires Upper(op.target) in t && IsCharType(Upper(t[Upper(op.target)].vtype))
    ensures var st := Upper(ResolveSource(t, op.source).0.vtype);
      !SuggestMove(t, op).change <==> !IsCharType(st) && !IsNumericType(st) && !IsTemporalType(st)
  {
    var src := ResolveSource(t, op.source).0;
    var tgt := t[Upper(op.target)];
    var a := Assignee(op, src, tgt);
    assert |a + " = "| > 0;
  }

  /** A target type other than numeric, date or character is never converted. */
  lemma UnsupportedTarget(t: Table, op: MoveOp)
    requires Upper(op.target) in t
    requires var tt := Upper(t[Upper(op.target)].vtype); tt != "S" && tt != "D" && !IsCharType(tt)
    ensures var r := SuggestMove(t, op); !r.change && r.value == "" && r.notes == [UnableNote]
  {
  }
}
