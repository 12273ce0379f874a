/**
 * The converter itself: one object per source member, holding the lines
 * (rewritten in place), the table of known fields and the advisory
 * messages. `Parse` walks the lines once, classifies each, dispatches
 * specification lines to their plugin and writes what the plugin returns
 * back into the line array: in place, as several lines, as a keyword
 * spliced into the line above, or not at all. Block ends (`End-DS;`,
 * `End-PR;`, …) are inserted as blocks close.
 */
module Converter {
  import opened JsString
  import opened Results
  import opened Splice
  import opened Moves
  import opened Increments
  import opened PostProcess
  import opened LineViews
  import opened HSpecs
  import opened DSpecs
  import opened Plugins

  /** How a run of `Parse` ended. */
  datatype Outcome =
    | Completed
      /** The source raises a TypeError at this point. */
    | Threw
      /** The source writes to array position -1, which the model does not follow. */
    | Unsupported

  /** What the run's `result` variable holds: nothing yet, a plugin's result, or a MOVE suggestion. */
  datatype Held = Nothing | Parsed(result: ParseResult) | Moved(change: bool, value: string)

  /** `result.arrayoutput` for the flushes: a result without one reads as empty. */
  function HeldOutput(h: Held): (r: seq<string>)
    ensures h.Parsed? ==> r == h.result.arrayoutput
    ensures !h.Parsed? ==> r == []
  {
    if h.Parsed? then h.result.arrayoutput else []
  }

  /**
   * `result.arrayoutput.length` as the flush reads it: a plugin result has
   * the field, while the initial `{}` and the `{change, value}` pair left by a
   * MOVE do not, and reading `length` of the missing field raises a TypeError
   * (`None`).
   */
  function HeldOutputAsWritten(h: Held): (r: Option<seq<string>>)
    ensures r.Some? <==> h.Parsed?
    ensures r.Some? ==> r.value == HeldOutput(h)
  {
    if h.Parsed? then Some(h.result.arrayoutput) else None
  }

  /** A member with no specification line at all reaches the final flush still holding `{}`. */
  lemma EmptyMemberFlushThrows()
    ensures HeldOutputAsWritten(Nothing) == None && HeldOutput(Nothing) == []
  {
  }

  /** So does a member whose last specification line is a MOVE or MOVEL. */
  lemma FlushAfterMoveThrows(change: bool, value: string)
    ensures HeldOutputAsWritten(Moved(change, value)) == None && HeldOutput(Moved(change, value)) == []
  {
  }

  /** A member whose first line is `**FREE` (in any case, blanks around) is converted to fully free form. */
  predicate IsFullyFree(lines: seq<string>) {
    0 < |lines| && Lower(Trim(lines[0])) == "**free"
  }

  predicate IsSpec(s: string) {
    s == "C" || s == "F" || s == "D" || s == "H" || s == "P"
  }

  predicate ValidSpecType(s: string) {
    s == "" || IsSpec(s)
  }

  /** The rows a flush writes: each output line behind the gutter and the current indentation. */
  function Prefixed(prefix: string, xs: seq<string>): (r: seq<string>)
    ensures |r| == |xs| && forall i :: 0 <= i < |xs| ==> r[i] == prefix + xs[i]
  {
    seq(|xs|, i requires 0 <= i < |xs| => prefix + xs[i])
  }

  /** The indentation after a block closes: one level less, never below zero. */
  function Dedent(spaces: int, indent: int): (r: int)
    ensures r >= 0
    ensures spaces > indent ==> r == spaces - indent
    ensures spaces <= indent ==> r == 0
  {
    if spaces > indent then spaces - indent else 0
  }

  /** `spaces += delta; if (0 > spaces) spaces = 0;` */
  function Shift(spaces: int, delta: int): (r: int)
    ensures r >= 0 && (spaces + delta >= 0 ==> r == spaces + delta) && (spaces + delta < 0 ==> r == 0)
  {
    if spaces + delta < 0 then 0 else spaces + delta
  }

  /** The line that closes a block. */
  function EndLine(spaces: int, block: string): string {
    Spaces(7) + Spaces(spaces) + "End-" + block + ";"
  }

  /** A written line followed by its end-of-line comment, when there is one. */
  function WithComment(line: string, comment: string): string {
    if Trim(comment) != "" then line + " //" + comment else line
  }

  /** The messages for the notes of one MOVE/MOVEL, all raised on the same line. */
  function Notes(line: int, texts: seq<string>): (r: seq<Message>)
    ensures |r| == |texts| && forall i :: 0 <= i < |texts| ==> r[i] == Message(line, texts[i])
  {
    seq(|texts|, i requires 0 <= i < |texts| => Message(line, texts[i]))
  }

  /**
   * Which results close the block that is open: a new block head that is
   * not a LIKEDS subfield, a result that says nothing about blocks, and a
   * DS that is not itself a subfield.
   */
  predicate ClosesBlock(r: ParseResult, wasSub: bool, wasLIKEDS: bool) {
    wasSub &&
    ((r.isSub == Some(true) && r.isHead && !wasLIKEDS) ||
     r.isSub == None ||
     (r.isSub != Some(true) && r.isSub != None && r.blockType == "DS"))
  }

  /** An open block stays open across lines that carry no block information only when none was open. */
  lemma BlockStateAfter(r: ParseResult, wasSub: bool, wasLIKEDS: bool)
    ensures r.isSub == None ==> !(wasSub && !ClosesBlock(r, wasSub, wasLIKEDS))
    ensures r.isSub == Some(true) && !r.isHead ==> !ClosesBlock(r, wasSub, wasLIKEDS)
    ensures !wasSub ==> !ClosesBlock(r, wasSub, wasLIKEDS)
  {
  }

  /**
   * `visits[q]` is the cursor at which given line `q` was read: every cursor
   * is a line index, and no line read at a cursor above 0 starts with `**`.
   */
  ghost predicate Unmarked(input: seq<string>, visits: seq<int>) {
    |visits| <= |input| &&
    forall q :: 0 <= q < |visits| ==> 0 <= visits[q] && (0 < visits[q] ==> !StartsWith(input[q], "**"))
  }

  lemma UnmarkedSnoc(input: seq<string>, visits: seq<int>, cursor: int)
    requires Unmarked(input, visits) && |visits| < |input| && 0 <= cursor
    requires 0 < cursor ==> !StartsWith(input[|visits|], "**")
    ensures Unmarked(input, visits + [cursor])
  {
  }

  class RpgleFree {
    var lines: seq<string>
    const indent: int
    /** The known fields, by upper-cased name. */
    var vars: Table
    var messages: seq<Message>
    var lastSpecType: string
    var currentLine: int

    /** The body of the VARYING rewrite, applied once its guard lets a line through. */
    const varying: string -> string
    /** The body of the DTAARA/EXTNAME/EXTFLD quoting, applied once its guard lets a line through. */
    const quoting: string -> string

    const hSpec: HSpec
    const dSpec: DSpec
    const cSpec: ExternalSpec
    const fSpec: ExternalSpec
    const pSpec: ExternalSpec

    // The local variables of one `parse()` run. They live on the object
    // because the nested functions of the run (block end, flush, output)
    // update them.
    var index: int
    var length: int
    var spaces: int
    var wasSub: bool
    var wasLIKEDS: bool
    var fixedSql: bool
    var lastBlock: string
    var held: Held
    var comment: string
    var ignoredColumns: string
    var fullyFree: bool

    constructor (lines: seq<string>, indent: int, varying: string -> string, quoting: string -> string,
                 cRespond: (seq<Call>, Call) -> ParseResult,
                 fRespond: (seq<Call>, Call) -> ParseResult,
                 pRespond: (seq<Call>, Call) -> ParseResult)
      ensures this.lines == lines && this.indent == indent
      ensures vars == InitialTable() && messages == [] && lastSpecType == "" && currentLine == -1
      ensures this.varying == varying && this.quoting == quoting
      ensures !hSpec.convertedThisSpec && dSpec.State() == InitState()
      ensures cSpec.history == [] && fSpec.history == [] && pSpec.history == []
      ensures cSpec.respond == cRespond && fSpec.respond == fRespond && pSpec.respond == pRespond
      ensures fresh(hSpec) && fresh(dSpec) && fresh(cSpec) && fresh(fSpec) && fresh(pSpec)
    {
      var h := new HSpec();
      var d := new DSpec();
      var c := new ExternalSpec(cRespond);
      var f := new ExternalSpec(fRespond);
      var p := new ExternalSpec(pRespond);
      c.Init();
      f.Init();
      d.Init();
      h.Init();
      p.Init();
      this.lines := lines;
      this.indent := indent;
      this.varying := varying;
      this.quoting := quoting;
      vars := InitialTable();
      messages := [];
      lastSpecType := "";
      currentLine := -1;
      hSpec, dSpec, cSpec, fSpec, pSpec := h, d, c, f, p;
    }

    /** `addVar`: record a standalone declaration under its upper-cased name. */
    method AddVar(decl: VarDecl)
      modifies `vars
      ensures vars == AddDeclared(old(vars), decl)
      ensures old(vars.Keys) <= vars.Keys
    {
      if decl.standalone {
        vars := vars[Upper(decl.name) := Declared(decl)];
      }
    }

    /** `suggestMove`: the assignment for a MOVE/MOVEL, with its notes raised on the current line. */
    method SuggestMove(op: MoveOp) returns (change: bool, value: string)
      modifies `vars, `messages
      ensures var s := Moves.SuggestMove(old(vars), op);
        change == s.change && value == s.value && vars == s.table &&
        messages == old(messages) + Notes(currentLine, s.notes)
      ensures vars.Keys == old(vars.Keys)
    {
      var s := Moves.SuggestMove(vars, op);
      TableFrame(vars, op);
      change, value := s.change, s.value;
      vars := s.table;
      messages := messages + Notes(currentLine, s.notes);
    }

    /** The plugin for `spec` converts one line. */
    method PluginParse(spec: string, line: string) returns (r: ParseResult)
      requires IsSpec(spec)
      modifies hSpec, dSpec, cSpec, fSpec, pSpec
      ensures spec == "H" ==> r == ParseLine(line, wasSub)
      ensures spec == "D" ==> r == LineResult(old(dSpec.State()), line, indent, wasSub, wasLIKEDS)
      ensures spec == "D" ==> dSpec.State() == NextState(old(dSpec.State()), line)
      ensures spec == "C" ==> r == cSpec.respond(old(cSpec.history), ParseCall(line, indent, wasSub, wasLIKEDS))
      ensures spec == "F" ==> r == fSpec.respond(old(fSpec.history), ParseCall(line, indent, wasSub, wasLIKEDS))
      ensures spec == "P" ==> r == pSpec.respond(old(pSpec.history), ParseCall(line, indent, wasSub, wasLIKEDS))
    {
      if spec == "H" {
        r := hSpec.Parse(line, indent, wasSub, wasLIKEDS);
      } else if spec == "D" {
        r := dSpec.Parse(line, indent, wasSub, wasLIKEDS);
      } else if spec == "C" {
        r := cSpec.Parse(line, indent, wasSub, wasLIKEDS);
      } else if spec == "F" {
        r := fSpec.Parse(line, indent, wasSub, wasLIKEDS);
      } else {
        r := pSpec.Parse(line, indent, wasSub, wasLIKEDS);
      }
    }

    /** The plugin for `spec` hands back what it still holds. */
    method PluginFinal(spec: string) returns (r: ParseResult)
      requires IsSpec(spec)
      modifies cSpec, fSpec, pSpec
      ensures spec == "H" ==> r == EmptyOutput()
      ensures spec == "D" ==> r == InitOutput()
      ensures spec == "C" ==> r == cSpec.respond(old(cSpec.history), FinalCall(indent, wasSub, wasLIKEDS))
      ensures spec == "F" ==> r == fSpec.respond(old(fSpec.history), FinalCall(indent, wasSub, wasLIKEDS))
      ensures spec == "P" ==> r == pSpec.respond(old(pSpec.history), FinalCall(indent, wasSub, wasLIKEDS))
    {
      if spec == "H" {
        r := hSpec.Final(indent, wasSub, wasLIKEDS);
      } else if spec == "D" {
        r := dSpec.Final(indent, wasSub, wasLIKEDS);
      } else if spec == "C" {
        r := cSpec.Final(indent, wasSub, wasLIKEDS);
      } else if spec == "F" {
        r := fSpec.Final(indent, wasSub, wasLIKEDS);
      } else {
        r := pSpec.Final(indent, wasSub, wasLIKEDS);
      }
    }

    /** `endBlock`: close the open block one indentation level out, before the current line. */
    method EndBlock()
      modifies `lines, `index, `length, `spaces, `wasSub
      ensures !wasSub
      ensures lastBlock != "" ==>
        spaces == Dedent(old(spaces), indent) &&
        lines == InsertAt(old(lines), old(index), EndLine(spaces, lastBlock)) &&
        index == old(index) + 1 && length == old(length) + 1
      ensures lastBlock == "" ==>
        lines == old(lines) && index == old(index) && length == old(length) && spaces == old(spaces)
    {
      if lastBlock != "" {
        spaces := Dedent(spaces, indent);
        lines := InsertAt(lines, index, EndLine(spaces, lastBlock));
        index := index + 1;
        length := length + 1;
      }
      wasSub := false;
    }

    /**
     * `mergeArrayOutput`: write the held result's output lines at the
     * cursor, after taking the current line out when `replace` is set, and
     * leave the cursor on the last line written.
     */
    method MergeArrayOutput(replace: bool)
      modifies `lines, `index, `length, `held
      ensures var out := HeldOutput(old(held));
        var rows := Prefixed(ignoredColumns + Spaces(spaces), out);
        if out == [] then
          lines == old(lines) && index == old(index) && length == old(length) && held == old(held)
        else
          lines == InsertAll(if replace then DeleteAt(old(lines), old(index)) else old(lines), old(index), rows) &&
          index == old(index) + |out| - (if replace then 1 else 0) &&
          length == old(length) + |out| &&
          held == Parsed(old(held).result.(arrayoutput := []))
    {
      var out := HeldOutput(held);
      if |out| > 0 {
        var base := if replace then DeleteAt(lines, index) else lines;
        var merged, next := SpliceIn(base, index, Prefixed(ignoredColumns + Spaces(spaces), out));
        lines := merged;
        index := next;
        length := length + |out|;
        held := Parsed(held.result.(arrayoutput := []));
        if replace {
          index := index - 1;
        }
      }
    }

    /** The block bookkeeping at the head of `outputParsedResults`. */
    method TrackBlock(r: ParseResult)
      requires 0 <= index < |lines|
      modifies `lines, `index, `length, `spaces, `wasSub, `lastBlock
      ensures var closed := ClosesBlock(r, old(wasSub), wasLIKEDS) && old(lastBlock) != "";
        (closed ==>
          spaces == Dedent(old(spaces), indent) &&
          lines == InsertAt(old(lines), old(index), EndLine(spaces, old(lastBlock))) &&
          index == old(index) + 1 && length == old(length) + 1) &&
        (!closed ==> lines == old(lines) && index == old(index) && length == old(length) && spaces == old(spaces))
      ensures wasSub == (r.isSub == Some(true) || (old(wasSub) && !ClosesBlock(r, old(wasSub), wasLIKEDS)))
      ensures lastBlock == if r.isSub == Some(true) then r.blockType else old(lastBlock)
      ensures old(index) <= index <= old(index) + 1 && index < |lines| && lines[index..] == old(lines[index..])
      ensures length - |lines| == old(length - |lines|) && length - index == old(length - index)
    {
      if r.isSub == Some(true) {
        if r.isHead && wasSub && !wasLIKEDS {
          EndBlock();
        }
        wasSub := true;
        lastBlock := r.blockType;
      } else if r.isSub == None && wasSub {
        EndBlock();
      } else if r.blockType == "DS" && wasSub {
        EndBlock();
      }
    }

    /** A result flagged as a MOVE/MOVEL is replaced by the suggested assignment. */
    method ApplyMove(op: MoveOp)
      requires 0 <= index < |lines|
      modifies `vars, `messages, `held, `lines
      ensures var s := Moves.SuggestMove(old(vars), op);
        vars == s.table && messages == old(messages) + Notes(currentLine, s.notes) &&
        held == Moved(s.change, s.value) &&
        lines == if s.change then old(lines)[old(index) := ignoredColumns + Spaces(spaces) + s.value] else old(lines)
      ensures vars.Keys == old(vars.Keys)
    {
      var change, value := SuggestMove(op);
      held := Moved(change, value);
      if change {
        lines := lines[index := ignoredColumns + Spaces(spaces) + value];
      }
    }

    /** Keywords on a line of their own join the statement on the line above, and the line goes. */
    method ApplyAboveKeywords(keywords: string, blockType: string) returns (outcome: Outcome)
      requires index < |lines|
      modifies `lines, `index
      ensures old(index) < 1 ==> outcome == Threw && lines == old(lines) && index == old(index)
      ensures old(index) >= 1 ==>
        outcome == Completed && index == old(index) - 1 &&
        lines == old(lines)[..index] +
          [PostProcessKeywords(MergeAbove(old(lines)[index], keywords), blockType, varying, quoting)] +
          old(lines)[index + 2..]
    {
      if index < 1 {
        return Threw;
      }
      // The merged line replaces the line above, the current line goes, and
      // the merged line is post-processed where the cursor now stands.
      var merged := MergeAbove(lines[index - 1], keywords);
      lines := lines[..index - 1] + [PostProcessKeywords(merged, blockType, varying, quoting)] + lines[index + 1..];
      index := index - 1;
      outcome := Completed;
    }

    /** A line the plugin absorbed: kept as a comment when it had one, otherwise taken out. */
    method ApplyRemove()
      requires 0 <= index < |lines|
      modifies `lines, `index, `length
      ensures Trim(comment) != "" ==>
        lines == old(lines)[old(index) := ignoredColumns + Spaces(spaces) + "//" + comment] &&
        index == old(index) && length == old(length)
      ensures Trim(comment) == "" ==>
        lines == old(lines)[..old(index)] + old(lines)[old(index) + 1..] &&
        index == old(index) - 1 && length == old(length) - 1
    {
      if Trim(comment) != "" {
        lines := lines[index := ignoredColumns + Spaces(spaces) + "//" + comment];
      } else {
        lines := DeleteAt(lines, index);
        index := index - 1;
        length := length - 1;
      }
    }

    /** The default case: write the value (or the output lines), then adjust the indentation. */
    method ApplyValue(r: ParseResult)
      requires held == Parsed(r) && 0 <= index < |lines|
      modifies `lines, `index, `length, `spaces, `held
      ensures
        var before := if r.change then Shift(old(spaces), r.beforeSpaces) else old(spaces);
        spaces == Shift(before, r.nextSpaces) &&
        (r.arrayoutput == [] ==>
          lines == old(lines)[old(index) :=
            WithComment(PostProcessKeywords(ignoredColumns + Spaces(before) + r.value, r.blockType, varying, quoting), comment)] &&
          index == old(index) && length == old(length) && held == old(held)) &&
        (r.arrayoutput != [] ==>
          lines == InsertAll(DeleteAt(old(lines), old(index)), old(index), Prefixed(ignoredColumns + Spaces(before), r.arrayoutput)) &&
          index == old(index) + |r.arrayoutput| - 1 && length == old(length) + |r.arrayoutput| &&
          held == Parsed(r.(arrayoutput := [])))
    {
      if r.change {
        spaces := Shift(spaces, r.beforeSpaces);
      }
      if |HeldOutput(held)| > 0 {
        MergeArrayOutput(true);
      } else {
        var written := ignoredColumns + Spaces(spaces) + r.value;
        lines := lines[index := WithComment(PostProcessKeywords(written, r.blockType, varying, quoting), comment)];
      }
      spaces := Shift(spaces, r.nextSpaces);
    }

    /**
     * The cursor has stepped back at most one line, and the lines after it are
     * the lines that were after it before: the pass has not yet touched them.
     */
    twostate predicate TailKept()
      reads this
    {
      old(-1 <= index < |lines|) && -1 <= index < |lines| && old(index) - 1 <= index &&
      lines[index + 1..] == old(lines[index + 1..])
    }

    /** The counters only move together: `length` never falls behind the line count or the cursor. */
    twostate predicate CountsKept()
      reads this
    {
      length - |lines| >= old(length - |lines|) && length - index >= old(length - index)
    }

    /** The `isMove` case of the switch. */
    method MoveCase(op: MoveOp)
      requires 0 <= index < |lines| && spaces >= 0
      modifies `vars, `messages, `held, `lines
      ensures TailKept() && CountsKept()
      ensures old(messages) <= messages && vars.Keys == old(vars.Keys)
    {
      ApplyMove(op);
    }

    /** The `hasKeywords` case of the switch. */
    method KeywordsCase(keywords: string, blockType: string) returns (outcome: Outcome)
      requires 0 <= index < |lines|
      modifies `lines, `index
      ensures outcome != Unsupported && (outcome == Threw <==> old(index) < 1)
      ensures outcome == Completed ==> TailKept()
      ensures CountsKept()
    {
      ghost var i := index;
      outcome := ApplyAboveKeywords(keywords, blockType);
      if outcome == Completed {
        assert lines[index + 1..] == old(lines)[i + 1..];
      }
    }

    /** The `result.remove` case of the switch. */
    method RemoveCase()
      requires 0 <= index < |lines|
      modifies `lines, `index, `length
      ensures TailKept() && CountsKept()
    {
      ApplyRemove();
    }

    /** The `result.change` case and the default case of the switch. */
    method ValueCase(r: ParseResult)
      requires held == Parsed(r) && 0 <= index < |lines| && spaces >= 0
      modifies `lines, `index, `length, `spaces, `held
      ensures TailKept() && CountsKept() && spaces >= 0
    {
      ghost var i := index;
      ghost var before := if r.change then Shift(spaces, r.beforeSpaces) else spaces;
      ghost var rows := Prefixed(ignoredColumns + Spaces(before), r.arrayoutput);
      ApplyValue(r);
      if r.arrayoutput != [] {
        assert lines == InsertAll(DeleteAt(old(lines), i), i, rows);
        ReplaceKeepsSuffix(old(lines), i, rows);
        assert index + 1 == i + |rows|;
      } else {
        assert index == i;
      }
    }

    /** The `switch (true)` of `outputParsedResults`: the first flag that is set decides. */
    method Place(r: ParseResult) returns (outcome: Outcome)
      requires held == Parsed(r)
      requires 0 <= index < |lines| && spaces >= 0
      modifies `lines, `index, `length, `spaces, `held, `vars, `messages
      ensures spaces >= 0 && old(messages) <= messages && vars.Keys == old(vars.Keys)
      ensures outcome != Unsupported
      ensures outcome == Threw <==> !r.ignore && r.move.None? && r.aboveKeywords.Some? && old(index) < 1
      ensures r.ignore ==>
        lines == old(lines) && index == old(index) &&
        length == old(length) && spaces == old(spaces) && held == old(held)
      ensures outcome == Completed ==> TailKept()
      ensures CountsKept()
    {
      outcome := Completed;
      if r.ignore {
      } else if r.move.Some? {
        MoveCase(r.move.value);
      } else if r.aboveKeywords.Some? {
        outcome := KeywordsCase(r.aboveKeywords.value, r.blockType);
      } else if r.remove {
        RemoveCase();
      } else {
        ValueCase(r);
      }
    }

    /** The loop-step patch of a converted END/ENDDO, with one message per line passed over. */
    method Increment(step: IncrementReplacement)
      requires step.name.Some? && 0 <= currentLine <= |lines|
      modifies `messages, `lines
      ensures lines == Patched(old(lines), currentLine, step.name.value, step.value)
      ensures messages == old(messages) +
        Misses(currentLine, Passed(old(lines), currentLine, step.name.value), step.name.value, step.value)
      ensures |lines| == old(|lines|) && lines[currentLine..] == old(lines[currentLine..])
    {
      var patched, notes := PatchIncrement(lines, currentLine, step.name.value, step.value);
      PatchedKeepsFrom(lines, currentLine, step.name.value, step.value);
      lines := patched;
      messages := messages + notes;
    }

    /**
     * The bookkeeping of `outputParsedResults` between the block handling and
     * the placement: the declared field, the plugin's message and the
     * loop-step patch, which only touches lines before the current one.
     */
    method Annotate(r: ParseResult)
      requires 0 <= currentLine <= |lines|
      modifies `vars, `messages, `lines
      ensures vars == if r.decl.Some? then AddDeclared(old(vars), r.decl.value) else old(vars)
      ensures old(messages) + (if r.message != "" then [Message(currentLine, r.message)] else []) <= messages
      ensures !(r.incrementReplacement.Some? && r.incrementReplacement.value.name.Some?) ==> lines == old(lines)
      ensures old(vars.Keys) <= vars.Keys
      ensures |lines| == old(|lines|) && lines[currentLine..] == old(lines[currentLine..])
    {
      if r.decl.Some? {
        AddVar(r.decl.value);
      }
      if r.message != "" {
        messages := messages + [Message(currentLine, r.message)];
      }
      PatchStep(r);
    }

    /** The loop-step patch when the result carries a named step, seen from outside. */
    method PatchStep(r: ParseResult)
      requires 0 <= currentLine <= |lines|
      modifies `messages, `lines
      ensures !(r.incrementReplacement.Some? && r.incrementReplacement.value.name.Some?) ==>
        lines == old(lines) && messages == old(messages)
      ensures old(messages) <= messages
      ensures |lines| == old(|lines|) && lines[currentLine..] == old(lines[currentLine..])
    {
      if r.incrementReplacement.Some? && r.incrementReplacement.value.name.Some? {
        Increment(r.incrementReplacement.value);
      }
    }

    /** Everything `outputParsedResults` does before it places the result. */
    method Prepare(r: ParseResult)
      requires 0 <= currentLine <= index + 1 && 0 <= index < |lines|
      modifies `lines, `index, `length, `spaces, `wasSub, `wasLIKEDS, `lastBlock, `vars, `messages
      ensures spaces == old(spaces) || spaces == Dedent(old(spaces), indent)
      ensures old(messages) <= messages && old(vars.Keys) <= vars.Keys
      ensures old(index) <= index <= old(index) + 1 && currentLine <= index + 1 && index < |lines|
      ensures lines[index + 1..] == old(lines[index + 1..])
      ensures length - |lines| == old(length - |lines|) && length - index == old(length - index)
    {
      ghost var given, i := lines, index;
      TrackBlock(r);
      ghost var tracked := lines;
      assert tracked[index + 1..] == tracked[index..][1..] == given[i..][1..] == given[i + 1..];
      wasLIKEDS := r.isLIKEDS;
      Annotate(r);
      assert lines[index + 1..] == lines[currentLine..][index + 1 - currentLine..];
      assert tracked[index + 1..] == tracked[currentLine..][index + 1 - currentLine..];
    }

    /** `outputParsedResults`: act on one plugin result. */
    method OutputParsedResults(r: ParseResult) returns (outcome: Outcome)
      requires held == Parsed(r)
      requires 0 <= currentLine <= index + 1 && -1 <= index < |lines| && spaces >= 0
      modifies `lines, `index, `length, `spaces, `wasSub, `wasLIKEDS, `lastBlock, `held, `vars, `messages
      ensures spaces >= 0 && old(messages) <= messages && old(vars.Keys) <= vars.Keys
      ensures old(index) < 0 <==> outcome == Unsupported
      ensures outcome == Completed ==> TailKept()
      ensures CountsKept()
    {
      if index < 0 {
        return Unsupported;
      }
      ghost var given, i := lines, index;
      Prepare(r);
      ghost var prepared, j := lines, index;
      outcome := Place(r);
      assert outcome == Completed ==> lines[index + 1..] == prepared[j + 1..] == given[i + 1..];
    }

    /** The state the source keeps between lines: a known specification type or none. */
    predicate Valid()
      reads this
    {
      ValidSpecType(lastSpecType)
    }

    /** The flush outside a dispatch: the plugin's final output goes in above the current line. */
    method FlushFinal()
      requires IsSpec(lastSpecType) && 0 <= index < |lines|
      modifies `lines, `index, `length, `held, `lastSpecType, cSpec, fSpec, pSpec
      ensures lastSpecType == ""
      ensures old(index) <= index < |lines| && lines[index..] == old(lines[index..])
      ensures length - |lines| == old(length - |lines|) && length - index == old(length - index)
    {
      var f := PluginFinal(lastSpecType);
      held := Parsed(f);
      ghost var i := index;
      ghost var rows := Prefixed(ignoredColumns + Spaces(spaces), f.arrayoutput);
      MergeArrayOutput(false);
      if f.arrayoutput != [] {
        InsertAllKeepsSuffix(old(lines), i, rows);
      }
      lastSpecType := "";
    }

    /** The previous specification type's plugin hands over what it holds, and the converter acts on it. */
    method FlushPrevious() returns (outcome: Outcome)
      requires IsSpec(lastSpecType) && 0 <= index < |lines| && spaces >= 0 && currentLine == index
      modifies `lines, `index, `length, `spaces, `wasSub, `wasLIKEDS, `lastBlock, `held, `vars, `messages,
        cSpec, fSpec, pSpec
      ensures spaces >= 0 && old(messages) <= messages && old(vars.Keys) <= vars.Keys
      ensures outcome != Unsupported
      ensures outcome == Completed ==> TailKept()
      ensures CountsKept()
    {
      var f := PluginFinal(lastSpecType);
      held := Parsed(f);
      outcome := OutputParsedResults(f);
    }

    /** The line goes to the plugin of its specification type, and the converter acts on the result. */
    method ParseWith(spec: string, line: string) returns (outcome: Outcome)
      requires IsSpec(spec) && -1 <= index < |lines| && spaces >= 0 && 0 <= currentLine <= index + 1
      modifies `lines, `index, `length, `spaces, `wasSub, `wasLIKEDS, `lastBlock, `held, `vars, `messages,
        hSpec, dSpec, cSpec, fSpec, pSpec
      ensures spaces >= 0 && old(messages) <= messages && old(vars.Keys) <= vars.Keys
      ensures outcome == Completed ==> TailKept()
      ensures CountsKept()
    {
      var r := PluginParse(spec, line);
      held := Parsed(r);
      outcome := OutputParsedResults(r);
    }

    /**
     * A specification line: when the type changes, the previous type's
     * plugin is flushed first; then the line goes to its own plugin.
     */
    method Dispatch(spec: string, line: string) returns (outcome: Outcome)
      requires IsSpec(spec) && Valid() && 0 <= index < |lines| && spaces >= 0 && currentLine == index
      modifies `lines, `index, `length, `spaces, `wasSub, `wasLIKEDS, `lastBlock, `held, `vars, `messages,
        `lastSpecType, hSpec, dSpec, cSpec, fSpec, pSpec
      ensures Valid() && spaces >= 0 && old(messages) <= messages && old(vars.Keys) <= vars.Keys
      ensures outcome == Completed ==> lastSpecType == spec
      ensures outcome == Completed ==> -1 <= index < |lines| && lines[index + 1..] == old(lines[index + 1..])
      ensures CountsKept()
    {
      ghost var given, i := lines, index;
      if lastSpecType != spec {
        if lastSpecType != "" {
          outcome := FlushPrevious();
          if outcome != Completed {
            return;
          }
        }
        lastSpecType := spec;
      }
      ghost var flushed, j := lines, index;
      assert lines[index + 1..] == given[i + 1..];
      outcome := ParseWith(spec, line);
      assert outcome == Completed ==> lines[index + 1..] == flushed[j + 1..];
    }

    /** Read the line at the cursor: the view of it, its end-of-line comment and its gutter. */
    method ReadLine() returns (v: View)
      requires 0 <= index < |lines|
      modifies `currentLine, `comment, `ignoredColumns
      ensures v == ViewOf(lines[index], fullyFree) && currentLine == index
      ensures comment == v.comment && ignoredColumns == v.ignoredColumns
      ensures StartsWith(v.line, " **") <==> StartsWith(lines[index], "**")
    {
      currentLine := index;
      v := ViewOf(lines[index], fullyFree);
      TableMarkerColumns(lines[index], fullyFree);
      comment := v.comment;
      ignoredColumns := v.ignoredColumns;
    }

    /**
     * Comment and directive lines are rewritten on the spot; the result is
     * the specification type the line then counts as. `/FREE` and
     * `/END-FREE` are dropped (`dropped`), and the cursor steps back.
     */
    method Rewrite(v: View) returns (spec: string, dropped: bool)
      requires 0 <= index < |lines| && |v.line| >= 8
      modifies `lines, `index, `fixedSql
      ensures dropped ==>
        v.isDirective && !v.isComment &&
        lines == DeleteAt(old(lines), old(index)) && index == old(index) - 1 &&
        |lines| == |old(lines)| - 1 && lines[index + 1..] == old(lines)[old(index) + 1..]
      ensures !dropped ==> index == old(index) && |lines| == |old(lines)| && lines[index + 1..] == old(lines[index + 1..])
      ensures v.isComment ==> spec == "" && lines == old(lines)[old(index) := CommentLine(v.line, spaces)]
      ensures !v.isComment && v.isDirective && !dropped ==>
        var test := DirectiveTest(v.line);
        if test == "EXEC SQL" || test == "END-EXEC" then
          spec == "C" && fixedSql == (test == "EXEC SQL") && lines == old(lines)
        else
          spec == "" && lines == old(lines)[old(index) := DirectiveLine(v.line, spaces)]
      ensures !v.isComment && !v.isDirective ==>
        lines == old(lines) &&
        spec == if v.line[7] == '+' && fixedSql then "C" else v.spec
    {
      spec, dropped := v.spec, false;
      if v.isComment {
        spec := "";
        lines := lines[index := CommentLine(v.line, spaces)];
      } else if v.isDirective {
        var test := DirectiveTest(v.line);
        if test == "EXEC SQL" {
          fixedSql := true;
          spec := "C";
        } else if test == "END-EXEC" {
          fixedSql := false;
          spec := "C";
        } else if IsFreeDirective(test) {
          assert FromEnd(index, |lines|) == index;
          lines := DeleteAt(lines, index);
          assert lines[index..] == old(lines)[index + 1..];
          index := index - 1;
          spec, dropped := "", true;
        } else {
          spec := "";
          lines := lines[index := DirectiveLine(v.line, spaces)];
        }
      } else if v.line[7] == '+' && fixedSql {
        spec := "C";
      }
    }

    /** `Rewrite`, seen only for what it does to the cursor and to the lines after it. */
    method RewriteFrame(v: View) returns (spec: string, dropped: bool)
      requires 0 <= index < |lines| && |v.line| >= 8
      modifies `lines, `index, `fixedSql
      ensures dropped ==>
        index == old(index) - 1 && |lines| == |old(lines)| - 1 &&
        lines[index + 1..] == old(lines)[old(index) + 1..]
      ensures !dropped ==> index == old(index) && |lines| == |old(lines)| && lines[index + 1..] == old(lines[index + 1..])
    {
      spec, dropped := Rewrite(v);
    }

    /**
     * The line's specification type decides: its plugin converts it; any
     * other line that is not a comment or a directive closes an open block,
     * or else, when it is not blank, flushes the previous type's plugin.
     */
    method Route(spec: string, v: View) returns (outcome: Outcome)
      requires 0 <= index < |lines| && spaces >= 0 && Valid() && currentLine == index
      modifies `lines, `index, `length, `spaces, `wasSub, `wasLIKEDS, `lastBlock, `held, `vars, `messages,
        `lastSpecType, hSpec, dSpec, cSpec, fSpec, pSpec
      ensures Valid() && spaces >= 0 && old(messages) <= messages && old(vars.Keys) <= vars.Keys
      ensures length - |lines| >= old(length - |lines|)
      ensures outcome == Completed ==> -1 <= index < |lines| && lines[index + 1..] == old(lines[index + 1..])
      ensures !IsSpec(spec) ==> outcome == Completed
      ensures !IsSpec(spec) && old(wasSub) && !v.isComment && !v.isDirective ==> !wasSub
    {
      outcome := Completed;
      if IsSpec(spec) {
        outcome := Dispatch(spec, v.line);
      } else if wasSub && !v.isComment && !v.isDirective {
        ghost var i := index;
        EndBlock();
        if lastBlock != "" {
          assert lines[i + 2..] == old(lines)[i + 1..];
        }
      } else if Trim(v.line) != "" && !v.isComment && !v.isDirective && spec != lastSpecType && lastSpecType != "" {
        FlushFinal();
      }
    }

    /** The line at the cursor, once it is known not to start the compile-time tables. */
    method Convert(v: View) returns (outcome: Outcome)
      requires 0 <= index < |lines| && spaces >= 0 && Valid() && currentLine == index && |v.line| >= 8
      modifies `lines, `index, `length, `spaces, `wasSub, `wasLIKEDS, `lastBlock, `held, `vars, `messages,
        `lastSpecType, `fixedSql, hSpec, dSpec, cSpec, fSpec, pSpec
      ensures Valid() && spaces >= 0 && old(messages) <= messages && old(vars.Keys) <= vars.Keys
      ensures length - |lines| >= old(length - |lines|)
      ensures outcome == Completed ==> -1 <= index < |lines| && lines[index + 1..] == old(lines[index + 1..])
    {
      ghost var given, i := lines, index;
      var spec, dropped := RewriteFrame(v);
      if dropped {
        return Completed;
      }
      ghost var rewritten := lines;
      assert index == i && rewritten[i + 1..] == given[i + 1..];
      outcome := Route(spec, v);
      assert outcome == Completed ==> lines[index + 1..] == rewritten[i + 1..];
    }

    /**
     * One pass of the loop body, for the line at the cursor. `stop` is set at
     * the first line of the compile-time tables, which is left as it is.
     */
    method Step() returns (outcome: Outcome, stop: bool)
      requires 0 <= index < |lines| && spaces >= 0 && Valid()
      modifies this, hSpec, dSpec, cSpec, fSpec, pSpec
      ensures Valid() && spaces >= 0 && old(messages) <= messages && old(vars.Keys) <= vars.Keys
      ensures length - |lines| >= old(length - |lines|)
      ensures stop ==>
        outcome == Completed && lastSpecType == "" &&
        0 < old(index) && StartsWith(old(lines[index]), "**") &&
        old(index) <= index < |lines| && lines[index..] == old(lines[index..])
      ensures 0 < old(index) && StartsWith(old(lines[index]), "**") ==> stop
      ensures outcome == Completed && !stop ==>
        -1 <= index < |lines| && lines[index + 1..] == old(lines[index + 1..])
    {
      var v := ReadLine();
      outcome, stop := Completed, false;
      if 0 < index && StartsWith(v.line, " **") {
        if lastSpecType != "" {
          ignoredColumns := Spaces(|ignoredColumns|);
          FlushFinal();
        }
        return Completed, true;
      }
      outcome := Convert(v);
    }

    /**
     * `Step` at the cursor, stated against the lines as given, of which line
     * `p` is at the cursor; past it, the cursor moves to the next line and
     * the visit is recorded.
     */
    method Visit(ghost input: seq<string>, ghost p: nat, ghost visits: seq<int>)
      returns (outcome: Outcome, stop: bool, ghost visited: seq<int>)
      requires 0 <= index < |lines| && p < |input| && lines[index..] == input[p..]
      requires p == 0 ==> index == 0
      requires |visits| == p && Unmarked(input, visits)
      requires spaces >= 0 && Valid() && length >= |lines|
      modifies this, hSpec, dSpec, cSpec, fSpec, pSpec
      ensures Valid() && spaces >= 0 && old(messages) <= messages && old(vars.Keys) <= vars.Keys
      ensures length >= |lines|
      ensures stop ==>
        outcome == Completed && lastSpecType == "" && 0 < p && StartsWith(input[p], "**") &&
        0 <= index <= |lines| && lines[index..] == input[p..]
      ensures outcome == Completed && !stop ==>
        0 <= index <= |lines| && lines[index..] == input[p + 1..] &&
        |visited| == p + 1 && Unmarked(input, visited)
      ensures outcome != Completed || stop ==> visited == visits
    {
      ghost var cursor := index;
      assert lines[index] == input[p] && lines[index + 1..] == input[p + 1..];
      outcome, stop := Step();
      visited := visits;
      if outcome == Completed && !stop {
        UnmarkedSnoc(input, visits, cursor);
        visited := visits + [cursor];
        index := index + 1;
      }
    }

    /**
     * After the last line: the held output is written at the cursor; then, if
     * a specification type is still open, its plugin's final output is
     * written in front of the last line.
     */
    method Finish()
      requires Valid()
      modifies `lines, `index, `length, `currentLine, `held, `lastSpecType, cSpec, fSpec, pSpec
      ensures lastSpecType == ""
      ensures old(lastSpecType) == "" && HeldOutput(old(held)) == [] ==> lines == old(lines)
      ensures old(lastSpecType) == "" && 0 <= old(index) <= old(|lines|) ==>
        old(|lines|) - old(index) <= |lines| && lines[|lines| - (old(|lines|) - old(index))..] == old(lines[index..])
    {
      ghost var i := index;
      ghost var rows := Prefixed(ignoredColumns + Spaces(spaces), HeldOutput(held));
      MergeArrayOutput(false);
      if 0 <= i <= |old(lines)| && rows != [] {
        InsertAllKeepsSuffix(old(lines), i, rows);
        assert lines[|lines| - (|old(lines)| - i)..] == lines[i + |rows|..];
      }
      if lastSpecType != "" {
        var f := PluginFinal(lastSpecType);
        held := Parsed(f);
        currentLine := |lines| - 1;
        index := currentLine;
        length := currentLine;
        MergeArrayOutput(false);
        lastSpecType := "";
      }
    }

    /** The local state of a run before the first line: nothing held, nothing open, no indentation. */
    method Begin(free: bool)
      modifies `length, `spaces, `wasSub, `wasLIKEDS, `fixedSql, `lastBlock, `held, `comment,
        `ignoredColumns, `index, `fullyFree
      ensures length == |lines| && index == 0 && spaces == 0 && held == Nothing
      ensures !wasSub && !wasLIKEDS && !fixedSql && lastBlock == "" && comment == "" && ignoredColumns == ""
      ensures fullyFree == free
    {
      length := |lines|;
      spaces := 0;
      wasSub, wasLIKEDS, fixedSql := false, false, false;
      lastBlock := "";
      held := Nothing;
      comment, ignoredColumns := "", "";
      index := 0;
      fullyFree := free;
    }

    /**
     * The line loop of `parse`: every line up to a compile-time table is
     * read and converted. `tableStart` is the index, in the lines as given,
     * where that table starts, or their count when there is none; the lines
     * from there on are still the cursor's suffix when the loop ends.
     * `visits[q]` is the cursor at which given line `q` was read: lines are
     * read in order, and none read at a cursor above 0 starts the table.
     */
    method Scan(free: bool) returns (outcome: Outcome, ghost tableStart: nat, ghost visits: seq<int>)
      requires Valid()
      modifies this, hSpec, dSpec, cSpec, fSpec, pSpec
      ensures Valid() && old(messages) <= messages && old(vars.Keys) <= vars.Keys
      ensures tableStart <= |old(lines)|
      ensures tableStart < |old(lines)| ==> 0 < tableStart && StartsWith(old(lines)[tableStart], "**")
      ensures outcome == Completed && tableStart < |old(lines)| ==>
        lastSpecType == "" && 0 <= index <= |lines| && lines[index..] == old(lines)[tableStart..]
      ensures |visits| <= tableStart && (outcome == Completed ==> |visits| == tableStart)
      ensures Unmarked(old(lines), visits)
      ensures old(lines) == [] && old(lastSpecType) == "" ==>
        outcome == Completed && lines == [] && held == Nothing && lastSpecType == ""
    {
      ghost var input := lines;
      Begin(free);
      ghost var p := 0;
      outcome := Completed;
      tableStart := |input|;
      visits := [];
      var stop := false;
      while index < length
        invariant 0 <= p <= |input| && 0 <= index
        invariant index <= |lines| ==> lines[index..] == input[p..]
        invariant index >= |lines| ==> p == |input|
        invariant length >= |lines|
        invariant p == 0 ==>
          index == 0 && length == |input| && lines == input &&
          held == Nothing && lastSpecType == old(lastSpecType)
        invariant outcome == Completed
        invariant spaces >= 0 && Valid()
        invariant old(messages) <= messages && old(vars.Keys) <= vars.Keys
        invariant tableStart == |input| && !stop
        invariant |visits| == p && Unmarked(input, visits)
        decreases |input| - p, length - index
      {
        if index >= |lines| {
          index := index + 1;
          continue;
        }
        outcome, stop, visits := Visit(input, p, visits);
        if outcome != Completed {
          return;
        }
        if stop {
          tableStart := p;
          break;
        }
        p := p + 1;
      }
    }

    /**
     * `parse`: convert the member in place. Lines are visited once, in
     * order; a compile-time table and everything after it is kept as it is.
     * `tableStart` is the index, in the lines as given, where that table
     * starts, or their count when there is none.
     */
    method Parse() returns (outcome: Outcome, ghost tableStart: nat, ghost visits: seq<int>)
      requires Valid()
      modifies this, hSpec, dSpec, cSpec, fSpec, pSpec
      ensures Valid() && old(messages) <= messages && old(vars.Keys) <= vars.Keys
      ensures tableStart <= |old(lines)|
      ensures tableStart < |old(lines)| ==> 0 < tableStart && StartsWith(old(lines)[tableStart], "**")
      ensures outcome == Completed ==>
        lastSpecType == "" &&
        |old(lines)| - tableStart <= |lines| &&
        lines[|lines| - (|old(lines)| - tableStart)..] == old(lines)[tableStart..]
      ensures |visits| <= tableStart && (outcome == Completed ==> |visits| == tableStart)
      ensures Unmarked(old(lines), visits)
      ensures old(lines) == [] && old(lastSpecType) == "" ==> outcome == Completed && lines == []
    {
      var free := IsFullyFree(lines);
      outcome, tableStart, visits := Scan(free);
      if outcome == Completed {
        Finish();
      }
    }
  }
}
