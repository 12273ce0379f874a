# RPG IV fixed-format to free-format converter, modelled in Dafny

This project models the core of the vscode-rpgfree converter. The converter
takes the lines of an ILE RPG source member written in fixed-format
specifications. It rewrites them, in place, as free-format RPG.

The converter walks the member once, line by line:

- Each line is padded to the 80 fixed columns. Anything past column 80 is
  split off as an end-of-line comment.
- Column 6 names the specification type.
- Comment lines and compiler directives are rewritten on the spot.
- Every other specification line goes to its plugin: H (control options),
  D (definitions), C (calculations), F (files) or P (procedures).
- What the plugin returns is written back into the line array:
  - in place;
  - as several lines;
  - as keywords spliced into the statement on the line above;
  - or not at all.
- Along the way the converter:
  - inserts block ends (`End-DS;`, `End-PR;`, `End-PI;`) as blocks close;
  - keeps a table of the standalone fields it has seen, which it uses to
    turn `MOVE`/`MOVEL` into assignments;
  - patches the step of a converted `DO` loop into the `For` statement it
    emitted earlier;
  - post-processes every written declaration for `VARYING` and for quoted
    data-area names.
- A compile-time table (a line starting `**`) and everything after it is
  left untouched.

The model is organised by the program's structure:

| file | module | what it holds |
|---|---|---|
| `converter.dfy` | `Converter` | Class `RpgleFree`, whose fields are the converter object's state and the local state of one `parse()` run. Its methods are the run's steps: line view, directive handling, dispatch, block ends, the result switch, the flushes. Every method is proved against the functions below. `Parse` states that the compile-time table survives unchanged at the end of the member. |
| `d_spec.dfy` | `DSpecs` | The D plugin. Pure functions give the column decoding, the type mapping, the statement text and the carried state. Class `DSpec` holds the plugin's module variables. |
| `h_spec.dfy` | `HSpecs` | The H plugin, the same way. |
| `plugins.dfy` | `Plugins` | The C, F and P plugins. Each is seen only through its `init`/`parse`/`final` interface, and behaves as an arbitrary function of the calls made to it. |
| `moves.dfy` | `Moves` | The field table and the `MOVE`/`MOVEL` suggestion. |
| `increments.dfy` | `Increments` | The backwards scan that patches a loop step into `For … by NAME`. |
| `postprocess.dfy` | `PostProcess` | The guards of the `VARYING` and data-area-quoting steps. |
| `lineview.dfy` | `LineViews` | How one line is read: padding, gutter, comment split, specification column, comment and directive text, and the splice into the line above. |
| `splice.dfy` | `Splice` | `Array.prototype.splice` on the line array. |
| `js_string.dfy` | `JsString` | The JavaScript string operations the code relies on, with their edge cases. |
| `js_number.dfy` | `JsNumber` | `Number()` and `String()` on column text, NaN included. |
| `results.dfy` | `Results` | The record a plugin returns. |

Where the project's own description and its code disagree, the model follows
the code:

- `endBlock` (src/RpgleFree.js:406-419) never clears `lastBlock`. It clears
  `wasSub` instead, and every call of `endBlock` is guarded by `wasSub`, which
  is set again only together with a new `lastBlock` (src/RpgleFree.js:573-574).
  So the stale name is never read.
- After the loop, the open plugin's `final()` result is not run through
  `outputParsedResults` (src/RpgleFree.js:396-404). So an open block is not
  closed at the end of the member. The final output is written in front of
  the member's last line, because the cursor is set to `lines.length - 1`.
- Dropping a `/FREE` or `/END-FREE` line, and splicing keywords into the line
  above, both decrement `index` but not `length`. Taking out an absorbed line
  decrements both (src/RpgleFree.js:339-342, 664-666, 676-678). The model
  keeps that asymmetry.
- A compile-time table marker on the first line (index 0) is not recognised
  as one (src/RpgleFree.js:286).

## Model

| member | source | states |
|---|---|---|
| Converter.HeldOutput | src/RpgleFree.js:393-394 | The corrected read of the held result's output lines: a plugin result gives its lines, and anything else (nothing held yet, a MOVE suggestion) gives none. |
| Converter.HeldOutputAsWritten | src/RpgleFree.js:422-423 | `result.arrayoutput.length` as written: it is defined exactly for plugin results, where it agrees with the corrected read. Otherwise it raises a TypeError. |
| Converter.EmptyMemberFlushThrows | src/RpgleFree.js:393-394 | A member with no specification line reaches the final flush holding `{}`, and the flush raises a TypeError. |
| Converter.FlushAfterMoveThrows | src/RpgleFree.js:632-637 | When the last dispatched line was a MOVE/MOVEL, the held `{change, value}` pair has no output lines, and the final flush raises a TypeError. |
| Converter.Prefixed | src/RpgleFree.js:427-428 | Each written output row is the gutter and indentation followed by the plugin's line, one row per line, in order. |
| Converter.Dedent | src/RpgleFree.js:408-412 | Closing a block removes one indentation level, or drops the indentation to zero when it was no deeper than that. |
| Converter.Shift | src/RpgleFree.js:683-686 | An indentation change is applied and clamped at zero. |
| Converter.BlockStateAfter | src/RpgleFree.js:569-585 | A result carrying no block information closes any open block. A subfield that is not a head never closes one. Nothing closes when no block is open. |
| Converter.RpgleFree.constructor | src/RpgleFree.js:19-41 | The lines and indent are stored. The field table holds only `*DATE`. There are no messages, no specification type and no current line. Every plugin is freshly initialised. |
| Converter.RpgleFree.AddVar | src/RpgleFree.js:43-47 | The table becomes `AddDeclared` of the old table: standalone records are stored under the upper-cased name, and no key is lost. |
| Converter.RpgleFree.SuggestMove | src/RpgleFree.js:49-212 | It returns the pure suggestion's change flag and value, stores its table, and raises its notes on the current line in order. |
| Converter.RpgleFree.PluginParse | src/RpgleFree.js:372 | The line goes to the plugin of its type: H gives `ParseLine`; D gives `LineResult` and steps its carried state by `NextState`; C, F and P answer from their call history. |
| Converter.RpgleFree.PluginFinal | src/RpgleFree.js:366 | `final()` of each plugin: H gives the empty output, D gives `initOutput()`, and C, F and P answer from their call history. |
| Converter.RpgleFree.EndBlock | src/RpgleFree.js:406-419 | With a block open, one indentation level is removed, `End-<block>;` is inserted at the cursor, and the cursor and length advance by one. With no block, nothing changes. The subfield flag is always cleared. |
| Converter.RpgleFree.MergeArrayOutput | src/RpgleFree.js:422-438 | With output held, the current line is optionally taken out. The prefixed rows are then inserted at the cursor in order, the cursor ends on the last row written, the length grows by the row count, and the held output is emptied. With none held, nothing changes. |
| Converter.RpgleFree.TrackBlock | src/RpgleFree.js:569-585 | An `End-` line is inserted exactly when `ClosesBlock` holds and a block kind is recorded. The subfield flag and the recorded block kind are updated as the result says. The lines after the cursor are untouched. |
| Converter.RpgleFree.ApplyMove | src/RpgleFree.js:632-637 | The MOVE's suggestion replaces the held result, and the current line is written with the assignment only when there is one to write. |
| Converter.RpgleFree.ApplyAboveKeywords | src/RpgleFree.js:639-670 | At the first line this raises a TypeError. Otherwise the keywords are merged into the line above, that line is post-processed, the current line goes, and the cursor steps back. |
| Converter.RpgleFree.ApplyRemove | src/RpgleFree.js:672-680 | An absorbed line with an end-of-line comment becomes that comment. Without one, the line is deleted and the cursor and length step back. |
| Converter.RpgleFree.ApplyValue | src/RpgleFree.js:682-705 | `beforeSpaces` applies only to changed results, and `nextSpaces` always applies, both clamped at zero. Output lines replace the current line. Otherwise the value is written behind the gutter, post-processed, and followed by the end-of-line comment. |
| Converter.RpgleFree.Place | src/RpgleFree.js:628-706 | An ignored result changes nothing. The outcome is never Unsupported, and is a TypeError exactly when the result is not ignored, has no move, has keywords to put above, and the cursor is at the first line. Messages only grow, the table keeps its keys, and a completed call keeps the lines after the cursor. |
| Converter.RpgleFree.MoveCase | src/RpgleFree.js:632-637 | The move case keeps the lines after the cursor and the table's keys. |
| Converter.RpgleFree.KeywordsCase | src/RpgleFree.js:639-670 | The keywords case fails exactly at the first line, and otherwise keeps the lines after the cursor. |
| Converter.RpgleFree.RemoveCase | src/RpgleFree.js:672-680 | The remove case keeps the lines after the cursor. |
| Converter.RpgleFree.ValueCase | src/RpgleFree.js:682-705 | The default case keeps the lines after the last row it writes, and the indentation stays non-negative. |
| Converter.RpgleFree.Increment | src/RpgleFree.js:603-626 | The lines become `Patched` and the messages grow by one miss per line passed over. The current line and everything after it are untouched. |
| Converter.RpgleFree.Annotate | src/RpgleFree.js:587-626 | A variable record updates the table as `AddDeclared`. A plugin message is raised on the current line. Without a named step, the lines are untouched. |
| Converter.RpgleFree.PatchStep | src/RpgleFree.js:603 | The loop-step patch runs only for a result with a non-null step name. Otherwise nothing changes. |
| Converter.RpgleFree.Prepare | src/RpgleFree.js:569-626 | The bookkeeping before the switch moves the cursor by at most one inserted `End-` line, and keeps the lines after it. |
| Converter.RpgleFree.OutputParsedResults | src/RpgleFree.js:568-707 | It is unsupported exactly when the cursor is at -1. Otherwise it never touches a line after the cursor, the messages only grow, and no field is forgotten. |
| Converter.RpgleFree.FlushFinal | src/RpgleFree.js:383-387 | The specification type is cleared. The cursor does not move back, and the line at the cursor survives with everything after it. The line count and the cursor shift together with the lines. |
| Converter.RpgleFree.FlushPrevious | src/RpgleFree.js:364-368 | The outcome is never Unsupported. Messages and the table only grow, indentation stays non-negative, and a completed call keeps the lines after the cursor. |
| Converter.RpgleFree.ParseWith | src/RpgleFree.js:372-373 | Messages and the table only grow, indentation stays non-negative, and a completed call keeps the lines after the cursor. |
| Converter.RpgleFree.Dispatch | src/RpgleFree.js:361-373 | A completed call leaves the line's type as the current one and keeps the lines after the cursor. Messages and the table only grow. |
| Converter.RpgleFree.ReadLine | src/RpgleFree.js:245-269 | The current line index, the end-of-line comment and the gutter are taken from `ViewOf` of the raw line. The `**` test on the view matches the raw line's first two columns. |
| Converter.RpgleFree.Rewrite | src/RpgleFree.js:298-358 | Comment lines become `//` lines. `/EXEC SQL` and `/END-EXEC` switch SQL mode and count as C. `/FREE` and `/END-FREE` are deleted. Other directives are re-indented. A `+` line in SQL mode counts as C. |
| Converter.RpgleFree.RewriteFrame | src/RpgleFree.js:298-358 | Rewriting a comment or directive line keeps the cursor and the lines after it, or deletes the line and steps the cursor back. |
| Converter.RpgleFree.Route | src/RpgleFree.js:361-390 | A line that is not a specification always completes. Such a line that is neither a comment nor a directive closes an open block. A completed call keeps the lines after the cursor. |
| Converter.RpgleFree.Convert | src/RpgleFree.js:298-390 | A completed call keeps every line after the current one. Indentation stays non-negative, and messages and the table only grow. |
| Converter.RpgleFree.Step | src/RpgleFree.js:245-296 | A `**` line at a cursor above 0 stops the pass, and the pass stops only there: the open plugin is flushed, and the table line and everything after it are kept. |
| Converter.RpgleFree.Visit | src/RpgleFree.js:240-296 | One step of the loop, stated against the lines as given: a stop happens exactly at a `**` line read at a cursor above 0, and otherwise the cursor moves on with the visit recorded. |
| Converter.RpgleFree.Finish | src/RpgleFree.js:393-404 | The held output is written at the cursor, and then the open plugin's final output in front of the last line. The lines from the cursor on are kept at the end. With nothing held and nothing open, the lines are unchanged. |
| Converter.RpgleFree.Begin | src/RpgleFree.js:224-239 | The run starts with nothing held, no block open, no indentation, SQL mode off, and the cursor at 0 of `length` lines. |
| Converter.RpgleFree.Scan | src/RpgleFree.js:240-391 | Lines are read in order up to the first compile-time table marker. `visits` records the cursor at which each line was read, and none read at a cursor above 0 starts with `**`. The marker is at an index above 0, and from it on the lines are the cursor's suffix when the loop ends. |
| Converter.RpgleFree.Parse | src/RpgleFree.js:214-404 | The whole run: every line before `tableStart` was read, none at a cursor above 0 starting with `**`; a compile-time table and everything after it end the member unchanged, and no specification type is left open. An empty member stays empty. |
| Moves.InitialTable | src/RpgleFree.js:25-31 | A fresh table knows exactly `*DATE`, a date of length 10. |
| Moves.AddDeclared | src/RpgleFree.js:43-47 | Only standalone records are stored, under the upper-cased name. Every other entry is kept. |
| Moves.Literal | src/RpgleFree.js:58-97 | An unknown operand is a constant: a quoted one is character data of its length minus the quotes, and anything else is numeric, with no length for a `*` figurative constant. |
| Moves.SuggestMove | src/RpgleFree.js:49-212 | A suggestion is a change exactly when it has a value, which is then an assignment ending in `;`. A failure always ends with the "Unable to convert" note. |
| Moves.TableFrame | src/RpgleFree.js:55-113 | The table keeps its keys. Only a known date, time or timestamp source is changed, to constant with length 10, 8 or 26. |
| Moves.KnownTargetNotes | src/RpgleFree.js:115-127 | A known target raises no assumption note. The only possible note is the failure. |
| Moves.QuotedIntoUnknown | src/RpgleFree.js:58-82 | A quoted literal moved into an unknown field assumes a character target, with one note, and always converts. |
| Moves.UnknownIntoUnknown | src/RpgleFree.js:115-135 | An unquoted unknown source into an unknown target assumes the source's numeric type, and gives a plain assignment. |
| Moves.QuotedMoveLeft | src/RpgleFree.js:160-163 | An unpadded MOVEL of a literal substitutes into positions 1 to the literal's length. |
| Moves.NumericTarget | src/RpgleFree.js:132-135 | A numeric target always gets a plain assignment. |
| Moves.DateTarget | src/RpgleFree.js:137-147 | A date target gets `*DATE` as it is, any other source as `%Date(s)`, or as `%Date(s: attr)` when the attribute is not empty. |
| Moves.CharTargetFailure | src/RpgleFree.js:149-199 | A character target fails exactly when the source type is not character, numeric or temporal. |
| Moves.SourceConstness | src/RpgleFree.js:55-113 | With a table of declared fields, the source counts as constant exactly when it is undeclared (a literal) or a declared date, time or timestamp. |
| Moves.PaddedMoveLeft | src/RpgleFree.js:152-155 | A padded MOVEL into a character field assigns the whole field by its plain name. |
| Moves.PaddedMoveRight | src/RpgleFree.js:152-158 | A padded MOVE into a character field assigns it through `EvalR name`. |
| Moves.UnpaddedMoveLeft | src/RpgleFree.js:159-165 | An unpadded MOVEL assigns `%Subst(t: 1: n)`, with n the literal length for a constant and `%Len(src)` otherwise. |
| Moves.UnpaddedMoveRight | src/RpgleFree.js:166-172 | An unpadded MOVE assigns `%Subst(t: %Len(t) - n)`, with n the literal length for a constant and `%Len(src)` otherwise. |
| Moves.CharTargetValue | src/RpgleFree.js:149-199 | A known character target with a character, numeric or temporal source always converts: its left-hand side, then ` = `, the source side and `;`. |
| Moves.CharIntoChar | src/RpgleFree.js:175-179 | A character source moved into a known character field: the suggestion converts and ends with ` = src;`. |
| Moves.NumericIntoChar | src/RpgleFree.js:181-187 | A numeric source moved into a known character field: the suggestion converts and ends with ` = %Char(src);`. |
| Moves.TemporalIntoChar | src/RpgleFree.js:189-196 | A date, time or timestamp source moved into a known character field: the suggestion converts and ends with ` = %Char(src: attr);`, or ` = %Char(src);` when the attribute is empty. |
| Moves.UnsupportedTarget | src/RpgleFree.js:129-132 | Any other target type never converts, and raises only the failure note. |
| Increments.ForBy | src/RpgleFree.js:604-607 | The match of `(For .*?)( by NAME)` is the first `For ` followed by the first ` by NAME` after it. When there is none, no pair matches. |
| Increments.LastAt | src/RpgleFree.js:616 | The last occurrence of a pattern from a position on, which is where the greedy `.*` stops. |
| Increments.NearestFor | src/RpgleFree.js:606-621 | The nearest matching line before the current one, with no match in between. |
| Increments.Misses | src/RpgleFree.js:622-624 | One identical miss message per line passed over, raised on the current line. |
| Increments.PatchIncrement | src/RpgleFree.js:606-625 | The backward loop patches exactly the nearest match and raises one message per line it passed. |
| Increments.DropStep | src/RpgleFree.js:608-609 | A step of "" or "1" takes out exactly the matched ` by NAME`: the line is shorter by that clause, and putting it back at the match gives the line as it was. |
| Increments.SubstituteStep | src/RpgleFree.js:610-611 | A positive step is written where NAME stood, and the rest of the line is kept around it. |
| Increments.DowntoFinds | src/RpgleFree.js:616 | Once a ` by VALUE to ` follows a `For `, the rewrite produces a ` by VALUE downto `. |
| Increments.NegativeStep | src/RpgleFree.js:615-617 | A negative step in front of ` to ` makes the patched loop count down. |
| Increments.PatchedKeepsFrom | src/RpgleFree.js:606 | The scan never touches the current line or any later line. |
| PostProcess.FixVarying | src/RpgleFree.js:499-520 | A line outside DS/PR/PI and not a `Dcl-S`, or failing the pattern test, is returned as it is. Otherwise it is rewritten, with a trailing `;` set aside and put back. |
| PostProcess.QuoteNames | src/RpgleFree.js:441-447 | Only DS lines, and `Dcl-…DTAARA(` lines outside any block, are rewritten. |
| PostProcess.UntouchedUnlessGuarded | src/RpgleFree.js:561-565 | A line that neither guard lets through is written exactly as it came. |
| PostProcess.OtherBlocksUntouched | src/RpgleFree.js:501-503 | In any other block, only a `Dcl-S` line can change. |
| PostProcess.NoVaryingKeyword | src/RpgleFree.js:508-510 | Without ` VARYING` the VARYING step never fires. |
| PostProcess.SemicolonKept | src/RpgleFree.js:516-520 | Setting aside and restoring the `;` is lossless. |
| PostProcess.CiAtUpper | src/RpgleFree.js:508 | A case-folded comparison at a position gives the same answer on a line and on its upper-cased copy. |
| PostProcess.VaryingCandidateUpper | src/RpgleFree.js:508 | The `/…VARYING…/i` test is case-insensitive: an upper-cased line passes it exactly when the line does. |
| PostProcess.DtaaraDeclUpper | src/RpgleFree.js:445 | The `/Dcl-.*DTAARA *\(/i` test is case-insensitive: an upper-cased line passes it exactly when the line does. |
| PostProcess.StandaloneVarying | src/RpgleFree.js:501-510 | `Dcl-S NAME Char(LEN) VARYING;` passes both guards for every name and length. |
| LineViews.Padded | src/RpgleFree.js:246 | The line is one leading blank plus the text padded to 80. |
| LineViews.EndOfLineComment | src/RpgleFree.js:255-258 | Past column 80, the first 80 columns are converted and the rest becomes the comment. |
| LineViews.ShortLinePadded | src/RpgleFree.js:246-258 | Short lines are padded to 81 characters and carry no comment. |
| LineViews.SpecColumn | src/RpgleFree.js:269 | The specification type is column 6, trimmed and upper-cased. |
| LineViews.CommentsHaveNoSpec | src/RpgleFree.js:266-269 | Comment and directive lines lose their specification letter. |
| LineViews.Gutter | src/RpgleFree.js:248-263 | The gutter is columns 1-5 and two blanks, or all blanks for `**FREE`. |
| LineViews.TableMarkerColumns | src/RpgleFree.js:286 | The `**` test on the prepared line reads the raw line's first two columns. |
| LineViews.CommentLineShape | src/RpgleFree.js:319 | A converted comment line is seven blanks, the indentation, then `//`. |
| LineViews.MergeBeforeTerminator | src/RpgleFree.js:657-662 | Before a plain `;`, the keywords are inserted after one blank. |
| LineViews.MergeAtPlusMarker | src/RpgleFree.js:645-650 | A `+` marker is replaced by the trimmed keywords. |
| LineViews.MergeKeepsTerminator | src/RpgleFree.js:641-663 | Every merge ends with the statement's `;` and what followed it. |
| LineViews.MergeWithoutTerminator | src/RpgleFree.js:641-662 | With no `;` on the line above, the keywords end up in front of the whole line. |
| Splice.InsertAllInRange | src/RpgleFree.js:427-431 | Rows inserted one by one at an advancing index land in order at the start position. |
| Splice.InsertAllKeepsSuffix | src/RpgleFree.js:427-431 | Everything from the insertion point on survives after the inserted rows. |
| Splice.SpliceIn | src/RpgleFree.js:427-431 | The insertion loop computes `InsertAll`, and the cursor ends past the inserted rows. |
| HSpecs.ParseLine | src/specs/H.js:28-48 | A `+`/`-` line is a continuation and is left unterminated. Otherwise a non-empty statement is terminated with `;` and marked changed, with `Ctl-Opt ` only on a first line. |
| HSpecs.TerminatedValue | src/specs/H.js:38-46 | The written value in terms of the trimmed keywords: `Ctl-Opt;`, `Ctl-Opt k;` or `k;`. |
| HSpecs.StatementRoundTrip | src/specs/H.js:38-46 | Taking the prefix and `;` off a written statement gives back exactly the trimmed keywords. |
| HSpecs.FirstLineStatement | src/specs/H.js:38-46 | A first line is always written as `Ctl-Opt …;`. |
| HSpecs.ContinuationUnterminated | src/specs/H.js:34-46 | A continuation line is not changed, is marked as a block member, and never ends in `;`. |
| HSpecs.HSpec.constructor | src/specs/H.js:1 | Nothing is converted yet. |
| HSpecs.HSpec.Init | src/specs/H.js:4-6 | `init` clears the converted flag. |
| HSpecs.HSpec.Final | src/specs/H.js:19-26 | `final` always returns the empty output. |
| HSpecs.HSpec.Parse | src/specs/H.js:28-48 | `parse` gives `ParseLine` and sets the converted flag. |
| DSpecs.KindOf | src/specs/D.js:47 | The definition kind reads back as the column text. |
| DSpecs.Declaration | src/specs/D.js:68-79 | The variable record: standalone exactly for S. An untyped standalone without a LIKE adjustment becomes `A` without decimals and `S` with them. |
| DSpecs.InitOutputShape | src/specs/D.js:17-28 | `initOutput()` writes nothing and carries an empty non-standalone record. |
| DSpecs.ReservedWordForcing | src/specs/D.js:49-59 | A reserved word empties position and length, rules out a LIKE adjustment, and becomes the type when there is no type code. |
| DSpecs.LikeAdjustment | src/specs/D.js:61-66 | A LIKE with a +/- length has no type code, and outside a DS header it has no free type either. |
| DSpecs.PositionedLength | src/specs/D.js:81-84 | A from-position makes the length `len - pos + 1` and prefixes `Pos(pos)` to the keywords. |
| DSpecs.PositionedByteTypes | src/specs/D.js:109-179 | Positioned packed fields hold `2*bytes - 1` digits, and positioned binary fields are `Bindec(9)` for 4 bytes and `Bindec(4)` otherwise. |
| DSpecs.IntegerWidths | src/specs/D.js:150-167 | I lengths of 1, 2, 4 and 8 bytes become the digit count of the largest value that fits in that many bytes. |
| DSpecs.UnsignedWidths | src/specs/D.js:200-217 | The same for U, up to letter case. |
| DSpecs.OtherIntegerLengths | src/specs/D.js:150-217 | Any other I or U length is written through unchanged. |
| DSpecs.PackedAsWrittenUnbalanced | src/specs/D.js:251 | The blank-code packed text as written has one `)` more than `(`, for example `Packed7: 2)`. |
| DSpecs.PackedBalanced | src/specs/D.js:251 | The corrected `Packed(len: dec)` is balanced. |
| DSpecs.NameContinuation | src/specs/D.js:86-97 | A name ending in `...` writes nothing and carries its name to the next line. |
| DSpecs.DeferredNameUsed | src/specs/D.js:86-91 | The carried name is the one the next line declares, and it is used only once. |
| DSpecs.HeaderStatementShape | src/specs/D.js:271-304 | A DS/PR/PI statement is a head of its own kind, opens a block unless it is LIKEDS/LIKEREC, and starts `Dcl-<kind>`. |
| DSpecs.HeaderLine | src/specs/D.js:271-327 | A header line is written terminated, opens a block of its kind in the result and in the carried state, and sets the subfield flag exactly for DS. |
| DSpecs.HeaderPrefixes | src/specs/D.js:275-281 | Column 23 `S` adds `PSDS`, and `U` adds `DtaAra(*AUTO)`. |
| DSpecs.KeywordOnlyStatement | src/specs/D.js:306-314 | A nameless, typeless member statement hands its keywords to the line above. |
| DSpecs.KeywordOnlyMember | src/specs/D.js:306-320 | The same for a whole D line. |
| DSpecs.TerminateShape | src/specs/D.js:324-327 | Termination appends exactly one `;` to the right-trimmed value and changes nothing else. |
| DSpecs.StatementUnchanged | src/specs/D.js:258-321 | No statement is marked changed before termination. |
| DSpecs.ChangedIffWritten | src/specs/D.js:324-327 | A D line is marked changed exactly when it writes something, which then ends in `;`. |
| DSpecs.DSpec.constructor | src/specs/D.js:4-7 | The module variables start cleared. |
| DSpecs.DSpec.Init | src/specs/D.js:10-15 | `init` clears them. |
| DSpecs.DSpec.Final | src/specs/D.js:30-37 | `final` always returns `initOutput()`. |
| DSpecs.DSpec.Parse | src/specs/D.js:39-329 | `parse` gives `LineResult` and steps the carried state by `NextState`. |
| Plugins.ExternalSpec.constructor | src/RpgleFree.js:38-40 | A plugin starts with no recorded calls. |
| Plugins.ExternalSpec.Init | src/RpgleFree.js:38-40 | `init` forgets the calls. |
| Plugins.ExternalSpec.Parse | src/RpgleFree.js:372 | `parse` answers from the earlier calls and records this one. |
| Plugins.ExternalSpec.Final | src/RpgleFree.js:366 | `final` answers from the earlier calls and records this one. |

## Left out

- The C, F and P plugins' own conversions: their files are not part of this model. Each is an arbitrary response function of its call history, so every result they could give is covered.
- The regular-expression rewrites inside `fixVaryingKeyword` and `quoteNameValues` (src/RpgleFree.js:449-496 and 522-550). Only their guards are modelled exactly. The rewrite bodies are function parameters of the converter.
- PostProcess.FixVarying: states the guard and the semicolon handling, not the text the VARYING rewrite produces.
- `wasVarDtaAra` (src/RpgleFree.js:34): it is always false and is only passed through, so it is not modelled.
- `nextline` (src/RpgleFree.js:271-278): it is computed and never read.
- `maxFixedFormatLineLength`: it is the constant `LineViews.MaxFixedLength`, not a field.
- Regular-expression semantics in names: step names and values are matched literally. `.` is taken to match every character, with no line terminators. `$` patterns in replacement text are not interpreted.
- Unicode case mapping: `toUpperCase`/`toLowerCase` are modelled on ASCII letters only.
- `Number()` on text with a decimal point, an exponent or a hexadecimal prefix is read as NaN. Column fields of a D line are digit strings in practice.
- Writes at array index -1: they happen only if a C, F or P result removes line 0 mid-run. The run then ends with `Unsupported` rather than following JavaScript's property semantics.
- TypeErrors: a run that raises one ends with `Threw`. Nothing after it is modelled.
- Shared plugin state: the `specs` objects are module singletons shared by every converter instance. The model gives each converter its own plugin instances, which `init` resets at construction exactly as the source does.
- The VS Code extension layer (commands, editor edits, diagnostics) is not part of this model.
- Converter.Dedent, Converter.Shift: the indentation is an unbounded integer, and overflow is not modelled.
- Converter.RpgleFree.MoveCase, KeywordsCase, RemoveCase, ValueCase, Prepare, PatchStep, RewriteFrame: these are summaries for the loop proof. Their exact effect is stated by ApplyMove, ApplyAboveKeywords, ApplyRemove, ApplyValue, TrackBlock, Increment and Rewrite.
- Converter.RpgleFree.OutputParsedResults, Step, Visit, Scan, Parse, Convert, Route, Dispatch, ParseWith, FlushPrevious, FlushFinal, Place: they state the frame the whole run keeps (cursor, untouched suffix, compile-time table, message and table growth), not the converted text line by line. The text of each line is stated by the members they call. Scan and Parse also do not state which lines are read at cursor 0: the first line, and a line read after every line above it was deleted.
- Converter.RpgleFree.Finish: states that the lines from the cursor on survive, and that nothing changes when nothing is held or open. It does not state the text of the final plugin's rows.

## Findings

| source | as written | input that shows it | evidently intended | confidence | as-written member | corrected member |
|---|---|---|---|---|---|---|
| src/specs/D.js:251 | A packed field with a length, decimals and no type code, outside a DS, gets the type `Packed${len}: ${decimals})`, which lacks the opening parenthesis | A standalone D line with length 7, decimals 2 and a blank type column gives `Packed7: 2)` | `Packed(7: 2)` | high, not executed | DSpecs.PackedAsWrittenUnbalanced | DSpecs.PackedBalanced |
| src/RpgleFree.js:394 | The flush after the loop reads `result.arrayoutput.length`. The held result is `{}` when no line was dispatched, or the `{change, value}` pair from `suggestMove` when the last dispatched line was a MOVE/MOVEL, so the read raises a TypeError | An empty member, or a member whose last specification line is a C line the calculation plugin reports as a MOVE | A missing output reads as no lines, and the run completes | high, not executed | Converter.HeldOutputAsWritten | Converter.HeldOutput |

For the first finding, the model's type mapping uses the corrected `PackedType`.
For the second, the converter's flushes read `HeldOutput`, and `Converter.RpgleFree.Parse` proves that an empty member completes.
`Converter.EmptyMemberFlushThrows` and `Converter.FlushAfterMoveThrows` show the two inputs on which the code as written fails.
