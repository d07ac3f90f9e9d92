# ralph-loop: a Dafny model of the plan engine and the loop policy

ralph-loop drives a coding agent through a markdown implementation plan, one step at a time.
This project models the core of that program in Dafny and proves what the core promises.

**The plan document** (`internal/plan`)
- A plan has a title, an optional `## Context` section and checkbox step lines `- [ ] Step n: …`.
- It also has one annotation block per step: a `### Step n` header followed by Status, Last Run, Notes and Retries field lines.
- The parser scans the text line by line and numbers the steps by position.
- The writer patches the text after every agent run. It rewrites the step's checkbox and the fields of its annotation block, and creates that block when it is missing.
- A second renderer prints a whole plan from scratch.

**The agent's side** (`internal/prompt`)
- The prompt builder assembles the text given to the agent for one step.
- The result parser reads the agent's verdict (`STEP_COMPLETE` or `STEP_FAILED: reason`) off its transcript, scanning from the last line to the first.

**The loop** (`internal/loop`)
- Every pass re-reads the plan and picks the first Pending or Failed step.
- It skips a step whose retry budget is spent and waits an exponential backoff before a retry.
- It then runs the agent under a deadline and persists the outcome: timeout, interruption by the user, a launch error, or a transcript.
- The prompt detector wraps the agent's output stream. It keeps the last ten non-blank lines and shows one warning box when a line looks like a question or when output stalls for thirty seconds. The box is not shown again until the detector is reset.
- The agent factory maps the three agent names to agents.

**How the model is built**
- Each core file keeps its own form:
  - pure search loops and string logic become functions and lemmas;
  - the scanning loop of the parser and the two passes and insertion loop of the writer become methods with loops, proved equal to specification functions;
  - the detector and the runner become classes whose methods update their fields.
- The regular expressions of the plan grammar become hand-written scanners. These follow Go's leftmost-first matching (module `Grammar`).
- The agent, the clock and the user's Ctrl+C become inputs. A `Round` says how one agent call ended, whether cancellation was seen, and the timestamp the writer stamps. Detector methods take the current time as a parameter.

**Behaviour the lemmas exhibit, as the code has it**
- The writer never reads the result's explicit status or its retry count, and it never writes a `**Retries**` line. A step skipped for a spent retry budget is therefore written exactly like an ordinary failure: checkbox `[!]`, status `failed` (`SkipWritesPlainFailure`, `NeverWritesRetries`, `IgnoresStatusAndRetryCount`).
- The test for leaving an annotation block (`internal/plan/writer.go:92`) never changes the state: the header test on the same line has just set the block number to that header's number. The step's block therefore runs from its header to the next header of another step. A line starting `### Step` that is not a well-formed header after the first block panics there. The model states well-formedness as `NoPanic`, and the loop has a `WriterPanic` exit.
- The parser follows the code where its description of Context differs from it: a later closed `## Context` block replaces an earlier one, and an unterminated block contributes nothing.

## Model

| member | source | states |
|---|---|---|
| PlanModel.FirstRunnable | internal/plan/types.go:34-43 | the first index at or after `from` whose step is Pending or Failed, every step between is neither, and None only when no step from `from` on is runnable |
| PlanModel.NextStep | internal/plan/types.go:34-43 | the index of the first Pending or Failed step with every earlier step Completed or Skipped; None exactly when every step is Completed or Skipped, the empty plan included |
| PlanModel.AllDoneFrom | internal/plan/types.go:46-51 | true exactly when every step from `from` on is Completed or Skipped |
| PlanModel.IsComplete | internal/plan/types.go:46-53 | true exactly when the plan has steps and all of them are Completed or Skipped; false for the empty plan |
| PlanModel.CompleteIffNoNextStep | internal/plan/types.go:34-53 | for a plan with steps, being complete and having no next step coincide |
| PlanModel.SelectionByStatusOnly | internal/plan/types.go:34-43 | two plans of the same length whose steps have the same statuses select the same next step: the choice depends on the statuses alone |
| PlanModel.SelectionAfterMark | internal/plan/types.go:34-43 | after the selected step's status is changed, the selection stays on it when the new status is Pending or Failed, and otherwise moves to a later step or to none: no earlier step is ever selected |
| Text.TrimLeft | internal/plan/parser.go:71 | a suffix of the input that is empty or starts with a non-space |
| Text.TrimRight | internal/plan/parser.go:71 | a prefix of the input that is empty or ends with a non-space |
| Text.TrimLeftRemovesSpaces | internal/plan/parser.go:71 | the characters TrimLeft drops are all spaces |
| Text.TrimRightRemovesSpaces | internal/plan/parser.go:71 | the characters TrimRight drops are all spaces |
| Text.TrimSpace | internal/plan/parser.go:71 | no longer than the input, and neither starts nor ends with a space |
| Text.TrimSpaceOfSpaces | internal/plan/writer.go:111 | a line made only of spaces trims to the empty string |
| Text.TrimSpaceIdempotent | internal/loop/promptdetector.go:73 | trimming twice is trimming once |
| Text.TrimSpaceKeepsOut | internal/prompt/builder.go:85 | trimming adds no character that was not there |
| Text.RegexSpaceIsSpace | internal/plan/parser.go:14 | every `\s` character is a space for TrimSpace |
| Text.IndexOf | internal/prompt/builder.go:102 | a found index is where the text occurs |
| Text.IndexOfFirst | internal/prompt/builder.go:101-103 | the index found is the first occurrence, and nothing is found only when there is no occurrence |
| Text.PrefixFound | internal/prompt/builder.go:84-85 | a prefix is found at index 0 |
| Text.Split | internal/plan/writer.go:29 | splitting never yields an empty list |
| Text.SplitPieces | internal/plan/writer.go:29 | no piece of a split holds the separator |
| Text.JoinAppend | internal/plan/writer.go:121 | joining two non-empty lists is joining their joins around one separator |
| Text.SplitNoSep | internal/plan/writer.go:29 | a text without the separator splits into itself alone |
| Text.SplitAfterPiece | internal/plan/writer.go:29 | a separator after a piece without one splits off that piece |
| Text.SplitConcat | internal/plan/writer.go:29 | splitting at a separator between two texts splits each of them |
| Text.SplitJoin | internal/plan/writer.go:29-121 | joining pieces without separators and splitting again gives the pieces back |
| Text.JoinSplit | internal/plan/writer.go:29-121 | splitting a text and joining it again gives the text back |
| Text.ScanLines | internal/plan/parser.go:57-67 | the scanner's tokens hold no newline |
| Text.DropCR | internal/plan/parser.go:67 | dropping the carriage return adds no newline |
| Text.NatToString | internal/plan/writer.go:139-142 | `%d` of a natural number is a non-empty run of digits |
| Text.DigitsValueOfNatToString | internal/plan/parser.go:195-199 | reading back the digits `%d` prints gives the number |
| Text.ScanInt | internal/plan/parser.go:195-199 | `%d` scanning of a run of digits succeeds exactly when the run is non-empty and its value fits in a 64-bit int, and then yields that value |
| Text.Repeat | internal/loop/promptdetector.go:169-170 | `n` copies of the character |
| Text.DigitChar | internal/plan/writer.go:139 | each digit value is printed as a decimal digit |
| Grammar.SkipSpaces | internal/plan/parser.go:14-38 | the end of the run of `\s` characters starting at `i` |
| Grammar.SkipSpacesAt | internal/plan/parser.go:14-38 | the scan stops exactly at the end of the run of spaces |
| Grammar.SkipDigits | internal/plan/parser.go:14-20 | the end of the run of digits starting at `i` |
| Grammar.SpacesThenRest | internal/plan/parser.go:17-29 | the capture of `\s+(.+)$` is non-empty and starts after at least one space |
| Grammar.MatchStepLine | internal/plan/parser.go:14 | a match starts with `-` and yields one of the four checkbox markers |
| Grammar.StepLineHasParts | internal/plan/parser.go:14 | every step line is `-`, spaces, a checkbox and spaces, and its marker is the one inside the box |
| Grammar.StepLineFromParts | internal/plan/parser.go:14 | conversely, those parts make a step line with that marker |
| Grammar.MatchProjectName | internal/plan/parser.go:17 | a title line starts with `#` |
| Grammar.MatchNotesHeader | internal/plan/parser.go:20 | a block header starts with `###` and captures only digits |
| Grammar.MatchStatusField | internal/plan/parser.go:23 | a Status field starts with its label |
| Grammar.MatchLastRunField | internal/plan/parser.go:26 | a Last Run field starts with its label |
| Grammar.MatchNotesField | internal/plan/parser.go:29 | a Notes field starts with its label |
| Grammar.MatchRetriesField | internal/plan/parser.go:32 | a Retries field starts with its label and captures only digits |
| Grammar.NoHashNoHeader | internal/plan/parser.go:17-38 | a line not starting with `#` is no title, Context header, section header or block header |
| Grammar.SectionHeaderIsNoTitle | internal/plan/parser.go:17-38 | a `## <word>` header is never a project title |
| Parser.ParseCheckbox | internal/plan/parser.go:182-193 | `x` gives Completed, `!` Failed, `-` Skipped and anything else Pending, each in both directions |
| Parser.ParseStepNumberOfNatToString | internal/plan/parser.go:195-199 | the number read from printed digits is the number printed, for every number up to the largest int |
| Parser.ParseStepNumber | internal/plan/parser.go:195-199 | a run of digits reads as its value when that fits in a 64-bit int; a larger value makes Sscanf fail and reads as 0; the result never exceeds the largest int |
| Parser.ParseStepNumberOutOfRange | internal/plan/parser.go:195-199 | the printed digits of a number beyond the largest int read as 0 |
| Parser.BlockHeaderMatches | internal/plan/parser.go:110-111 | the header `### Step n` the writer prints is recognised with the number n |
| Parser.FeedBody | internal/plan/parser.go:95-149 | one iteration after the Context handling keeps the scan invariant: steps numbered by position, and an open block has its record |
| Parser.FeedNotes | internal/plan/parser.go:109-149 | a line that is not a step line changes only the annotation state |
| Parser.MergeNotes | internal/plan/parser.go:157-170 | a step's number, description and status are kept; a block's retry count always replaces the step's, its notes unless they are `(none)`, and its Last Run only when it is set, not `N/A` and a valid timestamp; a step without a block is unchanged |
| Parser.MergeAll | internal/plan/parser.go:157-170 | the merge keeps the number of steps |
| Parser.ScanLine | internal/plan/parser.go:66-150 | one pass of the scanning loop, with the checks in the source's order, is the step function Feed |
| Parser.ApplyNotes | internal/plan/parser.go:158-169 | the body of the merge loop is MergeNotes |
| Parser.Parse | internal/plan/parser.go:51-173 | never fails, keeps the raw text, numbers the steps 1..N in document order, and returns exactly the plan PlanOf states |
| ParserBlocks.LastCaptureIsLast | internal/plan/parser.go:120-143 | a field's captured value is none exactly when no line matches, and otherwise comes from a matching line with no matching line after it |
| ParserBlocks.BlockRecordSnoc | internal/plan/parser.go:120-143 | one more body line updates the block's record as the parser's field checks do |
| ParserBlocks.FeedNoteStep | internal/plan/parser.go:109-149 | the annotation state after one line is unchanged for a line another branch takes, and otherwise follows the block rules |
| ParserBlocks.NotesFold | internal/plan/parser.go:51-149 | the annotation records of a full scan are those of the fold over the lines by the block rules |
| ParserBlocks.NotesKeys | internal/plan/parser.go:110-118 | a step number gets a record exactly when some line outside a Context block is a block header for it |
| ParserBlocks.BlockScan | internal/plan/parser.go:110-143 | after a header for `n` and its body lines, the record of `n` is the previous record (or a fresh one) updated by those lines, and the block is still open |
| ParserBlocks.RecordKept | internal/plan/parser.go:110-148 | lines with no header for `n` leave the record of `n` as it was once its block is closed |
| ParserBlocks.BlockInFold | internal/plan/parser.go:110-148 | a block closed by a line that ends it leaves a record built from its body lines |
| ParserBlocks.AfterBlock | internal/plan/parser.go:144-148 | a line that ends the open block closes it without changing its record, and later lines keep it |
| ParserBlocks.BlockOfDocument | internal/plan/parser.go:110-148 | in a whole document, the record of `n` is its last block's body folded over the record left by earlier blocks |
| ParserBlocks.RecordKeys | internal/plan/parser.go:110-118 | the scan holds a record for `n` exactly when the document has a block header for `n` outside a Context block |
| ParserBlocks.NoHeaderNoRecord | internal/plan/parser.go:110-118 | without a header for `n` there is no record for `n` |
| ParserBlocks.FreshSteps | internal/plan/parser.go:96-106 | every step the scan lists is numbered by its position and has no retries, no last run and no notes |
| ParserBlocks.StepAnnotations | internal/plan/parser.go:156-170 | the plan has one step per counted step line, and each step carries its record's retries, notes (with `(none)` read as empty) and last run (only a valid timestamp), or nothing when no record exists |
| ParserBlocks.StepAnnotation | internal/plan/parser.go:156-170 | the same for one step |
| ParserBlocks.StepFromBlock | internal/plan/parser.go:110-170 | for a document with a single block for step `n`, the step's retries, notes and last run are read from the last Retries, Notes and Last Run lines of that block |
| ParserBlocks.RetriesLineValue | internal/plan/parser.go:139-142 | a Retries line with a printed count sets that count when it fits in an int and is ignored otherwise |
| Parser.CountedStepLines | internal/plan/parser.go:82-107 | the lines that become steps are step lines of the document, in order |
| Parser.FeedBodyFields | internal/plan/parser.go:95-107 | the title and Context fields are untouched, and a step is added exactly for a step line |
| Parser.FeedHead | internal/plan/parser.go:69-93 | the title, the Context flag and the collected Context lines after one line |
| Parser.FeedSteps | internal/plan/parser.go:82-107 | a step line outside an open Context block adds exactly one step |
| Parser.ContextFlagTracks | internal/plan/parser.go:75-93 | the Context flag is up exactly when the last Context header has not been followed by a `## <word>` header |
| Parser.StepsFromStepLines | internal/plan/parser.go:96-107 | the k-th counted step line becomes step k+1 whatever its label says, with the status of its checkbox and the trimmed description |
| Parser.ProjectNameFromLastTitle | internal/plan/parser.go:70-73 | the project name is the trimmed capture of the last title line, or empty when there is none |
| Parser.ContextOnlyWhenClosed | internal/plan/parser.go:76-93 | Context is empty unless some Context block is closed by a later `## <word>` header |
| Parser.ContextCollects | internal/plan/parser.go:76-92 | inside a Context block every plain line is collected, in order |
| Parser.ContextOfClosedBlock | internal/plan/parser.go:83-88 | a closed block's value is its lines joined with newlines and trimmed, and the closing header ends the block |
| Parser.StatusFromCheckboxOnly | internal/plan/parser.go:96-170 | every parsed step's status is the one its checkbox gives; the block's Status field never reaches it |
| Writer.UpdateCheckbox | internal/plan/writer.go:124-127 | the line keeps its length |
| Writer.UpdateCheckboxPointwise | internal/plan/writer.go:124-127 | the left-to-right replacement changes exactly the middle of every `[ ]`, `[x]` and `[!]` of the original line to the marker |
| Writer.UpdateCheckboxFirst | internal/plan/writer.go:124-127 | a line not starting with `[` keeps its first character |
| Writer.UpdateCheckboxStepLine | internal/plan/writer.go:124-127 | a step line stays a step line and its checkbox gets the marker, except that `[-]` stays |
| Writer.CheckboxLineShape | internal/plan/writer.go:39-52 | a line the first pass changes starts with `-` before and after |
| Writer.CheckboxPassHeaders | internal/plan/writer.go:39-58 | the first pass keeps the block header of every line |
| Writer.CheckboxPassLastHeader | internal/plan/writer.go:39-58 | the first pass keeps the last header before every position |
| Writer.CheckboxPassHeaderFor | internal/plan/writer.go:39-58 | the first pass keeps whether the step's header occurs before every position |
| Writer.CheckboxPassNoPanic | internal/plan/writer.go:39-92 | the first pass cannot make the second pass panic |
| Writer.Marker | internal/plan/writer.go:44-49 | the marker written is `x` or `!`, never a space |
| Writer.LastWhere | internal/plan/writer.go:165-174 | the last index below `n` whose line is accepted, with none accepted after it; None only when none is accepted |
| Writer.Truncate | internal/plan/writer.go:169-172 | at most 100 characters: a line of at most 100 is kept, a longer one becomes its first 97 and `...` |
| Writer.SummarizeOutputPicksLastLine | internal/plan/writer.go:156-177 | for every line of the trimmed output that is meaningful (non-empty once trimmed, not starting with `STEP_`) and followed by no meaningful line, the summary is that line trimmed and truncated; when no line is meaningful it is "Completed successfully" |
| Writer.SummarizeOutputOneLine | internal/plan/writer.go:156-177 | the summary holds no newline |
| Writer.SummarizeOutput | internal/plan/writer.go:156-177 | the summary is at most 100 characters long |
| Writer.CreateNotesSection | internal/plan/writer.go:129-143 | the block opens with the step's `### Step n` header followed by its Status line |
| Writer.SummaryLineOneLine | internal/plan/writer.go:166-172 | a line without newline stays one once trimmed and truncated |
| Writer.CompletedOneLine | internal/plan/writer.go:176 | the fallback summary holds no newline |
| Writer.TruncateKeepsOut | internal/plan/writer.go:169-172 | truncation adds no character except dots |
| Writer.InsertAfter | internal/plan/writer.go:145-154 | the list grows by exactly two elements |
| Writer.InsertAfterShape | internal/plan/writer.go:145-154 | the lines before the index stay, then come an empty line and the value, then the rest; past the end they are appended |
| Writer.StepLinesIn | internal/plan/writer.go:39-41 | the count of step lines is at most the number of lines |
| Writer.CheckboxPass | internal/plan/writer.go:39-58 | the first pass keeps the number of lines and rewrites each line as CheckboxLine states |
| Writer.NotesPass | internal/plan/writer.go:61-97 | the second pass rewrites each line as NotesLine states |
| Writer.LastAnchor | internal/plan/writer.go:107-108 | a found anchor lies below `n` |
| Writer.LastAnchorIsLast | internal/plan/writer.go:107-108 | the backward search finds the last `## Notes` or `### Step` line below `n`, and finds nothing only when there is none |
| Writer.SkipNonBlank | internal/plan/writer.go:110-113 | the skip never moves back and stays within the lines |
| Writer.SkipNonBlankStops | internal/plan/writer.go:110-113 | the skip passes only non-blank lines and stops at the first blank line or the end |
| Writer.BlockEnd | internal/plan/writer.go:110-113 | the insertion point lies after the anchor line |
| Writer.UpdatedLinesWhenFound | internal/plan/writer.go:61-121 | with the step's block present, the update is the two passes and nothing is inserted |
| Writer.UpdatedLinesWhenNoBlocks | internal/plan/writer.go:99-104 | without any block, the update is the two passes followed by `""`, `## Notes`, `""` and the new block |
| Writer.UpdatedLinesInsert | internal/plan/writer.go:105-118 | with blocks but none for the step, the update is the two passes with the new block inserted |
| Writer.UpdatedLinesWhenMissing | internal/plan/writer.go:105-118 | the new block goes after the last anchor line and the non-blank lines that follow it, behind an empty line |
| Writer.UpdatedLinesWithoutAnchor | internal/plan/writer.go:105-119 | with blocks, none for the step and no anchor line, nothing is inserted |
| Writer.MarkLine | internal/plan/writer.go:40-52 | one line of the first pass: a step line advances the count, and the stepNum-th one gets the result's marker |
| Writer.MarkStepLine | internal/plan/writer.go:38-58 | the first pass yields CheckboxPass, and reports a block header exactly when one exists |
| Writer.RewriteLine | internal/plan/writer.go:73-89 | the field rewrite of one line of the step's block |
| Writer.VisitLine | internal/plan/writer.go:62-96 | one iteration of the second pass: the header check, the rewrite and the leaving check |
| Writer.VisitAt | internal/plan/writer.go:61-97 | the iteration at line `i` writes NotesLine of that line and moves the pass state on by one line |
| Writer.RewriteBlock | internal/plan/writer.go:60-97 | the second pass yields NotesPass, and reports the step's block exactly when its header exists |
| Writer.SkipBlockLines | internal/plan/writer.go:110-113 | the inner insertion loop stops at BlockEnd of the anchor |
| Writer.FindAnchor | internal/plan/writer.go:107-108 | the backward search yields LastAnchor |
| Writer.InsertBlock | internal/plan/writer.go:105-118 | the insertion yields WithBlock: the block after the last anchor, or nothing without one |
| Writer.UpdateStepInContent | internal/plan/writer.go:28-122 | with well-formed headers, the patched text is UpdatedLines joined with newlines |
| WriterLemmas.UpdateCheckboxIdempotent | internal/plan/writer.go:124-127 | rewriting the boxes twice with the same marker is rewriting them once |
| WriterLemmas.StepLinesGrow | internal/plan/writer.go:39-41 | a step line before `j` is counted before `j` |
| WriterLemmas.TargetStepLineUnique | internal/plan/writer.go:39-52 | at most one line is the stepNum-th step line |
| WriterLemmas.CheckboxPassEffect | internal/plan/writer.go:39-52 | the first pass changes only the stepNum-th step line, which stays a step line whose checkbox becomes the marker, except that `[-]` stays |
| WriterLemmas.FieldKinds | internal/plan/parser.go:23-32 | the Status, Last Run, Notes and Retries fields exclude each other |
| WriterLemmas.StatusOutputFixed | internal/plan/writer.go:74-79 | a Status line as written is rewritten to itself |
| WriterLemmas.LastRunOutputFixed | internal/plan/writer.go:80-81 | a Last Run line as written is rewritten to itself |
| WriterLemmas.NotesOutputFixed | internal/plan/writer.go:82-87 | a Notes line as written is rewritten to itself |
| WriterLemmas.RewriteFieldIdempotent | internal/plan/writer.go:73-89 | a rewritten field is left as it is by a second rewrite |
| WriterLemmas.NotesPassEffect | internal/plan/writer.go:61-97 | the second pass keeps the number of lines; it changes only Status, Last Run and Notes lines inside the step's block and gives each the result's value; a Retries line never changes |
| WriterLemmas.SameWrittenFields | internal/plan/writer.go:44-142 | two results that agree on success, output and reason write the same marker, fields and new block |
| WriterLemmas.IgnoresStatusAndRetryCount | internal/plan/writer.go:28-143 | the result's explicit status and retry count never change the update |
| WriterLemmas.NewLinesNotRetries | internal/plan/writer.go:100-143 | none of the lines of a new section is a Retries field |
| WriterLemmas.RewriteFieldNotRetries | internal/plan/writer.go:73-89 | a rewritten field is no Retries field |
| WriterLemmas.MarkedNotRetries | internal/plan/writer.go:50 | a step line with its boxes rewritten is no Retries field |
| WriterLemmas.UpdatedLineFrom | internal/plan/writer.go:96-118 | every line of the update is a line of the two passes or a line the update adds |
| WriterLemmas.WithBlockLineFrom | internal/plan/writer.go:105-118 | every line after the insertion is a line of the two passes or a line the insertion adds |
| WriterLemmas.InsertedLineFrom | internal/plan/writer.go:145-154 | every line after insertAfter is the empty line, the value or a line of the input |
| WriterLemmas.RetriesLineKept | internal/plan/writer.go:28-122 | a Retries line of the update is a line of the input |
| WriterLemmas.NeverWritesRetries | internal/plan/writer.go:28-143 | the update never writes a Retries line: every Retries line of the output was already a line of the input |
| WriterIdempotence.FixedPoint | internal/plan/writer.go:28-122 | text whose target step line already carries the marker and whose target fields already hold their new values is returned unchanged |
| WriterIdempotence.PassesFixed | internal/plan/writer.go:39-97 | the lines both passes produce are a fixed point of both passes |
| WriterIdempotence.IdempotentWhenBlockExists | internal/plan/writer.go:28-122 | when the step's block exists, a second update with the same arguments leaves the text as the first left it |
| WriterIdempotence.FirstUpdateNoBlocks | internal/plan/writer.go:61-97 | without any block the second pass changes nothing, and the first pass keeps the shape of every line |
| WriterIdempotence.IdempotentWhenNoBlocks | internal/plan/writer.go:28-122 | when the plan has no block at all, a second update with the same arguments leaves the text as the first left it |
| WriterIdempotence.BlockJoin | internal/plan/writer.go:129-143 | the new block is its four lines joined with newlines |
| WriterIdempotence.TailFacts | internal/plan/writer.go:100-142 | the lines appended for a new section are no step lines, only the fourth is a block header (for the step), and the field rewrite keeps them |
| WriterIdempotence.SectionJoin | internal/plan/writer.go:100-121 | the appended section joins to the same text as its separate lines |
| WriterIdempotence.NotesPassShape | internal/plan/writer.go:61-97 | the second pass keeps what the grammars see in every line |
| WriterIdempotence.CheckboxPassShape | internal/plan/writer.go:39-58 | the first pass keeps what the grammars see in every line |
| WriterIdempotence.PassesNoPanic | internal/plan/writer.go:92 | both passes keep the headers well formed |
| WriterIdempotence.PassesHeaderFor | internal/plan/writer.go:63-70 | both passes keep the header of the step's block |
| WriterIdempotence.CreateNotesSectionLines | internal/plan/writer.go:129-143 | split into lines, a new block is exactly four lines: the header, the Status, Last Run and Notes lines, when the timestamp and reason hold no newline |
| WriterIdempotence.BeforeInsertPlace | internal/plan/writer.go:100-121 | in the lines `### Step m`, Notes, blank, Notes, a block for another step is inserted after the first Notes line, before the blank line |
| WriterIdempotence.FirstInsert | internal/plan/writer.go:28-122 | updating such a document for another step yields the header and first Notes line, the blank line, the new block, another blank line and the trailing Notes line |
| WriterIdempotence.SecondUpdateRewrites | internal/plan/writer.go:63-121 | a second update for the same step keeps nine lines but rewrites the trailing Notes line, now taken as part of the new block |
| WriterIdempotence.InsertionNotIdempotent | internal/plan/writer.go:28-122 | for every such document, step, result and timestamp, updating twice differs from updating once: the update is not idempotent when a block is inserted among others |
| WriterIdempotence.InsertionExample | internal/plan/writer.go:28-122 | a concrete instance of that case: `### Step 1`, `**Notes**: a`, blank, `**Notes**: b`, updated for step 2 |
| Render.RenderMarker | internal/plan/writer.go:194-202 | `x` exactly for Completed, `!` exactly for Failed, a space for Pending and Skipped |
| Render.WriteStepLine | internal/plan/writer.go:194-203 | the checkbox line of one step |
| Render.WriteNoteBlock | internal/plan/writer.go:207-224 | the block of one step, with `N/A` for an unset Last Run and `(none)` for empty Notes |
| Render.WriteHeader | internal/plan/writer.go:183-192 | the title, the Context section exactly when there is context, and the Plan heading |
| Render.AppendStepLines | internal/plan/writer.go:194-203 | the first loop appends one checkbox line per step, in order |
| Render.AppendNoteBlocks | internal/plan/writer.go:207-224 | the second loop appends one block per step, in order |
| Render.WriteFile | internal/plan/writer.go:180-225 | the text built is the rendered plan |
| Render.MarkerRoundTrip | internal/plan/writer.go:194-202 | reading back a rendered marker gives the step's status, except that Skipped comes back Pending |
| Render.StepLineParses | internal/plan/writer.go:202 | a rendered step line matches the step grammar with the step's marker and description |
| Render.StepLabelParses | internal/plan/writer.go:202 | the label `Step n: ` is recognised and the description captured |
| Render.CheckboxThenLabel | internal/plan/parser.go:14 | a checkbox and a labelled rest match the step grammar |
| Render.FieldLinesParse | internal/plan/writer.go:211-223 | the rendered Status, Last Run and Notes lines match their grammars with the values written |
| Render.StatusFieldParses | internal/plan/writer.go:211 | a rendered Status line is read back with its status name |
| Render.LastRunFieldParses | internal/plan/writer.go:217 | a rendered Last Run line is read back with its value |
| Render.NotesFieldParses | internal/plan/writer.go:223 | a rendered Notes line is read back with its value |
| Render.BlockHeaderParses | internal/plan/writer.go:208 | a rendered block header is read back with the step's number |
| Prompt.LineVerdictCases | internal/prompt/builder.go:77-109 | a line says Done exactly when it contains the completion marker and does not start with the failure marker, and nothing exactly when it has neither marker |
| Prompt.FailureReasonAfterFirstMarker | internal/prompt/builder.go:84-108 | a failure's reason is the trimmed text after the first failure marker of the line |
| Prompt.NothingSaidIff | internal/prompt/builder.go:74-117 | there is no verdict exactly when no line has one |
| Prompt.LastSaidStep | internal/prompt/builder.go:74-110 | one more line gives its own verdict if it has one, otherwise the earlier lines' |
| Prompt.ReadVerdict | internal/prompt/builder.go:75-109 | the four checks of one line, in the source's order, give the line's verdict |
| Prompt.ParseResult | internal/prompt/builder.go:70-118 | the result is ResultOf the transcript, with the transcript as output and no status or retry count |
| Prompt.LastVerdict | internal/prompt/builder.go:74-110 | the backward scan gives the verdict of the last line that has one |
| Prompt.LastLineWithVerdictWins | internal/prompt/builder.go:74-110 | the verdict is that of the highest-indexed line that has one |
| Prompt.LastSaidAppend | internal/prompt/builder.go:74-110 | a verdict in a later part of the lines hides the earlier part |
| Prompt.LaterMarkerWins | internal/prompt/builder.go:74-110 | whatever precedes a part of the transcript that carries a marker leaves success and reason unchanged |
| Prompt.DecidedByLastMarkerLine | internal/prompt/builder.go:74-110 | the last marker line decides: success when it has the completion marker and does not start with the failure marker, otherwise a failure with the reason after its first failure marker |
| Prompt.MarkerLineVerdict | internal/prompt/builder.go:77-109 | a trimmed line with a marker says Done or fails with the text after its first failure marker |
| Prompt.NoMarkerFails | internal/prompt/builder.go:112-117 | without a marker on any line the result is a failure with the fixed reason |
| Prompt.VerdictOneLine | internal/prompt/builder.go:84-108 | a reason read from one line holds no newline |
| Prompt.ReasonOneLine | internal/prompt/builder.go:70-118 | every reason holds no newline, so the Notes field it becomes stays one line |
| Prompt.ListingLineIsRendered | internal/prompt/builder.go:30-38 | the listing line of a step is the checkbox line the renderer writes |
| Prompt.PlanListingIsRendered | internal/prompt/builder.go:29-39 | the Full Plan listing is exactly the checkbox part of the rendered plan, with Skipped shown as `[ ]` in both |
| Prompt.PartsPresent | internal/prompt/builder.go:11-67 | Project Context is present exactly when there is context, Previous Attempt exactly when the step failed and has notes, and the other sections always, once each, in a fixed order |
| Prompt.BodiesShowPlanAndStep | internal/prompt/builder.go:29-52 | the prompt lists the plan as the plan file shows it, names the current step as `**Step n**: desc`, and carries the failed step's notes |
| Prompt.NotesInPreviousAttempt | internal/prompt/builder.go:48-51 | the notes follow the opening line of the Previous Attempt section |
| Prompt.Build | internal/prompt/builder.go:11-67 | the prompt opens with the task title and a blank line and closes with the line asking the agent to begin |
| Prompt.ConcatEndsWithClosing | internal/prompt/builder.go:64-66 | a list of sections ending with the closing one renders to text ending with the closing line |
| Agents.New | internal/agent/agent.go:29-41 | an agent exactly for the three names, reporting that name, and the error `unknown agent type: <s>` otherwise |
| Agents.ParseAgentType | internal/agent/agent.go:43-55 | the three names are accepted as they are; any other string is refused with the list of valid choices |
| Agents.ParseThenNew | internal/agent/agent.go:29-55 | every parsed type makes an agent that reports the name it was parsed from |
| Agents.NameRoundTrip | internal/agent/agent.go:23-55 | every agent's name parses back to itself and makes that agent again |
| Agents.NamesDistinct | internal/agent/agent.go:23-27 | the three names are distinct |
| LoopConfig.BackoffSchedule | internal/loop/runner.go:178-184 | the first retry waits the configured delay, and every further retry waits the factor times the one before |
| LoopConfig.BackoffGrows | internal/loop/runner.go:178-184 | with a factor of at least one the waits never shrink |
| LoopConfig.DefaultSchedule | internal/loop/config.go:14-21 | with the defaults the first three retries wait 5, 10 and 20 seconds |
| LoopConfig.DefaultTimeoutText | internal/loop/config.go:16-18 | the defaults are a timeout printed `30m0s`, three retries and a delay printed `5s` |
| LoopConfig.DefaultConfig | internal/loop/config.go:14-21 | the defaults are a 30-minute timeout and three retries, with a first retry delay of 5 seconds that doubles on the next |
| Durations.NoFraction | internal/loop/runner.go:131 | a whole number of units prints no fraction |
| Durations.ClockCase | internal/loop/runner.go:131 | from one second on, a duration prints as its clock reading, its fraction and `s` |
| Durations.ThirtyMinutes | internal/loop/runner.go:128-131 | thirty minutes print as `30m0s` |
| Durations.FiveSeconds | internal/loop/runner.go:100 | five seconds print as `5s` |
| Loop.Runner.constructor | internal/loop/runner.go:33-39 | a runner with the given configuration over the given plan text |
| Loop.Runner.CalculateBackoff | internal/loop/runner.go:178-184 | the loop multiplies the first delay by the factor once per retry after the first |
| Loop.Runner.UpdateStep | internal/plan/writer.go:13-26 | the plan text becomes the patched text, or stays as it was when the writer panics |
| Loop.Runner.SaveInterruptedState | internal/loop/runner.go:186-199 | the interruption is persisted as a failure with the retry count unchanged |
| Loop.Runner.Persist | internal/loop/runner.go:159-161 | the result is persisted and the pass goes on or stops as asked |
| Loop.Runner.RunAgent | internal/loop/runner.go:123-161 | the part of a pass from the agent call on is AfterAgent |
| Loop.Runner.RunOnce | internal/loop/runner.go:60-173 | one pass of the loop is PassOf |
| Loop.Runner.RunLoop | internal/loop/runner.go:59-175 | the loop over the given rounds ends with the text and exit RunOf states |
| LoopLemmas.FinishedIffNothingToRun | internal/loop/runner.go:62-79 | the loop finishes exactly when it was not cancelled and no step is Pending or Failed, and then writes nothing |
| LoopLemmas.AgentNeverFinishes | internal/loop/runner.go:75-161 | a pass that runs the agent never reports the plan finished |
| LoopLemmas.AgentEnds | internal/loop/runner.go:98-161 | a pass that reaches the agent waits the backoff, passes the prompt Build makes, and ends in one of the ways the agent's outcome allows |
| LoopLemmas.ZeroCount | internal/loop/runner.go:85-90 | the status and retry count of a persisted result never reach the file |
| LoopLemmas.PassStops | internal/loop/runner.go:59-175 | no single pass claims that the rounds ran out |
| LoopLemmas.NoAgentPass | internal/loop/runner.go:62-107 | a pass that does not reach the agent builds no prompt, and waits only when cancellation cut short the backoff of a due retry, for that backoff |
| LoopLemmas.CancelledWritesNothing | internal/loop/runner.go:62-106 | a cancelled pass writes nothing and never reaches the agent |
| LoopLemmas.AgentNotCancelled | internal/loop/runner.go:62-106 | a pass that runs the agent does not end in cancellation |
| LoopLemmas.AgentRunsOnlyWhenDue | internal/loop/runner.go:62-123 | the agent runs only when the pass gets that far, on the prompt built for the re-read plan and the selected step |
| LoopLemmas.WaitsOnlyBeforeRetry | internal/loop/runner.go:98-107 | the loop waits only before retrying a Failed step with a positive retry count, and then for its backoff |
| LoopLemmas.FirstRetryWaitsDelay | internal/loop/runner.go:98-107 | the first retry waits exactly the configured delay |
| LoopLemmas.SkipWritesPlainFailure | internal/loop/runner.go:82-95 | a step whose retry budget is spent is skipped without running the agent or waiting, and written exactly like a failure with the skip reason |
| LoopLemmas.TimeoutWritesFailure | internal/loop/runner.go:127-138 | a timed-out agent call is written as a failure with the timeout reason, and the loop goes on unless the writer panics |
| LoopLemmas.InterruptSavesAndStops | internal/loop/runner.go:140-144 | an agent call cut short by the user is saved with the interruption reason, and the loop stops with a nil error |
| LoopLemmas.LaunchErrorWritesNothing | internal/loop/runner.go:140-145 | any other agent error stops the loop at once with that error and writes nothing |
| LoopLemmas.TranscriptWritesVerdict | internal/loop/runner.go:148-161 | a transcript is persisted as ParseResult reads it, and the loop goes on unless the writer panics |
| LoopLemmas.CountIgnored | internal/loop/runner.go:151-161 | the retry count the loop attaches to a verdict does not reach the file |
| LoopLemmas.RunInParts | internal/loop/runner.go:59-175 | running a list of rounds in two parts: the second part starts from the text the first left, unless the first stopped the loop |
| LoopLemmas.DriveInParts | internal/loop/runner.go:59-175 | the same for any pass function that never claims the rounds ran out |
| Detector.BoxLines | internal/loop/promptdetector.go:121-126 | one line per context line, the i-th being the i-th context line formatted to the box width |
| Detector.PromptDetector.constructor | internal/loop/promptdetector.go:44-55 | nothing buffered, no warning, no line seen, nothing written |
| Detector.PromptDetector.GetQuestionContext | internal/loop/promptdetector.go:133-157 | the context is QuestionContext of the buffer |
| Detector.PromptDetector.CollectContext | internal/loop/promptdetector.go:145-150 | the loop keeps the trimmed lines that are not empty, in order |
| Detector.PromptDetector.ShowBox | internal/loop/promptdetector.go:111-129 | one box of the given kind, with the formatted context of the buffer, is written |
| Detector.PromptDetector.ShowWarning | internal/loop/promptdetector.go:105-130 | the prompt warning is shown only when no warning was shown, and raises the flag |
| Detector.PromptDetector.ObserveLine | internal/loop/promptdetector.go:72-89 | one line of a chunk is buffered unless blank, stamps the time, and is checked for a prompt |
| Detector.PromptDetector.Write | internal/loop/promptdetector.go:58-92 | the chunk is forwarded first; on the wrapped writer's error nothing else changes; otherwise its lines are observed in order; the count and error returned are the wrapped writer's |
| Detector.PromptDetector.CheckStall | internal/loop/promptdetector.go:185-209 | one tick shows the stall warning as AfterTick states |
| Detector.PromptDetector.Reset | internal/loop/promptdetector.go:222-228 | the flag, the buffer and the time of the last line are cleared |
| DetectorLemmas.ClassifyMeans | internal/loop/promptdetector.go:73-88 | a line is blank exactly when it trims to empty, and prompt-like exactly when it is not blank and its trimmed text matches a pattern |
| DetectorLemmas.ObserveStep | internal/loop/promptdetector.go:72-109 | a blank line changes nothing; another line is buffered and stamps the time; the flag goes up with one asking box when the line is prompt-like and the flag was down |
| DetectorLemmas.RememberLastTen | internal/loop/promptdetector.go:79-82 | appending to the last ten keeps the last ten |
| DetectorLemmas.RecentWindow | internal/loop/promptdetector.go:72-82 | after a run of lines the buffer holds the last ten of what it held followed by the non-blank lines, untrimmed, in arrival order |
| DetectorLemmas.WriteWindow | internal/loop/promptdetector.go:66-82 | after a successful Write the buffer is the last ten of the earlier lines and the chunk's non-blank lines; blank lines are never buffered |
| DetectorLemmas.StoredNonBlank | internal/loop/promptdetector.go:72-79 | every buffered line of a chunk is non-blank and is a line of the chunk |
| DetectorLemmas.FeedWarns | internal/loop/promptdetector.go:72-109 | the flag is up after a run of lines exactly when it was up or one line is prompt-like, and the output grows by one asking box exactly when the flag went up |
| DetectorLemmas.FeedStamps | internal/loop/promptdetector.go:83 | the time is stamped exactly when a line of the run is not blank |
| DetectorLemmas.WriteWarns | internal/loop/promptdetector.go:58-92 | a successful Write writes the chunk first and then at most one box, an asking one, exactly when it raised the flag |
| DetectorLemmas.BoxesAppend | internal/loop/promptdetector.go:105-130 | the boxes of two outputs add up |
| DetectorLemmas.EventWarnsOnce | internal/loop/promptdetector.go:105-189 | a write or a tick never lowers the flag and adds a box exactly when it raises it |
| DetectorLemmas.FeedBoxes | internal/loop/promptdetector.go:72-89 | feeding lines adds one box exactly when the flag goes up |
| DetectorLemmas.OneWarningBetweenResets | internal/loop/promptdetector.go:105-228 | between two Resets at most one warning is shown, from a prompt-like line or from a stall |
| DetectorLemmas.StallCheck | internal/loop/promptdetector.go:187-189 | a tick changes the detector exactly when a line was seen more than thirty seconds before and no warning was shown, and then it warns once |
| DetectorLemmas.ResetSilencesStalls | internal/loop/promptdetector.go:187-228 | after a Reset no tick warns until a non-blank line is written |
| DetectorLemmas.SilenceAfterOutputWarns | internal/loop/promptdetector.go:83-189 | more than thirty seconds after a non-blank line, with nothing written since, the next tick warns unless a warning was already shown |
| DetectorText.CaseInsensitive | internal/loop/promptdetector.go:26-41 | the prompt patterns do not depend on the case of ASCII letters |
| DetectorText.SkipSpacesLower | internal/loop/promptdetector.go:26-41 | folding case does not move a scan past spaces |
| DetectorText.SkipParams | internal/loop/promptdetector.go:175 | the end of the run of digits and `;` at `i` |
| DetectorText.EscapeLength | internal/loop/promptdetector.go:175 | an escape found at the start is `ESC` … `m`, at least three characters |
| DetectorText.StripAnsi | internal/loop/promptdetector.go:174-177 | stripping never lengthens the text |
| DetectorText.StripAnsiPlain | internal/loop/promptdetector.go:174-177 | a text without the escape character is left as it is |
| DetectorText.SkipParamsExtend | internal/loop/promptdetector.go:175 | appending text that cannot continue the run leaves the end of the run |
| DetectorText.EscapePadded | internal/loop/promptdetector.go:168-175 | padding cannot complete or change an escape at the start |
| DetectorText.StripAnsiPadding | internal/loop/promptdetector.go:168-177 | padding with spaces adds exactly that many visible characters |
| DetectorText.FormatBoxLineWidth | internal/loop/promptdetector.go:160-171 | a line that fits keeps its text and shows exactly `width` characters; a longer one is exactly `width` characters, begins like the line and ends in `...` |
| DetectorText.FormatBoxLine | internal/loop/promptdetector.go:160-171 | a line whose visible text fits the width starts with the line itself; a longer one is exactly `width` characters ending in `...` |
| DetectorText.MatchesPromptPattern | internal/loop/promptdetector.go:26-41 | a line made only of blanks matches none of the prompt patterns |
| DetectorText.BlankMatchesNothing | internal/loop/promptdetector.go:26-41 | a blank line contains none of the literal prompt texts and is no Inquirer-style prompt |
| DetectorText.Trims | internal/loop/promptdetector.go:146 | one trimmed line per line |
| DetectorText.NonEmptySpec | internal/loop/promptdetector.go:145-150 | the filter keeps exactly the non-empty lines |
| DetectorText.LastFive | internal/loop/promptdetector.go:140-145 | the last five lines, or all of them when there are fewer |
| DetectorText.ContextOfTrimmed | internal/loop/promptdetector.go:133-157 | the placeholder alone when every line is empty; otherwise exactly the non-empty lines |
| DetectorText.ContextSource | internal/loop/promptdetector.go:140-146 | the context is drawn from the last five buffered lines, trimmed |

## Left out

- File I/O: the plan file is a string field of the runner. `ParseFile`, the reads and writes of `UpdateStep` and `WriteFile`, and their error returns are not modelled.
- bufio.Scanner's 64 KB line limit is not modelled. It is the only error `Parse` can return, so the model's `Parse` never fails.
- The clock: `time.Now()` becomes the `now` parameter (a formatted timestamp for the writer, nanoseconds for the detector). `time.Parse` is approximated by `IsTimestamp`, which accepts the canonical form of the layout `2006-01-02 15:04:05`.
- The regular-expression engine: each grammar is a hand-written scanner. The fourteen prompt patterns are a predicate that folds ASCII letters only.
- Go's `int` is taken to be 64 bits wide: `MaxInt` is 2^63 - 1, the largest value `fmt.Sscanf` with `%d` accepts. A step number or retry count beyond it fails to scan, which the model carries through as in the source. Machine integer wrap-around elsewhere (step counters, retry increments) is not modelled, since no count in a plan file comes near that bound.
- Strings are sequences of characters. Go's byte-level lengths and slicing agree with the model only on ASCII text.
- Processes and concurrency are not modelled: the agents' child processes and pipes, signal handling, `context.WithTimeout`, the `time.After` race, and the detector's ticker, `done` channel, goroutine and mutex. Their effects are inputs: `Round` for the loop, `now` for the detector.
- The console output is not modelled: the loop's progress lines and the fixed banner lines of the warning boxes. A box records its kind and its formatted context lines.
- LoopConfig.Backoff: the backoff factor, a float64 in the source, is a natural number. Fractional factors and the truncation of `time.Duration(float64(…))` are not modelled.
- Loop.Runner.RunLoop: the loop runs over a finite list of rounds, and `RoundsExhausted` says the list ran out before the loop stopped. An unbounded run is the limit of longer lists (`RunInParts`).
- Writer.UpdateStepInContent: requires `NoPanic`, that no line starting `### Step` after the first block header is malformed. The panic at `internal/plan/writer.go:92` is the `WriterPanic` exit of the loop.
- WriterIdempotence.IdempotentWhenBlockExists, WriterIdempotence.IdempotentWhenNoBlocks: idempotence is proved only when the step's block already exists or when there is no block at all. When a block is inserted among existing ones it does not hold, and `InsertionNotIdempotent` proves so for every document of the shape `### Step m`, `**Notes**: a`, blank, `**Notes**: b` updated for another step: the first update inserts the new block before the blank line, and the second counts `**Notes**: b` as part of that block and rewrites it.
- The prompt detector is modelled on its own. `internal/loop/runner.go` passes the agent `os.Stdout` and never creates a detector. `Close` only stops the ticker.
- The agents' `Run` methods and their output handling (internal/agent/opencode.go, claude.go, codex.go) are not part of this model. An agent is reduced to which of the three was made and the name it reports.
- cmd/ralph-loop/main.go (the command line) and internal/plan/template.go (creating a new plan file) are not part of this model.
