# neuri formats and callables, modelled in Dafny

This project models the parsing and schema core of neuri, a TypeScript
toolkit for structured output from language models:

- **`jsonParser.ts`** is the character-level JSON scanner. It builds a tree
  of tokens (objects, arrays, fields, strings, numbers, literals) with
  positions and turns it back into text.
  - Modules `JsonTokens`, `JsonScanSpec`, `JsonScanner`, `JsonScanFacts`
    and `JsonStringify`.
  - The mutable scanner is the class `JsonScanner.Scanner`. Each of its
    methods is proved equal to a step of the functional scan in
    `JsonScanSpec`.
  - The scanner runs in two modes (`JsonTokens.Semantics`): `AsWritten`
    closes a container with `findParentContainer` as it stands, and
    `Corrected` with the search listed under Findings.
- **`json/streamJsonParser.ts`** is the streaming JSON builder. It walks the
  token tree and assembles a JavaScript value through a path of keys,
  reporting each update through a callback.
  - Modules `StreamJsonSpec` (the walk over an explicit heap),
    `StreamJson` (the class `StreamableJsonParser`), `StreamJsonFacts` and
    `StreamJsonExamples`.
  - The builder runs in the same two modes, which differ in the two
    builder defects listed under Findings; the class passes its mode on to
    its scanner.
- **`jsonschema.ts`** compiles a JSON Schema to a regular expression, in
  the manner of the outlines library.
  - Modules `JsonSchemaRegex` (the compiler), `JsonSchemaFacts`,
    `JsonSchemaOrder` (the order of combinations and of `anyOf`
    alternatives), `JsonSchemaDepth` and `JsonSchemaRules`.
  - The compiler is a function of the schema with a fuel bound. It runs in
    two readings: `AsWritten`, which is the code as it stands, and
    `Corrected`, which repairs the defects listed under Findings.
- **`markdown/markdown.ts`** is the streaming code-block extractor.
  - Module `Markdown`, with the class `CodesExtractor`.
- **`code/textmate.ts`** and **`code/streamTextmate.ts`** extract code by
  TextMate scope.
  - Modules `Textmate` and `StreamTextmate`, with the class
    `StreamableParser`.
- **`callable.ts`** is the callable builder and its JSON Schema and
  OpenAI tool forms.
  - Module `Callable`, with the classes `Callable` and `CallableBuilder`.

Shared modules:

- `Wrappers` holds `Option` and `Result`.
- `JsStrings` holds the JavaScript string built-ins the code relies on:
  `trimStart`, `slice`, `split`, `parseInt` and regex escaping.
- `JsonValue` holds JSON values with ordered keys, truthiness and
  `String(x)`.

Exceptions the code throws are `Err` results, or a `threw` flag in the
stateful builders.

## Model

| member | source | states |
|---|---|---|
| JsonTokens.PushChild | packages/neuri/src/formats/jsonParser.ts:94-97 | `parent.children.push(child)`: the parent gains the child as its last child and every other stored token is unchanged |
| JsonTokens.AppendLeafOk | packages/neuri/src/formats/jsonParser.ts:282 | appending a childless token keeps the store a forest whose children come after their parents |
| JsonTokens.AttachLeafOk | packages/neuri/src/formats/jsonParser.ts:276-279 | attaching a new childless token under a stored token keeps the store a forest |
| JsonTokens.AdvanceAllCounts | packages/neuri/src/formats/jsonParser.ts:354-363 | after a run of characters the offset has grown by its length, the line by its newlines, and the column counts the characters after the last newline (or has grown by the length when there is none) |
| JsonTokens.AdvanceAllSnoc | packages/neuri/src/formats/jsonParser.ts:354-363 | advancing over a run and then one character is advancing over the longer run |
| JsonScanSpec.InitialWf | packages/neuri/src/formats/jsonParser.ts:33-44 | the variables as `createJSONParser` sets them up satisfy the scanner invariant: the state is the top of the stack, every reference points into the store, and in the `Text` phase nothing is open |
| JsonScanSpec.TrimTrailingNonNumber | packages/neuri/src/formats/jsonParser.ts:103-105 | the result is a prefix of the input, it is empty or ends in a number character, and every character removed is not a number character |
| JsonScanSpec.DigitRun | packages/neuri/src/formats/jsonParser.ts:112 | the length of the maximal run of decimal digits starting at the given index |
| JsonScanSpec.StripQuotes | packages/neuri/src/formats/jsonParser.ts:79 | one leading quote and one trailing quote (single or double) are removed, each on its own: both, only the leading one, only the trailing one, or neither; a lone quote becomes empty |
| JsonScanSpec.ExponentEnd | packages/neuri/src/formats/jsonParser.ts:112 | an exponent found at the index starts with `e` or `E` and ends in a digit, and is made of number characters only |
| JsonScanSpec.DetermineValueType | packages/neuri/src/formats/jsonParser.ts:107-115 | exactly `true` and `false` are booleans and exactly `null` is null; any other text is a number exactly when it matches the number pattern, and a string otherwise |
| JsonScanSpec.NumberLiteralShape | packages/neuri/src/formats/jsonParser.ts:112 | a text that matches the number pattern is non-empty, made of number characters only, and ends in a digit |
| JsonScanSpec.NumberValueKeptWhole | packages/neuri/src/formats/jsonParser.ts:84-89 | a value the value state types as a number is kept whole by the number state's trimming |
| JsonScanSpec.ValueNode | packages/neuri/src/formats/jsonParser.ts:72-95 | the value token of a buffer: a string without outer quotes in the string state, a number without trailing non-number characters in the number state, the type `determineValueType` gives in the value state, a string otherwise; positioned at the token start, with no children |
| JsonScanSpec.PushState | packages/neuri/src/formats/jsonParser.ts:46-49 | the new state is on top of the old stack and is the current state; the invariant holds afterwards |
| JsonScanSpec.PopState | packages/neuri/src/formats/jsonParser.ts:51-56 | with more than one entry the top entry is dropped; with one or none nothing changes, so a non-empty stack never becomes empty; the invariant is kept |
| JsonScanSpec.CompleteCurrentToken | packages/neuri/src/formats/jsonParser.ts:69-101 | a non-empty buffer becomes a value token at the token start: a string without its outer quotes in the string state, a number without trailing non-number characters in the number state, the type `determineValueType` gives in the value state, a string otherwise; it is stored as the last child of the current token when that is a field, else of the current container, and not kept when there is neither; no other token changes; the buffer ends empty and the next token starts at the current position; an empty buffer changes nothing |
| JsonScanSpec.FlushBuffer | packages/neuri/src/formats/jsonParser.ts:333-340 | outside JSON a non-empty buffer becomes a `Text` token at the token start, stored last and appended to the tree; inside JSON the buffer is only emptied; an empty buffer changes nothing |
| JsonScanSpec.AddContainer | packages/neuri/src/formats/jsonParser.ts:272-286 | a new empty object or array at the current position is stored last and filed as the last child of the current token when that is a field, else of the current container; with no container it is appended to the tree; no other token changes and it becomes both the current token and the current container |
| JsonScanSpec.StartNewJSONToken | packages/neuri/src/formats/jsonParser.ts:272-289 | the container stored and filed as by AddContainer, then `JSONStart` pushed and the depth one higher; buffer and position untouched |
| JsonScanSpec.StartNewJSONField | packages/neuri/src/formats/jsonParser.ts:291-299 | a new field named by the trimmed buffer without its quotes, positioned at the token start, is stored last, filed as the last child of the current container (kept out of the tree when there is none), and becomes the current token; nothing else changes but the buffer, which ends empty |
| JsonScanSpec.FindEnclosingContainer | packages/neuri/src/formats/jsonParser.ts:301-324 | (corrected search) whatever it answers is an object or array token in the store |
| JsonScanSpec.EnclosingAgrees | packages/neuri/src/formats/jsonParser.ts:301-324 | the corrected search finds nothing exactly where the search as written finds nothing, and gives the same answer wherever the answer as written is an object or array |
| JsonScanSpec.EnclosingAgreesFrom | packages/neuri/src/formats/jsonParser.ts:305-315 | the same agreement for the recursive search below one token |
| JsonScanSpec.EnclosingAgreesInTree | packages/neuri/src/formats/jsonParser.ts:317-323 | the same agreement for the loop over the top-level tokens |
| JsonScanSpec.ParentOfFieldValueIsField | packages/neuri/src/formats/jsonParser.ts:301-324 | on a store where an outer object holds field `x` whose value is the inner object, the search as written answers the field and the corrected search the outer object |
| JsonScanSpec.HandleStateText | packages/neuri/src/formats/jsonParser.ts:143-156 | keeps the scanner invariant and leaves the position alone |
| JsonScanSpec.CloseContainer | packages/neuri/src/formats/jsonParser.ts:165-179 | the pending value is completed and the stack popped, one level up; at depth 0 the scanner has left JSON and nothing is current; otherwise the current token and container are what `findParentContainer` answers as written (the token listing the closed container among its children), or the enclosing object or array when corrected; tree and store are otherwise untouched |
| JsonScanSpec.CloseFieldValue | packages/neuri/src/formats/jsonParser.ts:165-179 | closing an object that is a field's value one level below the top: as written the field becomes current (later fields are filed under it), corrected the outer object does; the state below is `JSONFieldValue` at depth 1 |
| JsonScanSpec.HandleStateJSONStart | packages/neuri/src/formats/jsonParser.ts:158-212 | keeps the invariant and the stack non-empty; what each character does is stated by JsonScanSpec.JSONStartSteps |
| JsonScanSpec.JSONStartSteps | packages/neuri/src/formats/jsonParser.ts:158-212 | a quote pushes `JSONString` and starts the buffer, recording which quote; a closing bracket closes the container; an opening bracket completes the pending value and opens a nested container; a colon makes the buffer a field and pushes `JSONFieldValue`; a comma completes the pending value and in an array makes the array current again; a digit or minus pushes `JSONNumber`; `t`, `f`, `n` push `JSONFieldValue`; any other visible character pushes `JSONFieldValue` in an array and `JSONFieldName` elsewhere; white space changes nothing |
| JsonScanSpec.HandleStateJSONString | packages/neuri/src/formats/jsonParser.ts:214-223 | every character is buffered; a backslash pushes `JSONEscape`; the quote that opened the string (single or double) pops back to the state below and clears the single-quote flag; any other character changes nothing else |
| JsonScanSpec.HandleStateJSONEscape | packages/neuri/src/formats/jsonParser.ts:225-228 | the escaped character is buffered as it is and the state below is restored; nothing else changes |
| JsonScanSpec.HandleStateJSONFieldName | packages/neuri/src/formats/jsonParser.ts:230-239 | a colon turns the buffer into a new field under the current container, which becomes current, and replaces `JSONFieldName` with `JSONFieldValue` on the stack; any other character is buffered and nothing else changes |
| JsonScanSpec.HandleStateJSONFieldValue | packages/neuri/src/formats/jsonParser.ts:241-270 | keeps the invariant and the stack non-empty, including when a closing bracket is handled again in the state below; what each character does is stated by JsonScanSpec.FieldValueSteps |
| JsonScanSpec.FieldValueSteps | packages/neuri/src/formats/jsonParser.ts:241-270 | a comma completes the value and pops to the state below; a closing bracket does the same and is handled again there; an opening bracket opens a nested container; a quote pushes `JSONString`; a digit or minus replaces `JSONFieldValue` with `JSONNumber`; any other visible character is buffered; white space changes nothing |
| JsonScanSpec.HandleStateJSONNumber | packages/neuri/src/formats/jsonParser.ts:58-67 | a number character (`[0-9.eE+-]`) is buffered and nothing else changes; any other character completes the number, pops the state and is handled again in the state below |
| JsonScanSpec.ProcessChar | packages/neuri/src/formats/jsonParser.ts:117-141 | every character keeps the invariant, and once the stack is non-empty it stays non-empty; the scanner's mode decides which parent search its closing brackets run |
| JsonScanSpec.AutoCloseJSON | packages/neuri/src/formats/jsonParser.ts:326-331 | a positive depth is brought to 0 and the buffer ends empty; a depth of 0 or less is left alone; the stack is untouched |
| JsonScanSpec.CompletedCount | packages/neuri/src/formats/jsonParser.ts:343-349 | the length of the longest run of completed tokens at the front of the tree |
| JsonScanSpec.GetCompletedTokens | packages/neuri/src/formats/jsonParser.ts:342-352 | the tokens handed out followed by the remaining tree are the old tree; only the tree changes; every token handed out is completed |
| JsonScanSpec.UpdatePosition | packages/neuri/src/formats/jsonParser.ts:354-363 | only the position changes: the offset grows by one; a newline moves to the next line at column 1, any other character keeps the line and moves one column on |
| JsonScanSpec.ParseChars | packages/neuri/src/formats/jsonParser.ts:367-370 | the invariant is kept, the position is advanced over the whole chunk, and a non-empty stack stays non-empty |
| JsonScanSpec.Parse | packages/neuri/src/formats/jsonParser.ts:366-372 | the invariant holds after the chunk |
| JsonScanSpec.End | packages/neuri/src/formats/jsonParser.ts:373-380 | hands out the whole remaining tree, which stays in place; the buffer ends empty and the scanner is outside JSON; after JSON the depth is 0 or less |
| JsonScanner.Scanner.constructor | packages/neuri/src/formats/jsonParser.ts:33-44 | a new scanner holds the initial variables, in the chosen mode (as written or corrected), and satisfies its invariant |
| JsonScanner.Scanner.PushState | packages/neuri/src/formats/jsonParser.ts:46-49 | updates the scanner in place exactly as JsonScanSpec.PushState |
| JsonScanner.Scanner.PopState | packages/neuri/src/formats/jsonParser.ts:51-56 | updates the scanner in place exactly as JsonScanSpec.PopState |
| JsonScanner.Scanner.CompleteCurrentToken | packages/neuri/src/formats/jsonParser.ts:69-101 | updates the scanner in place exactly as JsonScanSpec.CompleteCurrentToken; that function appends one classified value token under the current field, else the current container |
| JsonScanner.Scanner.FlushBuffer | packages/neuri/src/formats/jsonParser.ts:333-340 | updates the scanner in place exactly as JsonScanSpec.FlushBuffer; that function turns a non-empty buffer outside JSON into one Text token at the top level |
| JsonScanner.Scanner.StartNewJSONToken | packages/neuri/src/formats/jsonParser.ts:272-289 | updates the scanner in place exactly as JsonScanSpec.StartNewJSONToken; that function attaches the new container under the current field, the current container or the top level |
| JsonScanner.Scanner.StartNewJSONField | packages/neuri/src/formats/jsonParser.ts:291-299 | updates the scanner in place exactly as JsonScanSpec.StartNewJSONField; that function attaches the new field under the current container, or at the top level |
| JsonScanner.Scanner.FindEnclosingBelow | packages/neuri/src/formats/jsonParser.ts:305-315 | the recursive search below one token answers what the corrected search function answers |
| JsonScanner.Scanner.FindEnclosingContainer | packages/neuri/src/formats/jsonParser.ts:301-324 | the loop over the tree answers JsonScanSpec.FindEnclosingContainer, an object or array enclosing the current container |
| JsonScanner.Scanner.FindParentBelow | packages/neuri/src/formats/jsonParser.ts:305-315 | the recursive search below one token answers what the search as written answers |
| JsonScanner.Scanner.FindParentContainer | packages/neuri/src/formats/jsonParser.ts:301-324 | the loop over the tree answers JsonScanSpec.FindParentContainer, the token that lists the current container among its children |
| JsonScanner.Scanner.HandleStateText | packages/neuri/src/formats/jsonParser.ts:143-156 | updates the scanner in place exactly as JsonScanSpec.HandleStateText |
| JsonScanner.Scanner.CloseContainer | packages/neuri/src/formats/jsonParser.ts:165-179 | updates the scanner in place exactly as JsonScanSpec.CloseContainer, running the search as written or corrected according to its mode |
| JsonScanner.Scanner.HandleStateJSONStart | packages/neuri/src/formats/jsonParser.ts:158-212 | updates the scanner in place exactly as JsonScanSpec.HandleStateJSONStart; the per-character steps are those of JsonScanSpec.JSONStartSteps |
| JsonScanner.Scanner.HandleStateJSONString | packages/neuri/src/formats/jsonParser.ts:214-223 | updates the scanner in place exactly as JsonScanSpec.HandleStateJSONString; the quote that opened the string ends it and a backslash enters the escape state |
| JsonScanner.Scanner.HandleStateJSONEscape | packages/neuri/src/formats/jsonParser.ts:225-228 | updates the scanner in place exactly as JsonScanSpec.HandleStateJSONEscape; the next character is buffered as it is and the string state resumes |
| JsonScanner.Scanner.HandleStateJSONFieldName | packages/neuri/src/formats/jsonParser.ts:230-239 | updates the scanner in place exactly as JsonScanSpec.HandleStateJSONFieldName; a colon turns the buffer into a field and enters the field-value state |
| JsonScanner.Scanner.HandleStateJSONFieldValue | packages/neuri/src/formats/jsonParser.ts:241-270 | updates the scanner in place exactly as JsonScanSpec.HandleStateJSONFieldValue; the per-character steps are those of JsonScanSpec.FieldValueSteps |
| JsonScanner.Scanner.HandleStateJSONNumber | packages/neuri/src/formats/jsonParser.ts:58-67 | updates the scanner in place exactly as JsonScanSpec.HandleStateJSONNumber; a number character is buffered, any other completes the number and is handled again |
| JsonScanner.Scanner.ProcessChar | packages/neuri/src/formats/jsonParser.ts:117-141 | updates the scanner in place exactly as JsonScanSpec.ProcessChar |
| JsonScanner.Scanner.AutoCloseJSON | packages/neuri/src/formats/jsonParser.ts:326-331 | the loop leaves the scanner exactly as JsonScanSpec.AutoCloseJSON |
| JsonScanner.Scanner.GetCompletedTokens | packages/neuri/src/formats/jsonParser.ts:342-352 | the loop hands out the trees of the completed prefix of the tree and leaves the rest, as JsonScanSpec.GetCompletedTokens |
| JsonScanner.Scanner.UpdatePosition | packages/neuri/src/formats/jsonParser.ts:354-363 | moves the position in place over one character |
| JsonScanner.Scanner.Parse | packages/neuri/src/formats/jsonParser.ts:366-372 | the character loop leaves the scanner as JsonScanSpec.Parse and returns the trees of the tokens it completes; the invariant is kept |
| JsonScanner.Scanner.End | packages/neuri/src/formats/jsonParser.ts:373-380 | leaves the scanner as JsonScanSpec.End and returns the trees of the whole remaining tree; the invariant is kept |
| JsonScanFacts.ParseCharsAppend | packages/neuri/src/formats/jsonParser.ts:366-370 | feeding two chunks one after the other leaves the scanner as feeding their concatenation: chunk boundaries are invisible |
| JsonScanFacts.ParsePosition | packages/neuri/src/formats/jsonParser.ts:354-370 | after `parse(chunk)` the offset has moved by the chunk's length, the line by its newlines, and the column restarts after the last newline |
| JsonScanFacts.ReleasedAreText | packages/neuri/src/formats/jsonParser.ts:342-352 | `getCompletedTokens` only ever hands out text tokens, taken from the front of the tree |
| JsonScanFacts.NeverBackToText | packages/neuri/src/formats/jsonParser.ts:51-56 | once a bracket has opened JSON the state is never `Text` again and the bottom of the stack stays `JSONStart`, whatever follows |
| JsonScanFacts.PlainTextBuffers | packages/neuri/src/formats/jsonParser.ts:143-156 | text without an opening bracket only grows the buffer and moves the position |
| JsonScanFacts.PlainTextIsOneToken | packages/neuri/src/formats/jsonParser.ts:373-380 | a stream without an opening bracket hands out nothing while fed and comes out of `end()` as one text token holding all of it |
| JsonScanFacts.FirstBracketOpensJSON | packages/neuri/src/formats/jsonParser.ts:144-149 | the first opening bracket turns the pending text into a text token, puts the new container after it in the tree, and leaves the scanner one level deep inside JSON with `JSONStart` pushed twice |
| JsonScanFacts.IntegersAreNumbers | packages/neuri/src/formats/jsonParser.ts:107-115 | the decimal text of every integer passes the number test and is typed `JSONNumber` |
| JsonScanFacts.TrimTrailingNonNumberStrips | packages/neuri/src/formats/jsonParser.ts:103-105 | a number literal followed by non-number characters is cut back to exactly the literal |
| JsonScanFacts.StripQuotesOfQuoted | packages/neuri/src/formats/jsonParser.ts:79 | a quoted text loses exactly its two quotes |
| JsonStringify.StringifyTokensAppend | packages/neuri/src/formats/jsonParser.ts:384-391 | rendering distributes over concatenation of token lists |
| JsonStringify.NonContainersVanish | packages/neuri/src/formats/jsonParser.ts:384-391 | tokens that are neither objects nor arrays contribute nothing |
| JsonStringify.ExampleParts | packages/neuri/src/formats/jsonParser.ts:393-442 | `{"y":1}` and `"z":2` render as themselves |
| JsonStringify.SiblingUnderFieldIsDropped | packages/neuri/src/formats/jsonParser.ts:436-442 | a field renders its first child only, so a second field filed under a field disappears: `{"x":{"y":1},"z":2}` comes out as `{"x":{"y":1}}` |
| JsonStringify.SiblingUnderObjectIsKept | packages/neuri/src/formats/jsonParser.ts:414-418 | with the second field filed under the outer object both fields are rendered |
| JsonStringify.StringifyTokenOf | packages/neuri/src/formats/jsonParser.ts:393-412 | rendering a canonical token tree of a value (one field per member, the value as its only child) gives the value's compact JSON text; strings are not escaped, on either side |
| JsonStringify.ItemsRender | packages/neuri/src/formats/jsonParser.ts:421-434 | the element parts of an array's tokens are the compact texts of its items |
| JsonStringify.MembersRender | packages/neuri/src/formats/jsonParser.ts:414-418 | the field parts of an object's tokens are the compact texts of its members |
| Markdown.TrailingBackticksRun | packages/neuri/src/formats/markdown/markdown.ts:49 | the counted run at the end of a text is all backticks and is preceded by a non-backtick, so it is the maximal `(`){1,}$` run |
| Markdown.TrimCodeBlockBoundaryShape | packages/neuri/src/formats/markdown/markdown.ts:48-50 | the trimmed text is the content itself or the content less one newline and a non-empty run of final backticks, and it is left alone exactly when the content has no such ending |
| Markdown.TrailingBackticksExact | packages/neuri/src/formats/markdown/markdown.ts:49 | a newline followed by exactly n final backticks is a run of exactly n |
| Markdown.TrimAppendedFence | packages/neuri/src/formats/markdown/markdown.ts:48-50 | a newline and any non-empty run of backticks appended to a content is removed again, giving back the content |
| Markdown.TrimNoBackticks | packages/neuri/src/formats/markdown/markdown.ts:48-50 | content without backticks is never trimmed |
| Markdown.ScanNext | packages/neuri/src/formats/markdown/markdown.ts:70-89 | one more iteration of the loop is one more step of the block-by-block scan |
| Markdown.DeduplicatedAppend | packages/neuri/src/formats/markdown/markdown.ts:78-87 | two deduplicated runs of callbacks, the second starting from the last callback of the first, form one deduplicated run |
| Markdown.ScanReports | packages/neuri/src/formats/markdown/markdown.ts:70-89 | one pass reports only trimmed forms of blocks that changed since the previous feed, in order, none empty and none with the content of the callback just before; `lastUpdate` ends as the last callback |
| Markdown.ScanExtends | packages/neuri/src/formats/markdown/markdown.ts:70-89 | a pass that starts from the last callback of a deduplicated run extends it to a longer deduplicated run that ends with the pass's last callback |
| Markdown.UnchangedReportsNothing | packages/neuri/src/formats/markdown/markdown.ts:74 | blocks identical to those of the previous feed report nothing and keep `lastUpdate` |
| Markdown.NewBlockReported | packages/neuri/src/formats/markdown/markdown.ts:74-86 | a new block whose trimmed content is non-empty and differs from the last callback is reported, trimmed |
| Markdown.CodesExtractor.constructor | packages/neuri/src/formats/markdown/markdown.ts:58-61 | a new extractor has an empty buffer, no previous blocks, no last update and no callbacks |
| Markdown.CodesExtractor.Feed | packages/neuri/src/formats/markdown/markdown.ts:63-92 | the chunk is appended to the buffer; the callbacks made are those of one pass over the blocks of the whole buffer against the previous blocks; the previous blocks become the current ones unless there are none; across all feeds the callbacks stay deduplicated and `lastUpdate` is the last one |
| Markdown.CodesExtractor.ReportChanges | packages/neuri/src/formats/markdown/markdown.ts:70-89 | the loop appends exactly the callbacks of one pass and leaves `lastUpdate` as that pass leaves it; the buffer and previous blocks are untouched |
| Markdown.CodesExtractor.End | packages/neuri/src/formats/markdown/markdown.ts:94-96 | returns the blocks of the whole buffer |
| Textmate.ExtractCode | packages/neuri/src/formats/code/textmate.ts:75-93 | the forEach loop returns the trimmed text accumulated by visiting the tokens in order, taking at each target token the text from the previous target's end to its own end |
| Textmate.CodeFoldIsPrefix | packages/neuri/src/formats/code/textmate.ts:75-93 | on tokens whose end indices never decrease, the untrimmed code is the text from its start up to the end of the last target token, and the final `lastEndIndex` is that end |
| Textmate.LastTargetEndBound | packages/neuri/src/formats/code/textmate.ts:86-89 | on such tokens the last target token ends no later than the last token |
| Textmate.NoTargetNoCode | packages/neuri/src/formats/code/textmate.ts:79-92 | without a target token nothing is extracted |
| Textmate.ExtractVueCode | packages/neuri/src/formats/code/textmate.ts:102-130 | the forEach loop with its `isVueBlock` flag returns the trimmed text of the Vue fold over the tokens in order |
| Textmate.VueFoldIsVueText | packages/neuri/src/formats/code/textmate.ts:102-130 | on tokens that tile the text, the untrimmed Vue code is exactly the text of the Vue-scoped tokens, in order, and the flag is set exactly when the last token is Vue-scoped |
| Textmate.NoVueNoCode | packages/neuri/src/formats/code/textmate.ts:107-127 | without a Vue-scoped token nothing is extracted and the flag stays clear |
| Textmate.PaddedTargetImpliesPrefix | packages/neuri/src/formats/code/textmate.ts:82 | a scope matching the target `base ` starts with `base ` |
| Textmate.PairedScopes | packages/neuri/src/formats/code/textmate.ts:80-84 | listing `base` and `base ` as targets selects exactly the tokens with a scope that is `base` or starts with `base ` |
| Textmate.ConcatTargets | packages/neuri/src/formats/code/textmate.ts:80-84 | a concatenation of target lists selects exactly what either list selects |
| Textmate.TsxScopesSelect | packages/neuri/src/formats/code/textmate.ts:139-141 | the TSX extractor selects exactly the TSX and the JavaScript tokens |
| Textmate.SingleLanguageScopesSelect | packages/neuri/src/formats/code/textmate.ts:150-185 | the Go, JavaScript, TypeScript and Rust extractors each select exactly the tokens of their own language |
| StreamTextmate.StreamableParser.constructor | packages/neuri/src/formats/code/streamTextmate.ts:41-42 | a new extractor for a language, grammar and extraction function has an empty buffer and has made no callbacks |
| StreamTextmate.StreamableParser.Feed | packages/neuri/src/formats/code/streamTextmate.ts:44-52 | the chunk is appended to the buffer and exactly one callback is made, carrying the code extracted from the whole buffer; across feeds the i-th callback is the code of the first i+1 chunks run together |
| StreamTextmate.StreamableParser.End | packages/neuri/src/formats/code/streamTextmate.ts:54-58 | returns the code extracted from the whole buffer and makes no callback |
| StreamTextmate.CreateVueParser | packages/neuri/src/formats/code/streamTextmate.ts:68-70 | a fresh, empty extractor for `vue` that extracts with the Vue extraction |
| StreamTextmate.CreateTsxParser | packages/neuri/src/formats/code/streamTextmate.ts:77-79 | a fresh, empty extractor for `tsx` that extracts TSX and JavaScript code |
| StreamTextmate.CreateGolangParser | packages/neuri/src/formats/code/streamTextmate.ts:86-88 | a fresh, empty extractor for `go` that extracts Go code |
| StreamTextmate.CreateJavaScriptParser | packages/neuri/src/formats/code/streamTextmate.ts:95-97 | a fresh, empty extractor for `js` that extracts JavaScript code |
| StreamTextmate.CreateTypeScriptParser | packages/neuri/src/formats/code/streamTextmate.ts:104-106 | a fresh, empty extractor for `ts` that extracts TypeScript code |
| StreamTextmate.CreateRustParser | packages/neuri/src/formats/code/streamTextmate.ts:113-115 | a fresh, empty extractor for `rust` that extracts Rust code |
| Callable.EntrySchema | packages/neuri/src/callable.ts:122-126 | the schema of one parameter has no `name`; its `default` is the `defaultValue` when that is present and not null, else whatever `default` the entry had; every other key is the entry's own |
| Callable.PropertiesLookup | packages/neuri/src/callable.ts:121-129 | under each name `properties` holds the schema of the last entry of that name, and no other key is present |
| Callable.PropertiesKeys | packages/neuri/src/callable.ts:121-129 | with distinct names `properties` has one key per entry, in entry order |
| Callable.RequiredAppend | packages/neuri/src/callable.ts:130-132 | `required` keeps entry order: it distributes over concatenation of entry lists |
| Callable.RequiredMembers | packages/neuri/src/callable.ts:130-132 | a name is in `required` exactly when some entry of that name is not optional |
| Callable.AllRequired | packages/neuri/src/callable.ts:130-132 | with no optional entry, `required` lists every name in order |
| Callable.SchemaParameters | packages/neuri/src/callable.ts:113-151 | the JSON Schema form has a `properties` object holding the `parameters` and `returns` sections, built alike from the parameters and the return descriptions |
| Callable.SpreadSection | packages/neuri/src/callable.ts:171-173 | spreading a section into a fresh object copies it unchanged |
| Callable.OpenAIFunctionMatchesSchema | packages/neuri/src/callable.ts:165-176 | the OpenAI function form is a `function` carrying the callable's name, its description and, as parameters, exactly the `parameters` section of the JSON Schema form |
| Callable.DefineCallableComponent | packages/neuri/src/callable.ts:99-111 | the component exposes exactly the functions it was given |
| Callable.SchemaEntries | packages/neuri/src/callable.ts:158-160 | each exposed function's entry name is paired with its callable's JSON Schema, in entry order |
| Callable.ToolsPropertiesContents | packages/neuri/src/callable.ts:153-163 | with distinct entry names a component's schema has one property per exposed function, keyed by its name and holding that callable's schema, in entry order |
| Callable.ToolsList | packages/neuri/src/callable.ts:180 | one tool per exposed function, in entry order, each the OpenAI form of its callable |
| Callable.ToolsInEntryOrder | packages/neuri/src/callable.ts:178-182 | the i-th tool is a `function` named after the i-th exposed callable whose parameters are that callable's `parameters` section |
| Callable.Callable.constructor | packages/neuri/src/callable.ts:57-71 | a new callable has an empty name and description, no parameters or returns, and the default implementation |
| Callable.CallableBuilder.constructor | packages/neuri/src/callable.ts:56-73 | a builder over a new, empty callable |
| Callable.CallableBuilder.WithName | packages/neuri/src/callable.ts:74-77 | overwrites the name, changes nothing else and returns the builder itself |
| Callable.CallableBuilder.WithDescription | packages/neuri/src/callable.ts:78-81 | overwrites the description, changes nothing else and returns the builder itself |
| Callable.CallableBuilder.WithParameter | packages/neuri/src/callable.ts:82-85 | appends the parameter after the existing ones, changes nothing else and returns the builder itself |
| Callable.CallableBuilder.WithReturn | packages/neuri/src/callable.ts:86-89 | appends the return description, changes nothing else and returns the builder itself |
| Callable.CallableBuilder.Build | packages/neuri/src/callable.ts:90-93 | installs the implementation and returns the same callable, whose other fields are unchanged |
| Callable.DefineCallable | packages/neuri/src/callable.ts:56-97 | returns a new builder over a new, empty callable with the default implementation |
| StreamJsonSpec.SetProp | packages/neuri/src/formats/json/streamJsonParser.ts:49 | `obj[key] = v`: the object at the address gets the key set to the value, every other object is unchanged |
| StreamJsonSpec.SetPropOk | packages/neuri/src/formats/json/streamJsonParser.ts:49 | writing a value that points into the heap keeps every stored reference pointing into the heap |
| StreamJsonSpec.AllocOk | packages/neuri/src/formats/json/streamJsonParser.ts:68 | adding a new empty object or array keeps every stored reference pointing into the heap |
| StreamJsonSpec.DropLast | packages/neuri/src/formats/json/streamJsonParser.ts:113 | `path.slice(0, -1)`: a non-empty path is the result followed by its last key; the empty path stays empty |
| StreamJsonSpec.Descend | packages/neuri/src/formats/json/streamJsonParser.ts:38-44 | the walk only adds objects, never changes the log, keeps the heap's references valid, and when it completes ends at an object in the heap |
| StreamJsonSpec.DescendStep | packages/neuri/src/formats/json/streamJsonParser.ts:39-44 | one step of the walk follows a present key, or first stores a new empty object under a missing key and then follows it |
| StreamJsonSpec.UpdateValue | packages/neuri/src/formats/json/streamJsonParser.ts:37-54 | never shrinks the heap or the log, keeps the heap's references valid, and when it completes returns the object it was given |
| StreamJsonSpec.StringUpdates | packages/neuri/src/formats/json/streamJsonParser.ts:89-92 | the character loop only grows the heap and the log and changes nothing of the state but `currentString` |
| StreamJsonSpec.OpenContainer | packages/neuri/src/formats/json/streamJsonParser.ts:62-70 | at an empty path nothing happens; otherwise the heap and log only grow and the state stays valid |
| StreamJsonSpec.CloseContainer | packages/neuri/src/formats/json/streamJsonParser.ts:124-130 | with an empty stack nothing changes; otherwise the top frame is popped, its object becomes the current object and the path loses its last key; as written the frame's object then holds the old current object under the frame's key, its other keys and every other object unchanged; corrected, the heap is untouched; never throws, reports or allocates |
| StreamJsonSpec.ProcessToken | packages/neuri/src/formats/json/streamJsonParser.ts:56-134 | the heap and the log only grow, the heap's references stay valid, and a completed step returns a valid state |
| StreamJsonSpec.ProcessChildren | packages/neuri/src/formats/json/streamJsonParser.ts:118-122 | processing a container's fields in order only grows the heap and the log and keeps the heap's references and the state valid |
| StreamJsonSpec.RunTokens | packages/neuri/src/formats/json/streamJsonParser.ts:136-145 | running the tokens of a `feed` or an `end` in order only grows the heap and the log and leaves a valid state, whether or not a token threw |
| StreamJsonSpec.InitialOk | packages/neuri/src/formats/json/streamJsonParser.ts:28-35 | the initial state (an empty root object, empty stack, path and string) is valid |
| StreamJsonFacts.DescendKeepsEntries | packages/neuri/src/formats/json/streamJsonParser.ts:38-44 | the walk only adds keys: every property present before keeps its value |
| StreamJsonFacts.UpdateValueEffect | packages/neuri/src/formats/json/streamJsonParser.ts:37-54 | `updateValue` throws exactly when the walk throws, and then reports nothing; otherwise the last key holds the value, one update with the previous value is reported, and no other property present before changes |
| StreamJsonFacts.UpdateValueReportsOnce | packages/neuri/src/formats/json/streamJsonParser.ts:51 | the callback fires exactly once per completed write, with its path and value, and never when the write throws |
| StreamJsonFacts.UpdateAtKey | packages/neuri/src/formats/json/streamJsonParser.ts:37-54 | a write at a one-key path never throws: it sets that key of the root and reports the key's previous value |
| StreamJsonFacts.Prefixes | packages/neuri/src/formats/json/streamJsonParser.ts:89-92 | the updates of a string: the i-th is the first i+1 characters, with the previous prefix as previous value |
| StreamJsonFacts.StringAtKey | packages/neuri/src/formats/json/streamJsonParser.ts:85-94 | at a one-key path a string's characters are written one by one: the log gains every prefix, the key ends holding the whole string, and no other key changes |
| StreamJsonFacts.StringStep | packages/neuri/src/formats/json/streamJsonParser.ts:89-92 | one character of that loop |
| StreamJsonFacts.LogStep | packages/neuri/src/formats/json/streamJsonParser.ts:89-92 | one reported prefix moves from the expected rest of the log to the log |
| StreamJsonFacts.TopLevelStringField | packages/neuri/src/formats/json/streamJsonParser.ts:72-94 | a top-level field with a string value reports every prefix of the string, the first with the key's old value, and leaves the key holding the string; as written the key stays on the path, corrected it is dropped |
| StreamJsonFacts.StripQuoted | packages/neuri/src/formats/json/streamJsonParser.ts:87 | a double-quoted text loses exactly its two quotes |
| StreamJsonFacts.ScalarFieldBalanced | packages/neuri/src/formats/json/streamJsonParser.ts:72-115 | a field with a number, boolean or null value either throws or reports exactly one update of that value at the path extended by the field name, and leaves the path as it was |
| StreamJsonFacts.TopLevelScalarField | packages/neuri/src/formats/json/streamJsonParser.ts:95-115 | a top-level field with a number, boolean or null value sets that key of the root and reports it once with its old value |
| StreamJsonFacts.FieldBelowStringThrows | packages/neuri/src/formats/json/streamJsonParser.ts:37-49 | a field written below a key that holds a string throws a TypeError |
| StreamJsonFacts.FieldFirstChildOnly | packages/neuri/src/formats/json/streamJsonParser.ts:75-83 | a field's children after the first are never looked at |
| StreamJsonFacts.FieldsOf | packages/neuri/src/formats/json/streamJsonParser.ts:119-121 | keeps only the fields of a list of tokens |
| StreamJsonFacts.ChildrenOnlyFields | packages/neuri/src/formats/json/streamJsonParser.ts:118-122 | only the fields among a container's children matter |
| StreamJsonFacts.TopLevelContainerSilent | packages/neuri/src/formats/json/streamJsonParser.ts:118-130 | a container without fields at the top level reports nothing and changes nothing |
| StreamJsonFacts.NestedContainerAnnounced | packages/neuri/src/formats/json/streamJsonParser.ts:62-70 | a container at a non-empty path pushes a frame for its key and reports one update carrying a new empty object or array at that path; if the write throws nothing is reported |
| StreamJsonFacts.TextTokensIgnored | packages/neuri/src/formats/json/streamJsonParser.ts:56-134 | text tokens change nothing |
| StreamJsonFacts.RunTokensAppend | packages/neuri/src/formats/json/streamJsonParser.ts:136-145 | processing tokens in two batches, as `feed` and `end` do, is processing them in one, stopping at the first throw |
| StreamJsonExamples.NestedOpen | packages/neuri/src/formats/json/streamJsonParser.ts:62-70 | entering the inner object of `{"x":{"y":1}}` writes and announces a new empty object at `["x"]` |
| StreamJsonExamples.NestedInnerField | packages/neuri/src/formats/json/streamJsonParser.ts:72-115 | the field `"y":1` inside it writes `1` through the root at `["x","y"]` |
| StreamJsonExamples.NestedPrefix | packages/neuri/src/formats/json/streamJsonParser.ts:56-122 | the heap and the log of `{"x":{"y":1}}` up to where the inner object closes |
| StreamJsonExamples.SingleField | packages/neuri/src/formats/json/streamJsonParser.ts:118-122 | a container with one field runs just that field |
| StreamJsonExamples.NestedObjectBecomesCycle | packages/neuri/src/formats/json/streamJsonParser.ts:124-130 | as written, `{"x":{"y":1}}` ends with the root holding itself under `x`, and `y` is lost from it |
| StreamJsonExamples.NestedObjectKept | packages/neuri/src/formats/json/streamJsonParser.ts:56-134 | corrected, the root holds the nested object under `x`, which holds `y`, and the two writes are reported |
| StreamJsonExamples.TwoFields | packages/neuri/src/formats/json/streamJsonParser.ts:118-130 | a top-level object of two fields runs the first field, then the second, then closes |
| StreamJsonExamples.FirstNumberField | packages/neuri/src/formats/json/streamJsonParser.ts:95-115 | the field `"a":1` at the top of a fresh run sets `a` and reports it with previous value `undefined` |
| StreamJsonExamples.CloseTop | packages/neuri/src/formats/json/streamJsonParser.ts:124 | closing with an empty stack changes nothing |
| StreamJsonExamples.SimpleObjectUpdates | packages/neuri/src/formats/json/streamJsonParser.ts:56-134 | `{"a":1,"b":"q"}` reports `a` once and then every prefix of `q` under `b`, and the finished object holds both |
| StreamJsonExamples.StringThenFieldThrows | packages/neuri/src/formats/json/streamJsonParser.ts:85-94 | as written, `{"a":"x","b":1}` throws a TypeError because `b` is written below the string `a` |
| StreamJsonExamples.FirstStringField | packages/neuri/src/formats/json/streamJsonParser.ts:85-94 | corrected, the field `"a":"x"` sets `a` and reports it once |
| StreamJsonExamples.StringThenFieldCorrected | packages/neuri/src/formats/json/streamJsonParser.ts:56-134 | corrected, `{"a":"x","b":1}` gives an object holding both fields and reports each write once |
| StreamJson.StreamableJsonParser.constructor | packages/neuri/src/formats/json/streamJsonParser.ts:23-35 | a new builder, in the chosen mode, has a fresh scanner in its initial state in the same mode, a heap holding only the empty root object, no reports and the initial state |
| StreamJson.StreamableJsonParser.UpdateValue | packages/neuri/src/formats/json/streamJsonParser.ts:37-54 | the loop walks and writes in place exactly as StreamJsonSpec.UpdateValue and says whether it threw |
| StreamJson.StreamableJsonParser.ProcessToken | packages/neuri/src/formats/json/streamJsonParser.ts:56-134 | processes a token in place exactly as StreamJsonSpec.ProcessToken in the builder's mode |
| StreamJson.StreamableJsonParser.CloseContainer | packages/neuri/src/formats/json/streamJsonParser.ts:124-130 | closes a container in place exactly as StreamJsonSpec.CloseContainer: the last frame is popped and its object made current, written back in the mode as written |
| StreamJson.StreamableJsonParser.ProcessFields | packages/neuri/src/formats/json/streamJsonParser.ts:118-122 | the loop over a container's children in place, exactly as StreamJsonSpec.ProcessChildren |
| StreamJson.StreamableJsonParser.RunTokens | packages/neuri/src/formats/json/streamJsonParser.ts:138-139 | the token loop in place, exactly as StreamJsonSpec.RunTokens, keeping the state of the token before a throw |
| StreamJson.StreamableJsonParser.Feed | packages/neuri/src/formats/json/streamJsonParser.ts:136-140 | the scanner is fed the chunk and every token it releases goes through the builder, both in the builder's mode |
| StreamJson.StreamableJsonParser.End | packages/neuri/src/formats/json/streamJsonParser.ts:142-154 | the scanner's remaining tree goes through the builder; the root is returned when the validator accepts it, nothing when it does not or a token threw |
| JsonSchemaRegex.GetSchemaByJsonPath | packages/neuri/src/formats/jsonschema.ts:117-127 | walking the `/`-separated segments of a path from the schema gives the same result as the reference resolution: the member reached, `Invalid reference` naming the path when a segment is missing, or a type error when a non-container is walked into |
| JsonSchemaRegex.WalkJsonPathStep | packages/neuri/src/formats/jsonschema.ts:120-125 | one segment of the walk: a non-container fails, a missing member reports the whole path, otherwise the walk continues from the member (an object's own keys, an array's indices and its `length`) |
| JsonSchemaFacts.WalkMeaning | packages/neuri/src/formats/jsonschema.ts:117-127 | the walk succeeds exactly when the keys lead to a value in the schema through own members (an array's `length` included), and then returns that value; its only errors are the type error and `Invalid reference: <path>` |
| JsonValue.Member | packages/neuri/src/formats/jsonschema.ts:121 | `key in current` for an object is a lookup of its own keys, and for an array `length` is a member holding the number of elements |
| JsonSchemaFacts.ArrayLengthMember | packages/neuri/src/formats/jsonschema.ts:117-127 | `#/a/length` in `{"a": [1]}` reaches the number 1, while the missing index `1` reports `Invalid reference` |
| JsonSchemaRegex.GetCombinations | packages/neuri/src/formats/jsonschema.ts:129-140 | the loop that builds the k-element combinations returns exactly the recursively defined list of combinations |
| JsonSchemaRegex.PushPrepended | packages/neuri/src/formats/jsonschema.ts:135-137 | pushing `[head, ...combo]` for every tail combination appends those combinations, in order, after the ones already found |
| JsonSchemaFacts.CombinationsSound | packages/neuri/src/formats/jsonschema.ts:129-140 | every combination has k elements and picks them from the array in their original order |
| JsonSchemaFacts.CombinationsComplete | packages/neuri/src/formats/jsonschema.ts:129-140 | every k-element ordered selection from the array is among the combinations |
| JsonSchemaFacts.CombinationsCount | packages/neuri/src/formats/jsonschema.ts:129-140 | there are exactly n-choose-k combinations of an n-element array |
| JsonSchemaFacts.ChooseOne | packages/neuri/src/formats/jsonschema.ts:131-132 | for k = 1 there is one combination per element |
| JsonSchemaFacts.CombineObjectPatterns | packages/neuri/src/formats/jsonschema.ts:142-145 | combining object patterns strips each one's braces and joins the bodies with commas inside one pair of braces |
| JsonSchemaFacts.AnyOfAlternativesCount | packages/neuri/src/formats/jsonschema.ts:238-254 | `anyOf` over n alternatives offers 2^n - 1 alternatives, one for each non-empty combination |
| JsonSchemaFacts.AnyOfContains | packages/neuri/src/formats/jsonschema.ts:238-254 | every non-empty ordered selection of the compiled alternatives appears, combined, among the `anyOf` alternatives |
| JsonSchemaFacts.AnyOfOnlyCombinations | packages/neuri/src/formats/jsonschema.ts:238-254 | every `anyOf` alternative is the combination of some non-empty ordered selection and nothing else |
| JsonSchemaOrder.CombinationsLexSorted | packages/neuri/src/formats/jsonschema.ts:129-140 | over strictly increasing input, the combinations come out in strictly increasing lexicographic order |
| JsonSchemaOrder.CombinationsRename | packages/neuri/src/formats/jsonschema.ts:129-140 | the combinations of a mapped array are the mapped combinations: the listing depends only on positions, not on the elements |
| JsonSchemaOrder.CombinationsOrder | packages/neuri/src/formats/jsonschema.ts:129-140 | the p-th combination is read off an increasing k-tuple of positions, and those tuples are in strictly increasing lexicographic order |
| JsonSchemaOrder.SubseqIncreasing | packages/neuri/src/formats/jsonschema.ts:129-140 | a selection picked in order from increasing positions is itself increasing |
| JsonSchemaOrder.AnyOfMerges | packages/neuri/src/formats/jsonschema.ts:246-253 | the p-th `anyOf` alternative is `combineSchemas` of the p-th combination, sizes taken from smallest up |
| JsonSchemaOrder.AnyOfBySize | packages/neuri/src/formats/jsonschema.ts:246-253 | the combinations behind the `anyOf` alternatives never get shorter along the list, and all have at least the starting size |
| JsonSchemaRules.AnyOfCompilesIff | packages/neuri/src/formats/jsonschema.ts:238-254 | `anyOf` compiles exactly when each of its sub-schemas compiles |
| JsonSchemaFacts.ValidateQuantifiersMeaning | packages/neuri/src/formats/jsonschema.ts:74-88 | the bound check fails exactly when both bounds are numbers and the maximum is below the minimum, with the fixed message; otherwise each returned text denotes its bound less the offset, empty when the bound is absent |
| JsonSchemaFacts.QuantifiersOfCounts | packages/neuri/src/formats/jsonschema.ts:74-88 | for integer bounds the result is the error when max < min and otherwise the two bounds shifted by the offset |
| JsonSchemaFacts.NumItemsPatternNull | packages/neuri/src/formats/jsonschema.ts:100-115 | the repetition count is `null` exactly when a maximum is given that reads as a number below 1 |
| JsonSchemaFacts.NumItemsPatternOfCounts | packages/neuri/src/formats/jsonschema.ts:100-115 | for integer counts the repetition is `{max(min-1,0),}` without a maximum and `{max(min-1,0),max-1}` with one, and a missing minimum counts as 0 |
| JsonSchemaFacts.LiteralPatternMeaning | packages/neuri/src/formats/jsonschema.ts:287-302 | an enum or const entry has a pattern exactly when it is a primitive; unescaping that pattern gives back its JSON text, and every metacharacter in it is escaped |
| JsonSchemaFacts.EnumChoicesMeaning | packages/neuri/src/formats/jsonschema.ts:287-295 | `enum` compiles exactly when every value is a primitive, and then choice i is the escaped literal of value i |
| JsonSchemaFacts.EnumChoicesError | packages/neuri/src/formats/jsonschema.ts:292 | the only `enum` failure is the type error naming `object`, the `typeof` of both arrays and objects |
| JsonSchemaFacts.ConstMeaning | packages/neuri/src/formats/jsonschema.ts:297-302 | `const` compiles exactly for a primitive, to a pattern that unescapes to its JSON text; otherwise it raises the `const` type error |
| JsStrings.RegexEscapeRoundTrip | packages/neuri/src/formats/jsonschema.ts:290 | the metacharacter escaping loses no text and leaves no metacharacter unescaped |
| JsonSchemaFacts.RefResolves | packages/neuri/src/formats/jsonschema.ts:304-318 | a `#/a/b` reference compiles to whatever the schema at that path in the root compiles to; when nothing is there it fails with the type error or `Invalid reference` |
| JsonSchemaFacts.InternalRef | packages/neuri/src/formats/jsonschema.ts:309-312 | a `#/`-prefixed reference has its prefix removed and splits back into the keys it was built from |
| JsonSchemaFacts.ExternalRefRejected | packages/neuri/src/formats/jsonschema.ts:315-316 | any reference not starting with `#/` fails with `External references are not supported` |
| JsonSchemaFacts.PatternAnchorsRemoved | packages/neuri/src/formats/jsonschema.ts:320-330 | a string pattern written as `^x$` loses its anchors and is wrapped in quotes |
| JsonSchemaFacts.FormatMeaning | packages/neuri/src/formats/jsonschema.ts:335-343 | a string format compiles exactly when it is uuid, date-time, date or time, to that format's pattern; any other format fails with `Format <f> is not supported` |
| JsonSchemaFacts.LengthBounds | packages/neuri/src/formats/jsonschema.ts:320-334 | with both lengths given, the string pattern repeats the inner character class between the two lengths, or fails when the maximum is below the minimum |
| JsonSchemaFacts.MinLengthOnly | packages/neuri/src/formats/jsonschema.ts:74-88 | with only a minimum length the upper bound text is `NaN`, because `Number('')` of the missing maximum is not a number |
| JsonSchemaFacts.IntegerDigits | packages/neuri/src/formats/jsonschema.ts:348-371 | an integer with digit bounds matches an optional minus and then 0 or a non-zero digit followed by min-1 to max-1 digits, or fails when max < min |
| JsonSchemaFacts.SimpleTypeCompiles | packages/neuri/src/formats/jsonschema.ts:455-477 | a schema that is only `{type: t}` for a primitive t compiles to that type's fixed pattern |
| JsonSchemaFacts.TypeOnlyDispatch | packages/neuri/src/formats/jsonschema.ts:497-537 | a schema with a `type` and none of the keywords tried before it is compiled by the type handler |
| JsonSchemaFacts.FilterMembers | packages/neuri/src/formats/jsonschema.ts:450 | the filtered type list keeps exactly the types other than `object` |
| JsonSchemaFacts.MultipleTypesIgnoreObject | packages/neuri/src/formats/jsonschema.ts:444-453 | a type list compiles the same with or without `object` in it |
| JsonSchemaDepth.DepthAsWritten | packages/neuri/src/formats/jsonschema.ts:398 | as written, a depth of 0 is replaced by 2, because 0 is falsy; any other depth is kept |
| JsonSchemaDepth.DepthCorrected | packages/neuri/src/formats/jsonschema.ts:398 | in the corrected reading the given depth is used as it is |
| JsonSchemaDepth.DepthMissing | packages/neuri/src/formats/jsonschema.ts:398 | a missing depth is 2 in both readings |
| JsonSchemaDepth.MapAllOk | packages/neuri/src/formats/jsonschema.ts:402 | compiling a list of schemas succeeds when each one does |
| JsonSchemaDepth.MapFirstError | packages/neuri/src/formats/jsonschema.ts:402 | compiling a list raises the error of the first schema that fails |
| JsonSchemaDepth.ArrayBranch | packages/neuri/src/formats/jsonschema.ts:389-405 | an array with neither `items` nor `contains` fails with the error of compiling its legal types when that fails, and compiles when they all compile |
| JsonSchemaDepth.ObjectHandled | packages/neuri/src/formats/jsonschema.ts:408-442 | an object with no property counts takes the `anyOf` of its legal types as the value schema: it fails when that fails and otherwise compiles with it |
| JsonSchemaDepth.ArrayNeverEnds | packages/neuri/src/formats/jsonschema.ts:389-405 | as written, an untyped-item array at any depth never finishes compiling, whatever the fuel |
| JsonSchemaDepth.ObjectNeverEnds | packages/neuri/src/formats/jsonschema.ts:420-442 | as written, an untyped object at any depth never finishes compiling, whatever the fuel |
| JsonSchemaDepth.UntypedArrayNeverEnds | packages/neuri/src/formats/jsonschema.ts:598-601 | as written, building the regex for `{type: 'array'}` never finishes, whatever the fuel |
| JsonSchemaDepth.ArrayEnds | packages/neuri/src/formats/jsonschema.ts:389-405 | with the depth read as given, an array at depth d compiles once the fuel covers 2d+3 nested calls |
| JsonSchemaDepth.ObjectEnds | packages/neuri/src/formats/jsonschema.ts:420-442 | with the depth read as given, an object at depth d compiles once the fuel covers 2d+3 nested calls |
| JsonSchemaDepth.UntypedArrayCompiles | packages/neuri/src/formats/jsonschema.ts:373-406 | in the corrected reading `{type: 'array'}` compiles |
| JsonSchemaDepth.UntypedObjectCompiles | packages/neuri/src/formats/jsonschema.ts:408-442 | in the corrected reading `{type: 'object'}` compiles |
| JsonSchemaDepth.UntypedArrayEnds | packages/neuri/src/formats/jsonschema.ts:598-601 | in the corrected reading, building the regex for `{type: 'array'}` succeeds |
| JsonSchemaRules.BooleanSchema | packages/neuri/src/formats/jsonschema.ts:505-506 | `true` matches everything and `false` matches nothing |
| JsonSchemaRules.UnknownSchemaThrows | packages/neuri/src/formats/jsonschema.ts:538 | a non-empty schema with none of the recognised keywords raises the could-not-translate error |
| JsonSchemaRules.PropertiesFirst | packages/neuri/src/formats/jsonschema.ts:511-512 | once `properties` is present and truthy, every other keyword of the schema is ignored |
| JsonSchemaRules.BuildWrapsInWhitespace | packages/neuri/src/formats/jsonschema.ts:598-601 | building succeeds exactly when compiling the schema as its own root succeeds, with the default whitespace when none is given; the result is that pattern between `\s*` on each side, and a failure passes through |
| JsonSchemaRegex.MapToRegex | packages/neuri/src/formats/jsonschema.ts:402 | compiling a list of schemas, when it succeeds, yields one pattern per schema; the first failure is the result otherwise (see JsonSchemaDepth.MapFirstError) |
| JsonSchemaRules.MapOkIff | packages/neuri/src/formats/jsonschema.ts:402 | a list of schemas compiles exactly when each one does, and then entry i is schema i's pattern |
| JsonSchemaRules.OneOfAlternatives | packages/neuri/src/formats/jsonschema.ts:256-264 | `oneOf` compiles exactly when each alternative does, to one group whose branches are the non-capturing groups of the alternatives |
| JsonSchemaRules.PrefixItemsCompiles | packages/neuri/src/formats/jsonschema.ts:266-285 | `prefixItems` compiles exactly when every prefix schema compiles and, when present, the `items` schema compiles |
| JsonSchemaRules.PrefixItemsTuple | packages/neuri/src/formats/jsonschema.ts:266-285 | the tuple pattern is the prefix patterns separated by commas inside brackets, followed by any number of further `items` when `items` is given |
| JsonSchemaRules.EmptySchemaNeverEnds | packages/neuri/src/formats/jsonschema.ts:147-159 | as written, the empty schema `{}` never finishes compiling, since its array and object alternatives never do |
| JsonSchemaRules.EmptySchemaEnds | packages/neuri/src/formats/jsonschema.ts:147-159 | in the corrected reading `{}` compiles to the alternation of the seven basic types |
| JsonSchemaRules.PropertiesAllRequired | packages/neuri/src/formats/jsonschema.ts:171-183 | when every property is required, the object pattern lists every property in order, separated by commas |
| JsonSchemaRules.PropertiesNoneRequired | packages/neuri/src/formats/jsonschema.ts:184-198 | when nothing is required, the object body is optional and is an alternation with one branch per property: that property present and every other property optional |
| JsonSchemaRules.PropertyOptional | packages/neuri/src/formats/jsonschema.ts:184-198 | a single optional property may be present or absent between the braces |
| JsonSchemaRules.AllFlagsSet | packages/neuri/src/formats/jsonschema.ts:169 | every key listed in `required` is flagged as required |
| JsonSchemaRegex.LastTrue | packages/neuri/src/formats/jsonschema.ts:172 | `lastIndexOf(true)`: the index of a set flag after which no flag is set, or -1 exactly when no flag is set |
| JsonSchemaRules.NoFlagsSet | packages/neuri/src/formats/jsonschema.ts:166-169 | with the default empty `required`, no key is flagged |
| JsonSchemaRules.RequiredWithoutIncludes | packages/neuri/src/formats/jsonschema.ts:169 | a truthy `required` that is neither an array nor a string has no `includes`, so compiling the properties fails with a type error |
| JsonSchemaRules.AssignKeys | packages/neuri/src/formats/jsonschema.ts:213 | the keys of `{ ...a, ...b }` are the keys of either object |
| JsonSchemaRules.MergeAllOfMeaning | packages/neuri/src/formats/jsonschema.ts:209-221 | merging sub-schemas with array-valued `required` succeeds; a key is merged exactly when it was already merged or some sub-schema has it among its properties, and a name is required exactly when some sub-schema (or the list so far) requires it |
| JsonSchemaRules.AllowEmptyReadings | packages/neuri/src/formats/jsonschema.ts:379 | for a `minItems` given as an integer, the array and object readings agree that an empty list is allowed exactly for 0; a missing `minItems` allows none in the array reading and allows it in the object reading |
| JsonSchemaRules.ArrayItemsRequireOne | packages/neuri/src/formats/jsonschema.ts:378-384 | as written, `{type: 'array', items}` without `minItems` compiles to one item followed by further comma-separated items, with no branch for `[]` |
| JsonSchemaRules.ArrayItemsMayBeEmpty | packages/neuri/src/formats/jsonschema.ts:378-384 | when a missing `minItems` is read as 0, the item list of `{type: 'array', items}` is optional and `[]` is matched |

## Left out

- I/O and the environment:
  - The TextMate grammar engine (`vscode-textmate` tokenisation) and the Markdown parser (`unified` with `remark-parse`, walked with `unist-util-visit`) are parameters: token lists and block lists given as data.
  - The Ajv validator used by `extractBySchema` is not part of this model.
- `buildRegexFromSchemaString`, `extractBySchema` and `extractObjectBySchema` are left out. They are thin wrappers over `JSON.parse`, `RegExp.exec` and Ajv, none of which is modelled; `buildRegexFromSchema` is modelled.
- Regular-expression matching itself is not modelled. The compiled patterns are compared as strings, so the properties of the schema compiler are about the text of the pattern.
- `JsonSchemaRegex.ToRegex` carries a fuel parameter. As written, the compiler does not terminate on `{}`, on an untyped array or object, or on a cyclic `$ref`. Running out of fuel is the result `OutOfFuel`, which the real code never returns (it overflows the stack instead).
- Numbers:
  - JSON numbers are kept as their canonical JavaScript text.
  - `Number(...)` in the streaming builder is an uninterpreted value, `VNum(text)`.
  - Floating-point arithmetic is not modelled.
- Key order: object keys keep insertion order. JavaScript's rule that integer-like keys come first is not modelled.
- Inherited properties: `Object.keys` and spread see own enumerable properties, as modelled; the `in` operator also sees inherited members, which the model leaves out (next two lines).
- WalkJsonPathStep: a segment naming an inherited `Object.prototype` or `Array.prototype` member (`toString`, `constructor`, `map`, ...) passes the source's `in` test and leads to a function, not a JSON value; the model reports `Invalid reference` there.
- WalkMeaning: its "exactly when the keys lead to a value" is over own members only (object keys, array indices and `length`), for the same reason as the line above.
- Promises and `async`: these callbacks and builders are synchronous in the model.
- Callbacks are an append-only log field on each stateful class.
- Callable implementations are opaque values.
- The component factories of `callable.ts` are given their functions as data.
- Concrete runs of the character scanner on literal text are not stated. The scanner's parent-search finding is exhibited on a hand-built store (`JsonScanSpec.CloseFieldValue`) and on the token trees it leads to (`JsonStringify`), not on a scan of the text `{"x":{"y":1},"z":2}` itself.
- `JsonStringify.TokenOf` is a canonical token tree for a value, not the tree the scanner builds from the value's text; that the two agree is not stated.
- Text positions: `Textmate` and `StreamTextmate` slice the text at the tokenizer's `startIndex` and `endIndex`, which count UTF-16 code units; the model indexes the text by Dafny characters, so text outside the Basic Multilingual Plane is sliced differently.
- The per-language TextMate extractors (Go, JavaScript, TypeScript, Rust, TSX) are covered by their scope lists, through `Textmate.TsxScopesSelect` and `Textmate.SingleLanguageScopesSelect`.
- Quirks kept as written and not listed as findings:
  - `NUMBER` and the number pattern leave the fraction dot unescaped (jsonschema.ts:17, 359), because `\.` in a template literal is just `.`.
  - The `contains` and legal-types branches of `handleArrayType` write `{${numRepeats}}`, which doubles the braces of the repetition count (jsonschema.ts:387, 404).
  - `handleAllOf` does not regex-escape property names (jsonschema.ts:228-229).
  - The parameter schema of a callable keeps `optional` and `defaultValue`, because only `name` is deleted from the spread (callable.ts:122-126).
- JsonSchemaRules.MergeAllOfMeaning: states which keys and required names survive the `allOf` merge, but not which sub-schema's value wins for a repeated key (the later one). It covers only sub-schemas whose `required` is an array; a string `required` is spread into characters by the code and is modelled but not stated.
- JsonSchemaRules.PropertiesAllRequired: covers the two extreme cases, every property required or none. The mixed case, with its separators placed around the last required property, is modelled but not stated.

## Findings

| source | as written | input that shows it | evidently intended | confidence | as-written member | corrected member |
|---|---|---|---|---|---|---|
| packages/neuri/src/formats/jsonParser.ts:301-324 | `findParentContainer` returns the field whose value is the container just closed. Later fields are then filed under that field, and only its first child is rendered | `{"x":{"y":1},"z":2}` is rendered back as `{"x":{"y":1}}` | the container that encloses the field receives the next field | not executed | JsonStringify.SiblingUnderFieldIsDropped | JsonStringify.SiblingUnderObjectIsKept |
| packages/neuri/src/formats/json/streamJsonParser.ts:124-130 | after a nested object is built, it is written back into itself under its own key, which creates a cycle | `{"x":{"y":1}}` | the nested object is stored in its parent | not executed | StreamJsonExamples.NestedObjectBecomesCycle | StreamJsonExamples.NestedObjectKept |
| packages/neuri/src/formats/json/streamJsonParser.ts:85-94 | a string value does not pop its key from the path. The next field is then written into the string, which throws | `{"a":"x","b":1}` | the key is popped after any value, as it is for other values | not executed | StreamJsonExamples.StringThenFieldThrows | StreamJsonExamples.StringThenFieldCorrected |
| packages/neuri/src/formats/jsonschema.ts:398 | `depth \|\| 2` turns a depth of 0 into 2, so nested untyped arrays and objects recurse without end | `{"type":"array"}` (and `{}`) | a depth of 0 stops the nesting | not executed | JsonSchemaDepth.UntypedArrayNeverEnds | JsonSchemaDepth.UntypedArrayEnds |
| packages/neuri/src/formats/jsonschema.ts:379 | `String(instance.minItems) \|\| '0'` is `"undefined"` when `minItems` is missing. That parses to NaN, so the array pattern has no branch for `[]` | `{"type":"array","items":{"type":"number"}}` does not match `[]` | a missing `minItems` counts as 0, as it does for `minProperties` at line 417 | not executed | JsonSchemaRules.ArrayItemsRequireOne | JsonSchemaRules.ArrayItemsMayBeEmpty |
