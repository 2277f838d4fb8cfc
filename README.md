# gxpc core, modelled in Dafny

gxpc is a Frida-based tracer for XPC traffic on iOS and macOS. An agent injected
into the target process captures XPC messages and sends them to the host
program. The host filters each message by connection name or process id,
numbers the messages it keeps, and writes each one as an indented
`key => value` record. This project models the host's logic and proves
properties of it:

- **object.go**, in module `Object` (`object.dfy`):
  - the drop decision of `PrintData`, and the shared message counter (a class);
  - the record written for a kept message;
  - the recursive renderer `printData`, as methods that append to the message, proved against a pure rendering function;
  - the pattern searches `connInList` and `pidInList`.
- **main.go**, in module `Host` (`host.dfy`):
  - `listToRegex` (globs to regular expressions);
  - target resolution (explicit pid, name lookup, or spawn), the spawn argv, and the attach/spawn/load/resume/setup sequence of `RunE`;
  - the switch that routes the script's messages.
- **offsets.go**, in module `Offsets` (`offsets.dfy`): the offset types, and `updateConfig` as a method on a class holding the config file, proved against a pure update function. The host's message switch (main.go:259-296) has no `newOffset` case, so nothing in main.go calls `updateConfig`, and `Host.Dispatch` never reaches it.
- **internal/lexer/lexer.go**, in module `Lexer` (`lexer.dfy`): the byte-cursor lexer as a class with `position`, `readPosition` and `ch`. `NextToken` is proved against a pure scanner `Scan`. `ReadChar` and `PeekChar` are proved against `ByteAt` (the byte at an index, or 0 past the end). The run readers `SkipWhitespace`, `ReadIdentifier` and `ReadNumber` are proved against `RunEnd`, and `ReadString` against `StringEnd`.
- **internal/token/token.go**, in module `Token` (`token.dfy`): the token types, the keyword table and `LookupIdent`.
- **Support modules:**
  - `Patterns` (`patterns.dfy`) models the fragment of Go's RE2 that the patterns produce: literals, `.` and `.*`, unanchored `MatchString`, with neither `.` nor `.*` matching a newline.
  - `Util` (`util.dfy`) holds Option/Result, Go's decimal integer text, and the `%v` text of a float64 holding an integer.

The model follows the code, including:

- The filter patterns are compiled again for every message (main.go:272-275), not once at startup.
- A missing or undecodable config file makes `RunE` fail after the script is loaded (main.go:317-326). It is not skipped.
- The pid whitelist is read from the `whitelist` flag (main.go:252), and `Host.Dispatch` filters with the lists read that way. See Findings.
- Every JSON number reaches the renderer as a float64, so `%v` prints numbers of a million or more in exponent form (`1234567` prints as `1.234567e+06`).
- The lexer emits `LBRACE`, `RBRACE`, `COLON`, `COMMA`, `STRING` and `INT` (lexer.go:36-57), but token.go does not declare them. `Token.TokenType` adds them with the texts their names suggest.

## Model

| member | source | states |
|---|---|---|
| Token.NamesDistinct | internal/token/token.go:5-17 | The string values of distinct token types differ. |
| Token.LookupIdent | internal/token/token.go:19-28 | Yields FN exactly for "fn" and IDENT exactly for every other identifier, so no other type is ever returned. |
| Lexer.IsLetter | internal/lexer/lexer.go:50 | unicode.IsLetter of a byte is never NUL, '_' or an ASCII digit. |
| Lexer.IsNumber | internal/lexer/lexer.go:54 | unicode.IsNumber of a byte is never NUL or a letter, and below 0x80 it holds exactly for '0'-'9'. |
| Lexer.IsSpace | internal/lexer/lexer.go:105 | unicode.IsSpace of a byte is never NUL, a letter or a number, so skipping whitespace stops at the end marker and at every identifier or number. |
| Lexer.RunEnd | internal/lexer/lexer.go:67-73 | The end of the maximal run of one byte class from a position: every byte before it is in the class, the byte at it is not (0 past the end). |
| Lexer.StringEnd | internal/lexer/lexer.go:75-84 | The first quote or NUL at or after a position, or the end of input: nothing before it is a quote or NUL. |
| Lexer.RuneBytes | internal/lexer/lexer.go:122-127 | string(byte) is the byte itself below 0x80, and otherwise the two-byte UTF-8 sequence that encodes code point b. |
| Lexer.Scan | internal/lexer/lexer.go:21-65 | The next token and the position after it: the position always advances, and a non-EOF token starts inside the input. |
| Lexer.Lexer.New | internal/lexer/lexer.go:8-12 | After New, position is 0, readPosition is 1, and ch is the first byte or 0 for empty input. |
| Lexer.Lexer.ReadChar | internal/lexer/lexer.go:94-102 | Moves position to readPosition and readPosition one further, and loads ch with the byte there or 0 past the end. |
| Lexer.Lexer.AtEof | internal/lexer/lexer.go:110-112 | At the end the byte read at readPosition is 0; otherwise it is the input byte there. |
| Lexer.Lexer.PeekChar | internal/lexer/lexer.go:110-120 | Returns the byte at readPosition, or 0 at the end, and changes nothing. |
| Lexer.Lexer.SkipWhitespace | internal/lexer/lexer.go:104-108 | Leaves position at the end of the whitespace run. |
| Lexer.Lexer.ReadIdentifier | internal/lexer/lexer.go:86-92 | Consumes the maximal run of letters and '_' and returns exactly those input bytes. |
| Lexer.Lexer.ReadNumber | internal/lexer/lexer.go:67-73 | Consumes the maximal run of digits and returns exactly those input bytes. |
| Lexer.Lexer.ReadString | internal/lexer/lexer.go:75-84 | Stops at the closing quote, a NUL or the end of input, and returns the bytes between the quotes. |
| Lexer.Lexer.NextToken | internal/lexer/lexer.go:21-65 | Returns the token and advances the cursor exactly as Scan says, keeping the cursor invariant. |
| Lexer.EofForever | internal/lexer/lexer.go:47-48 | At or past the end of input, scanning yields EOF again and again. |
| Lexer.DefOrEq | internal/lexer/lexer.go:26-33 | '=' followed by '>' is one DEF token "=>" that consumes both; a lone '=' is EQ. |
| Lexer.Identifier | internal/lexer/lexer.go:50-53 | A token starting with a letter is the maximal letter/'_' run, typed by LookupIdent. |
| Lexer.Number | internal/lexer/lexer.go:54-57 | A token starting with a digit is the maximal digit run, typed INT. |
| Lexer.StringLiteral | internal/lexer/lexer.go:44-46 | A string token holds the bytes between the opening quote and the next quote, NUL or end of input. It contains no quote or NUL and stops exactly there. |
| Lexer.LiteralFromInput | internal/lexer/lexer.go:50-57 | Identifier, number and string literals are slices of the input. |
| Lexer.IllegalHighByte | internal/lexer/lexer.go:58-60 | A byte 0x80 gives an ILLEGAL token whose literal is the 2-byte UTF-8 encoding of U+0080. |
| Util.NatText | object.go:121-122 | strconv.Itoa of a natural number: non-empty decimal digits, with a leading '0' only for zero. |
| Util.ParseNatText | object.go:121 | The decimal text reads back to the same number. |
| Util.NatTextInjective | object.go:121-122 | Different indices give different keys. |
| Util.FloatText | object.go:127-129 | %v of a float64 holding an integer: the same text as %d below a million in magnitude. |
| Util.SciParts | object.go:127-129 | The exponent form's digits: at least one, with no leading or trailing zero, and no more than the exponent allows. |
| Util.SciPartsValue | object.go:127-129 | The exponent form reads back to the number: its digits times ten to the remaining power. |
| Util.FloatTextExamples | object.go:127-129 | 1234567 prints as "1.234567e+06" and 1000000 as "1e+06". |
| Patterns.Compile | main.go:383 | Compiling never lengthens the pattern, and only the empty source gives the empty pattern. |
| Patterns.MatchString | object.go:136 | Unanchored search: the pattern matches iff its atoms match a prefix of the text from some start position, the end of the text included. |
| Patterns.MatchNeedsFirst | object.go:136 | A pattern starting with a literal character matches only texts containing that character. |
| Patterns.LiteralPrefix | object.go:136 | A literal pattern matches at the start exactly when the text begins with its word. |
| Object.Lookup | object.go:26-34 | data[key]: a found value is an entry of the map under that key; a miss means no entry has the key. |
| Object.Dropped | object.go:41-59 | A blacklist hit on the name always drops the message; nothing is dropped unless a name list is given, or the pid is positive and a pid list is given. |
| Object.NameListsDecide | object.go:41-48 | With a name list present, a message is dropped iff the whitelist is non-empty and misses the name, or the blacklist hits it. |
| Object.PidListsDecide | object.go:36-39 | Without name lists, only a positive pid is filtered, and only by the pid lists. |
| Object.ConnInList | object.go:134-141 | True iff some pattern of the list matches the name; false for an empty list. |
| Object.PidInList | object.go:143-151 | True iff some pattern matches the %f text of the pid. |
| Object.RenderLines | object.go:102-132 | A scalar gives one line; a sequence gives at least three, from "key => [" to "]"; only a map under an empty key can give none. |
| Object.Render | object.go:102-132 | The appended text is empty or starts with the indent, goes on past it, and ends in a newline; only a map under an empty key can append nothing. |
| Object.PrintValue | object.go:102-132 | Appends exactly the rendering of the value to the message, so the old message is a prefix. |
| Object.PrintEntries | object.go:114-116 | Appends the rendering of each map entry, in order, one tab deeper. |
| Object.PrintItems | object.go:120-123 | Appends the rendering of each element, keyed by its decimal index. |
| Object.ConcatAppend | object.go:110-130 | Rendering only appends: the text of joined line lists is the joined texts. |
| Object.LinesIndented | object.go:102-132 | Every rendered line starts with the indent, has more after it, and ends in a newline. |
| Object.ScalarLine | object.go:125-130 | A scalar renders as the single line indent+key+" => "+value+"\n". |
| Object.MapLayout | object.go:108-116 | A map renders a header line only for a non-empty key, then its entries one tab deeper. |
| Object.SeqLayout | object.go:117-124 | A sequence renders "key => [", then "[", then its items, then "]". |
| Object.NestedExample | object.go:102-132 | {"a":{"b":[1,2]}} renders as the expected six lines. |
| Object.NumberLine | object.go:125-130 | A number renders as one line with its float64 %v text. |
| Object.LargeNumberLine | object.go:102-132 | {"x":1234567} renders as "\tx => 1.234567e+06\n". |
| Object.Shown | object.go:67-68 | %s of a field: a string prints as itself; a missing, number or bool field prints in Go's "%!s(...)" form. |
| Object.ProcessLine | object.go:69-73 | The "Process: " line is there iff "pid" is a number, and it ends in a newline. |
| Object.Record | object.go:67-87 | The record opens with digits that read back to the message number, followed by ") Name: ". |
| Object.Fields | object.go:82-87 | After the opening, the record ends with a newline, 80 '=' and a newline. |
| Object.RecordCarriesData | object.go:67-87 | After its name line, a record holds in order the "Connection Name: " line, the process line (if any), "Data:", the rendered dictionary and the 80-'=' separator. |
| Object.RecordsDistinct | object.go:61-67 | Records with different counter values differ. |
| Object.RecordEndsWithSeparator | object.go:67-87 | A record starts with its number and ") Name: ", and ends with a newline, 80 '=' and a newline. |
| Object.Counter.constructor | object.go:17 | The counter starts at 0. |
| Object.PrintData | object.go:19-100 | A dropped message leaves the counter unchanged; a kept one gets the counter's value and its Record (its number, name line and, per RecordCarriesData, its data and separator), and the counter goes up by exactly one. |
| Offsets.Entry | offsets.go:38-52 | The new entry's OS is the machine, with one build map holding only the version, CallHandler = callEvent and PlistCreate = plistCreate. |
| Offsets.Update | offsets.go:30-86 | Fails iff the file is undecodable, and then leaves it as it was; otherwise the file holds a record whose last entry is the new one. |
| Offsets.Config.constructor | offsets.go:30 | Holds the given file state. |
| Offsets.Config.UpdateConfig | offsets.go:30-86 | The file becomes what Update says, and the error is what Update returns. |
| Offsets.CreatesOneEntry | offsets.go:32-55 | With no file, the result holds exactly the new entry. |
| Offsets.AppendsEntry | offsets.go:57-84 | With a record, the offsets grow by one, old entries stay in order, and the new entry is last. |
| Offsets.DecodeFailureKeepsFile | offsets.go:63-65 | A decode failure returns an error and leaves the file unchanged. |
| Offsets.NoDeduplication | offsets.go:67-78 | Reporting the same offset twice stores two equal entries. |
| Offsets.TwoReports | offsets.go:30-86 | Two reports from no file give exactly two entries, in report order. |
| Host.GlobToRegex | main.go:382 | Every '*' of the result follows a '.', and the result never starts with '*'. |
| Host.GlobRoundTrip | main.go:382 | The glob can be recovered from its regex source. |
| Host.CompileGlob | main.go:382-383 | The compiled regex is the glob's meaning: '*' any run, '.' any character, all else literal. |
| Host.CompiledMeaning | main.go:379-387 | The i-th compiled pattern is the meaning of the i-th glob. |
| Host.ListToRegex | main.go:379-387 | Same length and order as the input, each element the compiled rewritten glob. |
| Host.FiltersAsWritten | main.go:237-255 | The pid whitelist handed to PrintData is the name whitelist. |
| Host.FiltersOf | main.go:252 | As intended, each list comes from its own flag; these lists agree with the as-written ones iff the whitelistp flag equals the whitelist flag. |
| Host.WhitelistpIgnoredAsWritten | main.go:252 | As written, every filter decision equals the one made with an empty pid whitelist. |
| Host.WhitelistpCounterexample | main.go:252 | With only pid whitelist "1", pid 456 is kept as written but dropped as intended. |
| Host.PidWhitelistApplies | object.go:49-52 | As intended, a positive pid missing every pid-whitelist pattern is dropped when there are no name lists. |
| Host.NameFilterExample | object.go:41-48 | Whitelist "A*" keeps "Alpha" and drops "Beta", and adding blacklist "ph" drops "Alpha". |
| Host.PidFilterExample | object.go:49-58 | Pid blacklist "123" drops pid 123 and keeps pid 456. |
| Host.FirstPid | main.go:174-179 | -1 iff no process has the name; otherwise the pid of the first process with that exact name. |
| Host.FindProcess | main.go:168-180 | The search loop finds FirstPid's answer. |
| Host.Resolved | main.go:166-180 | An explicit pid is used as-is; with pid -1 and a name, the result is the pid of the first process of that exact name (-1 if none), or nothing when the processes cannot be listed; no pid and no name leaves -1. |
| Host.ResolveTarget | main.go:166-189 | Fails with "missing pid, name or file to spawn" iff the resolved pid is -1 and no file is given; enumerates processes only for a name lookup. |
| Host.BuildArgv | main.go:200-204 | argv has length len(args)+1, starts with the file and continues with args. |
| Host.Connect | main.go:191-216 | Attaches when the pid is not -1, otherwise spawns with [file]+args and attaches to the new pid; spawned holds only on the spawn path. |
| Host.Launch | main.go:166-328 | Spawn happens iff the resolved pid is -1 and a file is given; resume only follows a spawn; success ends with setup of the decoded offsets. |
| Host.Reply | main.go:285 | The reply opens with the fixed JSON head and closes with the fixed tail, with room for exactly the payload between them (ReplyRoundTrip reads it back). |
| Host.ReplyRoundTrip | main.go:285 | The payload can be read back out of the reply. |
| Host.Route | main.go:257-297 | print sends go to PrintData, jlutil sends to a post, other sub-types to a warning, log to info, other kinds to an error. |
| Host.JlutilAlwaysAnswered | main.go:280-286 | A jlutil request is always posted back; when the tool fails, the payload is empty. |
| Host.Dispatch | main.go:257-297 | Routes as Route says. Only a print request that passes the lists as RunE reads them (the pid whitelist being the name whitelist) advances the counter, and it records the message. |

## Left out

- Frida itself: device selection (main.go:142-158), the detach callback, Post and ExportsCall. Each call's answer is a field of `Host.Device`, and the calls made are recorded as a trace.
- I/O is left out: the logger, console output, the output file and `--init` writing the default config.
- The signal/detach `select` and the counter's mutex are left out, because they exist for concurrency. The counter is modelled sequentially.
- jlutil's internals are a parameter of `Host.Route`, not modelled: base64 decoding (section 4 of RFC 4648), the temp file, running the tool, and JSON string escaping.
- JSON encoding and decoding, truncate and seek in `updateConfig`: the file is Missing, Undecodable, or holds a record.
- Offsets.Config.UpdateConfig does not model failures to create, open or write the file, which return an error.
- JSON null is not a `Value`, so a null payload is out of the model. A null inside "dictionary", or a null "dictionary", is out too: printData turns it into the zero reflect.Value (object.go:103-104), and `v.Interface()` at object.go:127/129 then panics.
- JSON numbers are modelled as integers. Numbers with a fraction, and their `%v` and `%f` text, are not modelled.
- Object.PrintValue: a number beyond 2^53 in magnitude is printed from its exact digits, whereas a float64 would already have rounded it.
- Object.Shown: prints a nested map's entries in their stored order, whereas Go's `%v`/`%s` sort map keys.
- Go's map iteration order is random. Maps are sequences of pairs, so no order across runs is claimed.
- Host.ListToRegex models only the RE2 metacharacters `.` and `*` (the latter only as produced by the glob rewrite). Every other character is taken literally, and a pattern that `regexp.MustCompile` would reject is not modelled as a panic.
- Host.Launch stops at handing the offsets to the script. Waiting for a signal or a detach, and unloading, are left out.
- Cobra flag parsing and the `--list` and `--init` paths are left out. `Host.Flags` holds the parsed values.
- The injected agent (script/script.ts, script.js) is not part of this model.
- logger.go is not part of this model. The logger writes a timestamp and "\nSCRI: " in front of each record (logger.go:89-93); the model stops at the record PrintData hands to it.

## Findings

| source | as written | input that shows it | evidently intended | confidence | as-written member | corrected member |
|---|---|---|---|---|---|---|
| main.go:252 | The pid whitelist is read from the `whitelist` flag, so it equals the name whitelist. It applies only when the name lists are empty, and then it is empty too, so `--whitelistp` never has an effect. | `--whitelistp 1`, no name lists, message with pid 456: kept | `GetStringSlice("whitelistp")`: pid 456 matches no pattern and is dropped | high; not executed | Host.WhitelistpCounterexample | Host.PidWhitelistApplies |
