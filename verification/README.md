# Chat widget and skill parser of an interactive portfolio, in Dafny

This project models the two parts of the portfolio front end that hold real
logic, as pure functions over immutable values.

- **The AI chat widget** (`components/RetroChat.tsx`). The state is
  `ChatState(isOpen, input, messages, isLoading)`. The conversation starts
  with a fixed greeting from the model. The asynchronous send handler is
  split at its one `await` into two functions. `Submit` checks the guard,
  appends the trimmed draft as a user message, clears the draft, starts
  loading and sends the trimmed text to the model. `Complete` runs when
  the model call settles. It appends exactly one model message: the
  reply, the "no data" sentinel or the failure sentinel. Then it stops
  loading. `Open`, `Close` and `EditInput` are the buttons and the text
  field. The module `ModelCall` builds the system
  instruction from a template, the serialised knowledge base and the query.
  It also turns the call's `Outcome` into message text. Runs of the widget
  are event sequences. Over all possible runs, the lemmas prove that the
  conversation keeps its shape: greeting first, then user and model
  messages alternating, and a pending request exactly while the last message
  is a user message.
- **The skill parser** (`components/ParticleSkills.tsx`). `ParseSkill`
  turns `"French (Fluent)"` into a name, a level and a bar percentage. The
  regular expression `/(.*?)\((.*?)\)/` is modelled as the JavaScript
  backtracking engine runs it (module `SkillPattern`): the leftmost start
  wins, then the shortest first group, then the shortest second group. In
  this pattern `.` matches anything except a line terminator. The
  percentage comes from the fixed eight-entry table, looked up by the
  lower-cased name, with a caller-supplied default.

`Text` models `String.prototype.trim`, with ECMAScript's full set of
whitespace and line-terminator characters, and an ASCII
`String.prototype.toLowerCase`. It also gives a reference definition of trim
(`IsTrimOf`) and proves that it admits exactly one result.

On three points the model follows the code as written:
- The draft input is cleared when a message is submitted (line 38), not
  when the reply arrives. `Complete` leaves the draft alone, and the user
  may type while a request is pending.
- The send handler does not look at `isOpen`.
- A reply that arrives after the widget was closed is still appended, and
  loading still ends.

## Model

| member | source | states |
|---|---|---|
| RetroChat.InitialWellFormed | components/RetroChat.tsx:17-22 | The widget starts closed, with an empty draft and not loading. The conversation holds one message: the model's "SYSTEM INITIALIZED…" greeting. This state satisfies the conversation invariant. |
| RetroChat.Submit | components/RetroChat.tsx:35-40 | A query is sent to the model exactly when the trimmed draft is non-empty and no request is pending. Otherwise nothing changes. On acceptance, the old messages stay an unchanged prefix. One user message holding the trimmed draft follows them. The draft becomes "" and loading starts. |
| RetroChat.SingleFlight | components/RetroChat.tsx:35 | While a request is pending, a submit changes nothing and issues no request, whatever the draft. |
| RetroChat.BlankDraftRejected | components/RetroChat.tsx:35 | An empty or all-whitespace draft changes nothing and issues no request. |
| RetroChat.AcceptedSubmitSends | components/RetroChat.tsx:37-72 | An accepted submit issues exactly one request. Its content is the trimmed draft. Its instruction holds the complete knowledge base and that same trimmed query. |
| RetroChat.RequestIgnoresHistory | components/RetroChat.tsx:45-68 | Two idle states whose drafts trim to the same text issue the same request, whatever their conversations and open flags. |
| RetroChat.Complete | components/RetroChat.tsx:74-82 | Exactly one model message with the outcome's reply text is appended after the unchanged old messages. Loading ends. The open flag and the draft are untouched. |
| RetroChat.FullTurn | components/RetroChat.tsx:37-81 | An accepted submit followed by its completion grows the conversation by exactly two messages: the user's trimmed text, then the model's reply. Afterwards the widget is idle and the draft is empty. |
| RetroChat.CloseDuringRequest | components/RetroChat.tsx:76-113 | Closing mid-request keeps the request pending. Completing after a close gives the same state as closing after the completion, so the reply is still appended. |
| RetroChat.Open | components/RetroChat.tsx:90 | The toggle button sets the open flag and changes nothing else. |
| RetroChat.Close | components/RetroChat.tsx:110-113 | Both the minimise and the close button clear the open flag and change nothing else. |
| RetroChat.EditInput | components/RetroChat.tsx:153 | Typing replaces the draft and changes nothing else. |
| RetroChat.AppendPreserves | components/RetroChat.tsx:39-79 | Appending the message whose turn it is keeps the conversation invariant. The message must be non-empty, without surrounding whitespace if it is a user message, and the loading flag must flip. |
| RetroChat.SubmitPreserves | components/RetroChat.tsx:35-40 | Submit keeps the conversation invariant. |
| RetroChat.CompletePreserves | components/RetroChat.tsx:74-82 | Completing a pending request keeps the conversation invariant. |
| RetroChat.StepPreserves | components/RetroChat.tsx:33-153 | Every possible event keeps the invariant and only appends to the conversation. |
| RetroChat.RunPreserves | components/RetroChat.tsx:33-153 | Every feasible run of events keeps the invariant, and the old conversation is a prefix of the new one. The proof is by induction over the run. |
| RetroChat.ReachableConversation | components/RetroChat.tsx:19-82 | Every state reachable from creation has the greeting as its first message. User and model messages alternate after it. No message is empty. The widget is loading exactly when the message count is even, that is, while a user message awaits its one reply. |
| ModelCall.ReplyText | components/RetroChat.tsx:74-79 | The appended text is never empty. A non-empty success text is kept as is. An empty or absent text gives "ERROR: NO DATA RECEIVED.". Any failure gives "CRITICAL ERROR: CONNECTION TO AI CORE FAILED.". |
| ModelCall.SentinelsDiffer | components/RetroChat.tsx:74-79 | The empty-reply sentinel and the failure sentinel are different texts. |
| ModelCall.BuildPrompt | components/RetroChat.tsx:50-64 | The instruction starts with the template's head. The complete knowledge base follows it, and the query sits just before the template's tail. |
| ModelCall.QueryOfBuildPrompt | components/RetroChat.tsx:50-64 | The query can be read back from the instruction built around it, so the instruction carries the query whole. |
| ModelCall.BuildPromptInjective | components/RetroChat.tsx:50-64 | Different queries with the same knowledge base give different instructions. |
| ModelCall.MakeRequest | components/RetroChat.tsx:66-72 | The request's content is the query. Its instruction contains the complete knowledge base, and the query can be read back from it. |
| Text.Trim | components/RetroChat.tsx:35-37 | The result meets the reference definition of trim. It is the slice of the input with every surrounding whitespace or line-terminator character removed, and it neither starts nor ends with one. |
| Text.TrimOfUnique | components/RetroChat.tsx:35-37 | The reference definition of trim admits one result only, so it determines `Trim` completely. |
| Text.TrimEmptyIff | components/RetroChat.tsx:35 | trim returns "" exactly for strings made only of whitespace and line terminators. This is the case that `!input.trim()` rejects. |
| Text.TrimNoSurroundingSpace | components/RetroChat.tsx:37 | A trimmed string neither starts nor ends with whitespace. |
| Text.TrimIdempotent | components/RetroChat.tsx:37 | Trimming twice gives the same result as trimming once. |
| Text.LowerChar | components/ParticleSkills.tsx:81 | One character of `toLowerCase`: each letter 'A'..'Z' becomes the letter 32 code points later, 'a'..'z', and every other character is kept. |
| Text.LowerCase | components/ParticleSkills.tsx:81 | `toLowerCase` of a string: the result has the input's length, and each character is its input character lowered, so 'A'..'Z' become 'a'..'z' and every other character is kept. |
| Text.TrimLowerCaseCommute | components/ParticleSkills.tsx:76-81 | Lower-casing and trimming commute. |
| SkillPattern.FindClose | components/ParticleSkills.tsx:71 | The lazy `(.*?)\)` after a `(` finds the nearest `)` that the group can reach, or proves that none exists. |
| SkillPattern.FindOpen | components/ParticleSkills.tsx:71 | From a start position, the lazy `(.*?)\(` picks the earliest `(` for which the rest of the pattern matches, with the earliest `)`. Otherwise it proves that no match starts there. |
| SkillPattern.Search | components/ParticleSkills.tsx:71 | The scan over start positions returns the leftmost matching start, with its lazy groups, or proves that no match starts at or after the given position. |
| SkillPattern.Exec | components/ParticleSkills.tsx:71 | `str.match` returns the engine's first match. The pattern matches nowhere exactly when there is no result. |
| SkillPattern.FirstMatchUnique | components/ParticleSkills.tsx:71 | The first-match condition determines the match positions. |
| SkillPattern.ExecDeterminedByMatches | components/ParticleSkills.tsx:71 | Two strings on which the pattern matches at the same places get the same match. |
| SkillPattern.ExecMatchesIff | components/ParticleSkills.tsx:71 | On a string without line breaks, the pattern matches exactly when some `(` has a `)` after it. |
| SkillPattern.ExecFirstParens | components/ParticleSkills.tsx:71 | When no line break comes before the first `)` that follows the first `(`, the match starts at 0. It uses the first `(` of the string and the first `)` after that. Whatever follows that `)` is never looked at. |
| ParticleSkills.SkillValuesShape | components/ParticleSkills.tsx:58-67 | The table has exactly the keys english, french, chinese, python, n8n, supabase, postgresql and acceo. Every value lies between 70 and 90. |
| ParticleSkills.Lookup | components/ParticleSkills.tsx:81-82 | The percentage is the table value of the lower-cased name when that name is a key, and the default otherwise. |
| ParticleSkills.ParseSkillSplit | components/ParticleSkills.tsx:71-78 | With a `(` followed later by a `)`, and no line break before that `)`, the name is the trimmed text before the first `(`. The level is the trimmed text between that `(` and the next `)`. |
| ParticleSkills.ParseSkillNoParens | components/ParticleSkills.tsx:71-75 | Without a `(` that has a `)` after it, the name is the whole string, untrimmed, and the level is "PROFICIENT". |
| ParticleSkills.ParseSkillIgnoresTail | components/ParticleSkills.tsx:71-77 | Text after the first `)` that follows the first `(` changes nothing, even when it holds line breaks: the skill parsed from head + tail equals the skill parsed from the head alone. |
| ParticleSkills.PercentageFromTable | components/ParticleSkills.tsx:81-82 | The parsed percentage is the table value of the lower-cased parsed name when the table has it, and the default otherwise. |
| ParticleSkills.ExecIgnoresCase | components/ParticleSkills.tsx:71-81 | Strings that differ only in letter case get the same match positions. |
| ParticleSkills.PercentageIgnoresCase | components/ParticleSkills.tsx:81-82 | Skill strings that differ only in letter case get the same percentage. |
| ParticleSkills.PercentageInRange | components/ParticleSkills.tsx:58-82 | With a default between 70 and 90, the percentage lies between 70 and 90. |
| ParticleSkills.Languages | components/ParticleSkills.tsx:87 | Languages are parsed with default 85. The result has one skill per input string, in the same order. |
| ParticleSkills.Technical | components/ParticleSkills.tsx:88 | Technical skills are parsed with default 75. The result has one skill per input string, in the same order. |
| ParticleSkills.PanelPercentagesInRange | components/ParticleSkills.tsx:58-88 | Every percentage the panel shows, language or technical, lies between 70 and 90. |

## Left out

- All rendering is left out, because it is presentation only: JSX, theme-dependent class strings, the scanline overlay, the hover state and bar widths of `SkillBar`, and the "PROCESSING QUERY..." indicator.
- The remote model client is not modelled, because it is a foreign network call. This covers the API key, the model name `gemini-2.5-flash` and `console.error`. A call is a `Request` going out and an `Outcome` (`Success` with an optional text, or `Failure`) coming back.
- `JSON.stringify` of the resume and project data is not modelled, because the constants file is not part of this model. The serialised knowledge base is an opaque string parameter.
- Scrolling (`useEffect`, `scrollToBottom`), React's state batching and the asynchronous scheduling itself are not modelled. They are UI plumbing. The two-step `Submit`/`Complete` split and the event runs stand in for them.
- Runs let a response arrive only while a request is pending. In the program, `isLoading` is true exactly between a send and its completion.
- `App.tsx` is not modelled. It only switches views on timers and picks theme colours.
- LowerCase: models ASCII lower-casing only, not Unicode `toLowerCase`. For the table lookup this only matters for non-ASCII characters whose lower case is an ASCII letter, such as the Kelvin sign, which lowers to "k". No table key contains a "k".
- Lookup: models the table as a finite map of its eight keys. Names such as "constructor" that JavaScript would resolve through the object prototype are not modelled.
- ParseSkillSplit: stated for strings with no line terminator before the first `)` that follows the first `(`. `Exec` models `.` exactly, and with a line break there the match can start later than position 0.
- ParseSkillIgnoresTail: stated for heads without line terminators, for the same reason. The tail may hold any characters.
- ExecMatchesIff: stated for strings without line terminators. With line breaks, a `(` and a later `)` on different lines do not match.
- The "DATA NOT FOUND IN ARCHIVES" behaviour is not modelled, because it is the remote model's answer and not code. Only the instruction asking for it is part of the model, inside the prompt template.
- Strings are modelled as sequences of Unicode code points, not as JavaScript's UTF-16 code units, so match positions count code points and lone surrogates cannot be written. On every string the model can represent, trim and the pattern give the same results on code points as on UTF-16 code units, and so does the ASCII lower-casing of the model. The LowerCase line covers where that lower-casing differs from `toLowerCase`.
- Percentages are JavaScript numbers. They are modelled as `int`, since every table value and both defaults are small integers.
