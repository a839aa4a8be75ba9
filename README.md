# Family activity finder — a Dafny model of its core

The family activity finder is a web application. A parent enters a city, a
US state, their children's ages, when they are free, a maximum distance and
optional preferences. The Express server (`server/index.js`) turns the request into a language-model
prompt. It builds that prompt from a markdown template through the helpers in
`server/promptUtils.js`: a `{{name}}` template engine, a US-state normaliser
over a 51-entry table, and a prompt manager that reloads the template file
when it changes. It then calls the model, with a knowledge-only retry when
the web search is rate limited. It extracts the text of the answer and parses
at most five activities out of it, or falls back to one placeholder activity.
The browser client (`src/services/activityService.js`) validates criteria,
fills display defaults into an activity, and maps every failure of a search
to an `APIError` with a status class and a user-facing message. The page
(`src/App.jsx`) guards its submit on three required fields and shows five
placeholder activities after a simulated search.

The model is split into modules that follow those files:

- `wrappers.dfy` — `Option` and `Result`.
- `js_strings.dfy` — the JavaScript string operations the code relies on:
  `trim` with the full JavaScript whitespace set, case mapping,
  `startsWith`/`includes`, `indexOf`/`lastIndexOf` of a character,
  `split`/`join`, replace-all and number-to-string.
- `js_values.dfy` — JavaScript values, truthiness, `||` defaults and
  `String()`.
- `templates.dfy` — `PromptTemplate`: `render`, `getVariables` and
  `validateVariables`.
- `state_normalizer.dfy` — `StateNormalizer.normalize` and its table.
- `prompt_manager.dfy` — `PromptManager` as a class: markdown parsing,
  `loadTemplate` over an abstract file state, `generatePrompt`,
  `getTemplateVariables`, and the built-in template.
- `server_messages.dfy` and `server.dfy` — the decisions of
  `POST /api/activities`, with the model client, `JSON.parse` and
  `JSON.stringify` as inputs.
- `activity_service.dfy` — `validateSearchCriteria`, `formatActivity`,
  `APIError`, and `searchActivities`/`checkAPIHealth` as functions of what
  `fetch` produced.
- `app.dfy` — the page state as a class, and `generateDummyResults`.

Where the code and the prose description of the system disagree, the model
follows the code. The one place this matters is `parseMarkdownTemplate`. The
description says the template runs from the `## Main Prompt Template` heading
to the next heading. The code instead restarts the template after every
repeated marker line it meets before the closing heading, so the template
begins after the last such marker. `SectionBounds` and `ScanFindsSection`
state the code's behaviour.

## Model

| member | source | states |
|---|---|---|
| JsStrings.Trim | family-activity-app/server/promptUtils.js:87 | `trim()`: the result has no leading or trailing whitespace, is a contiguous infix of the input, and is empty exactly when the input is whitespace only |
| JsStrings.TrimIdempotent | family-activity-app/server/promptUtils.js:87 | trimming a trimmed string changes nothing |
| JsStrings.TrimOfTrimmed | family-activity-app/server/promptUtils.js:99 | a string without surrounding whitespace is its own trim |
| JsStrings.IndexOfChar | family-activity-app/server/index.js:206 | the first position holding the character, and none exactly when it does not occur |
| JsStrings.LastIndexOfChar | family-activity-app/server/index.js:206 | the last position holding the character, and none exactly when it does not occur |
| JsStrings.Split | family-activity-app/server/promptUtils.js:162 | `split('\n')` gives at least one part, and no part contains the separator |
| JsStrings.JoinSplit | family-activity-app/server/promptUtils.js:162 | joining the parts of a split with the separator gives back the text |
| JsStrings.SplitJoin | family-activity-app/server/promptUtils.js:191 | splitting a join of separator-free parts gives back the parts |
| JsStrings.IndexOfCharAfter | family-activity-app/server/promptUtils.js:162 | the first separator of `a + sep + b`, where `a` has none, is at `|a|` |
| JsStrings.ReplaceAllAbsent | family-activity-app/server/promptUtils.js:24 | a global replace of a pattern that does not occur changes nothing |
| JsStrings.ReplaceAllKeepsPrefix | family-activity-app/server/promptUtils.js:24 | a replace leaves the text before the first occurrence of the pattern untouched |
| JsStrings.ReplaceAllKeepsOccurrence | family-activity-app/server/promptUtils.js:24 | a substring that no occurrence of the pattern overlaps survives the replace |
| JsStrings.ReplaceAllKeepsOccurrenceAfterMatch | family-activity-app/server/promptUtils.js:24 | the same, when the text starts with a match of the pattern |
| JsStrings.ReplaceAllKeepsOccurrenceAtStart | family-activity-app/server/promptUtils.js:24 | the same, for a substring at the start of a text that does not start with the pattern |
| JsStrings.ReplaceAllSkipsText | family-activity-app/server/promptUtils.js:24 | text without the pattern's first character passes through the replace unchanged |
| JsStrings.ReplaceAllStep | family-activity-app/server/promptUtils.js:24 | where the pattern does not start the text, the first character is copied and the search goes on from the next one |
| JsStrings.ReplaceAllJoin | family-activity-app/server/promptUtils.js:24 | the `g` flag: in a text whose parts cannot start the pattern, every occurrence of the pattern between them is replaced, so the result is the same parts joined by the value |
| JsStrings.OccursInSuffix | family-activity-app/server/promptUtils.js:24 | an occurrence in a suffix is an occurrence in the whole text, shifted |
| JsStrings.OccursAfterPrefix | family-activity-app/server/promptUtils.js:24 | an occurrence survives prepending text, shifted by its length |
| JsStrings.NatToString | family-activity-app/src/services/activityService.js:31 | a number in a template literal: at least one decimal digit, with no leading zero except for 0 itself |
| JsStrings.NatToStringRoundTrip | family-activity-app/src/services/activityService.js:31 | reading the digits back gives the number |
| JsValues.OrDefault | family-activity-app/server/promptUtils.js:246-250 | `v \|\| d` is truthy exactly when `v` or `d` is, and `d` is used only for a falsy or absent `v` |
| Templates.Render | family-activity-app/server/promptUtils.js:17-34 | the loop over the variables computes `Rendered`: one global replace per entry, in entry order, with `value \|\| ''`. `RenderFillsPlaceholders` states what that replaces |
| Templates.RenderedWithoutPlaceholders | family-activity-app/server/promptUtils.js:17-34 | a text without `{{` renders to itself |
| Templates.RenderOnePlaceholder | family-activity-app/server/promptUtils.js:22-24 | one placeholder is replaced by the value's text, and vanishes for a falsy value |
| Templates.RenderEveryPlaceholderOfKey | family-activity-app/server/promptUtils.js:22-24 | every occurrence of a key's placeholder between texts without `{` becomes the value's text, not just the first |
| Templates.OtherPlaceholderNotAtStart | family-activity-app/server/promptUtils.js:22-23 | the pattern of one brace-free key does not match at the first or second character of another key's placeholder |
| Templates.ReplaceAllSkipsPlaceholder | family-activity-app/server/promptUtils.js:22-24 | another brace-free key's placeholder passes through a key's replace unchanged |
| Templates.ReplaceAllPiece | family-activity-app/server/promptUtils.js:22-24 | a template piece in front of the text: a placeholder of the key becomes the value's text, any other piece is kept |
| Templates.ReplaceAllPieces | family-activity-app/server/promptUtils.js:22-24 | one key's replace turns exactly the placeholders of that key into the value's text and keeps everything else |
| Templates.FillKeepsWellFormed | family-activity-app/server/promptUtils.js:21-25 | after one key's replace, with a value text without `{`, the template is still literal text and brace-free placeholders |
| Templates.RenderFillsPlaceholders | family-activity-app/server/promptUtils.js:17-34 | render replaces every placeholder of each supplied key with the text of that key's first entry and keeps the placeholders of keys not supplied, for brace-free keys and value texts without `{` |
| Templates.LookupBraceFree | family-activity-app/server/promptUtils.js:21 | the value looked up for a key is one of the entries' values, so its text has no `{` when none of theirs has |
| Templates.FilledHasNoBrace | family-activity-app/server/promptUtils.js:17-34 | when every key a template uses is supplied, the filled template has no `{` left |
| Templates.RenderLeavesNoPlaceholder | family-activity-app/server/promptUtils.js:17-34 | when every key a template uses is supplied, the rendered text holds no `{{` left for the unreplaced-variables check to find |
| Templates.UnsuppliedPlaceholderSurvives | family-activity-app/server/promptUtils.js:17-34 | the placeholder of a key not supplied survives rendering verbatim |
| Templates.PlaceholderOpens | family-activity-app/server/promptUtils.js:22 | every placeholder begins with `{{` |
| Templates.PlaceholderBraces | family-activity-app/server/promptUtils.js:22 | in `{{key}}` with a brace-free key, the braces are exactly the first two and the last two characters |
| Templates.PlaceholdersDisjoint | family-activity-app/server/promptUtils.js:22-24 | two overlapping placeholder occurrences are of the same key |
| Templates.TokenLength | family-activity-app/server/promptUtils.js:41 | the length of the `{{…}}` token the pattern matches at the start of a text |
| Templates.TokenLengthComplete | family-activity-app/server/promptUtils.js:41 | a token at the start of a text is the one found |
| Templates.StripBraces | family-activity-app/server/promptUtils.js:42 | removing every brace leaves a brace-free name no longer than the match |
| Templates.StripBracesOfBraceFree | family-activity-app/server/promptUtils.js:42 | a brace-free name is unchanged |
| Templates.VariableNames | family-activity-app/server/promptUtils.js:40-43 | `getVariables`: the names of the tokens, each brace-free |
| Templates.VariablesSkipText | family-activity-app/server/promptUtils.js:40-43 | text without `{` contributes no names |
| Templates.VariablesOfPlaceholder | family-activity-app/server/promptUtils.js:40-43 | a placeholder contributes its key, in place |
| Templates.VariablesOfInterleave | family-activity-app/server/promptUtils.js:40-43 | the names of a text built from plain pieces and placeholders are the placeholders' keys in document order, duplicates kept |
| Templates.InterleaveContains | family-activity-app/server/promptUtils.js:40-43 | each such key's placeholder occurs in the text |
| Templates.FilterOut | family-activity-app/server/promptUtils.js:53 | the names not among the keys, and only those |
| Templates.FilterOutAppend | family-activity-app/server/promptUtils.js:53 | filtering keeps document order: it distributes over concatenation |
| Templates.ValidateVariables | family-activity-app/server/promptUtils.js:50-54 | `validateVariables`: exactly the template's names that are not provided keys |
| Templates.MissingVariablesStayUnrendered | family-activity-app/server/promptUtils.js:17-54 | for a template of plain pieces and placeholders, every name `validateVariables` reports as missing is still a placeholder after `render` |
| StateNormalizer.StateTable | family-activity-app/server/promptUtils.js:62-75 | the 51 entries of the state map, in declaration order |
| StateNormalizer.EntriesWellFormed | family-activity-app/server/promptUtils.js:62-75 | every abbreviation is two upper-case letters, and every name is trimmed |
| StateNormalizer.AbbreviationsDistinct | family-activity-app/server/promptUtils.js:62-75 | no abbreviation is listed twice |
| StateNormalizer.NamesDistinct | family-activity-app/server/promptUtils.js:62-75 | no two names agree ignoring case |
| StateNormalizer.FindAbbreviation | family-activity-app/server/promptUtils.js:90 | the map lookup on the upper-cased input: a position holding the key, or none when no entry has it |
| StateNormalizer.FindName | family-activity-app/server/promptUtils.js:100-108 | the first entry whose lower-cased name equals the lower-cased input, or none |
| StateNormalizer.NormalizeWith | family-activity-app/server/promptUtils.js:82-116 | `normalize`: empty input gives `('', '', false)`; valid exactly when the trimmed upper-cased input is a key or the trimmed lower-cased input is a name; a valid result is a table entry; an invalid one echoes the trimmed input in both fields |
| StateNormalizer.NormalizeAbbreviation | family-activity-app/server/promptUtils.js:87-96 | any casing and padding of an abbreviation gives that entry |
| StateNormalizer.NormalizeName | family-activity-app/server/promptUtils.js:99-108 | any casing and padding of a full name gives that entry |
| StateNormalizer.EveryStateNormalizes | family-activity-app/server/promptUtils.js:82-108 | each entry's abbreviation and each entry's name normalise to that entry |
| StateNormalizer.AbbreviationIsCanonical | family-activity-app/server/promptUtils.js:87 | an abbreviation is its own trimmed upper-case form |
| StateNormalizer.NameIsTrimmed | family-activity-app/server/promptUtils.js:99 | a name is its own trim |
| StateNormalizer.NormalizeIdempotent | family-activity-app/server/promptUtils.js:82-116 | normalising the abbreviation of a result gives the same result |
| StateNormalizer.NormalizeExampleAbbreviation | family-activity-app/server/promptUtils.js:87-96 | `" tx "` gives `("TX", "Texas", true)` |
| StateNormalizer.NormalizeExampleName | family-activity-app/server/promptUtils.js:99-108 | `"new YORK"` gives `("NY", "New York", true)` |
| PromptManagement.TrimmedLinesIdempotent | family-activity-app/server/promptUtils.js:167 | trimming the lines a second time changes nothing, so the scan compares each line once trimmed |
| PromptManagement.FirstMarker | family-activity-app/server/promptUtils.js:166-170 | the first marker line at or after a position, or none |
| PromptManagement.SectionEnd | family-activity-app/server/promptUtils.js:171-174 | the first other `## ` heading at or after a position, or the end |
| PromptManagement.LastMarkerBefore | family-activity-app/server/promptUtils.js:169-170 | the last marker line before a position, or none |
| PromptManagement.SectionBounds | family-activity-app/server/promptUtils.js:166-183 | none exactly when no line is the marker; otherwise a range that starts right after a marker line |
| PromptManagement.DropLeadingBlank | family-activity-app/server/promptUtils.js:187-189 | a suffix of the lines, after only blank lines, whose first line is not blank |
| PromptManagement.DropLeadingBlankStep | family-activity-app/server/promptUtils.js:187-189 | one `shift` of a blank first line |
| PromptManagement.TemplateSection | family-activity-app/server/promptUtils.js:160-192 | the error exactly when no trimmed line is the marker, with the not-found message; otherwise a trimmed text |
| PromptManagement.ParseMarkdownTemplate | family-activity-app/server/promptUtils.js:160-192 | the scan loop, the throw and the `shift` loop compute `TemplateSection` |
| PromptManagement.ScanLines | family-activity-app/server/promptUtils.js:163-183 | the scanning loop with its `break` computes the reference scan |
| PromptManagement.ScanFindsSection | family-activity-app/server/promptUtils.js:163-183 | the scan finds no start exactly when there is no section, and otherwise stops at the section's bounds |
| PromptManagement.ScanMarker | family-activity-app/server/promptUtils.js:169-170 | a marker line restarts the section after itself |
| PromptManagement.ScanOther | family-activity-app/server/promptUtils.js:166-175 | any other line that is not a closing heading leaves the scan's state as it is |
| PromptManagement.SectionFound | family-activity-app/server/promptUtils.js:171-183 | stopping at a heading or the end gives the section's bounds |
| PromptManagement.SectionEndIsFirstHeader | family-activity-app/server/promptUtils.js:171-174 | the first heading after the start is the end |
| PromptManagement.LastMarkerBeforeIsLast | family-activity-app/server/promptUtils.js:169-170 | a marker line with no marker line after it is the last |
| PromptManagement.FirstMarkerIs | family-activity-app/server/promptUtils.js:169-170 | a marker line with no marker line before it is the first |
| PromptManagement.SectionAt | family-activity-app/server/promptUtils.js:177-191 | a text whose section bounds are known yields the lines within them, without the leading blank ones, joined and trimmed |
| PromptManagement.SectionOfContent | family-activity-app/server/promptUtils.js:186-191 | the template is the section's lines, without leading blank lines, joined and trimmed |
| PromptManagement.SectionOfDocument | family-activity-app/server/promptUtils.js:160-192 | a document with one marker line followed by plain lines up to a heading or the end yields exactly those lines, without leading blank ones, joined and trimmed |
| PromptManagement.SectionBoundsAt | family-activity-app/server/promptUtils.js:166-183 | the bounds of such a document run from after the marker to the heading or the end |
| PromptManagement.LoadStep | family-activity-app/server/promptUtils.js:133-153 | one `loadTemplate()`: a file not newer than the recorded time leaves template and time as they are; a failed stat, a failed read or a text without the section gives the built-in template and keeps the time; a newer file with a section stores its section and its time; the time changes only to a read file's time |
| PromptManagement.LoadStepIdempotent | family-activity-app/server/promptUtils.js:133-153 | loading the same file twice in a row is loading it once |
| PromptManagement.LoadStepMonotone | family-activity-app/server/promptUtils.js:139-145 | the recorded modification time never moves back, and once recorded it stays |
| PromptManagement.LoadStepReadsNewer | family-activity-app/server/promptUtils.js:139-145 | a newer readable file with a section is stored with its time |
| PromptManagement.PromptManager.constructor | family-activity-app/server/promptUtils.js:123-128 | a new manager holds the path and the state of one load from nothing |
| PromptManagement.PromptManager.LoadTemplate | family-activity-app/server/promptUtils.js:133-153 | `loadTemplate`: a file not newer than the last load is skipped; an unusable file gives the built-in template and keeps the time; a readable one stores its section and its time |
| PromptManagement.PromptManager.GeneratePrompt | family-activity-app/server/promptUtils.js:234-277 | reloads, then returns the prompt or the error that `PromptFor` gives for the form |
| PromptManagement.PromptManager.GetTemplateVariables | family-activity-app/server/promptUtils.js:283-289 | loads only when no template is held, then lists its names |
| PromptManagement.PromptVariables | family-activity-app/server/promptUtils.js:245-252 | the six variables in the order `city, state, ages, availability, distance, preferences` |
| PromptManagement.PromptFor | family-activity-app/server/promptUtils.js:234-277 | a missing-variables error lists exactly the required variables that are blank, in the order `city, ages, availability, distance`, and is never empty; the state error exactly for a truthy non-string state; success is the template rendered with the six variables |
| PromptManagement.PromptForSucceeds | family-activity-app/server/promptUtils.js:258-269 | a prompt is built exactly when the state is text or falsy and city, ages, availability, and a distance if given, are non-blank |
| PromptManagement.MissingRequiredMembers | family-activity-app/server/promptUtils.js:258-265 | the missing list holds exactly the required names whose values are blank |
| PromptManagement.MissingRequiredOfVariables | family-activity-app/server/promptUtils.js:258-265 | the missing names come in the order `city, ages, availability, distance` |
| PromptManagement.MissingRequiredCons | family-activity-app/server/promptUtils.js:259 | the filter takes the required names one by one |
| PromptManagement.MissingInOrder | family-activity-app/server/promptUtils.js:245-265 | with city, ages and availability absent and no distance, those three are missing, in that order, and distance is not |
| PromptManagement.LookupFirst | family-activity-app/server/promptUtils.js:260 | `variables[name]` finds the entry for the key |
| PromptManagement.LookupVariables | family-activity-app/server/promptUtils.js:245-260 | each required name reads its own variable |
| PromptManagement.BlankOrDefault | family-activity-app/server/promptUtils.js:246-264 | a defaulted value is blank exactly when the given value is truthy but blank, or it is falsy and the default is blank |
| PromptManagement.DistanceDefaultsToTen | family-activity-app/server/promptUtils.js:250 | a falsy distance becomes `'10'` |
| PromptManagement.StateVariable | family-activity-app/server/promptUtils.js:239-247 | the state variable is the full name of a recognised state, and the input as given otherwise |
| PromptManagement.StateBecomesFullName | family-activity-app/server/promptUtils.js:239-247 | an abbreviation or a name from the table becomes its full name |
| PromptManagement.AgesJoined | family-activity-app/server/promptUtils.js:242 | an ages array `[5, 8]` becomes `"5, 8"` |
| ActivityServer.CandidateJson | family-activity-app/server/index.js:206 | no match exactly when no `{` precedes a `}`; otherwise the text from the first `{` to the last `}` inclusive |
| ActivityServer.NoBracePair | family-activity-app/server/index.js:206 | a first `{` after the last `}` leaves no pair to match |
| ActivityServer.CreateFallbackActivities | family-activity-app/server/index.js:225-237 | exactly one activity, with `ageAppropriate: true` and the fixed title |
| ActivityServer.FallbackIgnoresText | family-activity-app/server/index.js:225-237 | the fallback does not depend on the text |
| ActivityServer.ParseActivities | family-activity-app/server/index.js:203-222 | never more than five; with an `activities` array, its first `min(5, n)` items in order, unmodified; otherwise the fallback, whatever the parse throws |
| ActivityServer.NoBracesGiveFallback | family-activity-app/server/index.js:206-216 | a text without `{` gives the fallback |
| ActivityServer.ShortArrayKept | family-activity-app/server/index.js:209-210 | an array of at most five activities is returned whole |
| ActivityServer.FirstTextBlock | family-activity-app/server/index.js:152-157 | the first content block of type `text` with truthy text, or none |
| ActivityServer.ResponseText | family-activity-app/server/index.js:149-171 | with a non-empty content array, the first text block's text, else the first block's `text`, the block itself when a string, or its JSON; with a non-empty string content, its first character; with absent, empty or any other content, the JSON of the whole response |
| ActivityServer.ExtractResponseText | family-activity-app/server/index.js:149-171 | the loop with its `break` and the fallbacks compute `ResponseText` |
| ActivityServer.FirstTextBlockWins | family-activity-app/server/index.js:152-157 | a text block preceded by no text block supplies the text |
| ActivityServer.FirstTextBlockIs | family-activity-app/server/index.js:152-157 | that block is the one found |
| ActivityServer.AfterPrimaryCall | family-activity-app/server/index.js:98-144 | a failed web-search call is retried without search exactly when it is rate limited (status 429 or `rate_limit_error` in the message), and re-thrown unchanged otherwise |
| ServerMessages.NoUnderscoreInTimeout | family-activity-app/server/index.js:75 | the timeout message has no underscore |
| JsStrings.MissingCharNotIncluded | family-activity-app/server/index.js:101 | a text lacking one character of a pattern does not include the pattern |
| ActivityServer.TimeoutIsNotRateLimit | family-activity-app/server/index.js:75-101 | the timeout error is not a rate limit |
| ActivityServer.FailureStatus | family-activity-app/server/index.js:190 | `error.status \|\| 500`: never 0 |
| ActivityServer.FailureMessage | family-activity-app/server/index.js:191 | `error.message \|\| 'Internal server error'`: never empty |
| ActivityServer.UpstreamReply | family-activity-app/server/index.js:79-197 | once the prompt is built: an answered web search replies with its activities; an error that is not a rate limit with its status and message; a rate limit with the retry's activities or the retry's failure; never status 0 and never more than five activities |
| ActivityServer.HandleActivities | family-activity-app/server/index.js:45-199 | 400 with the required list exactly when the guard fails; 400 with the prompt error's message when the prompt cannot be built; otherwise an answered web search replies with its activities, an error that is not a rate limit replies with its status and message, and a rate-limited one replies with the retry's activities or the retry's failure; at most five activities; never status 0 |
| ActivityServer.RateLimitUsesRetry | family-activity-app/server/index.js:98-138 | any rate-limited web search answered by the retry replies with the retry's activities |
| ActivityServer.TimeoutFails | family-activity-app/server/index.js:73-101 | a timed-out web search fails with 500 and the timeout message, and no retry |
| ActivityService.Rank | family-activity-app/src/services/activityService.js:163-185 | the position of each check in the order they run |
| ActivityService.FilledTextIsTrimmedNonEmpty | family-activity-app/src/services/activityService.js:163 | a field passes exactly when it is a truthy string whose trim is not empty |
| ActivityService.CheckResults | family-activity-app/src/services/activityService.js:163-185 | one outcome per check |
| ActivityService.Messages | family-activity-app/src/services/activityService.js:164-183 | one message per problem |
| ActivityService.MessagesAt | family-activity-app/src/services/activityService.js:164-183 | the message at each position is that problem's |
| ActivityService.MessagesPush | family-activity-app/src/services/activityService.js:164 | pushing a problem's message extends the messages of the problems |
| ActivityService.MessagesOfPush | family-activity-app/src/services/activityService.js:164 | a conditional push of a problem and of its message agree |
| ActivityService.PushedProblemsAreProblems | family-activity-app/src/services/activityService.js:160-188 | the successive pushes collect the failing checks in check order |
| ActivityService.ValidationErrorsAreMessages | family-activity-app/src/services/activityService.js:160-188 | the pushed messages are the messages of the failing checks |
| ActivityService.ValidateSearchCriteria | family-activity-app/src/services/activityService.js:160-188 | the errors are the messages of the failing checks, in check order |
| ActivityService.FoundAmongMembers | family-activity-app/src/services/activityService.js:160-188 | a problem is collected exactly when its check fails |
| ActivityService.RankOfAll | family-activity-app/src/services/activityService.js:163-185 | the ranks number the checks |
| ActivityService.CheckResultOf | family-activity-app/src/services/activityService.js:163-185 | each check's outcome is whether the criteria have that problem |
| ActivityService.ProblemReportedIff | family-activity-app/src/services/activityService.js:160-188 | a problem is reported exactly when its check fails |
| ActivityService.NoErrorsIffValid | family-activity-app/src/services/activityService.js:160-188 | no errors exactly when all five checks pass, the bounds 1 and 50 included |
| ActivityService.FoundAmongOrdered | family-activity-app/src/services/activityService.js:160-188 | the collected problems are in strictly increasing check order |
| ActivityService.ProblemsInOrder | family-activity-app/src/services/activityService.js:160-188 | messages appear in the order city, state, ages, availability, distance |
| ActivityService.OneDistanceMessage | family-activity-app/src/services/activityService.js:178-185 | at most one distance message |
| ActivityService.UnfilledCityReported | family-activity-app/src/services/activityService.js:163-165 | a city that is absent, not a string or whitespace only gets the city message |
| ActivityService.FieldOr | family-activity-app/src/services/activityService.js:198-202 | `activity[key] \|\| fallback` is always truthy |
| ActivityService.FormatActivity | family-activity-app/src/services/activityService.js:195-206 | all other keys kept; each display field kept when truthy and defaulted otherwise; `ageAppropriate` false only for an explicit `false`; `currentInfo` kept when truthy, else `null` |
| ActivityService.FormattedFieldStable | family-activity-app/src/services/activityService.js:195-206 | formatting a formatted activity keeps each field |
| ActivityService.FormatActivityIdempotent | family-activity-app/src/services/activityService.js:195-206 | formatting twice equals formatting once |
| ActivityService.APIError.GetUserMessage | family-activity-app/src/services/activityService.js:138-152 | never empty; the network text for status 0, the error's message or the client text for 4xx, the server text for 5xx, otherwise the message or the generic text |
| ActivityService.NewAPIError | family-activity-app/src/services/activityService.js:106-112 | the given message, status (500 by default) and details (`{}` by default) |
| ActivityService.StatusClassesExclusive | family-activity-app/src/services/activityService.js:117-133 | network, client and server are mutually exclusive, and a status from 1 to 399 is none of them |
| ActivityService.DefaultStatusIsServerError | family-activity-app/src/services/activityService.js:106-148 | the default status is a server error with the server message |
| ActivityService.SearchCatch | family-activity-app/src/services/activityService.js:53-76 | an `APIError` re-thrown unchanged; a `TypeError` mentioning `fetch` becomes status 0, anything else 500, both with the original message in the details |
| ActivityService.SearchAttempt | family-activity-app/src/services/activityService.js:18-52 | the `try` block: a rejected `fetch` is thrown on by its name and message; success exactly for an ok response whose body has an `activities` array, which is returned; an `APIError` thrown for a response that is not ok carries its status |
| ActivityService.SearchActivities | family-activity-app/src/services/activityService.js:17-77 | the result of the `try` block, or its error through the `catch` block; a rejected `fetch` and a rejected read of an ok body are both judged by the rejection's own name and message |
| ActivityService.NotOkKeepsStatus | family-activity-app/src/services/activityService.js:28-35 | a `null` body aside, a response that is not ok fails with its status and the body's message, else `HTTP <status>: <statusText>` |
| ActivityService.NullErrorBodyFails | family-activity-app/src/services/activityService.js:28-35 | a response that is not ok with a `null` body fails with 500 and the unexpected-error text, since reading its message throws |
| ActivityService.OkBodyUnreadable | family-activity-app/src/services/activityService.js:37 | an ok response whose body read rejects fails by that rejection: status 0 exactly for a `TypeError` mentioning `fetch`, else 500 with the unexpected-error text, the original message kept |
| ActivityService.OkNullBodyFails | family-activity-app/src/services/activityService.js:37-41 | an ok response with a `null` body fails with 500 and the unexpected-error text, since reading its `activities` throws |
| ActivityService.OkResponseNeedsActivities | family-activity-app/src/services/activityService.js:37-51 | an ok body without an `activities` array fails with 500 and the format message; with one, its activities are returned |
| ActivityService.RejectedFetch | family-activity-app/src/services/activityService.js:53-76 | a rejected fetch is a network error exactly when it is a `TypeError` mentioning `fetch`, and the user is told what its class says |
| ActivityService.SearchFailureStatus | family-activity-app/src/services/activityService.js:17-77 | every failure carries status 0, 500 or the status of the response that was not ok |
| ActivityService.CheckAPIHealth | family-activity-app/src/services/activityService.js:83-100 | the body of an ok response; a response that is not ok fails with its status; any other failure is a 500 `Health check failed` |
| App.Or | family-activity-app/src/App.jsx:22 | `s \|\| fallback` is empty only when both are, and the fallback is shown only for an empty `s` |
| App.GenerateDummyResults | family-activity-app/src/App.jsx:18-68 | five activities |
| App.DummyResultsShape | family-activity-app/src/App.jsx:18-68 | exactly five activities, ids 1 to 5 in order, with the distances `0.5`, `1.2`, `2`, `3` and `2.5 miles` |
| App.TitlesEndWithTime | family-activity-app/src/App.jsx:22-58 | each title ends with the requested time, or with that card's own default time when none was given |
| App.TitleEndsWithTime | family-activity-app/src/App.jsx:22-58 | one title ends with its time |
| App.TitleStartsWithHeadline | family-activity-app/src/App.jsx:22-58 | one title starts with its headline |
| App.NotStartsWith | family-activity-app/src/App.jsx:30-58 | a title whose first character differs from a headline does not start with it |
| App.EmptyCityDefaults | family-activity-app/src/App.jsx:22-25 | an empty city shows `Local` in the first title and location, and `city` in the first description |
| App.FestivalTitleIff | family-activity-app/src/App.jsx:30 | the second card is the international festival exactly when the preferences include `food` or `cultural` |
| App.ParkCardIff | family-activity-app/src/App.jsx:48-52 | the fourth card's title, emoji and description are the outdoor ones exactly when the preferences include `outdoor` |
| App.MuseumCardSwitches | family-activity-app/src/App.jsx:38-43 | the third card's title switches on `educational` or `indoor`, but its emoji, description and location on `educational` alone |
| App.CommunityCardSwitches | family-activity-app/src/App.jsx:58-63 | the fifth card's title switches on `budget` or `free`, but its emoji, description and location on `budget` alone |
| App.SearchPage.constructor | family-activity-app/src/App.jsx:5-15 | the form starts with `maxDistance` 10 and other fields empty, no results, not loading, not searched |
| App.SearchPage.HandleSubmit | family-activity-app/src/App.jsx:71-90 | with city, ages or date and time empty, an alert and nothing else changes; otherwise loading and searched, and the timer scheduled with the form as it is |
| App.SearchPage.TimerFires | family-activity-app/src/App.jsx:85-89 | the results for the submitted form are shown and loading ends; form and searched flag unchanged |
| App.SearchPage.HandleClear | family-activity-app/src/App.jsx:92-103 | the form back to its initial value, no results, not searched, not loading |
| App.SubmitAndWait | family-activity-app/src/App.jsx:71-90 | a valid submit followed by its timer shows the five cards for the form as submitted |

## Left out

- I/O and time. Logging (`console.*`), `alert` rendering, `Date` timestamps, `setTimeout` delays and the Express scaffolding are not modelled: routing, CORS, body parsing, middleware, the 404 and global error handlers, the health endpoint and `listen`. The `timestamp` and the echoed `searchCriteria` of a reply are not modelled either.
- The language-model client. It is not called: each call's outcome is an input. The `Promise.race` against the 45-second timer is modelled only as the timeout error it rejects with. The text of the knowledge-only fallback prompt is not modelled.
- `JSON.parse` and `JSON.stringify`. They are function parameters, not implementations.
- The file system. `path.resolve`, `fs.statSync` and `readFileSync` are abstracted into a `FileState` input: the stat fails, the read fails, or the content is read with its modification time. Modification times are integers.
- Templates.Render: the model takes each `{{key}}` pattern and each value literally, and the source does not. The source escapes only the braces of the key (promptUtils.js:23), so any other regular-expression character in a key keeps its regex meaning. `String.prototype.replace` also expands `$&`, `$1`, `$$` and the like in the value, so a city typed as `$&` puts `{{city}}` back into the prompt; the model inserts the value's text as is. The six keys this application renders have no regex characters, so only the `$` difference reaches it.
- Regular expressions elsewhere. The `{…}` match on a reply is modelled as the text from the first `{` to the last `}`, which is what the greedy `[\s\S]*` gives. The `\{\{([^}]+)\}\}` scan is modelled as a token scan.
- Numbers are integers. JavaScript floating point, `NaN` and `Number()` coercion are not modelled. In `validateSearchCriteria` the distance is given already coerced: `None` for `undefined`, `null` or a value that is not a number.
- Case mapping is ASCII only. `toUpperCase`/`toLowerCase` of other letters leave them unchanged. The state table is ASCII, but the gap still reaches it: JavaScript upper-cases `ı` (U+0131) to `I` and `ſ` (U+017F) to `S`, and lower-cases the Kelvin sign (U+212A) to `k`, so `normalize("ıl")` gives Illinois in the source and an invalid state in the model.
- `TypeError` messages depend on the JavaScript engine. They are modelled as fixed texts, the ones V8 uses: a non-string state, a non-string extracted text, and a property read from `null`.
- ActivityServer.ResponseText: a `null` content item, and a content object with a positive `length` key, are not modelled; both make the source throw before any text is extracted. A `null` response is not modelled either: the source throws reading its `content`, but the language-model client never resolves to `null`. A string content is modelled: the loop walks its characters and the text is its first one.
- ActivityService.APIError: its `name` and `timestamp` fields are not modelled. It is a datatype because its fields are set once, by the constructor.
- App.SearchPage: the `onChange` handlers that copy an input's value into the form are not modelled, nor is the markup. The two buttons are disabled while loading, and the methods take this as a precondition.
- App.DummyActivity: each description is one of eight fixed texts, two of which interpolate the city or the ages. It is held as a `Description` value whose words `DescriptionText` gives. The lemmas compare descriptions by that value, not character by character.
