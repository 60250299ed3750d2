# Edu-Pilot teacher assistant, modelled in Dafny

Edu-Pilot is a React front end over a generative-AI SDK. A teacher uses it to
draft lesson plans, generate quizzes and visual aids, grade homework, keep
attendance and check work for plagiarism. This project models its core: the
request and response layer in `services/geminiService.ts`, and six screens
that work over it. The screens are the attendance tracker, the homework
grader, the lesson planner, the quiz maker, the visual studio and the sign-in
form.

The backend never runs here. Each service operation takes the backend's
reply as an input. A `Reply` is either a response envelope (candidates with
their parts and grounding chunks, plus the aggregated `text`) or the value
the transport threw. Each operation returns the request it sends together
with what its caller receives (`Call`).

Each screen is a class whose fields are its state hooks. Each event handler
is a method that replaces those fields. Browser effects are parameters or
results:

- the answer to `confirm` is a parameter;
- `alert` text is returned;
- a file the user picked is a parameter;
- a download, or a page to print, is returned.

Modules, one per file:

- `Wrappers` holds `Option`, `Result` and `Outcome`.
- `Errors` holds the values a `catch` clause receives. A thrown value is either an `Error` instance, or another object that may or may not carry `message` and `code`.
- `Strings` holds the JavaScript string operations the code relies on:
  - `trim`, `toLowerCase` and `includes`;
  - `split` and `join`;
  - `parseInt`, and template-literal text of an integer.
- `Types` holds the quiz and lesson-configuration records of `types.ts`.
- `GeminiService` models `services/geminiService.ts`.
- `Attendance`, `HomeworkChecker`, `LessonPlanner`, `QuizMaker`, `VisualStudio` and `Login` model the components of the same names.

## Model

| member | source | states |
|---|---|---|
| Errors.NewError | services/geminiService.ts:96 | `new Error(m)` is an Error instance whose `message` is `m` and which has no `code` |
| Strings.Truthy | services/geminiService.ts:44 | an absent or empty string is falsy, anything else truthy, as the `if (chunk.text)` and `\|\|` tests read it (a definition, no contract) |
| Strings.TrimStart | components/Attendance.tsx:37 | the result is a suffix of the input, everything dropped is whitespace, and the result does not start with whitespace |
| Strings.TrimEnd | components/Attendance.tsx:37 | the result is a prefix of the input, everything dropped is whitespace, and the result does not end with whitespace |
| Strings.Trim | components/Attendance.tsx:37 | `trim()` never lengthens the text; `TrimProperties` states its exact result |
| Strings.TrimProperties | components/Attendance.tsx:37 | `trim()` is empty exactly when the text is all whitespace; otherwise its result neither starts nor ends with whitespace, and it is the text with a whitespace prefix and a whitespace suffix removed |
| Strings.TrimIdempotent | components/Attendance.tsx:39 | trimming twice is trimming once |
| Strings.LowerChar | components/VisualStudio.tsx:25 | an ASCII upper-case letter maps to its lower-case letter; every other character is unchanged |
| Strings.ToLower | components/VisualStudio.tsx:25 | `toLowerCase()` keeps the length and lowers each character in place |
| Strings.ToLowerProperties | components/VisualStudio.tsx:25 | the result has no upper case; text without upper case is unchanged; lowering is idempotent |
| Strings.Contains | components/VisualStudio.tsx:27-31 | `includes`: the word is a prefix of the text or of one of its suffixes (a definition; `ContainsIffOccurs` states it by position) |
| Strings.ContainsEnds | components/VisualStudio.tsx:27-31 | a prefix or a suffix of a text is contained in it |
| Strings.ContainsIffOccurs | components/VisualStudio.tsx:27-31 | `includes` holds exactly when the word occurs at some position |
| Strings.ContainsTransitive | components/VisualStudio.tsx:27-31 | an occurrence inside an occurrence is an occurrence |
| Strings.ContainsLowered | components/VisualStudio.tsx:25-27 | a word that occurs in the text occurs, lowered, in the lowered text |
| Strings.IndexOf | services/geminiService.ts:205 | the returned index holds the element, and no earlier index does |
| Strings.Join | services/geminiService.ts:17-32 | the joined text starts with the first piece and ends with the last one |
| Strings.JoinContains | services/geminiService.ts:17-32 | whatever occurs in one joined piece occurs in the joined text |
| Strings.Split | services/geminiService.ts:205 | `split(sep)` returns at least one piece; no piece contains the separator; joining the pieces with the separator gives the input back |
| Strings.SplitJoin | services/geminiService.ts:216 | splitting a join of separator-free pieces returns exactly those pieces |
| Strings.SplitField | services/geminiService.ts:205 | `split(sep)[i]`: field 0 always exists; a field holds no separator and occurs in the text; text without the separator is its own field 0, and every later field is `undefined` |
| Strings.Concat | components/LessonPlanner.tsx:39 | the pieces in order, end to end (a definition; `ConcatAppend` states how it splits) |
| Strings.ConcatAppend | components/LessonPlanner.tsx:39 | concatenating two lists of chunks is concatenating their concatenations |
| Strings.LeadingDigits | services/geminiService.ts:26 | the longest prefix made of digits: every character is a digit, and the next character, if any, is not |
| Strings.ParseInt | services/geminiService.ts:26 | `parseInt` with the default radix: skip leading whitespace, read one optional sign, then the longest run of digits; NaN without digits (a definition; the lemmas below state its behaviour) |
| Strings.ParseIntNaN | services/geminiService.ts:26 | `parseInt` is NaN exactly when no digit follows the leading whitespace and at most one sign; a negative result only follows a minus sign |
| Strings.IntToString | services/geminiService.ts:88 | `${i}` is non-empty, starts with a minus exactly for a negative number, and its digits have the number's magnitude |
| Strings.NatToString | services/geminiService.ts:88 | decimal text of a natural number is non-empty, made of digits, and has that number's value |
| Strings.LeadingDigitsOf | services/geminiService.ts:26 | digits followed by a non-digit have exactly those digits as their leading digits |
| Strings.ParseIntOfDigits | services/geminiService.ts:26 | `parseInt` of digits followed by a non-digit is the value of the digits |
| Strings.ParseIntOfNonDigit | services/geminiService.ts:26 | text that starts with a character that is neither whitespace, a sign nor a digit parses to NaN |
| Strings.ParseIntOfMinus | services/geminiService.ts:26 | text starting with `-` parses to the negated value of the digits that follow |
| Strings.ParseIntOfIntToString | services/geminiService.ts:26 | `parseInt` reads back any integer written in decimal, whatever non-digit text follows |
| GeminiService.TextOr | services/geminiService.ts:166 | `response.text \|\| fallback`: a thrown transport error is passed on unchanged; otherwise the result is the non-empty text, else the fallback |
| GeminiService.LineMentions | services/geminiService.ts:17-32 | a value stated on one line of a prompt occurs in the prompt |
| GeminiService.Budget | services/geminiService.ts:26-29 | the four segment minutes are floor(15D/100), floor(40D/100), floor(25D/100) and floor(20D/100) |
| GeminiService.BudgetNearTotal | services/geminiService.ts:26-29 | the shares sum to 100%, so the four floored minutes add up to at most D and at least D - 3 |
| GeminiService.DurationMinutes | services/geminiService.ts:26 | `parseInt(config.duration \|\| '60')`: the empty duration gives 60 minutes; any other duration is parsed as written |
| GeminiService.ParseSixty | services/geminiService.ts:26 | the default text "60" parses to 60 |
| GeminiService.LessonBudget | services/geminiService.ts:26-29 | a budget exists exactly when the duration parses, and its four minutes add up to between D - 3 and D |
| GeminiService.LessonBudgetOfNumber | services/geminiService.ts:26-29 | a duration that starts with a number of minutes gets that number's budget |
| GeminiService.LessonBudgetOf45 | services/geminiService.ts:26-29 | the default "45 mins" gives 6, 18, 11 and 9 minutes |
| GeminiService.DurationOf45 | services/geminiService.ts:26 | "45 mins" parses to 45 |
| GeminiService.LessonBudgetOfEmpty | services/geminiService.ts:26-29 | an empty duration falls back to 60 minutes: 9, 24, 15 and 12 |
| GeminiService.LessonBudgetOfWords | services/geminiService.ts:26-29 | a duration written in words parses to NaN, so there is no budget |
| GeminiService.SegmentHeading | services/geminiService.ts:26-29 | a timed section's heading shows the section's minutes, or "NaN" |
| GeminiService.LessonHeader | services/geminiService.ts:18-21 | the prompt's header has four lines |
| GeminiService.LessonPlanPromptMentionsConfig | services/geminiService.ts:17-21 | the lesson-plan prompt states the grade level, subject, topic, duration and focus |
| GeminiService.HeaderMentionsConfig | services/geminiService.ts:18-21 | which header line states which configuration field |
| GeminiService.LessonPlanPromptMentionsBudget | services/geminiService.ts:26-29 | the prompt heads each timed section with its share of the duration |
| GeminiService.SegmentLineAt | services/geminiService.ts:24-29 | the timed sections are the third to sixth numbered sections, in order |
| GeminiService.LessonPlanLines | services/geminiService.ts:17-29 | the four header lines, then the six numbered sections (a definition; the lemmas above state what the lines carry) |
| GeminiService.LessonPlanPrompt | services/geminiService.ts:17-31 | those lines joined by line breaks (a definition; `LessonPlanPromptMentionsConfig` and `LessonPlanPromptMentionsBudget` state what it carries) |
| GeminiService.LessonPlanRequest | services/geminiService.ts:35-41 | the lesson plan is requested from the text model with the prompt and the curriculum-developer system instruction |
| GeminiService.Forwarded | services/geminiService.ts:43-47 | at most one forwarded text per chunk, and none of them empty |
| GeminiService.StreamText | services/geminiService.ts:43-47 | all the text the chunks carry, in arrival order (a definition; `ForwardedLosesNoText` ties it to the forwarded texts) |
| GeminiService.ForwardedLosesNoText | services/geminiService.ts:43-47 | skipping chunks without text loses no text: the forwarded texts concatenate to all the chunks' text |
| GeminiService.ForwardChunks | services/geminiService.ts:43-47 | the `for await` loop hands exactly the non-empty chunk texts to `onChunk`, in arrival order |
| GeminiService.StreamLessonPlan | services/geminiService.ts:11-52 | sends the lesson-plan request; delivers non-empty chunks that concatenate to the streamed text; rethrows exactly the stream's failure |
| GeminiService.PropertyNames | services/geminiService.ts:60-83 | the names of a schema's properties, in order (a definition; `QuizSchema` and `ObjectRequiresAll` state what the quiz schema's names are) |
| GeminiService.QuizSchema | services/geminiService.ts:60-83 | the quiz schema is an object `{title, questions}` whose questions are objects with `question`, `options`, `correctAnswer` and `explanation`, each object requiring all of its properties |
| GeminiService.QuestionSchema | services/geminiService.ts:65-80 | one question's schema lists its four properties, all required |
| GeminiService.ObjectRequiresAll | services/geminiService.ts:60-83 | an object that requires its own property names, over schemas that require all their properties, requires all its properties |
| GeminiService.QuizPrompt | services/geminiService.ts:88 | the quiz prompt states the topic, the grade and the question count |
| GeminiService.QuizRequest | services/geminiService.ts:86-93 | the quiz is requested from the text model as JSON under the quiz schema, without search or system instruction |
| GeminiService.GenerateQuiz | services/geminiService.ts:57-103 | a transport error is rethrown; an empty or absent text throws "No response from AI" before any parse; otherwise the result is the parse of the text |
| GeminiService.ResponseParts | services/geminiService.ts:124 | `response.candidates?.[0]?.content?.parts`, empty when any step is absent (a definition) |
| GeminiService.HasImageData | services/geminiService.ts:125 | `part.inlineData && part.inlineData.data` (a definition) |
| GeminiService.FirstImageAt | services/geminiService.ts:124-127 | part k carries image data and no earlier part does (a definition) |
| GeminiService.FirstImageUnique | services/geminiService.ts:124-127 | at most one part is the first image part, so the returned URL is determined by the reply |
| GeminiService.GenerateVisualAid | services/geminiService.ts:108-136 | success exactly when some part of the first candidate carries image data, and then the PNG data URL of the first such part; otherwise "No image data found in response" is thrown; transport errors are rethrown |
| GeminiService.FieldLines | services/geminiService.ts:146-150 | a labelled prompt puts each label on a line, and the labelled value on the line after it |
| GeminiService.LabelledPromptMentions | services/geminiService.ts:146-150 | every labelled value occurs in the prompt: the homework prompt states the assignment and the work, and the comparison prompt states both submissions |
| GeminiService.HomeworkPrompt | services/geminiService.ts:143-152 | the labelled prompt of the assignment, then the student's work (a definition; `LabelledPromptMentions` gives that both occur in it) |
| GeminiService.CheckHomework | services/geminiService.ts:141-171 | sends the homework prompt to the text model; returns the text or "Could not generate feedback." |
| GeminiService.Payload | services/geminiService.ts:205 | `dataUri.split(',')[1]`: a payload found holds no comma and occurs in the URI; a URI without a comma has none |
| GeminiService.PayloadOfDataUri | services/geminiService.ts:205 | `split(',')[1]` of a data URI is its payload; a URI without a comma has none |
| GeminiService.GradingPrompt | services/geminiService.ts:183-198 | the grading instructions state the assignment context |
| GeminiService.AttachmentsAppend | services/geminiService.ts:201-226 | the inline parts of a joined parts list are those of each half, in order |
| GeminiService.GradingParts | services/geminiService.ts:201-226 | the parts list is the answer key and its label when a key is given, then the submission, its label and the instructions |
| GeminiService.GradingAttachments | services/geminiService.ts:201-226 | the inline parts are the answer key, when given, then the submission |
| GeminiService.GradeAnswerSheet | services/geminiService.ts:176-238 | sends the text model a parts list holding exactly those parts; returns the text or "Could not analyze the submission." |
| GeminiService.GroundingChunks | services/geminiService.ts:267 | `response.candidates?.[0]?.groundingMetadata?.groundingChunks \|\| []` (a definition) |
| GeminiService.Usable | services/geminiService.ts:269 | the filter test `chunk.web?.uri`: a web entry with a non-empty uri (a definition) |
| GeminiService.SourceOf | services/geminiService.ts:270-273 | a usable chunk's source keeps its uri and takes its title, or "Web Source" when the title is empty |
| GeminiService.Sources | services/geminiService.ts:267-273 | the filter-then-map keeps exactly the chunks with a usable uri; every source has a non-empty uri and title |
| GeminiService.SourcesAppend | services/geminiService.ts:268-273 | filtering and mapping chunk by chunk keeps the chunks' order |
| GeminiService.Uris | services/geminiService.ts:276 | the uris of the sources, position by position (a definition; `MapSet`, `Dedup` and `DedupProperties` state their properties through it) |
| GeminiService.MapSet | services/geminiService.ts:276 | `Map.set` replaces the entry of an existing key in place and appends a new key at the end; keys stay distinct |
| GeminiService.Dedup | services/geminiService.ts:276 | the deduplicated sources have pairwise distinct uris and are no more than the input |
| GeminiService.FirstOccurrences | services/geminiService.ts:276 | the distinct uris, each once |
| GeminiService.FirstOccurrencesOrdered | services/geminiService.ts:276 | those uris come in the order of their first occurrence |
| GeminiService.LastWith | services/geminiService.ts:276 | the last source with a given uri: a source with that uri, and no later source has that uri |
| GeminiService.DedupKeepsFirstPositions | services/geminiService.ts:276 | deduplication keeps each uri once, at the place of its first occurrence |
| GeminiService.DedupKeepsLastValues | services/geminiService.ts:276 | each kept uri holds the source of its last occurrence |
| GeminiService.DedupProperties | services/geminiService.ts:276 | uris distinct, the same set of uris as the input, first-occurrence order, and each kept source is the last one in the input with its uri |
| GeminiService.DedupRepeat | services/geminiService.ts:276 | `[a/X, b/Y, a/Z]` becomes `[a/Z, b/Y]` |
| GeminiService.DedupPair | services/geminiService.ts:276 | two sources with different uris are kept as they are |
| GeminiService.DedupSnoc | services/geminiService.ts:276 | deduplication is a fold of `Map.set` over the sources |
| GeminiService.PlagiarismPrompt | services/geminiService.ts:245-256 | the plagiarism prompt states the text |
| GeminiService.CheckPlagiarism | services/geminiService.ts:243-286 | sends the prompt with search grounding; returns the text or "Analysis complete." and the deduplicated usable sources; a transport error is rethrown |
| GeminiService.PlagiarismSources | services/geminiService.ts:267-279 | every reported source has a non-empty uri and title; no uri is reported twice; every usable chunk's uri is reported |
| GeminiService.CompareAssignments | services/geminiService.ts:291-320 | sends the comparison prompt to the text model; returns the text or "Could not compare assignments." |
| GeminiService.ComparisonPrompt | services/geminiService.ts:293-301 | the labelled prompt of submission A, then submission B (a definition; `LabelledPromptMentions` gives that both occur in it) |
| Attendance.InitialRoster | components/Attendance.tsx:11-22 | the tracker starts with ten students |
| Attendance.InitialRosterDistinct | components/Attendance.tsx:11-22 | the initial ids are pairwise distinct |
| Attendance.NextId | components/Attendance.tsx:53 | the new id exceeds every id in use; it is 1 for an empty roster, and otherwise one more than some existing id (the maximum) |
| Attendance.Renamed | components/Attendance.tsx:38-40 | renaming keeps length, ids and statuses, and changes exactly the names of the entries with that id |
| Attendance.WithStatus | components/Attendance.tsx:178 | a status button keeps length, ids and names, and changes exactly the status of the entries with that id |
| Attendance.Without | components/Attendance.tsx:68 | removal keeps exactly the students whose id differs |
| Attendance.WithoutSplits | components/Attendance.tsx:68 | removal keeps the other students in their order |
| Attendance.WithoutAbsent | components/Attendance.tsx:68 | removing an unused id changes nothing |
| Attendance.WithoutDistinct | components/Attendance.tsx:68 | removal keeps ids distinct |
| Attendance.AddKeepsDistinct | components/Attendance.tsx:53-60 | prepending a student with the next id keeps ids distinct |
| Attendance.PrependUnusedId | components/Attendance.tsx:60 | prepending a student with an unused id keeps ids distinct |
| Attendance.CountStatus | components/Attendance.tsx:73-75 | a status count is at most the roster size |
| Attendance.GetStats | components/Attendance.tsx:72-77 | present + absent + late is the roster size, each count being the number of students with that status |
| Attendance.StatusesPartition | components/Attendance.tsx:72-77 | every student is counted under exactly one status |
| Attendance.RenamedKeepsStats | components/Attendance.tsx:36-44 | renaming changes no status count |
| Attendance.WithStatusMovesOne | components/Attendance.tsx:184 | changing one student's status moves exactly one count from the old status to the new one |
| Attendance.WithStatusAbsent | components/Attendance.tsx:190 | setting the status of an unused id changes nothing |
| Attendance.SameIdsKeepDistinct | components/Attendance.tsx:38-40 | a roster with the same ids in the same places keeps ids distinct |
| Attendance.Tracker.constructor | components/Attendance.tsx:11-29 | the initial roster, no open editor, no open dialog |
| Attendance.Tracker.StartEditing | components/Attendance.tsx:31-34 | opens the editor on that student's id and name; nothing else changes |
| Attendance.Tracker.SetEditName | components/Attendance.tsx:140 | typing replaces the edited name only |
| Attendance.Tracker.SaveEdit | components/Attendance.tsx:36-44 | with an open editor and a non-blank name, renames that id to the trimmed name and closes the editor; otherwise nothing changes; ids stay distinct |
| Attendance.Tracker.CancelEdit | components/Attendance.tsx:46-49 | closes the editor, roster untouched |
| Attendance.Tracker.SetAdding | components/Attendance.tsx:114 | opens or closes the add dialog only |
| Attendance.Tracker.SetNewStudentName | components/Attendance.tsx:212 | typing replaces the new name only |
| Attendance.Tracker.AddDisabled | components/Attendance.tsx:228 | the add button is disabled exactly when the name is blank after trimming; `AddStudent`'s contract is stated in these terms, so an enabled button always adds |
| Attendance.Tracker.AddStudent | components/Attendance.tsx:51-64 | while the add button is disabled, nothing changes; otherwise prepends a present student with the next id and the trimmed name, clears the name and closes the dialog; ids stay distinct |
| Attendance.Tracker.RemoveStudent | components/Attendance.tsx:66-70 | removes that id only when confirmed; ids stay distinct |
| Attendance.Tracker.SetStatus | components/Attendance.tsx:178-190 | sets that id's status; nothing else changes; ids stay distinct |
| HomeworkChecker.UploadLimitInclusive | components/HomeworkChecker.tsx:30 | a file is accepted exactly when it is at most 5 MiB: 5242880 bytes pass, 5242881 do not |
| HomeworkChecker.Accepted | components/HomeworkChecker.tsx:30 | a file of at most 5 MiB passes the size test (a definition; `UploadLimitInclusive` states the boundary) |
| HomeworkChecker.ButtonDisabled | components/HomeworkChecker.tsx:102-104 | `isButtonDisabled`: in text mode, loading or a missing text; in scan mode, loading or no image (a definition; `EnabledIffCall` and `LoadingDisables` tie it to the handler) |
| HomeworkChecker.Plan | components/HomeworkChecker.tsx:81-91 | no call for text mode missing a text or scan mode missing an image; text mode checks both texts; scan mode grades the image with the assignment as context, passing the key exactly when one is loaded |
| HomeworkChecker.EnabledIffCall | components/HomeworkChecker.tsx:102-104 | when nothing is loading, the button is enabled exactly when pressing it calls a service |
| HomeworkChecker.LoadingDisables | components/HomeworkChecker.tsx:102-104 | a loading form has its button disabled |
| HomeworkChecker.Shown | components/HomeworkChecker.tsx:93-96 | the panel shows the service's text, or "Error processing submission. Please try again." on failure |
| HomeworkChecker.FeedbackAfter | components/HomeworkChecker.tsx:75-100 | no feedback when no call is made; otherwise the shown outcome of the call, with its fallback |
| HomeworkChecker.FeedbackAfterCall | components/HomeworkChecker.tsx:93-96 | whenever a call is made the panel shows non-empty text |
| HomeworkChecker.Grader.constructor | components/HomeworkChecker.tsx:9-25 | text mode, empty texts, no files, no feedback, not loading |
| HomeworkChecker.Grader.SetMode | components/HomeworkChecker.tsx:121-127 | switches the mode and clears feedback only |
| HomeworkChecker.Grader.SetAssignment | components/HomeworkChecker.tsx:143 | replaces the assignment only |
| HomeworkChecker.Grader.SetStudentWork | components/HomeworkChecker.tsx:177 | replaces the student's work only |
| HomeworkChecker.Grader.UploadStudentImage | components/HomeworkChecker.tsx:27-42 | no file changes nothing; a file over 5 MiB raises the alert and changes nothing; otherwise sets image and type and clears feedback |
| HomeworkChecker.Grader.UploadAnswerKey | components/HomeworkChecker.tsx:44-60 | the same for the answer key, which also records the file name |
| HomeworkChecker.Grader.ClearStudentImage | components/HomeworkChecker.tsx:62-66 | clears image, type and feedback only |
| HomeworkChecker.Grader.ClearAnswerKey | components/HomeworkChecker.tsx:68-73 | clears key, type, name and feedback only |
| HomeworkChecker.Grader.HandleCheck | components/HomeworkChecker.tsx:75-100 | sends exactly the planned request, if any: in text mode the homework request; in scan mode the text model, no configuration, and the key with its label (when loaded), the submission, its label and the instructions carrying the assignment; feedback becomes the planned call's shown outcome (none when no call); loading ends false |
| LessonPlanner.DashRuns | components/LessonPlanner.tsx:59 | replacing whitespace runs leaves no whitespace and never lengthens the text (`DashRunsOfRun`, `DashRunsSplit` and `DashRunsBetween` state where the dashes go) |
| LessonPlanner.DashRunsKeepsWords | components/LessonPlanner.tsx:59 | text without whitespace is unchanged |
| LessonPlanner.DashRunsOfRun | components/LessonPlanner.tsx:59 | a maximal whitespace run becomes a single dash |
| LessonPlanner.DashRunsSplit | components/LessonPlanner.tsx:59 | cutting the text anywhere but inside a whitespace run, the two sides are replaced independently |
| LessonPlanner.DashRunsBetween | components/LessonPlanner.tsx:59 | a whitespace run between a word and the rest of the text becomes one dash, with the word kept: interior runs as well as leading ones |
| LessonPlanner.DashRunsIdempotent | components/LessonPlanner.tsx:59 | replacing runs twice is replacing them once |
| LessonPlanner.ToLowerKeepsNoWhitespace | components/LessonPlanner.tsx:59 | lowercasing introduces no whitespace |
| LessonPlanner.CleanAppend | components/LessonPlanner.tsx:59 | text without whitespace or upper case stays so when joined |
| LessonPlanner.ExportFileName | components/LessonPlanner.tsx:59 | the file name is the lowered dashed topic followed by "-lesson-plan.txt", and has no whitespace and no upper case |
| LessonPlanner.Planner.constructor | components/LessonPlanner.tsx:8-19 | the default configuration, no plan, menu closed, not loading |
| LessonPlanner.Planner.EditConfig | components/LessonPlanner.tsx:110-158 | a form input replaces the configuration only |
| LessonPlanner.Planner.GenerateDisabled | components/LessonPlanner.tsx:166 | the generate button is disabled while loading or without a topic (a definition) |
| LessonPlanner.Planner.HandleGenerate | components/LessonPlanner.tsx:32-47 | an empty topic does nothing; otherwise sends the lesson-plan request; the plan becomes the whole streamed text, or the fixed error text when the stream throws; loading ends false |
| LessonPlanner.Planner.AppendChunks | components/LessonPlanner.tsx:38-40 | appending the chunks one by one appends their concatenation |
| LessonPlanner.Planner.ToggleExportMenu | components/LessonPlanner.tsx:193 | flips the export menu only |
| LessonPlanner.Planner.HandleExportTxt | components/LessonPlanner.tsx:54-64 | no plan, no download; otherwise downloads the plan under the export name and closes the menu |
| LessonPlanner.Planner.HandlePrint | components/LessonPlanner.tsx:66-95 | no plan, nothing; otherwise the page, when a window opens, carries topic, grade, subject and plan; the menu closes either way |
| QuizMaker.StudentBlocksFrom | components/QuizMaker.tsx:59-66 | one student block per question, numbered consecutively, with the question and its options in order |
| QuizMaker.TeacherBlocksFrom | components/QuizMaker.tsx:68-78 | one answer-key block per question, numbered consecutively, with its correct answer and explanation |
| QuizMaker.StudentBlocks | components/QuizMaker.tsx:59-66 | `studentContent`: one block per question, block i numbered i + 1 and showing question i |
| QuizMaker.TeacherBlocks | components/QuizMaker.tsx:68-78 | `teacherContent`: one block per question, block i numbered i + 1 and showing answer i |
| QuizMaker.CopiesAgree | components/QuizMaker.tsx:59-78 | block i of both copies is numbered i+1 and shows question i |
| QuizMaker.StudentBlocksAppend | components/QuizMaker.tsx:59-66 | rendering a longer quiz renders its first part, then its rest numbered on |
| QuizMaker.IsCorrect | components/QuizMaker.tsx:173 | `opt === q.correctAnswer` (a definition; `MarkedCountIsOccurrences` counts the options it marks) |
| QuizMaker.MarkedCount | components/QuizMaker.tsx:173 | at most as many options are marked as there are options |
| QuizMaker.MarkedCountIsOccurrences | components/QuizMaker.tsx:173 | the options marked correct are exactly as many as the occurrences of the correct answer |
| QuizMaker.Sheet | components/QuizMaker.tsx:80-104 | the score is out of the question count, which is also the number of blocks in each copy; title and topic are the quiz's |
| QuizMaker.Maker.constructor | components/QuizMaker.tsx:7-9 | no topic, no quiz, not loading |
| QuizMaker.Maker.SetTopic | components/QuizMaker.tsx:125 | replaces the topic only |
| QuizMaker.Maker.GenerateDisabled | components/QuizMaker.tsx:132 | the generate button is disabled while loading or without a topic (a definition) |
| QuizMaker.Maker.HandleGenerate | components/QuizMaker.tsx:11-24 | an empty topic does nothing; otherwise requests five questions for grade "General"; shows the quiz, or alerts with no quiz shown; loading ends false |
| QuizMaker.Maker.HandlePrint | components/QuizMaker.tsx:26-111 | nothing without a quiz or a window; otherwise the sheet of the shown quiz |
| VisualStudio.RawMessage | components/VisualStudio.tsx:25 | `err.message \|\| ''` (a definition; `ImageErrorMessage` and `FallbackKeepsMessage` state how the shown message depends on it) |
| VisualStudio.Inspected | components/VisualStudio.tsx:24 | `err instanceof Error \|\| err?.message`: an `Error`, or an object with a truthy message (a definition) |
| VisualStudio.SafetyWords | components/VisualStudio.tsx:27 | the lowered message includes "safety", "blocked" or "policy" (a definition) |
| VisualStudio.QuotaWords | components/VisualStudio.tsx:29 | the lowered message includes "quota" or "429" (a definition) |
| VisualStudio.NetworkWords | components/VisualStudio.tsx:31 | the lowered message includes "network", "offline" or "fetch" (a definition) |
| VisualStudio.ImageErrorMessage | components/VisualStudio.tsx:22-36 | the default message for an uninspected value; otherwise safety, then quota, then network words in the lowered message pick the class, else "Generation failed: " and the message as written |
| VisualStudio.SafetyFirst | components/VisualStudio.tsx:27-28 | safety words win over quota and network words |
| VisualStudio.QuotaBeforeNetwork | components/VisualStudio.tsx:29-32 | quota words win over network words |
| VisualStudio.FallbackKeepsMessage | components/VisualStudio.tsx:33-34 | the fallback keeps the message as written; an empty message gives "Generation failed: " |
| VisualStudio.SafetyAnyCase | components/VisualStudio.tsx:25-28 | a safety word in any letter case selects the safety message |
| VisualStudio.ClassIgnoresCase | components/VisualStudio.tsx:25-35 | messages differing only in case get the same class |
| VisualStudio.Studio.constructor | components/VisualStudio.tsx:6-9 | no prompt, image or error, not loading |
| VisualStudio.Studio.SetPrompt | components/VisualStudio.tsx:62 | replaces the prompt only |
| VisualStudio.Studio.GenerateDisabled | components/VisualStudio.tsx:69 | the generate button is disabled while loading or without a prompt (a definition) |
| VisualStudio.Studio.DismissError | components/VisualStudio.tsx:86 | clears the error only |
| VisualStudio.Studio.HandleGenerate | components/VisualStudio.tsx:11-42 | an empty prompt does nothing; otherwise sends the prompt to the image model; exactly one of image and error is set; the image is the PNG data URL of the first part carrying image data, when there is one, else the error is the classified message; loading ends false |
| Login.SignInErrorMessage | components/Login.tsx:60-65 | with a backend, the three known codes map by exact equality to their messages and any other value gets "Failed to sign in."; without one, the thrown message |
| Login.SignInMessageNamesCode | components/Login.tsx:60-63 | equal messages mean the same explained code, or none |
| Login.CodesMatchExactly | components/Login.tsx:61-63 | a code in another letter case is not recognised |
| Login.GoogleErrorMessage | components/Login.tsx:87 | the thrown message when non-empty, else "Failed to sign in with Google"; never empty |
| Login.LoginForm.constructor | components/Login.tsx:33-37 | empty fields, no error, not loading |
| Login.LoginForm.SetEmail | components/Login.tsx:133 | replaces the email only |
| Login.LoginForm.SetPassword | components/Login.tsx:149 | replaces the password only |
| Login.LoginForm.SubmitDisabled | components/Login.tsx:165 | the sign-in button is disabled while either sign-in is under way (a definition) |
| Login.LoginForm.GoogleDisabled | components/Login.tsx:110 | the Google button is disabled under the same condition (a definition) |
| Login.LoginForm.HandleLogin | components/Login.tsx:39-70 | with a backend, sends the credentials and shows the mapped message of a failure; in demo mode, logs in exactly when both fields are filled and otherwise shows the demo hint; loading ends false |
| Login.LoginForm.HandleGoogleLogin | components/Login.tsx:72-91 | opens the popup exactly when a provider is configured, otherwise logs in; a failure shows a non-empty message; loading ends false |

## Left out

- The generative SDK and the network: client construction and every call are left out. The reply of each call is an input. Only the request sent and the processing of the reply are modelled.
- Prompt prose: a prompt is modelled as lines of text. The contracts state only that each prompt carries the values it interpolates. The lesson-plan prompt's numbered sections and their minutes are stated as well. The wording around them is free text.
- Schema descriptions: the quiz schema's `description` strings are left out. Its shape and its required lists are modelled.
- `JSON.parse(text) as Quiz`: this is a parameter of the model, since it is a library parse with no shape check.
- Floating point: `Math.floor(D * 0.15)` and the other shares are computed in exact integer arithmetic as floor(15D/100). For an integer D the two agree except where binary rounding of the product crosses an integer. A NaN duration prints "NaN" in the prompt.
- `parseInt`: hexadecimal prefixes, radix handling and values beyond double precision are not modelled. Whitespace is the ASCII set. Digits are decimal.
- Unicode: `trim`, `\s` and `toLowerCase` are modelled on ASCII only.
- Browser APIs are not modelled: `FileReader` and base64 encoding, the clipboard (`handleCopy`, components/LessonPlanner.tsx:49-52), `Blob` and object URLs, `setTimeout`, and the HTML written to print windows, including its markdown-to-HTML regular expressions. The model records only whether a print window opened, and the values placed on the page.
- `confirm`: the user's answer is a parameter. An `alert` becomes returned text.
- The click-outside handler that closes the export menu (components/LessonPlanner.tsx:22-30) is left out. It depends on DOM event targets.
- `null` and `undefined` thrown values are left out. A thrown primitive behaves as an object without `message` or `code`.
- React scheduling is left out: asynchronous interleaving, stale closures over state, and renders between state updates. Each handler is one sequential step over its inputs.
- Login: the authentication state listener and its redirect, the demo skip button (components/Login.tsx:184), and the 800 ms and 1000 ms demo delays are not modelled.
- Console logging is not modelled.
- VisualStudio: the download link's time-stamped file name is not modelled.
- VisualStudio.Studio.HandleGenerate: when no part carries an image, its contract names the error as the classification of `new Error("No image data found in response")`. It does not evaluate that classification to one of the five messages.
- PlagiarismChecker.tsx, App.tsx, Sidebar.tsx, Dashboard.tsx and firebaseConfig.ts are not part of this model: they render views, route between them or initialise the SDK. The plagiarism logic they use is `checkPlagiarism` and `compareAssignments`, which are modelled.
- Strings.Trim: its own contract states only that the result is no longer than the input. Strings.TrimProperties states what the result is.
