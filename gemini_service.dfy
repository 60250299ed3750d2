/** The request-orchestration layer over the generative backend. Every
    operation builds a request, receives the backend's reply as an input (the
    network exchange itself is not modelled) and extracts its result: text
    with a fixed fallback, a streamed sequence of deltas, a parsed quiz, the
    first inline image, or a deduplicated list of grounding sources. */
module GeminiService {
  import opened Wrappers
  import opened Errors
  import opened Strings
  import opened Types

  const TextModel := "gemini-2.5-flash"
  const ImageModel := "gemini-2.5-flash-image"

  // ===========================================================================
  // Requests
  // ===========================================================================

  /** An element of a multimodal `parts` list; `data` is None when the data
      URI it was cut from had no comma (the payload is then `undefined`). */
  datatype RequestPart = TextPart(text: string) | InlinePart(mimeType: string, data: Option<string>)

  /** `contents`: either a prompt string or `{ parts }`. */
  datatype Contents = Prompt(text: string) | Parts(parts: seq<RequestPart>)

  datatype Property = Property(name: string, schema: Schema)

  /** A response schema: a declarative type description, never executed.
      The free-text `description` annotations are not modelled. */
  datatype Schema =
    | StringSchema
    | ArraySchema(items: Schema)
    | ObjectSchema(properties: seq<Property>, required: seq<string>)

  /** The configuration bag; `googleSearch` enables web-search grounding. */
  datatype GenerationConfig = GenerationConfig(
    systemInstruction: Option<string>,
    responseMimeType: Option<string>,
    responseSchema: Option<Schema>,
    googleSearch: bool)

  const NoConfig := GenerationConfig(None, None, None, false)

  datatype Request = Request(model: string, contents: Contents, config: GenerationConfig)

  // ===========================================================================
  // Responses
  // ===========================================================================

  datatype InlineData = InlineData(mimeType: Option<string>, data: Option<string>)
  datatype Part = Part(text: Option<string>, inlineData: Option<InlineData>)
  datatype Content = Content(parts: Option<seq<Part>>)
  datatype Web = Web(uri: Option<string>, title: Option<string>)
  datatype GroundingChunk = GroundingChunk(web: Option<Web>)
  datatype GroundingMetadata = GroundingMetadata(groundingChunks: Option<seq<GroundingChunk>>)
  datatype Candidate = Candidate(content: Option<Content>, groundingMetadata: Option<GroundingMetadata>)

  /** A batch response envelope. `text` is the SDK's aggregated text accessor,
      supplied as it is rather than recomputed from the parts. */
  datatype Response = Response(candidates: Option<seq<Candidate>>, text: Option<string>)

  /** What the backend does with a batch request: answer it, or throw. */
  type Reply = Result<Response, Thrown>

  /** One service invocation: the request sent and what the caller receives. */
  datatype Call<T> = Call(request: Request, result: Result<T, Thrown>)

  /** `response.candidates?.[0]`. */
  function FirstCandidate(r: Response): Option<Candidate> {
    if r.candidates.Some? && |r.candidates.value| > 0 then Some(r.candidates.value[0]) else None
  }

  /** `response.text || fallback`, with the transport's exception passed on. */
  function TextOr(reply: Reply, fallback: string): (r: Result<string, Thrown>)
    ensures reply.Failure? <==> r.Failure?
    ensures reply.Failure? ==> r.error == reply.error
    ensures r.Success? && Truthy(reply.value.text) ==> r.value == reply.value.text.value
    ensures r.Success? && !Truthy(reply.value.text) ==> r.value == fallback
    ensures r.Success? && fallback != "" ==> r.value != ""
  {
    match reply
    case Failure(e) => Failure(e)
    case Success(response) =>
      if Truthy(response.text) then Success(response.text.value) else Success(fallback)
  }

  /** A prompt is its lines joined by line breaks. */
  function Lines(lines: seq<string>): string {
    Join(lines, "\n")
  }

  /** What occurs in one line of a prompt occurs in the prompt. */
  lemma LineMentions(lines: seq<string>, i: nat, v: string)
    requires i < |lines| && Contains(lines[i], v)
    ensures Contains(Lines(lines), v)
  {
    JoinContains(lines, "\n", i, v);
  }

  /** A value interpolated under its label. */
  datatype Field = Field(heading: string, value: string)

  /** Each field as two lines: its heading, then its value. */
  function FieldLines(fields: seq<Field>): (lines: seq<string>)
    ensures |lines| == 2 * |fields|
    ensures forall i :: 0 <= i < |fields| ==> lines[2 * i] == fields[i].heading && lines[2 * i + 1] == fields[i].value
  {
    if fields == [] then []
    else
      var rest := FieldLines(fields[1..]);
      var lines := [fields[0].heading, fields[0].value] + rest;
      assert forall i :: 1 <= i < |fields| ==> lines[2 * i] == rest[2 * (i - 1)] && lines[2 * i + 1] == rest[2 * (i - 1) + 1];
      lines
  }

  /** A prompt that states each field's value on the line after its label. */
  function LabelledPrompt(fields: seq<Field>): string {
    Lines(FieldLines(fields))
  }

  /** Every labelled value occurs in the prompt. */
  lemma LabelledPromptMentions(fields: seq<Field>, i: nat)
    requires i < |fields|
    ensures Contains(LabelledPrompt(fields), fields[i].value)
  {
    var lines := FieldLines(fields);
    ContainsItself(fields[i].value);
    LineMentions(lines, 2 * i + 1, fields[i].value);
  }

  /** The same, for a prompt made of two blocks of lines. */
  lemma BlockMentions(first: seq<string>, second: seq<string>, i: nat, v: string)
    requires i < |first| + |second|
    requires i < |first| ==> Contains(first[i], v)
    requires i >= |first| ==> Contains(second[i - |first|], v)
    ensures Contains(Lines(first + second), v)
  {
    LineMentions(first + second, i, v);
  }

  // ===========================================================================
  // Lesson plan: time budget, prompt and streaming
  // ===========================================================================

  /** Minutes of the four timed sections of a lesson plan. */
  datatype TimeBudget = TimeBudget(warmUp: int, instruction: int, practice: int, assessment: int)

  /** `parseInt(config.duration || '60')`: the default applies only to the
      empty string; text without leading digits gives None (NaN). */
  function DurationMinutes(duration: string): (r: Option<int>)
    ensures duration == "" ==> r == Some(60)
    ensures duration != "" ==> r == ParseInt(duration)
  {
    if duration == "" then
      ParseSixty();
      ParseInt("60")
    else ParseInt(duration)
  }

  lemma ParseSixty()
    ensures ParseInt("60") == Some(60)
  {
    assert DigitsValue("60") == 60 by {
      assert "60"[..1] == "6";
    }
    ParseIntOfDigits("60", "");
    assert "60" + "" == "60";
  }

  /** floor(D * 0.15), floor(D * 0.4), floor(D * 0.25), floor(D * 0.2). */
  function Budget(total: int): (b: TimeBudget)
    ensures 100 * b.warmUp <= 15 * total < 100 * b.warmUp + 100
    ensures 100 * b.instruction <= 40 * total < 100 * b.instruction + 100
    ensures 100 * b.practice <= 25 * total < 100 * b.practice + 100
    ensures 100 * b.assessment <= 20 * total < 100 * b.assessment + 100
  {
    TimeBudget(total * 15 / 100, total * 40 / 100, total * 25 / 100, total * 20 / 100)
  }

  /** The budget of a lesson whose duration field reads `duration`; None when
      every segment prints as NaN. */
  function LessonBudget(duration: string): (r: Option<TimeBudget>)
    ensures r.Some? <==> DurationMinutes(duration).Some?
    ensures r.Some? ==>
      var total, b := DurationMinutes(duration).value, r.value;
      total - 3 <= b.warmUp + b.instruction + b.practice + b.assessment <= total
  {
    match DurationMinutes(duration)
    case None => None
    case Some(total) =>
      BudgetNearTotal(total);
      Some(Budget(total))
  }

  /** The percentages add up to 100, so the floored minutes fall short of the
      whole lesson by at most three minutes and never exceed it. */
  lemma BudgetNearTotal(total: int)
    ensures var b := Budget(total);
      total - 3 <= b.warmUp + b.instruction + b.practice + b.assessment <= total
  {
    var b := Budget(total);
    assert 100 * (b.warmUp + b.instruction + b.practice + b.assessment) <= 100 * total;
    assert 100 * (b.warmUp + b.instruction + b.practice + b.assessment) > 100 * total - 400;
  }

  /** A duration that starts with a number of minutes gives that number's budget. */
  lemma LessonBudgetOfNumber(minutes: int, rest: string)
    requires rest == [] || !IsDigit(rest[0])
    ensures LessonBudget(IntToString(minutes) + rest) == Some(Budget(minutes))
  {
    ParseIntOfIntToString(minutes, rest);
  }

  /** A 45-minute lesson: 6, 18, 11 and 9 minutes (44 in all). */
  lemma LessonBudgetOf45()
    ensures LessonBudget("45" + " mins") == Some(TimeBudget(6, 18, 11, 9))
  {
    DurationOf45();
    BudgetOfDuration("45" + " mins", 45);
    BudgetOf(45, TimeBudget(6, 18, 11, 9));
  }

  /** Any four minutes within the floor bounds are the budget. */
  lemma BudgetOf(total: int, b: TimeBudget)
    requires 100 * b.warmUp <= 15 * total < 100 * b.warmUp + 100
    requires 100 * b.instruction <= 40 * total < 100 * b.instruction + 100
    requires 100 * b.practice <= 25 * total < 100 * b.practice + 100
    requires 100 * b.assessment <= 20 * total < 100 * b.assessment + 100
    ensures Budget(total) == b
  {
  }

  lemma BudgetOfDuration(duration: string, total: int)
    requires DurationMinutes(duration) == Some(total)
    ensures LessonBudget(duration) == Some(Budget(total))
  {
  }

  lemma DurationOf45()
    ensures DurationMinutes("45" + " mins") == Some(45)
  {
    assert DigitsValue("45") == 45 by {
      assert "45"[..1] == "4";
    }
    ParseIntOfDigits("45", " mins");
  }

  /** An empty duration falls back to 60 minutes. */
  lemma LessonBudgetOfEmpty()
    ensures LessonBudget("") == Some(TimeBudget(9, 24, 15, 12))
  {
    BudgetOfDuration("", 60);
    BudgetOf(60, TimeBudget(9, 24, 15, 12));
  }

  /** A duration written in words parses to NaN. */
  lemma LessonBudgetOfWords()
    ensures LessonBudget("one" + " hour") == None
  {
    var d := "one" + " hour";
    assert d[0] == 'o';
    ParseIntOfNonDigit(d);
  }

  /** The four timed sections of a lesson plan. */
  datatype Segment = WarmUp | Instruction | Practice | Assessment

  function SegmentMinutes(b: TimeBudget, s: Segment): int {
    match s
    case WarmUp => b.warmUp
    case Instruction => b.instruction
    case Practice => b.practice
    case Assessment => b.assessment
  }

  /** How a segment's minutes print: `${Math.floor(NaN)}` is "NaN". */
  function MinutesText(b: Option<TimeBudget>, s: Segment): string {
    match b
    case None => "NaN"
    case Some(budget) => IntToString(SegmentMinutes(budget, s))
  }

  /** A timed section's heading, e.g. "Warm-up Activity (6 min)". */
  function SegmentHeading(b: Option<TimeBudget>, s: Segment): (h: string)
    ensures Contains(h, MinutesText(b, s))
  {
    var name := match s
      case WarmUp => "Warm-up Activity ("
      case Instruction => "Main Instruction ("
      case Practice => "Guided Practice ("
      case Assessment => "Assessment/Wrap-up (";
    ContainsInfix(name, MinutesText(b, s), " min)");
    name + MinutesText(b, s) + " min)"
  }

  /** Where a timed section sits among the six numbered sections. */
  function SectionNumber(s: Segment): string {
    match s
    case WarmUp => "3. "
    case Instruction => "4. "
    case Practice => "5. "
    case Assessment => "6. "
  }

  function SegmentLine(b: Option<TimeBudget>, s: Segment): string {
    SectionNumber(s) + SegmentHeading(b, s)
  }

  const LessonSystemInstruction := "You are an expert educational " + "consultant and curriculum developer " + "specializing in creating engaging, " + "standards-aligned lesson plans."

  /** The lines of the lesson-plan prompt: the configuration's labelled
      values, then the six numbered sections in order, the four timed ones
      headed with their minutes. */
  function LessonPlanLines(config: LessonPlanConfig): seq<string> {
    LessonHeader(config) + LessonSections(LessonBudget(config.duration))
  }

  function LessonHeader(config: LessonPlanConfig): (lines: seq<string>)
    ensures |lines| == 4
  {
    [
      "Create a comprehensive lesson plan " + "for a " + config.gradeLevel + " " + config.subject + " class.",
      "Topic: " + config.topic,
      "Duration: " + config.duration,
      "Focus Area: " + config.focus
    ]
  }

  /** Sections 1 to 6, in order. */
  function LessonSections(b: Option<TimeBudget>): (lines: seq<string>)
    ensures |lines| == 6
  {
    ["1. Lesson Objectives", "2. Materials Needed"] + SegmentLines(b)
  }

  /** Sections 3 to 6, in order. */
  function SegmentLines(b: Option<TimeBudget>): (lines: seq<string>)
    ensures |lines| == 4
  {
    seq(4, k requires 0 <= k < 4 => SegmentLine(b, SegmentOrder[k]))
  }

  const SegmentOrder := [WarmUp, Instruction, Practice, Assessment]

  function LessonPlanPrompt(config: LessonPlanConfig): string {
    Lines(LessonPlanLines(config))
  }

  /** The prompt states every field of the configuration. */
  lemma LessonPlanPromptMentionsConfig(config: LessonPlanConfig)
    ensures var p := LessonPlanPrompt(config);
      && Contains(p, config.topic) && Contains(p, config.gradeLevel) && Contains(p, config.subject)
      && Contains(p, config.duration) && Contains(p, config.focus)
  {
    HeaderMentionsConfig(config);
    HeaderLineMentions(config, 0, config.gradeLevel);
    HeaderLineMentions(config, 0, config.subject);
    HeaderLineMentions(config, 1, config.topic);
    HeaderLineMentions(config, 2, config.duration);
    HeaderLineMentions(config, 3, config.focus);
  }

  /** Which header line states which field. */
  lemma HeaderMentionsConfig(config: LessonPlanConfig)
    ensures var h := LessonHeader(config);
      && Contains(h[0], config.gradeLevel) && Contains(h[0], config.subject)
      && Contains(h[1], config.topic) && Contains(h[2], config.duration) && Contains(h[3], config.focus)
  {
    ContainsBoth("Create a comprehensive lesson plan " + "for a ", config.gradeLevel, " ", config.subject, " class.");
    ContainsAfter("Topic: ", config.topic);
    ContainsAfter("Duration: ", config.duration);
    ContainsAfter("Focus Area: ", config.focus);
  }

  /** What a header line states, the prompt states. */
  lemma HeaderLineMentions(config: LessonPlanConfig, i: nat, v: string)
    requires i < 4 && Contains(LessonHeader(config)[i], v)
    ensures Contains(LessonPlanPrompt(config), v)
  {
    BlockMentions(LessonHeader(config), LessonSections(LessonBudget(config.duration)), i, v);
  }

  /** The prompt heads each timed section with the minutes its share of the
      lesson's duration gives. */
  lemma LessonPlanPromptMentionsBudget(config: LessonPlanConfig, s: Segment)
    ensures Contains(LessonPlanPrompt(config), SegmentHeading(LessonBudget(config.duration), s))
    ensures Contains(LessonPlanPrompt(config), MinutesText(LessonBudget(config.duration), s))
  {
    var b := LessonBudget(config.duration);
    var h := SegmentHeading(b, s);
    SegmentLineAt(config, s);
    ContainsAfter(SectionNumber(s), h);
    LineMentions(LessonPlanLines(config), 6 + SegmentIndex(s), h);
    ContainsTransitive(LessonPlanPrompt(config), h, MinutesText(b, s));
  }

  /** Where each timed section's line sits in the prompt. */
  lemma SegmentLineAt(config: LessonPlanConfig, s: Segment)
    ensures 6 + SegmentIndex(s) < |LessonPlanLines(config)|
    ensures LessonPlanLines(config)[6 + SegmentIndex(s)] == SegmentLine(LessonBudget(config.duration), s)
  {
    SectionAt(LessonHeader(config), LessonBudget(config.duration), s);
  }

  lemma SectionAt(header: seq<string>, b: Option<TimeBudget>, s: Segment)
    requires |header| == 4
    ensures (header + LessonSections(b))[6 + SegmentIndex(s)] == SegmentLine(b, s)
  {
    var k := SegmentIndex(s);
    BlockIndex(header, ["1. Lesson Objectives", "2. Materials Needed"], SegmentLines(b), k);
    SegmentLineOf(b, s);
  }

  lemma BlockIndex(header: seq<string>, fixed: seq<string>, segs: seq<string>, k: nat)
    requires |header| == 4 && |fixed| == 2 && k < |segs|
    ensures (header + (fixed + segs))[6 + k] == segs[k]
  {
  }

  lemma SegmentLineOf(b: Option<TimeBudget>, s: Segment)
    ensures SegmentLines(b)[SegmentIndex(s)] == SegmentLine(b, s)
  {
    assert SegmentOrder[SegmentIndex(s)] == s;
  }

  function SegmentIndex(s: Segment): nat {
    match s
    case WarmUp => 0
    case Instruction => 1
    case Practice => 2
    case Assessment => 3
  }

  function LessonPlanRequest(config: LessonPlanConfig): (r: Request)
    ensures r.model == TextModel && r.contents == Prompt(LessonPlanPrompt(config))
    ensures r.config == NoConfig.(systemInstruction := Some(LessonSystemInstruction))
  {
    Request(TextModel, Prompt(LessonPlanPrompt(config)), NoConfig.(systemInstruction := Some(LessonSystemInstruction)))
  }

  /** One element of the stream; `text` is None when the chunk carries none. */
  datatype StreamChunk = StreamChunk(text: Option<string>)

  /** What the backend streams: the chunks in arrival order, then either a
      normal end or a thrown error (possibly before the first chunk). */
  datatype Stream = Stream(chunks: seq<StreamChunk>, failure: Option<Thrown>)

  function ChunkText(c: StreamChunk): string {
    if c.text.Some? then c.text.value else ""
  }

  /** All the text the chunks carry, in order. */
  function StreamText(chunks: seq<StreamChunk>): string
    decreases |chunks|
  {
    if chunks == [] then "" else StreamText(chunks[..|chunks| - 1]) + ChunkText(chunks[|chunks| - 1])
  }

  /** The arguments of the successive `onChunk` calls: the non-empty chunk
      texts in arrival order. */
  function Forwarded(chunks: seq<StreamChunk>): (r: seq<string>)
    ensures |r| <= |chunks|
    ensures forall i :: 0 <= i < |r| ==> r[i] != ""
    decreases |chunks|
  {
    if chunks == [] then []
    else
      var init := Forwarded(chunks[..|chunks| - 1]);
      var last := chunks[|chunks| - 1];
      if Truthy(last.text) then init + [last.text.value] else init
  }

  /** Skipping the empty chunks loses no text: the forwarded pieces put
      together are the whole streamed text. */
  lemma {:induction false} ForwardedLosesNoText(chunks: seq<StreamChunk>)
    ensures Concat(Forwarded(chunks)) == StreamText(chunks)
    decreases |chunks|
  {
    if chunks != [] {
      var init := chunks[..|chunks| - 1];
      var last := chunks[|chunks| - 1];
      ForwardedLosesNoText(init);
      if Truthy(last.text) {
        ConcatAppend(Forwarded(init), [last.text.value]);
        assert Concat([last.text.value]) == last.text.value by {
          assert [last.text.value][..0] == [];
        }
      }
    }
  }

  /** The `for await` loop: hands each chunk's text to `onChunk`, in order,
      when it is non-empty. */
  method ForwardChunks(chunks: seq<StreamChunk>) returns (delivered: seq<string>)
    ensures delivered == Forwarded(chunks)
  {
    delivered := [];
    var i := 0;
    while i < |chunks|
      invariant 0 <= i <= |chunks|
      invariant delivered == Forwarded(chunks[..i])
    {
      var chunk := chunks[i];
      assert chunks[..i + 1][..i] == chunks[..i];
      assert Forwarded(chunks[..i + 1]) ==
        Forwarded(chunks[..i]) + if Truthy(chunk.text) then [chunk.text.value] else [];
      if Truthy(chunk.text) {
        delivered := delivered + [chunk.text.value];
      }
      i := i + 1;
    }
    assert chunks[..i] == chunks;
  }

  /** `streamLessonPlan(config, onChunk)`: returns the request, the texts
      handed to `onChunk` in call order, and whether the stream threw (the
      exception is passed on after the chunks that preceded it). */
  method StreamLessonPlan(config: LessonPlanConfig, stream: Stream)
    returns (request: Request, delivered: seq<string>, outcome: Outcome<Thrown>)
    ensures request == LessonPlanRequest(config)
    ensures delivered == Forwarded(stream.chunks)
    ensures forall i :: 0 <= i < |delivered| ==> delivered[i] != ""
    ensures Concat(delivered) == StreamText(stream.chunks)
    ensures outcome.Pass? <==> stream.failure.None?
    ensures outcome.Fail? ==> outcome.error == stream.failure.value
  {
    request := LessonPlanRequest(config);
    delivered := ForwardChunks(stream.chunks);
    ForwardedLosesNoText(stream.chunks);
    outcome := if stream.failure.None? then Pass else Fail(stream.failure.value);
  }

  // ===========================================================================
  // Quiz: schema and structured generation
  // ===========================================================================

  function PropertyNames(props: seq<Property>): seq<string>
  {
    seq(|props|, i requires 0 <= i < |props| => props[i].name)
  }

  /** Every object in the schema lists each of its properties, and only
      those, as required. */
  predicate AllRequired(s: Schema)
    decreases s
  {
    match s
    case StringSchema => true
    case ArraySchema(items) => AllRequired(items)
    case ObjectSchema(props, required) =>
      && (forall n :: n in required ==> n in PropertyNames(props))
      && (forall n :: n in PropertyNames(props) ==> n in required)
      && (forall p :: p in props ==> AllRequired(p.schema))
  }

  /** The quiz schema: `{ title, questions: [{ question, options: [string],
      correctAnswer, explanation }] }`, every field required. */
  function QuizSchema(): (s: Schema)
    ensures AllRequired(s)
    ensures s.ObjectSchema? && PropertyNames(s.properties) == ["title", "questions"]
    ensures s.properties[1].schema.ArraySchema?
    ensures var q := s.properties[1].schema.items;
      q.ObjectSchema? && PropertyNames(q.properties) == ["question", "options", "correctAnswer", "explanation"]
  {
    var q := QuestionSchema();
    QuizShape(q);
    ObjectSchema([Property("title", StringSchema), Property("questions", ArraySchema(q))], ["title", "questions"])
  }

  lemma QuizShape(q: Schema)
    requires AllRequired(q)
    ensures var props := [Property("title", StringSchema), Property("questions", ArraySchema(q))];
      PropertyNames(props) == ["title", "questions"] && AllRequired(ObjectSchema(props, ["title", "questions"]))
  {
    var props := [Property("title", StringSchema), Property("questions", ArraySchema(q))];
    assert PropertyNames(props) == ["title", "questions"];
    ObjectRequiresAll(props);
  }

  /** An object whose required list is its property names, and whose
      properties are all-required themselves, is all-required. */
  lemma ObjectRequiresAll(props: seq<Property>)
    requires forall k :: 0 <= k < |props| ==> AllRequired(props[k].schema)
    ensures AllRequired(ObjectSchema(props, PropertyNames(props)))
  {
    forall p | p in props
      ensures AllRequired(p.schema)
    {
      var k :| 0 <= k < |props| && props[k] == p;
    }
  }

  /** The schema of one question. */
  function QuestionSchema(): (q: Schema)
    ensures AllRequired(q)
    ensures q.ObjectSchema? && PropertyNames(q.properties) == ["question", "options", "correctAnswer", "explanation"]
  {
    var props := [
      Property("question", StringSchema),
      Property("options", ArraySchema(StringSchema)),
      Property("correctAnswer", StringSchema),
      Property("explanation", StringSchema)
    ];
    assert PropertyNames(props) == ["question", "options", "correctAnswer", "explanation"];
    ObjectRequiresAll(props);
    ObjectSchema(props, ["question", "options", "correctAnswer", "explanation"])
  }

  function QuizPrompt(topic: string, grade: string, count: int): (p: string)
    ensures Contains(p, topic) && Contains(p, grade) && Contains(p, IntToString(count))
  {
    var n := IntToString(count);
    var pre := "Create a " + n + "-question multiple choice quiz about \"";
    var tail := "\" for " + grade + " students.";
    var p := pre + topic + "\" for " + grade + " students.";
    ContainsBoth(pre, topic, "\" for ", grade, " students.");
    assert p == "Create a " + n + ("-question multiple choice quiz about \"" + topic + tail);
    ContainsInfix("Create a ", n, "-question multiple choice quiz about \"" + topic + tail);
    p
  }

  function QuizRequest(topic: string, grade: string, count: int): (r: Request)
    ensures r.model == TextModel && r.contents == Prompt(QuizPrompt(topic, grade, count))
    ensures r.config.responseMimeType == Some("application/json") && r.config.responseSchema == Some(QuizSchema())
    ensures !r.config.googleSearch && r.config.systemInstruction.None?
  {
    Request(TextModel, Prompt(QuizPrompt(topic, grade, count)),
      NoConfig.(responseMimeType := Some("application/json"), responseSchema := Some(QuizSchema())))
  }

  const NoResponseMessage := "No response from AI"

  /** `generateQuiz(topic, grade, count)`. `parse` is `JSON.parse(text) as
      Quiz`: whatever it yields, or throws, is passed on unchecked. */
  function GenerateQuiz(topic: string, grade: string, count: int, reply: Reply, parse: string -> Result<Quiz, Thrown>)
    : (c: Call<Quiz>)
    ensures c.request == QuizRequest(topic, grade, count)
    ensures reply.Failure? ==> c.result == Failure(reply.error)
    ensures reply.Success? && !Truthy(reply.value.text) ==> c.result == Failure(NewError(NoResponseMessage))
    ensures reply.Success? && Truthy(reply.value.text) ==> c.result == parse(reply.value.text.value)
    ensures c.result.Success? ==> reply.Success? && Truthy(reply.value.text)
  {
    var result :=
      match reply
      case Failure(e) => Failure(e)
      case Success(response) =>
        if !Truthy(response.text) then Failure(NewError(NoResponseMessage)) else parse(response.text.value);
    Call(QuizRequest(topic, grade, count), result)
  }

  // ===========================================================================
  // Visual aid: first inline image
  // ===========================================================================

  /** `response.candidates?.[0]?.content?.parts`, empty when absent. */
  function ResponseParts(r: Response): seq<Part> {
    match FirstCandidate(r)
    case Some(Candidate(Some(Content(Some(parts))), _)) => parts
    case _ => []
  }

  /** `part.inlineData && part.inlineData.data`. */
  predicate HasImageData(p: Part) {
    p.inlineData.Some? && Truthy(p.inlineData.value.data)
  }

  /** Part `k` is the first one carrying image data. */
  predicate FirstImageAt(parts: seq<Part>, k: int) {
    0 <= k < |parts| && HasImageData(parts[k]) && forall j :: 0 <= j < k ==> !HasImageData(parts[j])
  }

  /** At most one part is the first image. */
  lemma FirstImageUnique(parts: seq<Part>, k1: int, k2: int)
    requires FirstImageAt(parts, k1) && FirstImageAt(parts, k2)
    ensures k1 == k2
  {
  }

  const ImageUrlPrefix := "data:image/png;base64,"
  const NoImageMessage := "No image data " + "found in response"

  /** `generateVisualAid(prompt)`: scans the first candidate's parts in order
      and returns the first inline payload as a PNG data URL, whatever its
      actual media type; with no such part it throws. */
  method GenerateVisualAid(prompt: string, reply: Reply) returns (c: Call<string>)
    ensures c.request == Request(ImageModel, Prompt(prompt), NoConfig)
    ensures reply.Failure? ==> c.result == Failure(reply.error)
    ensures reply.Success? ==>
      (c.result.Success? <==> exists k :: 0 <= k < |ResponseParts(reply.value)| && HasImageData(ResponseParts(reply.value)[k]))
    ensures reply.Success? && c.result.Failure? ==> c.result.error == NewError(NoImageMessage)
    ensures c.result.Success? ==>
      (reply.Success? &&
       exists k :: FirstImageAt(ResponseParts(reply.value), k) &&
         c.result.value == ImageUrlPrefix + ResponseParts(reply.value)[k].inlineData.value.data.value)
  {
    var request := Request(ImageModel, Prompt(prompt), NoConfig);
    if reply.Failure? {
      return Call(request, Failure(reply.error));
    }
    var parts := ResponseParts(reply.value);
    var i := 0;
    while i < |parts|
      invariant 0 <= i <= |parts|
      invariant forall j :: 0 <= j < i ==> !HasImageData(parts[j])
    {
      if HasImageData(parts[i]) {
        assert FirstImageAt(parts, i);
        return Call(request, Success(ImageUrlPrefix + parts[i].inlineData.value.data.value));
      }
      i := i + 1;
    }
    c := Call(request, Failure(NewError(NoImageMessage)));
  }

  // ===========================================================================
  // Homework grading: text mode and scanned answer sheets
  // ===========================================================================

  const FeedbackFallback := "Could not generate feedback."

  /** The homework prompt's labelled values: the assignment, then the
      student's work. */
  function HomeworkPrompt(assignment: string, studentWork: string): string {
    LabelledPrompt([Field("Assignment/Question:", assignment), Field("Student Submission:", studentWork)])
  }

  function CheckHomework(assignment: string, studentWork: string, reply: Reply): (c: Call<string>)
    ensures c.request == Request(TextModel, Prompt(HomeworkPrompt(assignment, studentWork)), NoConfig)
    ensures c.result == TextOr(reply, FeedbackFallback)
  {
    Call(Request(TextModel, Prompt(HomeworkPrompt(assignment, studentWork)), NoConfig), TextOr(reply, FeedbackFallback))
  }

  /** A file read as a data URI (`data:<type>;base64,<payload>`) with its media type. */
  datatype Attachment = Attachment(dataUri: string, mimeType: string)

  /** `dataUri.split(',')[1]`. */
  function Payload(dataUri: string): (r: Option<string>)
    ensures r.Some? ==> ',' !in r.value && Contains(dataUri, r.value)
    ensures ',' !in dataUri ==> r == None
  {
    SplitField(dataUri, ',', 1)
  }

  /** For a data URI whose header and payload are comma-free (base64 never
      contains a comma), the payload is recovered exactly; without any comma
      it is `undefined`. */
  lemma PayloadOfDataUri(header: string, payload: string)
    requires ',' !in header && ',' !in payload
    ensures Payload(header + "," + payload) == Some(payload)
    ensures Payload(header) == None
  {
    SplitJoin([header, payload], ',');
    assert Join([header, payload], [',']) == header + "," + payload;
  }

  const AnswerKeyLabel := "Above is the Answer Key Document."
  const SubmissionLabel := "Above is the Student Submission."

  /** The grading instructions' labelled value: the assignment context. */
  function GradingPrompt(assignmentContext: string): (p: string)
    ensures Contains(p, assignmentContext)
  {
    var lines := ["Assignment Context / Notes:", assignmentContext];
    ContainsItself(assignmentContext);
    LineMentions(lines, 1, assignmentContext);
    Lines(lines)
  }

  function InlineOf(a: Attachment): RequestPart {
    InlinePart(a.mimeType, Payload(a.dataUri))
  }

  /** The inline parts of a parts list, in order. */
  function Attachments(parts: seq<RequestPart>): seq<RequestPart>
    decreases |parts|
  {
    if parts == [] then []
    else (if parts[0].InlinePart? then [parts[0]] else []) + Attachments(parts[1..])
  }

  lemma {:induction false} AttachmentsAppend(a: seq<RequestPart>, b: seq<RequestPart>)
    ensures Attachments(a + b) == Attachments(a) + Attachments(b)
    decreases |a|
  {
    if a == [] {
      assert a + b == b;
    } else {
      var head := if a[0].InlinePart? then [a[0]] else [];
      assert (a + b)[0] == a[0];
      assert (a + b)[1..] == a[1..] + b;
      assert Attachments(a + b) == head + Attachments(a[1..] + b);
      AttachmentsAppend(a[1..], b);
      assert head + (Attachments(a[1..]) + Attachments(b)) == (head + Attachments(a[1..])) + Attachments(b);
    }
  }

  /** The answer key and its label, when a key is given. */
  function KeyParts(answerKey: Option<Attachment>): seq<RequestPart> {
    if answerKey.Some? then [InlineOf(answerKey.value), TextPart(AnswerKeyLabel)] else []
  }

  /** The `parts` list of `gradeAnswerSheet`, built by successive pushes: the
      answer key and its label when a key is given, then the submission and
      its label, then the instructions. */
  method GradingParts(studentImage: Attachment, answerKey: Option<Attachment>, promptText: string)
    returns (parts: seq<RequestPart>)
    ensures parts == KeyParts(answerKey) + [InlineOf(studentImage), TextPart(SubmissionLabel), TextPart(promptText)]
  {
    parts := [];
    if answerKey.Some? {
      parts := parts + [InlineOf(answerKey.value)];
      parts := parts + [TextPart(AnswerKeyLabel)];
    }
    assert parts == KeyParts(answerKey);
    parts := parts + [InlineOf(studentImage)];
    parts := parts + [TextPart(SubmissionLabel)];
    parts := parts + [TextPart(promptText)];
  }

  /** The inline parts are the answer key, when given, then the submission. */
  lemma GradingAttachments(studentImage: Attachment, answerKey: Option<Attachment>, promptText: string)
    ensures Attachments(KeyParts(answerKey) + [InlineOf(studentImage), TextPart(SubmissionLabel), TextPart(promptText)])
      == (if answerKey.Some? then [InlineOf(answerKey.value)] else []) + [InlineOf(studentImage)]
  {
    var tail := [InlineOf(studentImage), TextPart(SubmissionLabel), TextPart(promptText)];
    AttachmentsAppend(KeyParts(answerKey), tail);
    AttachmentsOfPair(InlineOf(studentImage), [TextPart(SubmissionLabel), TextPart(promptText)]);
    if answerKey.Some? {
      AttachmentsOfPair(InlineOf(answerKey.value), [TextPart(AnswerKeyLabel)]);
    }
  }

  /** An inline part followed by at most two text parts contributes itself. */
  lemma AttachmentsOfPair(p: RequestPart, texts: seq<RequestPart>)
    requires p.InlinePart? && |texts| <= 2
    requires forall k :: 0 <= k < |texts| ==> !texts[k].InlinePart?
    ensures Attachments([p] + texts) == [p]
  {
    var whole := [p] + texts;
    assert whole[1..] == texts;
    if texts != [] {
      assert texts[1..] == [] || texts[1..][1..] == [];
    }
  }

  const GradingFallback := "Could not analyze the submission."

  /** `gradeAnswerSheet(studentImage, assignmentContext, answerKey?)`. */
  method GradeAnswerSheet(studentImage: Attachment, assignmentContext: string, answerKey: Option<Attachment>, reply: Reply)
    returns (c: Call<string>)
    ensures c.request.model == TextModel && c.request.config == NoConfig
    ensures c.request.contents ==
      Parts(KeyParts(answerKey) + [InlineOf(studentImage), TextPart(SubmissionLabel), TextPart(GradingPrompt(assignmentContext))])
    ensures Attachments(c.request.contents.parts) == (if answerKey.Some? then [InlineOf(answerKey.value)] else []) + [InlineOf(studentImage)]
    ensures c.result == TextOr(reply, GradingFallback)
  {
    var parts := GradingParts(studentImage, answerKey, GradingPrompt(assignmentContext));
    GradingAttachments(studentImage, answerKey, GradingPrompt(assignmentContext));
    c := Call(Request(TextModel, Parts(parts), NoConfig), TextOr(reply, GradingFallback));
  }

  // ===========================================================================
  // Plagiarism: grounding sources and peer comparison
  // ===========================================================================

  /** A cited web page; two sources are the same source when their `uri`s are equal. */
  datatype Source = Source(uri: string, title: string)

  datatype PlagiarismReport = PlagiarismReport(analysis: string, sources: seq<Source>)

  const DefaultSourceTitle := "Web Source"
  const AnalysisFallback := "Analysis complete."

  /** `response.candidates?.[0]?.groundingMetadata?.groundingChunks || []`. */
  function GroundingChunks(r: Response): seq<GroundingChunk> {
    match FirstCandidate(r)
    case Some(Candidate(_, Some(GroundingMetadata(Some(chunks))))) => chunks
    case _ => []
  }

  /** `chunk.web?.uri`: the chunk has a usable link. */
  predicate Usable(c: GroundingChunk) {
    c.web.Some? && Truthy(c.web.value.uri)
  }

  /** `{ uri: chunk.web.uri, title: chunk.web.title || "Web Source" }`. */
  function SourceOf(c: GroundingChunk): (s: Source)
    requires Usable(c)
    ensures s.uri == c.web.value.uri.value && s.uri != ""
    ensures s.title == if Truthy(c.web.value.title) then c.web.value.title.value else DefaultSourceTitle
  {
    Source(c.web.value.uri.value, if Truthy(c.web.value.title) then c.web.value.title.value else DefaultSourceTitle)
  }

  /** The filter-then-map over the grounding chunks. */
  function Sources(chunks: seq<GroundingChunk>): (r: seq<Source>)
    ensures |r| <= |chunks|
    ensures forall i :: 0 <= i < |r| ==> r[i].uri != "" && r[i].title != ""
    ensures forall s :: s in r <==> exists c :: c in chunks && Usable(c) && s == SourceOf(c)
    decreases |chunks|
  {
    if chunks == [] then []
    else
      var rest := Sources(chunks[1..]);
      assert forall c :: c in chunks <==> c == chunks[0] || c in chunks[1..];
      if Usable(chunks[0]) then [SourceOf(chunks[0])] + rest else rest
  }

  /** Filtering and mapping chunk by chunk keeps the chunks' order. */
  lemma {:induction false} SourcesAppend(a: seq<GroundingChunk>, b: seq<GroundingChunk>)
    ensures Sources(a + b) == Sources(a) + Sources(b)
    decreases |a|
  {
    if a != [] {
      assert (a + b)[1..] == a[1..] + b;
      SourcesAppend(a[1..], b);
    } else {
      assert a + b == b;
    }
  }

  function Uris(sources: seq<Source>): seq<string>
  {
    seq(|sources|, i requires 0 <= i < |sources| => sources[i].uri)
  }

  lemma UrisSnoc(sources: seq<Source>)
    requires sources != []
    ensures Uris(sources) == Uris(sources[..|sources| - 1]) + [sources[|sources| - 1].uri]
  {
  }

  lemma UrisAt(sources: seq<Source>)
    ensures |Uris(sources)| == |sources|
    ensures forall i :: 0 <= i < |sources| ==> Uris(sources)[i] == sources[i].uri
  {
  }

  predicate Distinct(us: seq<string>) {
    forall i, j :: 0 <= i < j < |us| ==> us[i] != us[j]
  }

  /** `map.set(s.uri, s)` on a JavaScript `Map`, seen as its entries in
      insertion order: an existing key keeps its place and takes the new
      value; a new key goes last. */
  function MapSet(entries: seq<Source>, s: Source): (r: seq<Source>)
    requires Distinct(Uris(entries))
    ensures Distinct(Uris(r))
    ensures Uris(r) == if s.uri in Uris(entries) then Uris(entries) else Uris(entries) + [s.uri]
    ensures forall i :: 0 <= i < |r| && r[i].uri != s.uri ==> i < |entries| && r[i] == entries[i]
    ensures forall i :: 0 <= i < |r| && r[i].uri == s.uri ==> r[i] == s
  {
    if s.uri in Uris(entries) then
      var k := IndexOf(Uris(entries), s.uri);
      assert forall i :: 0 <= i < |entries| && i != k ==> Uris(entries)[i] != Uris(entries)[k];
      var r := entries[k := s];
      UrisAt(entries);
      UrisAt(r);
      assert Uris(r) == Uris(entries);
      r
    else
      var r := entries + [s];
      UrisAt(entries);
      UrisAt(r);
      assert Uris(r) == Uris(entries) + [s.uri];
      r
  }

  /** `Array.from(new Map(sources.map(item => [item.uri, item])).values())`. */
  function Dedup(sources: seq<Source>): (r: seq<Source>)
    ensures Distinct(Uris(r))
    ensures |r| <= |sources|
    decreases |sources|
  {
    if sources == [] then [] else MapSet(Dedup(sources[..|sources| - 1]), sources[|sources| - 1])
  }

  /** The distinct elements of `us` in order of first occurrence. */
  function FirstOccurrences(us: seq<string>): (r: seq<string>)
    ensures forall u :: u in r <==> u in us
    ensures Distinct(r)
    decreases |us|
  {
    if us == [] then []
    else
      var init := FirstOccurrences(us[..|us| - 1]);
      var u := us[|us| - 1];
      assert forall v :: v in us <==> v in us[..|us| - 1] || v == u;
      if u in us[..|us| - 1] then init else init + [u]
  }

  /** The elements of `r` are drawn from `us`, in the order of their first
      occurrence there. */
  predicate OrderedAsIn(r: seq<string>, us: seq<string>) {
    && (forall x :: x in r ==> x in us)
    && (forall i, j :: 0 <= i < j < |r| ==> IndexOf(us, r[i]) < IndexOf(us, r[j]))
  }

  /** First occurrences appear in the order in which they first occur. */
  lemma {:induction false} FirstOccurrencesOrdered(us: seq<string>)
    ensures OrderedAsIn(FirstOccurrences(us), us)
    decreases |us|
  {
    if us != [] {
      var init := us[..|us| - 1];
      var u := us[|us| - 1];
      assert us == init + [u];
      var r0 := FirstOccurrences(init);
      var r := FirstOccurrences(us);
      FirstOccurrencesOrdered(init);
      assert r == if u in init then r0 else r0 + [u];
      forall i, j | 0 <= i < j < |r|
        ensures IndexOf(us, r[i]) < IndexOf(us, r[j])
      {
        assert r[i] == r0[i] && r0[i] in r0;
        IndexOfPrefix(init, u, r[i]);
        if j < |r0| {
          assert r[j] == r0[j] && r0[j] in r0;
          IndexOfPrefix(init, u, r[j]);
          assert OrderedAsIn(r0, init);
          assert IndexOf(init, r0[i]) < IndexOf(init, r0[j]);
        } else {
          assert u !in init && r[j] == u;
          IndexOfLast(init, u);
        }
      }
    }
  }

  lemma {:induction false} IndexOfPrefix(init: seq<string>, u: string, v: string)
    requires v in init
    ensures IndexOf(init + [u], v) == IndexOf(init, v)
    decreases |init|
  {
    if init[0] != v {
      assert (init + [u])[1..] == init[1..] + [u];
      IndexOfPrefix(init[1..], u, v);
    }
  }

  lemma {:induction false} IndexOfLast(init: seq<string>, u: string)
    requires u !in init
    ensures IndexOf(init + [u], u) == |init|
    decreases |init|
  {
    if init != [] {
      assert (init + [u])[1..] == init[1..] + [u];
      IndexOfLast(init[1..], u);
    }
  }

  /** The last source in `sources` whose uri is `u`. */
  function LastWith(sources: seq<Source>, u: string): (s: Source)
    requires u in Uris(sources)
    ensures s in sources && s.uri == u
    ensures exists k :: 0 <= k < |sources| && sources[k] == s && forall j :: k < j < |sources| ==> sources[j].uri != u
    decreases |sources|
  {
    var init := sources[..|sources| - 1];
    var last := sources[|sources| - 1];
    if last.uri == u then
      assert sources[|sources| - 1] == last;
      last
    else
      UrisSnoc(sources);
      var s := LastWith(init, u);
      var k :| 0 <= k < |init| && init[k] == s && forall j :: k < j < |init| ==> init[j].uri != u;
      assert sources[k] == s;
      assert forall j :: 0 <= j < |init| ==> init[j] == sources[j];
      assert forall j :: k < j < |sources| ==> sources[j].uri != u;
      s
  }

  /** Deduplication by uri keeps each uri once, at the position of its first
      occurrence. */
  lemma {:induction false} DedupKeepsFirstPositions(sources: seq<Source>)
    ensures Uris(Dedup(sources)) == FirstOccurrences(Uris(sources))
    decreases |sources|
  {
    if sources != [] {
      var init := sources[..|sources| - 1];
      var last := sources[|sources| - 1];
      var us := Uris(sources);
      DedupKeepsFirstPositions(init);
      assert us[..|us| - 1] == Uris(init);
      assert us[|us| - 1] == last.uri;
      assert last.uri in Uris(Dedup(init)) <==> last.uri in Uris(init);
    }
  }

  /** Each uri kept by deduplication holds the value of its last occurrence. */
  lemma {:induction false} DedupKeepsLastValues(sources: seq<Source>)
    ensures KeepsLastValues(sources)
    decreases |sources|
  {
    if sources != [] {
      DedupKeepsLastValues(sources[..|sources| - 1]);
      forall i | 0 <= i < |Dedup(sources)|
        ensures Dedup(sources)[i].uri in Uris(sources) && Dedup(sources)[i] == LastWith(sources, Dedup(sources)[i].uri)
      {
        DedupLastAt(sources, i);
      }
    }
  }

  /** Each entry of `Dedup(sources)` is the last source with its uri. */
  predicate KeepsLastValues(sources: seq<Source>) {
    forall i :: 0 <= i < |Dedup(sources)| ==>
      Dedup(sources)[i].uri in Uris(sources) && Dedup(sources)[i] == LastWith(sources, Dedup(sources)[i].uri)
  }

  /** One step of the above: the entry at `i` after adding the last source,
      given that the entries before it held their last values. */
  lemma DedupLastAt(sources: seq<Source>, i: nat)
    requires sources != [] && i < |Dedup(sources)|
    requires KeepsLastValues(sources[..|sources| - 1])
    ensures Dedup(sources)[i].uri in Uris(sources)
    ensures Dedup(sources)[i] == LastWith(sources, Dedup(sources)[i].uri)
  {
    var init := sources[..|sources| - 1];
    var x := sources[|sources| - 1];
    var e := Dedup(init);
    var d := Dedup(sources);
    assert d == MapSet(e, x);
    var u := d[i].uri;
    if u == x.uri {
      assert d[i] == x;
      LastWithLast(sources);
    } else {
      assert i < |e| && d[i] == e[i];
      assert u in Uris(init) && e[i] == LastWith(init, u);
      LastWithSkip(sources, u);
    }
  }

  lemma LastWithLast(sources: seq<Source>)
    requires sources != []
    ensures sources[|sources| - 1].uri in Uris(sources)
    ensures LastWith(sources, sources[|sources| - 1].uri) == sources[|sources| - 1]
  {
    assert Uris(sources)[|sources| - 1] == sources[|sources| - 1].uri;
  }

  lemma LastWithSkip(sources: seq<Source>, u: string)
    requires sources != [] && sources[|sources| - 1].uri != u
    requires u in Uris(sources[..|sources| - 1])
    ensures u in Uris(sources)
    ensures LastWith(sources, u) == LastWith(sources[..|sources| - 1], u)
  {
    var j := IndexOf(Uris(sources[..|sources| - 1]), u);
    assert Uris(sources)[j] == u;
  }

  /** The properties of `Dedup` stated on their own: uris pairwise distinct,
      the same uris as the input, ordered by first occurrence, each carrying
      the title of its last occurrence. */
  lemma DedupProperties(sources: seq<Source>)
    ensures Distinct(Uris(Dedup(sources)))
    ensures forall u :: u in Uris(Dedup(sources)) <==> u in Uris(sources)
    ensures OrderedAsIn(Uris(Dedup(sources)), Uris(sources))
    ensures forall i :: 0 <= i < |Dedup(sources)| ==>
      Dedup(sources)[i].uri in Uris(sources) && Dedup(sources)[i] == LastWith(sources, Dedup(sources)[i].uri)
  {
    DedupKeepsFirstPositions(sources);
    DedupKeepsLastValues(sources);
    FirstOccurrencesOrdered(Uris(sources));
  }

  /** A repeated uri keeps its first place and takes its last title:
      sources a, b, a' with a and a' sharing a uri deduplicate to a', b. */
  lemma DedupRepeat(a: Source, b: Source, c: Source)
    requires a.uri == c.uri && a.uri != b.uri
    ensures Dedup([a, b, c]) == [c, b]
  {
    DedupPair(a, b);
    DedupSnoc([a, b], c);
    assert [a, b] + [c] == [a, b, c];
    assert Uris([a, b])[0] == a.uri;
    assert IndexOf(Uris([a, b]), c.uri) == 0;
  }

  lemma DedupPair(a: Source, b: Source)
    requires a.uri != b.uri
    ensures Dedup([a, b]) == [a, b]
  {
    DedupOfTwo([a, b]);
  }

  lemma DedupOfTwo(s: seq<Source>)
    requires |s| == 2 && s[0].uri != s[1].uri
    ensures Dedup(s) == s
  {
    var one := s[..1];
    assert one[..0] == [];
    MapSetFresh([], s[0]);
    assert Dedup(one) == one;
    MapSetFresh(one, s[1]);
    assert one + [s[1]] == s;
  }

  lemma MapSetFresh(entries: seq<Source>, s: Source)
    requires Distinct(Uris(entries))
    requires forall i :: 0 <= i < |entries| ==> entries[i].uri != s.uri
    ensures MapSet(entries, s) == entries + [s]
  {
    UrisAt(entries);
  }

  lemma DedupSnoc(init: seq<Source>, x: Source)
    ensures Dedup(init + [x]) == MapSet(Dedup(init), x)
  {
    assert (init + [x])[..|init|] == init;
  }

  /** The plagiarism prompt's labelled value: the text, in double quotes. */
  function PlagiarismPrompt(text: string): (p: string)
    ensures Contains(p, text)
  {
    var lines := ["Text to analyze:", "\"" + text + "\""];
    ContainsInfix("\"", text, "\"");
    LineMentions(lines, 1, text);
    Lines(lines)
  }

  /** `checkPlagiarism(text)`: the analysis text (or its fallback) with the
      usable grounding sources, deduplicated by uri. */
  function CheckPlagiarism(text: string, reply: Reply): (c: Call<PlagiarismReport>)
    ensures c.request == Request(TextModel, Prompt(PlagiarismPrompt(text)), NoConfig.(googleSearch := true))
    ensures reply.Failure? ==> c.result == Failure(reply.error)
    ensures reply.Success? ==> (c.result.Success?
      && Success(c.result.value.analysis) == TextOr(reply, AnalysisFallback)
      && c.result.value.sources == Dedup(Sources(GroundingChunks(reply.value))))
  {
    var request := Request(TextModel, Prompt(PlagiarismPrompt(text)), NoConfig.(googleSearch := true));
    match reply
    case Failure(e) => Call(request, Failure(e))
    case Success(response) =>
      var sources := Sources(GroundingChunks(response));
      Call(request, Success(PlagiarismReport(TextOr(reply, AnalysisFallback).value, Dedup(sources))))
  }

  /** Every reported source has a non-empty uri and title, no uri is
      reported twice, and every usable chunk's uri is reported. */
  lemma PlagiarismSources(text: string, response: Response)
    ensures var sources := CheckPlagiarism(text, Success(response)).result.value.sources;
      && Distinct(Uris(sources))
      && (forall i :: 0 <= i < |sources| ==> sources[i].uri != "" && sources[i].title != "")
      && (forall c :: c in GroundingChunks(response) && Usable(c) ==> c.web.value.uri.value in Uris(sources))
  {
    var kept := Sources(GroundingChunks(response));
    var sources := Dedup(kept);
    DedupProperties(kept);
    forall i | 0 <= i < |sources|
      ensures sources[i].uri != "" && sources[i].title != ""
    {
      var s := LastWith(kept, sources[i].uri);
    }
    forall c | c in GroundingChunks(response) && Usable(c)
      ensures c.web.value.uri.value in Uris(sources)
    {
      var s := SourceOf(c);
      assert s in kept;
      var k :| 0 <= k < |kept| && kept[k] == s;
      assert Uris(kept)[k] == s.uri;
    }
  }

  const ComparisonFallback := "Could not compare assignments."

  /** The comparison prompt's labelled values: submission A, then B. */
  function ComparisonPrompt(text1: string, text2: string): string {
    LabelledPrompt([Field("Student A Submission:", text1), Field("Student B Submission:", text2)])
  }

  function CompareAssignments(text1: string, text2: string, reply: Reply): (c: Call<string>)
    ensures c.request == Request(TextModel, Prompt(ComparisonPrompt(text1, text2)), NoConfig)
    ensures c.result == TextOr(reply, ComparisonFallback)
  {
    Call(Request(TextModel, Prompt(ComparisonPrompt(text1, text2)), NoConfig), TextOr(reply, ComparisonFallback))
  }
}
