/** The generative-AI service: response schemas, prompt assembly with its language fallback, and
    the requests handed to the models. The models themselves are an oracle (`AiModel`); what they
    answer is whatever the caller supplies, already decoded from JSON. */
module Gemini {
  import opened Wrappers
  import opened Strings
  import opened Types

  // ---------------------------------------------------------------------------------------------
  // Response schemas (descriptions omitted)

  datatype Schema = StringType | ArrayOf(items: Schema) | ObjectOf(properties: seq<Property>, required: seq<string>)
  datatype Property = Property(name: string, schema: Schema)

  const StringList := ArrayOf(StringType)

  const VideoIdeaSchema := ArrayOf(ObjectOf(
    [Property("title", StringType), Property("description", StringType), Property("tags", StringList)],
    ["title", "description", "tags"]))

  const ChannelAnalysisSchema := ObjectOf(
    [Property("strengths", StringList), Property("weaknesses", StringList), Property("opportunities", StringList),
     Property("videoIdeas", ArrayOf(ObjectOf(
       [Property("title", StringType), Property("description", StringType)], ["title", "description"])))],
    ["strengths", "weaknesses", "opportunities", "videoIdeas"])

  const ScriptSchema := ObjectOf(
    [Property("hook", StringType), Property("introduction", StringType), Property("mainPoints", StringList),
     Property("callToAction", StringType), Property("outro", StringType)],
    ["hook", "introduction", "mainPoints", "callToAction", "outro"])

  const VideoProposalSchema := ObjectOf(
    [Property("titles", StringList), Property("description", StringType), Property("tags", StringList),
     Property("script", ScriptSchema), Property("thumbnailConcepts", StringList)],
    ["titles", "description", "tags", "script", "thumbnailConcepts"])

  const ComparativeAnalysisSchema := ObjectOf(
    [Property("userVideo", ObjectOf(
       [Property("strength", StringType), Property("weakness", StringType)], ["strength", "weakness"])),
     Property("benchmarkVideo", ObjectOf(
       [Property("strength", StringType), Property("tacticToAdopt", StringType)], ["strength", "tacticToAdopt"])),
     Property("improvementAreas", ObjectOf(
       [Property("title", StringType), Property("thumbnail", StringType), Property("content", StringType)],
       ["title", "thumbnail", "content"]))],
    ["userVideo", "benchmarkVideo", "improvementAreas"])

  const BenchmarkAnalysisSchema := ObjectOf(
    [Property("titleHook", StringType), Property("contentStrategy", StringType),
     Property("targetAudience", StringType), Property("monetizationPotential", StringType)],
    ["titleHook", "contentStrategy", "targetAudience", "monetizationPotential"])

  const StoryboardPromptsSchema := ArrayOf(ObjectOf(
    [Property("scene", StringType), Property("prompt", StringType)], ["scene", "prompt"]))

  /** The analysis schema: the consulting result is the comparison or the new-video proposal. */
  function CreateOneMillionAnalysisSchema(isComparative: bool): Schema {
    ObjectOf(
      [Property("benchmarkVideoAnalysis", BenchmarkAnalysisSchema),
       Property("consultingResult", if isComparative then ComparativeAnalysisSchema else VideoProposalSchema)],
      ["benchmarkVideoAnalysis", "consultingResult"])
  }

  /** The schema of the first property called `name`, if there is one. */
  function FirstProperty(props: seq<Property>, name: string): (r: Option<Schema>)
    ensures r.None? <==> forall k :: 0 <= k < |props| ==> props[k].name != name
    ensures r.Some? ==> exists k :: 0 <= k < |props| && props[k] == Property(name, r.value)
  {
    if |props| == 0 then None
    else if props[0].name == name then Some(props[0].schema)
    else
      var r := FirstProperty(props[1..], name);
      assert forall k :: 1 <= k < |props| ==> props[k] == props[1..][k - 1];
      r
  }

  /** `schema.properties[name]` of an object schema. */
  function PropertyOf(s: Schema, name: string): Option<Schema> {
    if s.ObjectOf? then FirstProperty(s.properties, name) else None
  }

  /** The property names an object schema declares. */
  function PropertyNames(s: Schema): set<string> {
    if s.ObjectOf? then set k | 0 <= k < |s.properties| :: s.properties[k].name else {}
  }

  /** The schema a consulting result of a given alternative answers. */
  function SchemaFor(r: ConsultingResult): Schema {
    match r
    case Proposal(_) => VideoProposalSchema
    case Comparative(_) => ComparativeAnalysisSchema
  }

  /** The keys of the JSON object a consulting result was decoded from. */
  function ResultKeys(r: ConsultingResult): set<string> {
    match r
    case Proposal(_) => {"titles", "description", "tags", "script", "thumbnailConcepts"}
    case Comparative(_) => {"userVideo", "benchmarkVideo", "improvementAreas"}
  }

  /** An analysis answers a schema when its consulting result has the shape the schema asks for. */
  predicate Conforms(a: OneMillionAnalysis, s: Schema) {
    PropertyOf(s, "consultingResult") == Some(SchemaFor(a.consultingResult))
  }

  /** The analysis schema always requires both parts, and its consulting result is the comparison
      exactly when the flag is set and the proposal exactly when it is not. */
  lemma {:induction false} OneMillionSchemaShape(isComparative: bool)
    ensures CreateOneMillionAnalysisSchema(isComparative).ObjectOf?
    ensures CreateOneMillionAnalysisSchema(isComparative).required == ["benchmarkVideoAnalysis", "consultingResult"]
    ensures PropertyOf(CreateOneMillionAnalysisSchema(isComparative), "benchmarkVideoAnalysis") == Some(BenchmarkAnalysisSchema)
    ensures PropertyOf(CreateOneMillionAnalysisSchema(isComparative), "consultingResult") == Some(ComparativeAnalysisSchema)
            <==> isComparative
    ensures PropertyOf(CreateOneMillionAnalysisSchema(isComparative), "consultingResult") == Some(VideoProposalSchema)
            <==> !isComparative
  {
    var s := CreateOneMillionAnalysisSchema(isComparative);
    var chosen := if isComparative then ComparativeAnalysisSchema else VideoProposalSchema;
    assert s.properties[1..] == [Property("consultingResult", chosen)];
    assert FirstProperty(s.properties[1..], "consultingResult") == Some(chosen);
    assert PropertyOf(s, "consultingResult") == Some(chosen);
    assert ComparativeAnalysisSchema.properties[0].name != VideoProposalSchema.properties[0].name;
  }

  /** The keys of a decoded result are the properties its schema declares, so the result holds
      `userVideo` exactly when it is the comparison. */
  lemma {:induction false} ResultKeysMatchSchema(r: ConsultingResult)
    ensures ResultKeys(r) == PropertyNames(SchemaFor(r))
    ensures "userVideo" in ResultKeys(r) <==> r.Comparative?
  {
    var s := SchemaFor(r);
    if r.Comparative? {
      assert s.properties[0].name == "userVideo";
      assert s.properties[1].name == "benchmarkVideo";
      assert s.properties[2].name == "improvementAreas";
    } else {
      assert s.properties[0].name == "titles";
      assert s.properties[1].name == "description";
      assert s.properties[2].name == "tags";
      assert s.properties[3].name == "script";
      assert s.properties[4].name == "thumbnailConcepts";
    }
  }

  // ---------------------------------------------------------------------------------------------
  // Prompt tables and their language fallback

  datatype VideoDataLabels = VideoDataLabels(title: string, views: string, likes: string, description: string, tags: string)
  datatype NewTask = NewTask(title: string, step1: string, step2: string)
  datatype ComparativeTask = ComparativeTask(title: string, step1: string, step2: string, step3: string)

  /** The prompt set of the consulting, full-script and storyboard features, for one language. */
  datatype OneMillionPrompts = OneMillionPrompts(
    base: string,
    request: string,
    benchmarkLabel: string,
    userLabel: string,
    detailsLabel: string,
    videoDataLabels: VideoDataLabels,
    newTask: NewTask,
    comparativeTask: ComparativeTask,
    fullScriptPrompt: string,
    storyboardPrompt: string)

  /** The prompt set of the other features, for one language. */
  datatype CommonPrompts = CommonPrompts(keywordSystem: string, channelSystem: string, chatSystem: string)

  datatype CommonField = KeywordSystem | ChannelSystem | ChatSystem

  function FieldOf(p: CommonPrompts, f: CommonField): string {
    match f
    case KeywordSystem => p.keywordSystem
    case ChannelSystem => p.channelSystem
    case ChatSystem => p.chatSystem
  }

  /** A table indexed by language code: the English entry and the entries of the other languages. */
  datatype PromptSet<P> = PromptSet(en: P, translations: map<string, P>)

  /** `table[language] || table.en`. */
  function Select<P>(t: PromptSet<P>, language: string): P {
    if language != "en" && language in t.translations then t.translations[language] else t.en
  }

  /** `table[language]?.field || table.en.field`: an empty entry also falls back to English. */
  function CommonText(t: PromptSet<CommonPrompts>, language: string, f: CommonField): string {
    var chosen := FieldOf(Select(t, language), f);
    if chosen != "" then chosen else FieldOf(t.en, f)
  }

  /** A language without its own entry reads the English one, in both kinds of table. */
  lemma {:induction false} UnknownLanguageIsEnglish(oneMillion: PromptSet<OneMillionPrompts>, common: PromptSet<CommonPrompts>,
                                 language: string, f: CommonField)
    requires language !in oneMillion.translations && language !in common.translations
    ensures Select(oneMillion, language) == oneMillion.en
    ensures CommonText(common, language, f) == FieldOf(common.en, f)
  {
  }

  /** A known language reads its own entry; a common prompt left empty there reads English. */
  lemma {:induction false} KnownLanguageIsOwn(common: PromptSet<CommonPrompts>, language: string, f: CommonField)
    requires language != "en" && language in common.translations
    ensures FieldOf(common.translations[language], f) != "" ==>
            CommonText(common, language, f) == FieldOf(common.translations[language], f)
    ensures FieldOf(common.translations[language], f) == "" ==> CommonText(common, language, f) == FieldOf(common.en, f)
  {
  }

  // ---------------------------------------------------------------------------------------------
  // Model requests and the model oracle

  const TextModel := "gemini-2.5-flash"
  const ImageModel := "imagen-4.0-generate-001"

  datatype GenerateRequest = GenerateRequest(model: string, contents: string, schema: Option<Schema>)
  datatype ImageRequest = ImageRequest(
    model: string, prompt: string, numberOfImages: nat, outputMimeType: string, aspectRatio: string)
  datatype ChatRequest = ChatRequest(
    model: string, systemInstruction: string, history: seq<ChatMessage>, message: string)

  /** A streamed chat answer: the chunks that arrive, then possibly a failure that ends the stream. */
  datatype ChatStream = ChatStream(chunks: seq<string>, failure: Option<string>)

  /** The models: what each request is answered with, or the error the call throws.
      `images` yields the `generatedImages` bytes, None when the field is absent. */
  datatype AiModel = AiModel(
    consulting: GenerateRequest -> Result<OneMillionAnalysis>,
    ideas: GenerateRequest -> Result<seq<VideoIdea>>,
    channelAnalysis: GenerateRequest -> Result<ChannelAnalysis>,
    scenes: GenerateRequest -> Result<seq<StoryboardScene>>,
    text: GenerateRequest -> Result<string>,
    images: ImageRequest -> Result<Option<seq<string>>>,
    chat: ChatRequest -> ChatStream)

  /** The service: prompt tables, the locale's number formatter and the models. */
  datatype Service = Service(
    oneMillion: PromptSet<OneMillionPrompts>,
    common: PromptSet<CommonPrompts>,
    formatCount: string -> string,
    ai: AiModel)

  /** A consulting model that answers every schema-carrying request with an analysis of that shape. */
  ghost predicate HonoursSchema(ai: AiModel) {
    forall req :: ai.consulting(req).Ok? && req.schema.Some? ==> Conforms(ai.consulting(req).value, req.schema.value)
  }

  // ---------------------------------------------------------------------------------------------
  // Consulting prompt

  /** The details block of one video; only the first 300 characters of the description and the first
      10 tags appear. */
  function FormatVideoDataForPrompt(video: VideoDetails, role: string, labels: VideoDataLabels, detailsLabel: string,
                                    formatCount: string -> string): string
  {
    "\n**" + role + " " + detailsLabel + ":**\n"
    + "- **" + labels.title + ":** " + video.title + "\n"
    + "- **" + labels.views + ":** " + formatCount(video.stats.viewCount) + "\n"
    + "- **" + labels.likes + ":** " + formatCount(video.stats.likeCount) + "\n"
    + "- **" + labels.description + ":** " + Take(video.description, 300) + "...\n"
    + "- **" + labels.tags + ":** " + Join(Take(video.tags, 10), ", ") + "\n"
  }

  /** Videos that agree on title, counts, the first 300 description characters and the first 10 tags
      give the same block; a description of at most 300 characters appears whole. */
  lemma {:induction false} VideoBlockTruncation(a: VideoDetails, b: VideoDetails, role: string, labels: VideoDataLabels,
                             detailsLabel: string, formatCount: string -> string)
    requires a.title == b.title && a.stats.viewCount == b.stats.viewCount && a.stats.likeCount == b.stats.likeCount
    requires Take(a.description, 300) == Take(b.description, 300)
    requires Take(a.tags, 10) == Take(b.tags, 10)
    ensures FormatVideoDataForPrompt(a, role, labels, detailsLabel, formatCount)
         == FormatVideoDataForPrompt(b, role, labels, detailsLabel, formatCount)
    ensures |a.description| <= 300 ==> Take(a.description, 300) == a.description
    ensures |a.tags| <= 10 ==> Take(a.tags, 10) == a.tags
  {
  }

  function NewTaskText(t: NewTask): string {
    "\n" + t.title + "\n" + t.step1 + "\n" + t.step2 + "\n"
  }

  function ComparativeTaskText(t: ComparativeTask): string {
    "\n" + t.title + "\n" + t.step1 + "\n" + t.step2 + "\n" + t.step3 + "\n"
  }

  /** The part of the consulting prompt shared by both modes: base text, request and benchmark block. */
  function ConsultingHead(svc: Service, bench: VideoDetails, language: string): string {
    var p := Select(svc.oneMillion, language);
    p.base + "\n\n" + p.request + "\n\n"
    + FormatVideoDataForPrompt(bench, p.benchmarkLabel, p.videoDataLabels, p.detailsLabel, svc.formatCount) + "\n"
  }

  /** The consulting prompt: the shared head, then the user video's block and the three-step
      comparative task when a user video is given, else the two-step new-video task. */
  function ConsultingPrompt(svc: Service, bench: VideoDetails, language: string, user: Option<VideoDetails>): string {
    var p := Select(svc.oneMillion, language);
    ConsultingHead(svc, bench, language)
    + if user.Some? then
        FormatVideoDataForPrompt(user.value, p.userLabel, p.videoDataLabels, p.detailsLabel, svc.formatCount)
        + ComparativeTaskText(p.comparativeTask)
      else NewTaskText(p.newTask)
  }

  function ConsultingRequest(svc: Service, bench: VideoDetails, language: string, user: Option<VideoDetails>): GenerateRequest {
    GenerateRequest(TextModel, ConsultingPrompt(svc, bench, language, user), Some(CreateOneMillionAnalysisSchema(user.Some?)))
  }

  function GenerateOneMillionConsulting(svc: Service, bench: VideoDetails, language: string, user: Option<VideoDetails>)
    : Result<OneMillionAnalysis>
  {
    svc.ai.consulting(ConsultingRequest(svc, bench, language, user))
  }

  /** Both modes open with the same head; the comparative prompt carries the user block right after
      it and ends with the comparative task, the new-video prompt ends with the new-video task. */
  lemma {:induction false} ConsultingPromptModes(svc: Service, bench: VideoDetails, language: string, user: VideoDetails)
    ensures var head := ConsultingHead(svc, bench, language);
            var p := Select(svc.oneMillion, language);
            var userBlock := FormatVideoDataForPrompt(user, p.userLabel, p.videoDataLabels, p.detailsLabel, svc.formatCount);
            var comparative := ConsultingPrompt(svc, bench, language, Some(user));
            var blueprint := ConsultingPrompt(svc, bench, language, None);
            && head <= comparative && head <= blueprint
            && comparative[|head|..] == userBlock + ComparativeTaskText(p.comparativeTask)
            && blueprint[|head|..] == NewTaskText(p.newTask)
  {
    var head := ConsultingHead(svc, bench, language);
    var p := Select(svc.oneMillion, language);
    var userBlock := FormatVideoDataForPrompt(user, p.userLabel, p.videoDataLabels, p.detailsLabel, svc.formatCount);
    assert ConsultingPrompt(svc, bench, language, Some(user)) == head + (userBlock + ComparativeTaskText(p.comparativeTask));
  }

  /** The request is comparative exactly when a user video is supplied: the same flag selects the
      schema; and an unknown language builds the English request. */
  lemma {:induction false} ConsultingRequestMode(svc: Service, bench: VideoDetails, language: string, user: Option<VideoDetails>)
    ensures var req := ConsultingRequest(svc, bench, language, user);
            && req.model == TextModel
            && req.schema == Some(CreateOneMillionAnalysisSchema(user.Some?))
            && (PropertyOf(req.schema.value, "consultingResult") == Some(ComparativeAnalysisSchema) <==> user.Some?)
    ensures language !in svc.oneMillion.translations ==>
            ConsultingRequest(svc, bench, language, user) == ConsultingRequest(svc, bench, "en", user)
  {
    OneMillionSchemaShape(user.Some?);
  }

  /** A model that honours the schema answers a request with a user video by a comparison, and one
      without by a proposal. */
  lemma {:induction false} ConsultingResultShape(svc: Service, bench: VideoDetails, language: string, user: Option<VideoDetails>)
    requires HonoursSchema(svc.ai)
    requires GenerateOneMillionConsulting(svc, bench, language, user).Ok?
    ensures GenerateOneMillionConsulting(svc, bench, language, user).value.consultingResult.Comparative? <==> user.Some?
  {
    var req := ConsultingRequest(svc, bench, language, user);
    assert Conforms(svc.ai.consulting(req).value, req.schema.value);
    OneMillionSchemaShape(user.Some?);
    var r := svc.ai.consulting(req).value.consultingResult;
    if r.Comparative? {
      assert SchemaFor(r) == ComparativeAnalysisSchema;
    } else {
      assert SchemaFor(r) == VideoProposalSchema;
      assert ComparativeAnalysisSchema.properties[0].name != VideoProposalSchema.properties[0].name;
    }
  }

  // ---------------------------------------------------------------------------------------------
  // Full script and storyboard

  /** The main points as outline bullet lines, one per point. */
  function Bullets(points: seq<string>): (r: seq<string>)
    ensures |r| == |points| && forall k :: 0 <= k < |points| ==> r[k] == "  - " + points[k]
  {
    seq(|points|, k requires 0 <= k < |points| => "  - " + points[k])
  }

  /** The title and script outline that follow the instruction in both outline prompts. */
  function OutlineBody(title: string, o: ScriptOutline): string {
    "\n\n**Video Title:** " + title + "\n\n"
    + "**Script Outline:**\n"
    + "- **Hook:** " + o.hook + "\n"
    + "- **Introduction:** " + o.introduction + "\n"
    + "- **Main Points:** \n"
    + Join(Bullets(o.mainPoints), "\n") + "\n"
    + "- **Call to Action:** " + o.callToAction + "\n"
    + "- **Outro:** " + o.outro + "\n"
  }

  /** When no main point holds a newline, the bullet block of the outline splits back into one line
      per main point, in order, and each line without its `  - ` marker is that point. */
  lemma {:induction false} BulletBlockLines(points: seq<string>)
    requires |points| > 0
    requires forall k :: 0 <= k < |points| ==> '\n' !in points[k]
    ensures Split(Join(Bullets(points), "\n"), "\n") == Bullets(points)
    ensures var lines := Split(Join(Bullets(points), "\n"), "\n");
            |lines| == |points| && forall k :: 0 <= k < |lines| ==> |lines[k]| >= 4 && lines[k][4..] == points[k]
  {
    var lines := Bullets(points);
    forall k | 0 <= k < |lines| ensures '\n' !in lines[k] {
      assert lines[k] == "  - " + points[k];
    }
    assert "\n" == ['\n'];
    JoinSplitChar(lines, '\n');
    forall k | 0 <= k < |lines| ensures lines[k][4..] == points[k] {
      assert lines[k] == "  - " + points[k];
    }
  }

  /** The outline body holds the bullet block of the main points right after the main-points
      heading and right before the call to action. */
  lemma {:induction false} OutlineBodyHoldsBullets(title: string, o: ScriptOutline)
    ensures Contains(OutlineBody(title, o),
                     "- **Main Points:** \n" + Join(Bullets(o.mainPoints), "\n") + "\n- **Call to Action:** " + o.callToAction + "\n")
  {
    var block := "- **Main Points:** \n" + Join(Bullets(o.mainPoints), "\n") + "\n- **Call to Action:** " + o.callToAction + "\n";
    var before := "\n\n**Video Title:** " + title + "\n\n" + "**Script Outline:**\n"
                  + "- **Hook:** " + o.hook + "\n" + "- **Introduction:** " + o.introduction + "\n";
    var after := "- **Outro:** " + o.outro + "\n";
    assert OutlineBody(title, o) == before + block + after;
    ContainsInfix(before, block, after);
  }

  /** The full-script and storyboard prompt: a newline, the instruction, then the outline body. */
  function OutlinePrompt(instruction: string, title: string, o: ScriptOutline): string {
    "\n" + instruction + OutlineBody(title, o)
  }

  function GenerateFullScript(svc: Service, o: ScriptOutline, title: string, language: string): Result<string> {
    svc.ai.text(GenerateRequest(TextModel, OutlinePrompt(Select(svc.oneMillion, language).fullScriptPrompt, title, o), None))
  }

  function StoryboardRequest(svc: Service, title: string, o: ScriptOutline, language: string): GenerateRequest {
    GenerateRequest(TextModel, OutlinePrompt(Select(svc.oneMillion, language).storyboardPrompt, title, o),
                    Some(StoryboardPromptsSchema))
  }

  function GenerateStoryboardPrompts(svc: Service, title: string, o: ScriptOutline, language: string)
    : Result<seq<StoryboardScene>>
  {
    svc.ai.scenes(StoryboardRequest(svc, title, o, language))
  }

  // ---------------------------------------------------------------------------------------------
  // Thumbnail image

  function ThumbnailPrompt(concept: string): string {
    "Create a cinematic, high-impact YouTube thumbnail based on this concept: \"" + concept
    + "\". Ensure it is visually striking, easy to read, and evokes curiosity. Aspect ratio 16:9."
  }

  function ThumbnailRequest(concept: string): ImageRequest {
    ImageRequest(ImageModel, ThumbnailPrompt(concept), 1, "image/jpeg", "16:9")
  }

  const NoImageError := "Image generation failed to produce an image."

  /** The base64 bytes of the first generated image. */
  function GenerateThumbnailImage(ai: AiModel, concept: string): Result<string> {
    match ai.images(ThumbnailRequest(concept))
    case Err(e) => Err(e)
    case Ok(images) =>
      if images.None? || |images.value| == 0 then Err(NoImageError) else Ok(images.value[0])
  }

  /** The thumbnail call succeeds exactly when the model returns at least one image, and then yields
      the first; no images at all is the fixed failure, and a model error passes through. */
  lemma {:induction false} ThumbnailOutcomes(ai: AiModel, concept: string)
    ensures var reply := ai.images(ThumbnailRequest(concept));
            var r := GenerateThumbnailImage(ai, concept);
            && (r.Ok? <==> reply.Ok? && reply.value.Some? && |reply.value.value| > 0)
            && (r.Ok? ==> r.value == reply.value.value[0])
            && (reply.Ok? && (reply.value.None? || |reply.value.value| == 0) ==> r == Err(NoImageError))
            && (reply.Err? ==> r == Err(reply.error))
    ensures ThumbnailRequest(concept).numberOfImages == 1
  {
  }

  // ---------------------------------------------------------------------------------------------
  // Keyword ideas, channel analysis and chat

  const KeywordPlaceholder := "${keyword}"

  /** The keyword template with its first `${keyword}` replaced by the keyword. */
  function KeywordPrompt(svc: Service, keyword: string, language: string): string {
    ReplaceFirst(CommonText(svc.common, language, KeywordSystem), KeywordPlaceholder, keyword)
  }

  function GenerateKeywordIdeas(svc: Service, keyword: string, language: string): Result<seq<VideoIdea>> {
    svc.ai.ideas(GenerateRequest(TextModel, KeywordPrompt(svc, keyword, language), Some(VideoIdeaSchema)))
  }

  /** A template with the placeholder gets the keyword in place of the first one, and the text after it
      (later placeholders included) is kept; a template without it is sent unchanged. */
  lemma {:induction false} KeywordSubstitution(svc: Service, keyword: string, language: string)
    ensures var t := CommonText(svc.common, language, KeywordSystem);
            && (!Contains(t, KeywordPlaceholder) ==> KeywordPrompt(svc, keyword, language) == t)
            && (Contains(t, KeywordPlaceholder) ==>
                  |Split(t, KeywordPlaceholder)| > 1
                  && KeywordPrompt(svc, keyword, language)
                     == Split(t, KeywordPlaceholder)[0] + keyword + Join(Split(t, KeywordPlaceholder)[1..], KeywordPlaceholder))
  {
    var t := CommonText(svc.common, language, KeywordSystem);
    if Contains(t, KeywordPlaceholder) {
      ReplaceFirstSplit(t, KeywordPlaceholder, keyword);
    }
  }

  function TitleLine(v: VideoInfo): string {
    "- \"" + v.title + "\""
  }

  function TitleLines(videos: seq<VideoInfo>): (r: seq<string>)
    ensures |r| == |videos| && forall k :: 0 <= k < |videos| ==> r[k] == TitleLine(videos[k])
  {
    seq(|videos|, k requires 0 <= k < |videos| => TitleLine(videos[k]))
  }

  /** The recent-video list of the channel prompt: one `- "title"` line per video, joined by newlines. */
  function VideoTitles(videos: seq<VideoInfo>): string {
    Join(TitleLines(videos), "\n")
  }

  /** When no title holds a newline, the list splits back into exactly one line per video, in order. */
  lemma {:induction false} VideoTitlesLines(videos: seq<VideoInfo>)
    requires |videos| > 0
    requires forall k :: 0 <= k < |videos| ==> '\n' !in videos[k].title
    ensures Split(VideoTitles(videos), "\n") == TitleLines(videos)
    ensures |Split(VideoTitles(videos), "\n")| == |videos|
  {
    var lines := TitleLines(videos);
    forall k | 0 <= k < |lines| ensures '\n' !in lines[k] {
      assert lines[k] == "- \"" + videos[k].title + "\"";
    }
    assert "\n" == ['\n'];
    JoinSplitChar(lines, '\n');
  }

  /** The channel template with its five placeholders replaced in turn, each by one first-occurrence replace. */
  function ChannelPrompt(svc: Service, c: Channel, language: string): string {
    var t := CommonText(svc.common, language, ChannelSystem);
    var t1 := ReplaceFirst(t, "${title}", c.title);
    var t2 := ReplaceFirst(t1, "${subs}", svc.formatCount(c.stats.subscriberCount));
    var t3 := ReplaceFirst(t2, "${views}", svc.formatCount(c.stats.viewCount));
    var t4 := ReplaceFirst(t3, "${count}", svc.formatCount(c.stats.videoCount));
    ReplaceFirst(t4, "${videoTitles}", VideoTitles(c.videos))
  }

  function GenerateChannelAnalysis(svc: Service, c: Channel, language: string): Result<ChannelAnalysis> {
    svc.ai.channelAnalysis(GenerateRequest(TextModel, ChannelPrompt(svc, c, language), Some(ChannelAnalysisSchema)))
  }

  function ChatRequestFor(svc: Service, history: seq<ChatMessage>, message: string, language: string): ChatRequest {
    ChatRequest(TextModel, CommonText(svc.common, language, ChatSystem), history, message)
  }

  /** Opens a chat with the language's system instruction and the given history, and streams the
      answer to the new message. */
  function GetChatStream(svc: Service, history: seq<ChatMessage>, message: string, language: string): ChatStream {
    svc.ai.chat(ChatRequestFor(svc, history, message, language))
  }
}
