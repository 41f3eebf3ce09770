/** The consulting component: the analysis run that resolves the user's video and a benchmark video
    and asks the model for a consultation, the choice of result display, the storyboard loop and the
    thumbnail generator. */
module OneMillionConsultantComponent {
  import opened Wrappers
  import opened Strings
  import opened Types
  import opened YouTubeData
  import opened Gemini
  import opened Settings
  import opened Language

  datatype Workflow = New | Improve

  /** The service calls the component makes: the id extraction, the two video lookups of the data
      client and the consulting request of the AI service. */
  datatype Env = Env(
    videoId: string -> Option<string>,
    fetchVideo: string -> Result<VideoDetails>,
    findBenchmark: string -> Result<VideoDetails>,
    consult: (VideoDetails, string, Option<VideoDetails>) -> Result<OneMillionAnalysis>)

  /** The component wired to the real services over the given endpoints, URL parser and AI service. */
  function Wire(api: Api, parseUrl: UrlParser, svc: Service): (env: Env)
    ensures forall url :: env.videoId(url) == GetVideoIdFromUrl(url, parseUrl)
    ensures forall id :: env.fetchVideo(id) == FetchVideoDetails(id, api)
    ensures forall keyword :: env.findBenchmark(keyword) == FindBenchmarkVideo(keyword, api)
    ensures forall bench, language, user :: env.consult(bench, language, user)
                                            == GenerateOneMillionConsulting(svc, bench, language, user)
  {
    Env(url => GetVideoIdFromUrl(url, parseUrl),
        id => FetchVideoDetails(id, api),
        keyword => FindBenchmarkVideo(keyword, api),
        (bench, language, user) => GenerateOneMillionConsulting(svc, bench, language, user))
  }

  /** What a run asks of the outside world, in order. */
  datatype Event =
    | ShowStep(key: string)
    | FetchVideo(videoId: string)
    | SearchBenchmark(keyword: string)
    | ChargeQuota
    | RequestConsulting(benchmark: VideoDetails, user: Option<VideoDetails>)

  const ApiKeyNotSetKey := "error.youtubeApiKeyNotSet"
  const EnterBenchmarkKey := "error.enterBenchmark"
  const EnterYourVideoKey := "error.enterYourVideo"
  const InvalidUrlKey := "error.invalidUrl"
  const VideoNotFoundKey := "error.videoNotFound"
  const FetchFailedKey := "error.fetchFailed"
  const NoVideosFoundKey := "error.noVideosFound"
  const UnknownKey := "error.unknown"
  const ThumbnailFailedKey := "error.thumbnailGenerationFailed"

  const FetchingUserStep := "oneMillion.loading.fetchingUser"
  const FetchingBenchmarkStep := "oneMillion.loading.fetchingBenchmark"
  const GeneratingStep := "oneMillion.loading.generating"

  const InvalidUrlMessage := "Invalid URL for your video."

  // ---------------------------------------------------------------------------------------------
  // The analysis run

  /** The first failed check, as an error key; None when the run may start. */
  function Validate(apiKey: string, workflow: Workflow, benchmarkInput: string, userInput: string): (r: Option<string>)
    ensures r.None? <==> apiKey != "" && !IsBlank(benchmarkInput) && (workflow == Improve ==> !IsBlank(userInput))
    ensures apiKey == "" ==> r == Some(ApiKeyNotSetKey)
    ensures apiKey != "" && IsBlank(benchmarkInput) ==> r == Some(EnterBenchmarkKey)
    ensures apiKey != "" && !IsBlank(benchmarkInput) && workflow == Improve && IsBlank(userInput) ==>
            r == Some(EnterYourVideoKey)
  {
    if apiKey == "" then Some(ApiKeyNotSetKey)
    else if IsBlank(benchmarkInput) then Some(EnterBenchmarkKey)
    else if workflow == Improve && IsBlank(userInput) then Some(EnterYourVideoKey)
    else None
  }

  /** The error key for a thrown message: the first of the known phrases that the lower-cased message
      contains, else the unknown error. */
  function ClassifyAnalyzeError(message: string): string {
    var lower := ToLower(message);
    if Contains(lower, "invalid url") then InvalidUrlKey
    else if Contains(lower, "not found") then VideoNotFoundKey
    else if Contains(lower, "failed to fetch") then FetchFailedKey
    else if Contains(lower, "no videos found") then NoVideosFoundKey
    else UnknownKey
  }

  /** The outcome of a run that passed validation. `failure` is the message of the error that ended it. */
  datatype AnalyzeRun = AnalyzeRun(
    failure: Option<string>,
    analysis: Option<OneMillionAnalysis>,
    benchmarkVideo: Option<VideoDetails>,
    userVideo: Option<VideoDetails>,
    charged: nat,
    events: seq<Event>)

  /** The part of a run after the user video (if any) is known: resolve the benchmark by id or by
      keyword search, then ask for the consultation. Its charge and events are its own. */
  function BenchmarkStage(benchmarkInput: string, language: string, env: Env, user: Option<VideoDetails>): AnalyzeRun
  {
    var id := env.videoId(benchmarkInput);
    var lookup := if Truthy(id) then FetchVideo(id.value) else SearchBenchmark(benchmarkInput);
    var resolved := if Truthy(id) then env.fetchVideo(id.value) else env.findBenchmark(benchmarkInput);
    match resolved
    case Err(m) => AnalyzeRun(Some(m), None, None, user, 0, [ShowStep(FetchingBenchmarkStep), lookup])
    case Ok(bench) =>
      var events := [ShowStep(FetchingBenchmarkStep), lookup, ChargeQuota, ShowStep(GeneratingStep), RequestConsulting(bench, user)];
      match env.consult(bench, language, user)
      case Err(m) => AnalyzeRun(Some(m), None, Some(bench), user, 1, events)
      case Ok(a) => AnalyzeRun(None, Some(a), Some(bench), user, 1, events)
  }

  /** The user-video part of an improve run: extract the id, fetch the video, charge for it. */
  function UserStage(userInput: string, env: Env): AnalyzeRun {
    var id := env.videoId(userInput);
    if !Truthy(id) then AnalyzeRun(Some(InvalidUrlMessage), None, None, None, 0, [ShowStep(FetchingUserStep)])
    else
      match env.fetchVideo(id.value)
      case Err(m) => AnalyzeRun(Some(m), None, None, None, 0, [ShowStep(FetchingUserStep), FetchVideo(id.value)])
      case Ok(user) => AnalyzeRun(None, None, None, Some(user), 1, [ShowStep(FetchingUserStep), FetchVideo(id.value), ChargeQuota])
  }

  /** A run that passed validation: in improve mode the user stage first, and the benchmark stage
      only when it succeeded. */
  function RunAnalyze(workflow: Workflow, benchmarkInput: string, userInput: string, language: string, env: Env)
    : AnalyzeRun
  {
    if workflow == New then BenchmarkStage(benchmarkInput, language, env, None)
    else
      var first := UserStage(userInput, env);
      if first.failure.Some? then first
      else
        var second := BenchmarkStage(benchmarkInput, language, env, first.userVideo);
        second.(charged := first.charged + second.charged, events := first.events + second.events)
  }

  /** The error key a run leaves: None after a success. */
  function ErrorKey(failure: Option<string>): Option<string> {
    if failure.Some? then Some(ClassifyAnalyzeError(failure.value)) else None
  }

  /** Classification is first-match: each key is chosen exactly when its phrase is the first one of the
      list that the lower-cased message contains. */
  lemma {:induction false} ClassifyFirstMatch(message: string)
    ensures var lower := ToLower(message);
            && (ClassifyAnalyzeError(message) == InvalidUrlKey <==> Contains(lower, "invalid url"))
            && (ClassifyAnalyzeError(message) == VideoNotFoundKey <==>
                  !Contains(lower, "invalid url") && Contains(lower, "not found"))
            && (ClassifyAnalyzeError(message) == FetchFailedKey <==>
                  !Contains(lower, "invalid url") && !Contains(lower, "not found") && Contains(lower, "failed to fetch"))
            && (ClassifyAnalyzeError(message) == NoVideosFoundKey <==>
                  !Contains(lower, "invalid url") && !Contains(lower, "not found") && !Contains(lower, "failed to fetch")
                  && Contains(lower, "no videos found"))
            && (ClassifyAnalyzeError(message) == UnknownKey <==>
                  !Contains(lower, "invalid url") && !Contains(lower, "not found") && !Contains(lower, "failed to fetch")
                  && !Contains(lower, "no videos found"))
  {
  }

  /** A user input without an id ends an improve run before any fetch, with the invalid-URL key. */
  lemma {:induction false} InvalidUserUrlStopsRun(benchmarkInput: string, userInput: string, language: string, env: Env)
    requires !Truthy(env.videoId(userInput))
    ensures var run := RunAnalyze(Improve, benchmarkInput, userInput, language, env);
            && ErrorKey(run.failure) == Some(InvalidUrlKey)
            && run.events == [ShowStep(FetchingUserStep)]
            && run.charged == 0
            && run.benchmarkVideo.None? && run.userVideo.None? && run.analysis.None?
  {
    var lower := ToLower(InvalidUrlMessage);
    assert lower[..11] == "invalid url";
    assert OccursAt(lower, "invalid url", 0);
  }

  /** Quota is charged once per video resolved, so a complete run charges 1 in new mode and 2 in
      improve mode. */
  lemma {:induction false} QuotaCountsResolvedVideos(workflow: Workflow, benchmarkInput: string, userInput: string, language: string, env: Env)
    ensures var run := RunAnalyze(workflow, benchmarkInput, userInput, language, env);
            && run.charged == (if run.userVideo.Some? then 1 else 0) + (if run.benchmarkVideo.Some? then 1 else 0)
            && (run.failure.None? ==> run.charged == if workflow == Improve then 2 else 1)
    ensures workflow == New ==> RunAnalyze(workflow, benchmarkInput, userInput, language, env).userVideo.None?
  {
  }

  /** The benchmark is fetched by id when the input yields a non-empty id, and otherwise searched for
      with the whole input as keyword. */
  lemma {:induction false} BenchmarkLookup(workflow: Workflow, benchmarkInput: string, userInput: string, language: string, env: Env)
    requires workflow == New
    ensures var run := RunAnalyze(workflow, benchmarkInput, userInput, language, env);
            var id := env.videoId(benchmarkInput);
            && |run.events| >= 2
            && run.events[1] == (if Truthy(id) then FetchVideo(id.value) else SearchBenchmark(benchmarkInput))
            && (run.benchmarkVideo.Some? ==>
                  Ok(run.benchmarkVideo.value)
                  == if Truthy(id) then env.fetchVideo(id.value) else env.findBenchmark(benchmarkInput))
  {
  }

  /** The consultation is requested only once the benchmark is known, as the last event, and it carries a
      user video exactly in improve mode; a consultation that fails keeps the benchmark video. */
  lemma {:induction false} ConsultingRequestCarriesUserVideo(workflow: Workflow, benchmarkInput: string, userInput: string,
                                          language: string, env: Env)
    ensures var run := RunAnalyze(workflow, benchmarkInput, userInput, language, env);
            run.benchmarkVideo.Some? ==>
              && |run.events| > 0
              && run.events[|run.events| - 1] == RequestConsulting(run.benchmarkVideo.value, run.userVideo)
              && (run.userVideo.Some? <==> workflow == Improve)
              && (env.consult(run.benchmarkVideo.value, language, run.userVideo).Err? ==>
                    run.failure == Some(env.consult(run.benchmarkVideo.value, language, run.userVideo).error)
                    && run.analysis.None?)
    ensures var run := RunAnalyze(workflow, benchmarkInput, userInput, language, env);
            run.benchmarkVideo.None? ==> forall k :: 0 <= k < |run.events| ==> !run.events[k].RequestConsulting?
  {
    var run := RunAnalyze(workflow, benchmarkInput, userInput, language, env);
    if run.benchmarkVideo.None? {
      forall k | 0 <= k < |run.events| ensures !run.events[k].RequestConsulting? {
      }
    }
  }

  // ---------------------------------------------------------------------------------------------
  // Result display

  datatype ResultView = NoResults | ComparativeView | ProposalView

  /** `renderResults`: nothing without an analysis, else the comparison when the result holds a
      `userVideo` key and the proposal otherwise. */
  function RenderMode(analysis: Option<OneMillionAnalysis>): (v: ResultView)
    ensures analysis.None? <==> v == NoResults
    ensures analysis.Some? ==> (v == ComparativeView <==> analysis.value.consultingResult.Comparative?)
  {
    if analysis.None? then NoResults
    else if "userVideo" in ResultKeys(analysis.value.consultingResult) then ComparativeView
    else ProposalView
  }

  /** A consulting call whose successful answers are comparisons exactly when a user video is sent. */
  ghost predicate ShapedByUser(env: Env) {
    forall bench, language, user :: env.consult(bench, language, user).Ok? ==>
      (env.consult(bench, language, user).value.consultingResult.Comparative? <==> user.Some?)
  }

  /** The real consulting call is shaped by the user video when the model honours the schema it is sent. */
  lemma {:induction false} WiredConsultingIsShaped(api: Api, parseUrl: UrlParser, svc: Service)
    requires HonoursSchema(svc.ai)
    ensures ShapedByUser(Wire(api, parseUrl, svc))
  {
    var env := Wire(api, parseUrl, svc);
    forall bench, language, user | env.consult(bench, language, user).Ok?
      ensures env.consult(bench, language, user).value.consultingResult.Comparative? <==> user.Some?
    {
      ConsultingResultShape(svc, bench, language, user);
    }
  }

  /** With such a consulting call, a successful improve run shows the comparison and a successful new
      run the proposal. */
  lemma {:induction false} DisplayFollowsWorkflow(workflow: Workflow, benchmarkInput: string, userInput: string, language: string, env: Env)
    requires ShapedByUser(env)
    ensures var run := RunAnalyze(workflow, benchmarkInput, userInput, language, env);
            run.analysis.Some? ==> RenderMode(run.analysis) == if workflow == Improve then ComparativeView else ProposalView
  {
    ConsultingRequestCarriesUserVideo(workflow, benchmarkInput, userInput, language, env);
  }

  class OneMillionConsultant {
    var workflow: Workflow
    var benchmarkInput: string
    var userInput: string
    var isLoading: bool
    /** The error as a translation key; the view translates it. */
    var error: Option<string>
    var loadingStep: string
    var analysis: Option<OneMillionAnalysis>
    var benchmarkVideo: Option<VideoDetails>
    var userVideo: Option<VideoDetails>
    /** The requests made so far, in order. */
    ghost var trace: seq<Event>

    /** The component as the form leaves it: the chosen workflow and the two inputs, nothing loaded. */
    constructor (workflow: Workflow, benchmarkInput: string, userInput: string)
      ensures this.workflow == workflow && this.benchmarkInput == benchmarkInput && this.userInput == userInput
      ensures !isLoading && error.None? && loadingStep == ""
      ensures analysis.None? && benchmarkVideo.None? && userVideo.None? && trace == []
    {
      this.workflow := workflow;
      this.benchmarkInput := benchmarkInput;
      this.userInput := userInput;
      isLoading := false;
      error := None;
      loadingStep := "";
      analysis := None;
      benchmarkVideo := None;
      userVideo := None;
      trace := [];
    }

    /** `handleAnalyze`. A failed check only sets its error key: no state is reset, nothing is fetched
        and no quota is spent. Otherwise the state is reset and the run's outcome becomes the new state. */
    method HandleAnalyze(settings: SettingsProvider, lang: LanguageProvider, env: Env)
      requires settings.Valid()
      modifies this, settings
      ensures settings.Valid()
      ensures workflow == old(workflow) && benchmarkInput == old(benchmarkInput) && userInput == old(userInput)
      ensures var v := Validate(settings.apiKey, workflow, benchmarkInput, userInput);
              v.Some? ==>
                && error == v
                && isLoading == old(isLoading) && loadingStep == old(loadingStep)
                && analysis == old(analysis) && benchmarkVideo == old(benchmarkVideo) && userVideo == old(userVideo)
                && settings.quota == old(settings.quota) && trace == old(trace)
      ensures var v := Validate(settings.apiKey, workflow, benchmarkInput, userInput);
              var run := RunAnalyze(workflow, benchmarkInput, userInput, lang.language, env);
              v.None? ==>
                && error == ErrorKey(run.failure)
                && analysis == run.analysis && benchmarkVideo == run.benchmarkVideo && userVideo == run.userVideo
                && settings.quota == old(settings.quota) + run.charged
                && trace == old(trace) + run.events
                && !isLoading && loadingStep == ""
    {
      var v := Validate(settings.apiKey, workflow, benchmarkInput, userInput);
      if v.Some? {
        error := v;
        return;
      }
      Analyze(settings, lang, env);
    }

    /** A run of `handleAnalyze` that passed validation: reset, run, report. */
    method Analyze(settings: SettingsProvider, lang: LanguageProvider, env: Env)
      requires settings.Valid()
      modifies this, settings
      ensures settings.Valid()
      ensures workflow == old(workflow) && benchmarkInput == old(benchmarkInput) && userInput == old(userInput)
      ensures var run := RunAnalyze(workflow, benchmarkInput, userInput, lang.language, env);
              && error == ErrorKey(run.failure)
              && analysis == run.analysis && benchmarkVideo == run.benchmarkVideo && userVideo == run.userVideo
              && settings.quota == old(settings.quota) + run.charged
              && trace == old(trace) + run.events
              && !isLoading && loadingStep == ""
    {
      isLoading := true;
      error := None;
      analysis := None;
      benchmarkVideo := None;
      userVideo := None;
      loadingStep := "";

      var failure: Option<string>;
      if workflow == New {
        failure := ResolveAndConsult(settings, lang, env, None);
      } else {
        failure := ImproveRun(settings, lang, env);
      }
      error := ErrorKey(failure);
      isLoading := false;
      loadingStep := "";
    }

    /** The improve-mode run: the user video first, then the benchmark stage when it succeeded. */
    method ImproveRun(settings: SettingsProvider, lang: LanguageProvider, env: Env) returns (failure: Option<string>)
      requires settings.Valid() && workflow == Improve
      requires benchmarkVideo.None? && analysis.None? && userVideo.None?
      modifies this, settings
      ensures settings.Valid()
      ensures workflow == old(workflow) && benchmarkInput == old(benchmarkInput) && userInput == old(userInput)
      ensures isLoading == old(isLoading) && error == old(error)
      ensures var run := RunAnalyze(workflow, benchmarkInput, userInput, lang.language, env);
              && failure == run.failure
              && analysis == run.analysis && benchmarkVideo == run.benchmarkVideo && userVideo == run.userVideo
              && settings.quota == old(settings.quota) + run.charged
              && trace == old(trace) + run.events
    {
      ghost var first := UserStage(userInput, env);
      var userDetails;
      failure, userDetails := FetchUserVideo(settings, env);
      if failure.None? {
        ghost var second := BenchmarkStage(benchmarkInput, lang.language, env, userDetails);
        failure := ResolveAndConsult(settings, lang, env, userDetails);
        assert RunAnalyze(workflow, benchmarkInput, userInput, lang.language, env)
               == second.(charged := first.charged + second.charged, events := first.events + second.events);
      }
    }

    /** The user-video half of `handleAnalyze`. */
    method FetchUserVideo(settings: SettingsProvider, env: Env) returns (failure: Option<string>, user: Option<VideoDetails>)
      requires settings.Valid()
      modifies this, settings
      ensures settings.Valid()
      ensures workflow == old(workflow) && benchmarkInput == old(benchmarkInput) && userInput == old(userInput)
      ensures isLoading == old(isLoading) && error == old(error)
      ensures benchmarkVideo == old(benchmarkVideo) && analysis == old(analysis)
      ensures var stage := UserStage(userInput, env);
              && failure == stage.failure && user == stage.userVideo
              && userVideo == (if user.Some? then user else old(userVideo))
              && settings.quota == old(settings.quota) + stage.charged
              && trace == old(trace) + stage.events
    {
      failure, user := None, None;
      loadingStep := FetchingUserStep;
      var userId := env.videoId(userInput);
      if !Truthy(userId) {
        trace := trace + [ShowStep(FetchingUserStep)];
        failure := Some(InvalidUrlMessage);
        return;
      }
      var fetched := env.fetchVideo(userId.value);
      if fetched.Err? {
        trace := trace + [ShowStep(FetchingUserStep), FetchVideo(userId.value)];
        failure := Some(fetched.error);
        return;
      }
      user := Some(fetched.value);
      userVideo := user;
      settings.IncrementQuotaUsage();
      trace := trace + [ShowStep(FetchingUserStep), FetchVideo(userId.value), ChargeQuota];
    }

    /** The benchmark half of `handleAnalyze`: resolve the benchmark, charge for it, then ask for the
        consultation; the failure message, if any, is returned. */
    method ResolveAndConsult(settings: SettingsProvider, lang: LanguageProvider, env: Env, user: Option<VideoDetails>)
      returns (failure: Option<string>)
      requires settings.Valid() && benchmarkVideo.None? && analysis.None?
      modifies this, settings
      ensures settings.Valid()
      ensures workflow == old(workflow) && benchmarkInput == old(benchmarkInput) && userInput == old(userInput)
      ensures isLoading == old(isLoading) && error == old(error) && userVideo == old(userVideo)
      ensures var stage := BenchmarkStage(benchmarkInput, lang.language, env, user);
              && failure == stage.failure && benchmarkVideo == stage.benchmarkVideo && analysis == stage.analysis
              && settings.quota == old(settings.quota) + stage.charged
              && trace == old(trace) + stage.events
    {
      failure := None;
      var input, language := benchmarkInput, lang.language;
      loadingStep := FetchingBenchmarkStep;
      var benchId := env.videoId(input);
      var lookup := if Truthy(benchId) then FetchVideo(benchId.value) else SearchBenchmark(input);
      var resolved := if Truthy(benchId) then env.fetchVideo(benchId.value) else env.findBenchmark(input);
      if resolved.Err? {
        trace := trace + [ShowStep(FetchingBenchmarkStep), lookup];
        failure := Some(resolved.error);
        return;
      }
      var bench := resolved.value;
      settings.IncrementQuotaUsage();
      benchmarkVideo := Some(bench);
      loadingStep := GeneratingStep;
      trace := trace + [ShowStep(FetchingBenchmarkStep), lookup, ChargeQuota, ShowStep(GeneratingStep), RequestConsulting(bench, user)];
      var result := env.consult(bench, language, user);
      if result.Err? {
        failure := Some(result.error);
      } else {
        analysis := Some(result.value);
      }
    }
  }

  // ---------------------------------------------------------------------------------------------
  // Thumbnail generator

  function DataUrl(base64: string): string {
    "data:image/jpeg;base64," + base64
  }

  /** The image call for one prompt: the base64 image, or the error thrown. */
  type ImageGenerator = string -> Result<string>

  /** The thumbnail image call of the AI service. */
  function ThumbnailImages(ai: AiModel): (gen: ImageGenerator)
    ensures forall prompt :: gen(prompt) == GenerateThumbnailImage(ai, prompt)
  {
    prompt => GenerateThumbnailImage(ai, prompt)
  }

  class ThumbnailGenerator {
    const concept: string
    var isLoading: bool
    /** The error as a translation key. */
    var error: Option<string>
    var imageUrl: Option<string>

    constructor (concept: string)
      ensures this.concept == concept && !isLoading && error.None? && imageUrl.None?
    {
      this.concept := concept;
      isLoading := false;
      error := None;
      imageUrl := None;
    }

    /** Shows the generated image as a data URL, or the failure key, keeping any earlier image. */
    method HandleGenerate(gen: ImageGenerator)
      modifies this
      ensures !isLoading
      ensures var r := gen(concept);
              && (r.Ok? ==> imageUrl == Some(DataUrl(r.value)) && error.None?)
              && (r.Err? ==> imageUrl == old(imageUrl)
                             && error == Some(ThumbnailFailedKey))
    {
      isLoading := true;
      error := None;
      var r := gen(concept);
      if r.Ok? {
        imageUrl := Some(DataUrl(r.value));
      } else {
        error := Some(ThumbnailFailedKey);
      }
      isLoading := false;
    }
  }

  // ---------------------------------------------------------------------------------------------
  // Storyboard

  /** The scene-prompt call the storyboard makes for a title and an outline. */
  type ScenePrompter = (string, ScriptOutline) -> Result<seq<StoryboardScene>>

  /** The storyboard-prompt call of the AI service in a language. */
  function StoryboardPrompts(svc: Service, language: string): (prompter: ScenePrompter)
    ensures forall title, outline :: prompter(title, outline) == GenerateStoryboardPrompts(svc, title, outline, language)
  {
    (title, outline) => GenerateStoryboardPrompts(svc, title, outline, language)
  }

  /** The index of the first scene, from `from` on, whose image request fails; `|scenes|` when none does. */
  function FirstFailure(gen: ImageGenerator, scenes: seq<StoryboardScene>, from: nat): (r: nat)
    requires from <= |scenes|
    ensures from <= r <= |scenes|
    ensures forall j :: from <= j < r ==> gen(scenes[j].prompt).Ok?
    ensures r < |scenes| ==> gen(scenes[r].prompt).Err?
    decreases |scenes| - from
  {
    if from == |scenes| then from
    else if gen(scenes[from].prompt).Err? then from
    else FirstFailure(gen, scenes, from + 1)
  }

  /** The first failure is the scene where the run of successful requests ends. */
  lemma {:induction false} FirstFailureAt(gen: ImageGenerator, scenes: seq<StoryboardScene>, k: nat)
    requires k <= |scenes|
    requires forall j :: 0 <= j < k ==> gen(scenes[j].prompt).Ok?
    requires k < |scenes| ==> gen(scenes[k].prompt).Err?
    ensures FirstFailure(gen, scenes, 0) == k
  {
  }

  /** Scene `i` of the storyboard once the images before `upTo` are in: its image when `i < upTo`, else empty. */
  function SceneAt(gen: ImageGenerator, scenes: seq<StoryboardScene>, upTo: nat, i: nat): (g: GeneratedScene)
    requires i < |scenes|
    ensures g.scene == scenes[i].scene && g.prompt == scenes[i].prompt
    ensures i >= upTo ==> g.imageUrl == ""
  {
    var img := gen(scenes[i].prompt);
    GeneratedScene(scenes[i].scene, scenes[i].prompt, if i < upTo && img.Ok? then DataUrl(img.value) else "")
  }

  /** The storyboard with the images of the scenes before `upTo` filled in and the others still empty. */
  function Filled(gen: ImageGenerator, scenes: seq<StoryboardScene>, upTo: nat): (b: seq<GeneratedScene>)
    ensures |b| == |scenes|
    ensures forall i :: 0 <= i < |scenes| ==> b[i] == SceneAt(gen, scenes, upTo, i)
  {
    seq(|scenes|, i requires 0 <= i < |scenes| => SceneAt(gen, scenes, upTo, i))
  }

  /** A storyboard of placeholders only is the one with nothing filled in. */
  lemma {:induction false} NothingFilled(gen: ImageGenerator, scenes: seq<StoryboardScene>, b: seq<GeneratedScene>)
    requires |b| == |scenes|
    requires forall j :: 0 <= j < |b| ==> b[j] == GeneratedScene(scenes[j].scene, scenes[j].prompt, "")
    ensures b == Filled(gen, scenes, 0)
  {
    var f := Filled(gen, scenes, 0);
    forall j | 0 <= j < |b| ensures b[j] == f[j] {
      assert f[j] == SceneAt(gen, scenes, 0, j);
    }
  }

  /** Putting in the image of scene `i`, whose request succeeded, extends the filled prefix by one. */
  lemma {:induction false} FillNext(gen: ImageGenerator, scenes: seq<StoryboardScene>, i: nat)
    requires i < |scenes| && gen(scenes[i].prompt).Ok?
    ensures Filled(gen, scenes, i)[i := GeneratedScene(scenes[i].scene, scenes[i].prompt, DataUrl(gen(scenes[i].prompt).value))]
            == Filled(gen, scenes, i + 1)
  {
    var before := Filled(gen, scenes, i);
    var after := Filled(gen, scenes, i + 1);
    var b := before[i := GeneratedScene(scenes[i].scene, scenes[i].prompt, DataUrl(gen(scenes[i].prompt).value))];
    forall j | 0 <= j < |scenes| ensures b[j] == after[j] {
      assert after[j] == SceneAt(gen, scenes, i + 1, j);
      if j != i {
        assert before[j] == SceneAt(gen, scenes, i, j);
      }
    }
  }

  /** A failure at scene k keeps every image before k and leaves scene k and all later scenes empty;
      a storyboard without failure has every image. */
  lemma {:induction false} StoryboardKeepsPartialResults(gen: ImageGenerator, scenes: seq<StoryboardScene>)
    ensures var f := FirstFailure(gen, scenes, 0);
            var b := Filled(gen, scenes, f);
            && (forall i :: 0 <= i < f ==> gen(scenes[i].prompt).Ok? && b[i].imageUrl == DataUrl(gen(scenes[i].prompt).value))
            && (forall i :: f <= i < |scenes| ==> b[i].imageUrl == "")
            && (forall i :: 0 <= i < |scenes| ==> b[i].scene == scenes[i].scene && b[i].prompt == scenes[i].prompt)
  {
    var f := FirstFailure(gen, scenes, 0);
    var b := Filled(gen, scenes, f);
    forall i | 0 <= i < f
      ensures gen(scenes[i].prompt).Ok? && b[i].imageUrl == DataUrl(gen(scenes[i].prompt).value)
    {
      assert b[i] == SceneAt(gen, scenes, f, i);
    }
  }

  class StoryboardVisualizer {
    const videoTitle: string
    const outline: ScriptOutline
    var isLoading: bool
    var storyboard: array<GeneratedScene>
    var progressCurrent: nat
    var progressTotal: nat
    /** The error as a translation key. */
    var error: Option<string>

    constructor (videoTitle: string, outline: ScriptOutline)
      ensures this.videoTitle == videoTitle && this.outline == outline
      ensures !isLoading && storyboard.Length == 0 && progressCurrent == 0 && progressTotal == 0
      ensures error.None?
    {
      this.videoTitle := videoTitle;
      this.outline := outline;
      isLoading := false;
      storyboard := new GeneratedScene[0];
      progressCurrent := 0;
      progressTotal := 0;
      error := None;
    }

    /** The state once the images of `scenes` have been requested in order, up to and including the
        first one that fails: the images before the failure are in, the progress counts the requests
        made (so no request follows a failure), and a failure leaves the unknown-error key. */
    ghost predicate ImagesDone(gen: ImageGenerator, scenes: seq<StoryboardScene>)
      reads this, storyboard
    {
      var f := FirstFailure(gen, scenes, 0);
      var asked := if f < |scenes| then f + 1 else f;
      && storyboard[..] == Filled(gen, scenes, f)
      && progressTotal == |scenes| && progressCurrent == asked
      && error == (if f < |scenes| then Some(UnknownKey) else None)
    }

    /** `handleGenerate`: asks for the scene prompts, then requests one image per scene in order,
        stopping at the first failure. */
    method HandleGenerate(scenePrompts: ScenePrompter, gen: ImageGenerator)
      modifies this
      ensures !isLoading && fresh(storyboard)
      ensures var scenes := scenePrompts(videoTitle, outline);
              (scenes.Err? || |scenes.value| == 0) ==>
                && storyboard.Length == 0 && progressCurrent == 0 && progressTotal == 0
                && error == Some(UnknownKey)
      ensures var scenes := scenePrompts(videoTitle, outline);
              scenes.Ok? && |scenes.value| > 0 ==> ImagesDone(gen, scenes.value)
    {
      isLoading := true;
      error := None;
      storyboard := new GeneratedScene[0];
      progressCurrent, progressTotal := 0, 0;
      var scenes := scenePrompts(videoTitle, outline);
      if scenes.Err? || |scenes.value| == 0 {
        error := Some(UnknownKey);
      } else {
        GenerateImages(gen, scenes.value);
      }
      isLoading := false;
    }

    /** The loop of `handleGenerate`: placeholders for every scene, then one image request per scene. */
    method GenerateImages(gen: ImageGenerator, scenes: seq<StoryboardScene>)
      requires |scenes| > 0 && error.None?
      modifies this
      ensures fresh(storyboard) && isLoading == old(isLoading)
      ensures ImagesDone(gen, scenes)
    {
      var n := |scenes|;
      progressTotal := n;
      var board := new GeneratedScene[n](i requires 0 <= i < n => GeneratedScene(scenes[i].scene, scenes[i].prompt, ""));
      storyboard := board;
      progressCurrent := 0;
      NothingFilled(gen, scenes, board[..]);
      var i := 0;
      while i < n
        invariant 0 <= i <= n
        invariant storyboard == board && fresh(board) && board.Length == n
        invariant board[..] == Filled(gen, scenes, i)
        invariant forall j :: 0 <= j < i ==> gen(scenes[j].prompt).Ok?
        invariant progressTotal == n && progressCurrent == i
        invariant error.None? && isLoading == old(isLoading)
      {
        progressCurrent := i + 1;
        var img := gen(scenes[i].prompt);
        if img.Err? {
          error := Some(UnknownKey);
          FirstFailureAt(gen, scenes, i);
          return;
        }
        FillNext(gen, scenes, i);
        board[i] := GeneratedScene(scenes[i].scene, scenes[i].prompt, DataUrl(img.value));
        i := i + 1;
      }
      FirstFailureAt(gen, scenes, i);
    }
  }
}
