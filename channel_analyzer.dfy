/** The channel analyzer: validate the identifier, fetch the channel, charge for it, then ask for the
    analysis; a failure is reported as an error key chosen from the thrown message. */
module ChannelAnalyzerComponent {
  import opened Wrappers
  import opened Strings
  import opened Types
  import opened YouTubeData
  import opened Gemini
  import opened Settings
  import opened Language

  /** The service calls the component makes: the channel lookup and the channel analysis. */
  datatype ChannelEnv = ChannelEnv(
    fetchChannel: string -> Result<Channel>,
    analyze: (Channel, string) -> Result<ChannelAnalysis>)

  /** The component wired to the real data client and AI service. */
  function WireChannel(api: Api, svc: Service): (env: ChannelEnv)
    ensures forall id :: env.fetchChannel(id) == FetchChannelData(id, api)
    ensures forall c, language :: env.analyze(c, language) == GenerateChannelAnalysis(svc, c, language)
  {
    ChannelEnv(id => FetchChannelData(id, api), (c, language) => GenerateChannelAnalysis(svc, c, language))
  }

  /** What a run asks of the outside world, in order. */
  datatype Event =
    | ShowStep(key: string)
    | FetchChannel(identifier: string)
    | ChargeQuota
    | RequestAnalysis(channel: Channel)

  const ApiKeyNotSetKey := "error.youtubeApiKeyNotSet"
  const EnterChannelKey := "error.enterChannel"
  const ChannelNotFoundKey := "error.channelNotFound"
  const FetchFailedKey := "error.fetchFailed"
  const UnknownKey := "error.unknown"

  const FetchingStep := "channelAnalyzer.loading.fetching"
  const GeneratingStep := "channelAnalyzer.loading.generating"

  /** The first failed check, as an error key; None when the run may start. */
  function Validate(apiKey: string, channelId: string): (r: Option<string>)
    ensures r.None? <==> apiKey != "" && !IsBlank(channelId)
    ensures apiKey == "" ==> r == Some(ApiKeyNotSetKey)
    ensures apiKey != "" && IsBlank(channelId) ==> r == Some(EnterChannelKey)
  {
    if apiKey == "" then Some(ApiKeyNotSetKey)
    else if IsBlank(channelId) then Some(EnterChannelKey)
    else None
  }

  /** The error key for a thrown message. */
  function ClassifyChannelError(message: string): string {
    var lower := ToLower(message);
    if Contains(lower, "not found") then ChannelNotFoundKey
    else if Contains(lower, "failed to fetch") then FetchFailedKey
    else UnknownKey
  }

  /** Classification is first-match and case-insensitive. */
  lemma {:induction false} ClassifyChannelFirstMatch(message: string)
    ensures var lower := ToLower(message);
            && (ClassifyChannelError(message) == ChannelNotFoundKey <==> Contains(lower, "not found"))
            && (ClassifyChannelError(message) == FetchFailedKey <==>
                  !Contains(lower, "not found") && Contains(lower, "failed to fetch"))
            && (ClassifyChannelError(message) == UnknownKey <==>
                  !Contains(lower, "not found") && !Contains(lower, "failed to fetch"))
  {
  }

  /** The outcome of a run that passed validation. */
  datatype ChannelRun = ChannelRun(
    failure: Option<string>,
    channelData: Option<Channel>,
    analysis: Option<ChannelAnalysis>,
    charged: nat,
    events: seq<Event>)

  /** Fetch the channel, charge for it, then ask for the analysis in the given language. */
  function RunChannel(channelId: string, language: string, env: ChannelEnv): ChannelRun {
    match env.fetchChannel(channelId)
    case Err(m) => ChannelRun(Some(m), None, None, 0, [ShowStep(FetchingStep), FetchChannel(channelId)])
    case Ok(c) =>
      var events := [ShowStep(FetchingStep), FetchChannel(channelId), ChargeQuota, ShowStep(GeneratingStep), RequestAnalysis(c)];
      match env.analyze(c, language)
      case Err(m) => ChannelRun(Some(m), Some(c), None, 1, events)
      case Ok(a) => ChannelRun(None, Some(c), Some(a), 1, events)
  }

  /** The error key a run leaves: None after a success. */
  function ErrorKey(failure: Option<string>): Option<string> {
    if failure.Some? then Some(ClassifyChannelError(failure.value)) else None
  }

  /** Quota is charged exactly when the channel was fetched, once, right after the fetch and before the
      analysis is requested; the analysis is asked for the fetched channel. */
  lemma {:induction false} QuotaAfterFetch(channelId: string, language: string, env: ChannelEnv)
    ensures var run := RunChannel(channelId, language, env);
            && (run.charged == 1 <==> env.fetchChannel(channelId).Ok?)
            && (run.charged == 0 <==> env.fetchChannel(channelId).Err?)
            && run.events[1] == FetchChannel(channelId)
            && (run.charged == 1 ==>
                  && |run.events| == 5 && run.events[2] == ChargeQuota
                  && run.events[4] == RequestAnalysis(env.fetchChannel(channelId).value))
            && (run.charged == 0 ==> |run.events| == 2)
  {
  }

  /** The fetched channel stays on show when the analysis fails, next to the failure. */
  lemma {:induction false} ChannelKeptOnAnalysisFailure(channelId: string, language: string, env: ChannelEnv)
    requires env.fetchChannel(channelId).Ok?
    requires env.analyze(env.fetchChannel(channelId).value, language).Err?
    ensures var run := RunChannel(channelId, language, env);
            && run.channelData == Some(env.fetchChannel(channelId).value)
            && run.analysis.None?
            && run.failure == Some(env.analyze(env.fetchChannel(channelId).value, language).error)
  {
  }

  /** A run leaves an analysis exactly when it leaves no error, and an analysis only next to its channel. */
  lemma {:induction false} AnalysisOrError(channelId: string, language: string, env: ChannelEnv)
    ensures var run := RunChannel(channelId, language, env);
            && (run.analysis.Some? <==> ErrorKey(run.failure).None?)
            && (run.analysis.Some? ==> run.channelData.Some?)
  {
  }

  class ChannelAnalyzer {
    var channelId: string
    var channelData: Option<Channel>
    var analysis: Option<ChannelAnalysis>
    var isLoading: bool
    /** The error as a translation key; the view translates it. */
    var error: Option<string>
    var loadingStep: string
    /** The requests made so far, in order. */
    ghost var trace: seq<Event>

    constructor (channelId: string)
      ensures this.channelId == channelId && channelData.None? && analysis.None?
      ensures !isLoading && error.None? && loadingStep == "" && trace == []
    {
      this.channelId := channelId;
      channelData := None;
      analysis := None;
      isLoading := false;
      error := None;
      loadingStep := "";
      trace := [];
    }

    /** `handleAnalyze`. A failed check only sets its error key; otherwise the state is cleared and
        the run's outcome becomes the new state. */
    method HandleAnalyze(settings: SettingsProvider, lang: LanguageProvider, env: ChannelEnv)
      requires settings.Valid()
      modifies this, settings
      ensures settings.Valid() && channelId == old(channelId)
      ensures var v := Validate(settings.apiKey, channelId);
              v.Some? ==>
                && error == v
                && channelData == old(channelData) && analysis == old(analysis)
                && isLoading == old(isLoading) && loadingStep == old(loadingStep)
                && settings.quota == old(settings.quota) && trace == old(trace)
      ensures var v := Validate(settings.apiKey, channelId);
              var run := RunChannel(channelId, lang.language, env);
              v.None? ==>
                && error == ErrorKey(run.failure)
                && channelData == run.channelData && analysis == run.analysis
                && settings.quota == old(settings.quota) + run.charged
                && trace == old(trace) + run.events
                && !isLoading && loadingStep == ""
    {
      var v := Validate(settings.apiKey, channelId);
      if v.Some? {
        error := v;
        return;
      }
      isLoading := true;
      error := None;
      analysis := None;
      channelData := None;
      var failure: Option<string> := None;
      loadingStep := FetchingStep;
      var fetched := env.fetchChannel(channelId);
      if fetched.Err? {
        trace := trace + [ShowStep(FetchingStep), FetchChannel(channelId)];
        failure := Some(fetched.error);
      } else {
        var c := fetched.value;
        channelData := Some(c);
        settings.IncrementQuotaUsage();
        loadingStep := GeneratingStep;
        trace := trace + [ShowStep(FetchingStep), FetchChannel(channelId), ChargeQuota, ShowStep(GeneratingStep), RequestAnalysis(c)];
        var result := env.analyze(c, lang.language);
        if result.Err? {
          failure := Some(result.error);
        } else {
          analysis := Some(result.value);
        }
      }
      error := ErrorKey(failure);
      isLoading := false;
      loadingStep := "";
    }
  }
}
