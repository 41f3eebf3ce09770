/** The settings provider: API keys read from the build environment, and the session's quota counter. */
module Settings {

  const YouTubeKeyVariable := "VITE_YOUTUBE_API_KEY"
  const GeminiKeyVariable := "VITE_GEMINI_API_KEY"

  /** `env.NAME || ""`: the variable's value, or the empty string when it is absent or empty. */
  function EnvValue(env: map<string, string>, name: string): (r: string)
    ensures name !in env ==> r == ""
    ensures name in env ==> r == env[name]
  {
    if name in env && env[name] != "" then env[name] else ""
  }

  class SettingsProvider {
    const youtubeApiKey: string
    const geminiApiKey: string
    /** The key the data client is called with; always the video-platform key. */
    const apiKey: string
    /** Units of the video-platform quota spent in this session; only `IncrementQuotaUsage` writes it. */
    var quota: nat

    ghost predicate Valid()
      reads this
    {
      apiKey == youtubeApiKey
    }

    constructor (env: map<string, string>)
      ensures Valid()
      ensures youtubeApiKey == EnvValue(env, YouTubeKeyVariable)
      ensures geminiApiKey == EnvValue(env, GeminiKeyVariable)
      ensures quota == 0
    {
      youtubeApiKey := EnvValue(env, YouTubeKeyVariable);
      geminiApiKey := EnvValue(env, GeminiKeyVariable);
      apiKey := EnvValue(env, YouTubeKeyVariable);
      quota := 0;
    }

    /** Adds exactly one unit to the quota. */
    method IncrementQuotaUsage()
      requires Valid()
      modifies this
      ensures Valid()
      ensures quota == old(quota) + 1
    {
      quota := quota + 1;
    }
  }
}
