/** The keyword analyzer: a non-blank keyword is sent to the idea generator, and its ideas or a fixed
    error key become the new state. */
module KeywordAnalyzerComponent {
  import opened Wrappers
  import opened Strings
  import opened Types
  import opened Gemini

  const EnterKeywordKey := "keywordAnalyzer.error.enterKeyword"
  const GenerateFailedKey := "keywordAnalyzer.error.generateFailed"

  /** The idea call: the ideas for a keyword, or the error thrown. */
  type IdeaGenerator = string -> Result<seq<VideoIdea>>

  /** The keyword-idea call of the AI service in a language. */
  function IdeasIn(svc: Service, language: string): (gen: IdeaGenerator)
    ensures forall keyword :: gen(keyword) == GenerateKeywordIdeas(svc, keyword, language)
  {
    keyword => GenerateKeywordIdeas(svc, keyword, language)
  }

  class KeywordAnalyzer {
    var keyword: string
    var ideas: seq<VideoIdea>
    var isLoading: bool
    /** The error as a translation key; the view translates it. */
    var error: Option<string>
    /** The keywords sent to the generator so far. */
    ghost var requests: seq<string>

    constructor (keyword: string)
      ensures this.keyword == keyword && ideas == [] && !isLoading && error.None? && requests == []
    {
      this.keyword := keyword;
      ideas := [];
      isLoading := false;
      error := None;
      requests := [];
    }

    /** `handleAnalyze`. A blank keyword sets its key and nothing else; otherwise the generator is
        asked once and its ideas, or the failure key with no ideas, become the state. */
    method HandleAnalyze(gen: IdeaGenerator)
      modifies this
      ensures keyword == old(keyword)
      ensures IsBlank(keyword) ==>
                && error == Some(EnterKeywordKey)
                && ideas == old(ideas) && isLoading == old(isLoading) && requests == old(requests)
      ensures !IsBlank(keyword) ==>
                && requests == old(requests) + [keyword]
                && !isLoading
                && (gen(keyword).Ok? ==> ideas == gen(keyword).value && error.None?)
                && (gen(keyword).Err? ==> ideas == [] && error == Some(GenerateFailedKey))
    {
      if IsBlank(keyword) {
        error := Some(EnterKeywordKey);
        return;
      }
      isLoading := true;
      error := None;
      ideas := [];
      requests := requests + [keyword];
      var result := gen(keyword);
      if result.Ok? {
        ideas := result.value;
      } else {
        error := Some(GenerateFailedKey);
      }
      isLoading := false;
    }
  }
}
