/** The records the application passes between its services and components. */
module Types {

  /** An idea produced by the keyword brainstormer. */
  datatype VideoIdea = VideoIdea(title: string, description: string, tags: seq<string>)

  datatype IdeaSummary = IdeaSummary(title: string, description: string)

  /** The SWOT-style analysis of a channel. */
  datatype ChannelAnalysis = ChannelAnalysis(
    strengths: seq<string>,
    weaknesses: seq<string>,
    opportunities: seq<string>,
    videoIdeas: seq<IdeaSummary>)

  datatype Role = UserRole | ModelRole

  datatype Part = Part(text: string)

  /** One chat turn; the application always writes exactly one part. */
  datatype ChatMessage = ChatMessage(role: Role, parts: seq<Part>)

  /** Counts are kept as the decimal strings the video platform returns. */
  datatype ChannelStats = ChannelStats(viewCount: string, subscriberCount: string, videoCount: string)

  datatype VideoInfo = VideoInfo(id: string, title: string)

  datatype Channel = Channel(
    id: string,
    title: string,
    description: string,
    thumbnailUrl: string,
    stats: ChannelStats,
    videos: seq<VideoInfo>)

  datatype VideoStats = VideoStats(viewCount: string, likeCount: string, commentCount: string)

  datatype VideoDetails = VideoDetails(
    id: string,
    title: string,
    description: string,
    tags: seq<string>,
    thumbnailUrl: string,
    channelTitle: string,
    stats: VideoStats)

  datatype ScriptOutline = ScriptOutline(
    hook: string,
    introduction: string,
    mainPoints: seq<string>,
    callToAction: string,
    outro: string)

  /** The blueprint for a new video. */
  datatype VideoProposal = VideoProposal(
    titles: seq<string>,
    description: string,
    tags: seq<string>,
    script: ScriptOutline,
    thumbnailConcepts: seq<string>)

  datatype UserVideoVerdict = UserVideoVerdict(strength: string, weakness: string)

  datatype BenchmarkVerdict = BenchmarkVerdict(strength: string, tacticToAdopt: string)

  datatype ImprovementAreas = ImprovementAreas(title: string, thumbnail: string, content: string)

  /** The comparison of the user's video with the benchmark. */
  datatype ComparativeAnalysis = ComparativeAnalysis(
    userVideo: UserVideoVerdict,
    benchmarkVideo: BenchmarkVerdict,
    improvementAreas: ImprovementAreas)

  datatype BenchmarkVideoAnalysis = BenchmarkVideoAnalysis(
    titleHook: string,
    contentStrategy: string,
    targetAudience: string,
    monetizationPotential: string)

  /** `VideoProposal | ComparativeAnalysis`, with the alternative carried as an explicit tag. */
  datatype ConsultingResult = Proposal(proposal: VideoProposal) | Comparative(comparison: ComparativeAnalysis)

  datatype OneMillionAnalysis = OneMillionAnalysis(
    benchmarkVideoAnalysis: BenchmarkVideoAnalysis,
    consultingResult: ConsultingResult)

  datatype StoryboardScene = StoryboardScene(scene: string, prompt: string)

  datatype GeneratedScene = GeneratedScene(scene: string, prompt: string, imageUrl: string)
}
