/** The curriculum-generation endpoint around the language-model call:
    resource guidance, plan identifier, video enrichment and the saved row. */
module GenerateCurriculum {
  import opened Wrappers
  import opened Text
  import opened CurriculumData
  import opened LanguageModel

  // ---------------------------------------------------------------------
  // Resource guidance inserted into the prompt
  // ---------------------------------------------------------------------

  const VideoGuidance: string := "\nLEARNING PATH: Video-based learning"
  const ArticleGuidance: string := "\nLEARNING PATH: Article/Text-based learning"
  const PracticeGuidance: string := "\nLEARNING PATH: Practice-based learning"
  const MixedGuidance: string := "\nLEARNING PATH: Mixed/Balanced learning"

  /** The learning paths that select a guidance block. */
  predicate IsKnownPath(learningPath: Option<string>) {
    learningPath == Some("Video") || learningPath == Some("Article")
    || learningPath == Some("Question & Practice") || learningPath == Some("Mixed")
  }

  /** The guidance block for a learning path; empty for any other value. */
  function ResourceGuidance(learningPath: Option<string>): (g: string)
    ensures g != "" <==> IsKnownPath(learningPath)
    ensures learningPath == Some("Video") ==> g == VideoGuidance
    ensures learningPath == Some("Mixed") ==> g == MixedGuidance
  {
    if learningPath == Some("Video") then VideoGuidance
    else if learningPath == Some("Article") then ArticleGuidance
    else if learningPath == Some("Question & Practice") then PracticeGuidance
    else if learningPath == Some("Mixed") then MixedGuidance
    else ""
  }

  /** Different known paths select different blocks. */
  lemma GuidanceDistinct(p: Option<string>, q: Option<string>)
    requires IsKnownPath(p) && IsKnownPath(q) && p != q
    ensures ResourceGuidance(p) != ResourceGuidance(q)
  {
  }

  const DefaultGoal: string := "General mastery"

  /** The values interpolated into the generation prompt (its wording is not modelled). */
  datatype PromptParams = PromptParams(
    durationWeeks: nat,
    subjectsLine: string,
    goal: string,
    hardestSubject: Option<string>,
    guidance: string)

  // ---------------------------------------------------------------------
  // Video search adapter
  // ---------------------------------------------------------------------

  const WatchUrlPrefix: string := "https://www.youtube.com/watch?v="

  /** One search hit: `id.videoId` and `snippet.title`. */
  datatype SearchItem = SearchItem(videoId: string, title: string)

  /** The search call's outcome: it threw, it answered with a non-success
      status, or it succeeded with a body whose `items` may be missing. */
  datatype SearchResponse = SearchThrew | SearchHttpError(status: int) | SearchHttpOk(items: Option<seq<SearchItem>>)

  /** Each hit becomes a free resource pointing at its watch page, in order. */
  function VideoResources(items: seq<SearchItem>): (videos: seq<Resource>)
    ensures |videos| == |items|
    ensures forall i :: 0 <= i < |items| ==>
      videos[i] == Resource(items[i].title, WatchUrlPrefix + items[i].videoId, "free")
  {
    if items == [] then []
    else [Resource(items[0].title, WatchUrlPrefix + items[0].videoId, "free")] + VideoResources(items[1..])
  }

  /** The adapter never fails: a missing key, a thrown call, a non-success
      status or a body without items all give no videos. */
  function FetchVideos(youtubeKeyConfigured: bool, response: SearchResponse): (videos: seq<Resource>)
    ensures !youtubeKeyConfigured || !response.SearchHttpOk? || response.items.None? ==> videos == []
    ensures youtubeKeyConfigured && response.SearchHttpOk? && response.items.Some? ==>
      videos == VideoResources(response.items.value)
    ensures forall v :: v in videos ==> v.kind == "free" && WatchUrlPrefix <= v.url
  {
    if !youtubeKeyConfigured then []
    else match response
      case SearchHttpOk(Some(items)) => VideoResources(items)
      case _ => []
  }

  /** The search response for the module at `index`; a missing one counts as a failed call. */
  function ResponseAt(responses: seq<SearchResponse>, index: nat): SearchResponse {
    if index < |responses| then responses[index] else SearchThrew
  }

  /** The search text for a module: the subjects, the module title, "tutorial". */
  function SearchQuery(subjects: seq<string>, moduleTitle: string): (q: string)
    ensures Join(subjects, " ") <= q
    ensures |q| == |Join(subjects, " ")| + |moduleTitle| + 10
    ensures q[|Join(subjects, " ")|] == ' '
    ensures q[|q| - |moduleTitle| - 9..] == moduleTitle + " tutorial"
  {
    var q := Join(subjects, " ") + " " + moduleTitle + " tutorial";
    assert q[|q| - |moduleTitle| - 9..] == moduleTitle + " tutorial";
    q
  }

  // ---------------------------------------------------------------------
  // Resource mixing
  // ---------------------------------------------------------------------

  /** The learning paths that are enriched with videos. */
  predicate IsEnrichedPath(learningPath: Option<string>) {
    learningPath == Some("Video") || learningPath == Some("Mixed")
  }

  /** A module's resources after enrichment with the fetched `videos`. */
  function MixResources(original: Option<seq<Resource>>, learningPath: Option<string>, videos: seq<Resource>)
    : (r: Option<seq<Resource>>)
    ensures videos == [] || !IsEnrichedPath(learningPath) ==> r == original
    ensures videos != [] && learningPath == Some("Video") ==> r == Some(videos)
    ensures videos != [] && learningPath == Some("Mixed") ==>
      r.Some? && videos <= r.value && |r.value| <= |videos| + 2
      && r.value[|videos|..] <= original.GetOr([])
      && |r.value| == |videos| + (if |original.GetOr([])| < 2 then |original.GetOr([])| else 2)
  {
    if videos == [] then original
    else if learningPath == Some("Video") then Some(videos)
    else if learningPath == Some("Mixed") then Some(videos + Take(original.GetOr([]), 2))
    else original
  }

  /** Enrichment touches a module's resources and nothing else. */
  function MixModule(m: Module, learningPath: Option<string>, videos: seq<Resource>): (r: Module)
    ensures r.(resources := m.resources) == m
    ensures r.resources == MixResources(m.resources, learningPath, videos)
  {
    m.(resources := MixResources(m.resources, learningPath, videos))
  }

  // ---------------------------------------------------------------------
  // The curriculum object the handler updates
  // ---------------------------------------------------------------------

  /** The structure parsed from the model's text (fields this model keeps). */
  datatype ParsedCurriculum = ParsedCurriculum(planId: Option<string>, durationWeeks: int, modules: seq<Module>)

  const PlanIdPrefix: string := "plan-"

  /** A fresh identifier from the clock reading and a random suffix. */
  function GeneratedPlanId(now: nat, randomSuffix: string): (id: string)
    ensures PlanIdPrefix <= id
  {
    PlanIdPrefix + NatToString(now) + "-" + randomSuffix
  }

  /** The parsed curriculum while the handler fills it in. */
  class CurriculumDraft {
    var planId: Option<string>
    var durationWeeks: int
    var modules: seq<Module>
    var learningPath: Option<string>

    constructor (parsed: ParsedCurriculum)
      ensures planId == parsed.planId && durationWeeks == parsed.durationWeeks
      ensures modules == parsed.modules && learningPath == None
    {
      planId := parsed.planId;
      durationWeeks := parsed.durationWeeks;
      modules := parsed.modules;
      learningPath := None;
    }

    /** Keeps a present identifier and generates one otherwise. */
    method EnsurePlanId(now: nat, randomSuffix: string)
      modifies this`planId
      ensures IsTruthy(old(planId)) ==> planId == old(planId)
      ensures !IsTruthy(old(planId)) ==> planId == Some(GeneratedPlanId(now, randomSuffix))
      ensures IsTruthy(planId)
    {
      if !IsTruthy(planId) {
        planId := Some(GeneratedPlanId(now, randomSuffix));
      }
    }

    method SetLearningPath(path: Option<string>)
      modifies this`learningPath
      ensures learningPath == path
    {
      learningPath := path;
    }

    /** For the Video and Mixed paths, searches videos for every module in
        turn and mixes them into its resources; returns the search texts. */
    method EnrichWithVideos(
      subjects: seq<string>, path: Option<string>, youtubeKeyConfigured: bool, responses: seq<SearchResponse>)
      returns (queries: seq<string>)
      modifies this`modules
      ensures |modules| == |old(modules)|
      ensures forall i :: 0 <= i < |modules| ==>
        modules[i] == MixModule(old(modules)[i], path, FetchVideos(youtubeKeyConfigured, ResponseAt(responses, i)))
      ensures !IsEnrichedPath(path) ==> modules == old(modules) && queries == []
      ensures IsEnrichedPath(path) ==> (|queries| == |modules|
        && forall i :: 0 <= i < |queries| ==> queries[i] == SearchQuery(subjects, old(modules)[i].title))
    {
      queries := [];
      if !IsEnrichedPath(path) {
        return;
      }
      var i := 0;
      while i < |modules|
        invariant 0 <= i <= |modules| == |old(modules)|
        invariant forall k :: 0 <= k < i ==>
          modules[k] == MixModule(old(modules)[k], path, FetchVideos(youtubeKeyConfigured, ResponseAt(responses, k)))
        invariant forall k :: i <= k < |modules| ==> modules[k] == old(modules)[k]
        invariant |queries| == i
        invariant forall k :: 0 <= k < i ==> queries[k] == SearchQuery(subjects, old(modules)[k].title)
      {
        var m := modules[i];
        var query := SearchQuery(subjects, m.title);
        queries := queries + [query];
        var videos := FetchVideos(youtubeKeyConfigured, ResponseAt(responses, i));
        if |videos| > 0 {
          if path == Some("Video") {
            modules := modules[i := m.(resources := Some(videos))];
          } else if path == Some("Mixed") {
            var existing := Take(m.resources.GetOr([]), 2);
            modules := modules[i := m.(resources := Some(videos + existing))];
          }
        }
        i := i + 1;
      }
    }
  }

  // ---------------------------------------------------------------------
  // The request handler
  // ---------------------------------------------------------------------

  datatype CurriculumRequest = CurriculumRequest(
    subjects: seq<string>,
    durationWeeks: nat,
    goal: Option<string>,
    hardestSubject: Option<string>,
    learningPath: Option<string>,
    userId: Option<string>)

  /** What the deployment provides: a language-model key, a video-search key, storage credentials. */
  datatype GenEnv = GenEnv(apiKeyConfigured: bool, youtubeKeyConfigured: bool, storageConfigured: bool)

  datatype GenError = MissingApiKey | ModelCallFailed | UpstreamStatus(status: int) | InvalidResponseFormat | ParseFailure

  /** The curriculum returned to the caller. */
  datatype Curriculum = Curriculum(planId: string, durationWeeks: int, modules: seq<Module>, learningPath: Option<string>)

  /** The row inserted into the curriculum table. */
  datatype CurriculumRow = CurriculumRow(
    userId: string, planId: string, title: string, subjects: seq<string>,
    goal: string, durationWeeks: nat, modules: seq<Module>)

  /** What one request does: the prompt values (when the model is called),
      the search texts used, the response and the inserted row. */
  datatype GenOutcome = GenOutcome(
    prompt: Option<PromptParams>,
    searchQueries: seq<string>,
    response: Result<Curriculum, GenError>,
    saved: Option<CurriculumRow>)

  function PromptFor(req: CurriculumRequest): (p: PromptParams)
    ensures p.guidance == ResourceGuidance(req.learningPath)
    ensures IsTruthy(req.goal) ==> p.goal == req.goal.value
    ensures !IsTruthy(req.goal) ==> p.goal == DefaultGoal
  {
    PromptParams(req.durationWeeks, Join(req.subjects, ", "), OrElse(req.goal, DefaultGoal),
                 req.hardestSubject, ResourceGuidance(req.learningPath))
  }

  /** The title of the saved row: the subjects, then the number of weeks. */
  function SavedTitle(subjects: seq<string>, durationWeeks: nat): (title: string)
    ensures Join(subjects, ", ") + " - " <= title
    ensures |title| > |Join(subjects, ", ") + " - "| + 6
    ensures var digits := title[|Join(subjects, ", ") + " - "|..|title| - 6];
      title[|title| - 6..] == " weeks" && ParseDecimal(digits) == durationWeeks
    ensures var digits := title[|Join(subjects, ", ") + " - "|..|title| - 6];
      |digits| == 1 || digits[0] != '0'
  {
    var head := Join(subjects, ", ") + " - ";
    var digits := NatToString(durationWeeks);
    var title := head + digits + " weeks";
    assert title[|head|..|title| - 6] == digits;
    assert title[|title| - 6..] == " weeks";
    NatToStringRoundTrip(durationWeeks);
    NoLeadingZero(durationWeeks);
    title
  }

  /** The saved row, present only for a signed-in user and configured storage. */
  function SavedRow(req: CurriculumRequest, storageConfigured: bool, c: Curriculum): (row: Option<CurriculumRow>)
    ensures row.Some? <==> IsTruthy(req.userId) && storageConfigured
    ensures row.Some? ==> row.value == CurriculumRow(
      req.userId.value, c.planId, SavedTitle(req.subjects, req.durationWeeks), req.subjects,
      OrElse(req.goal, DefaultGoal), req.durationWeeks, c.modules)
  {
    if IsTruthy(req.userId) && storageConfigured then
      Some(CurriculumRow(req.userId.value, c.planId, SavedTitle(req.subjects, req.durationWeeks),
                         req.subjects, OrElse(req.goal, DefaultGoal), req.durationWeeks, c.modules))
    else None
  }

  /** One generation request. The model's answer, the parse of its text
      (None when it is not valid JSON), the clock, the random suffix and one
      search response per module are inputs. */
  method Generate(
    req: CurriculumRequest, env: GenEnv, answer: ModelAnswer, parsed: Option<ParsedCurriculum>,
    now: nat, randomSuffix: string, searches: seq<SearchResponse>)
    returns (out: GenOutcome)
    ensures !env.apiKeyConfigured ==> out == GenOutcome(None, [], Failure(MissingApiKey), None)
    ensures env.apiKeyConfigured ==> out.prompt == Some(PromptFor(req))
    ensures env.apiKeyConfigured && answer.ModelThrew? ==> out.response == Failure(ModelCallFailed)
    ensures env.apiKeyConfigured && answer.ModelHttpError? ==> out.response == Failure(UpstreamStatus(answer.status))
    ensures env.apiKeyConfigured && answer.ModelHttpOk? && !IsTruthy(answer.candidateText) ==>
      out.response == Failure(InvalidResponseFormat)
    ensures env.apiKeyConfigured && answer.ModelHttpOk? && IsTruthy(answer.candidateText) && parsed.None? ==>
      out.response == Failure(ParseFailure)
    ensures out.response.Success? <==>
      env.apiKeyConfigured && answer.ModelHttpOk? && IsTruthy(answer.candidateText) && parsed.Some?
    ensures out.response.Failure? ==> out.searchQueries == [] && out.saved == None
    ensures out.response.Success? ==>
      var c := out.response.value;
      var p := parsed.value;
      && (IsTruthy(p.planId) ==> c.planId == p.planId.value)
      && (!IsTruthy(p.planId) ==> c.planId == GeneratedPlanId(now, randomSuffix))
      && c.learningPath == req.learningPath
      && c.durationWeeks == p.durationWeeks
      && |c.modules| == |p.modules|
      && (forall i :: 0 <= i < |c.modules| ==>
            c.modules[i] == MixModule(p.modules[i], req.learningPath,
                                      FetchVideos(env.youtubeKeyConfigured, ResponseAt(searches, i))))
      && (!IsEnrichedPath(req.learningPath) ==> c.modules == p.modules && out.searchQueries == [])
      && (IsEnrichedPath(req.learningPath) ==>
            && |out.searchQueries| == |p.modules|
            && forall i :: 0 <= i < |p.modules| ==>
                 out.searchQueries[i] == SearchQuery(req.subjects, p.modules[i].title))
      && out.saved == SavedRow(req, env.storageConfigured, c)
  {
    if !env.apiKeyConfigured {
      return GenOutcome(None, [], Failure(MissingApiKey), None);
    }
    var prompt := PromptFor(req);
    if answer.ModelThrew? {
      return GenOutcome(Some(prompt), [], Failure(ModelCallFailed), None);
    }
    if answer.ModelHttpError? {
      return GenOutcome(Some(prompt), [], Failure(UpstreamStatus(answer.status)), None);
    }
    if !IsTruthy(answer.candidateText) {
      return GenOutcome(Some(prompt), [], Failure(InvalidResponseFormat), None);
    }
    if parsed.None? {
      return GenOutcome(Some(prompt), [], Failure(ParseFailure), None);
    }
    var draft := new CurriculumDraft(parsed.value);
    draft.EnsurePlanId(now, randomSuffix);
    draft.SetLearningPath(req.learningPath);
    var queries := draft.EnrichWithVideos(req.subjects, req.learningPath, env.youtubeKeyConfigured, searches);
    var c := Curriculum(draft.planId.value, draft.durationWeeks, draft.modules, draft.learningPath);
    out := GenOutcome(Some(prompt), queries, Success(c), SavedRow(req, env.storageConfigured, c));
  }
}
