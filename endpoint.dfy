// The analysis endpoint: metadata lookup, comment fetch, classification and
// the assembled response, with its 503 and 404 exits.
module Endpoint {
  import opened Wrappers
  import opened Comments
  import opened Sentiment

  /** Best-effort video metadata; None when the metadata lookup failed. */
  datatype VideoInfo = VideoInfo(title: string, channel: string, thumbnail: string, publishedAt: string)

  /** The success payload of the endpoint. */
  datatype Report = Report(
    videoId: string,
    videoInfo: Option<VideoInfo>,
    totalComentarios: nat,
    sentimientos: map<Label, nat>,
    listaComentarios: seq<Classified>)

  const NoCommentsError := HttpError(404, "No se encontraron comentarios para este video.")

  /** analizar_video: the metadata lookup's result comes in as videoInfo; then
      the comments are fetched (503 without a key), an empty list is a 404,
      and otherwise the comments are classified and reported. */
  method AnalyzeVideo(videoId: string, videoInfo: Option<VideoInfo>, apiKey: Option<string>,
                      pages: seq<Page>, scorer: Scorer)
    returns (r: Result<Report, HttpError>)
    ensures r == Failure(MissingKeyError) <==> !KeyConfigured(apiKey)
    ensures r == Failure(NoCommentsError) <==> KeyConfigured(apiKey) && Fetched(pages) == []
    ensures r.Success? <==> KeyConfigured(apiKey) && Fetched(pages) != []
    ensures r.Success? ==>
              var comments := Fetched(pages);
              r.value.videoId == videoId && r.value.videoInfo == videoInfo
              && 1 <= r.value.totalComentarios <= MaxComments
              && r.value.totalComentarios == |comments|
              && r.value.sentimientos.Keys == {Positivo, Neutral, Negativo}
              && r.value.totalComentarios == r.value.sentimientos[Positivo]
                   + r.value.sentimientos[Neutral] + r.value.sentimientos[Negativo]
              && r.value.sentimientos == Tally(comments, scorer)
              && r.value.listaComentarios == Classify(comments, scorer)
  {
    var fetch := FetchComments(apiKey, pages);
    if fetch.Failure? {
      return Failure(fetch.error);
    }
    var comentarios := fetch.value;
    if comentarios == [] {
      return Failure(NoCommentsError);
    }
    var counts, classified := Analyze(comentarios, scorer);
    r := Success(Report(videoId, videoInfo, |comentarios|, counts, classified));
  }
}
