# Sentiment analysis of YouTube comments — verified model

A Dafny model of the logic inside the sentiment-analysis backend's single
analysis endpoint, `GET /analizar/?video_id=…`:

- **Comment fetching** (`obtener_comentarios_youtube`). The server requests
  successive pages of top-level comment threads. It appends each page's
  comment texts until it holds at least 100 comments or a page arrives
  without a next-page token, and returns the first 100. A missing API key
  is an HTTP 503. The video platform is modelled as the finite sequence of
  pages it would return for the successive requests (`Comments.Page`). A
  request past the end of that sequence receives an empty page without a
  token.
- **Sentiment classification** (`analizar_sentimientos_vader`). Each
  comment's compound score is labelled `Positivo` (score ≥ 0.05), `Negativo`
  (score ≤ -0.05) or `Neutral` (strictly between). A three-key count map is
  incremented once per comment, and an ordered list of (comment, label)
  pairs is built. The VADER scorer is an arbitrary total function
  `string -> real` (`Sentiment.Scorer`).
- **Endpoint outcome** (`analizar_video`). There are three outcomes: 503 when
  the key is missing, 404 when no comments were fetched, and otherwise a
  report with `total_comentarios`, the counts and the classified list.

Files: `wrappers.dfy` (Option, Result), `sentiment.dfy` (module
`Sentiment`), `comments.dfy` (module `Comments`), `endpoint.dfy` (module
`Endpoint`). Each method with a loop is proved against specification
functions: `Classify`, `Count`/`Tally`, `Gathered`/`Requests`/`Fetched`. The
lemmas state the properties of those functions.

Python's truthiness is modelled explicitly. An API key that is absent or the
empty string counts as missing. A next-page token that is absent or the
empty string ends the paging.

## Model

| member | source | states |
|---|---|---|
| `Sentiment.LabelOf` | main.py:136-146 | A score is Positivo iff it is ≥ 0.05, Negativo iff it is ≤ -0.05, and Neutral iff it lies strictly between; both boundaries are inclusive for the polar labels |
| `Sentiment.LabelMonotone` | main.py:138-146 | A higher score never gets a more negative label (the thresholds split the score line into three ordered bands) |
| `Sentiment.Classify` | main.py:132-151 | The classified list has the input's length and order; entry i holds input comment i unchanged with that comment's own label |
| `Sentiment.CountIsPositions` | main.py:131-146 | The count of a label equals the number of input positions whose comment gets that label |
| `Sentiment.CountAppend` | main.py:134-146 | Counting a concatenation of comment lists adds the counts of the parts |
| `Sentiment.OneMoreComment` | main.py:139-146 | Processing one more comment increments exactly the count of its own label and leaves the other two unchanged |
| `Sentiment.CountsSum` | main.py:131-153 | The three counts sum to the number of input comments (all zero for empty input) |
| `Sentiment.CountMatchesList` | main.py:139-151 | Each count equals the number of entries of the classified list that carry that label |
| `Sentiment.Analyze` | main.py:125-153 | The loop returns a map with exactly the keys Positivo, Neutral and Negativo holding the per-label counts, which sum to the input length, together with the classified list |
| `Sentiment.ThreeCommentScenario` | main.py:134-153 | Comments scored 0.6, -0.6 and 0.0 give counts {Positivo: 1, Neutral: 1, Negativo: 1} and the classified list in input order with labels Positivo, Negativo, Neutral |
| `Comments.CollectComments` | main.py:89-114 | The paging loop makes exactly the number of requests fixed by the stopping rule and returns the items of those pages in order, cut to at most 100 |
| `Comments.FetchComments` | main.py:77-114 | A missing or empty API key gives the 503 error; otherwise the result is the paged comment list |
| `Comments.GatheredGrows` | main.py:104-106 | Items are only ever appended: the items held after fewer requests are a prefix of the items held after more |
| `Comments.GatheredIsFlatten` | main.py:94-108 | The items held after n requests are the in-order items of the first n pages, and of the whole feed once the feed is exhausted |
| `Comments.StopFrom` | main.py:94-111 | From any request that starts below 100 held comments, later requests continue exactly while each page has a token and fewer than 100 comments are held |
| `Comments.RequestsStopRule` | main.py:94-111 | At least one request is made. Every page before the last one requested has a token and leaves fewer than 100 comments. The last requested page has no token or brings the total to at least 100. At most one request goes past the end of the feed |
| `Comments.FetchedShape` | main.py:94-114 | The fetched list has at most 100 entries and is a prefix of the in-order items of the requested pages and of the whole feed. It has fewer than 100 only when paging stopped on a tokenless page, and then it holds all items requested. It has exactly 100 whenever at least 100 were gathered |
| `Endpoint.AnalyzeVideo` | main.py:170-192 | Without a key the outcome is 503. With a key and no comments it is 404. Otherwise it is a report whose total_comentarios equals the number of fetched comments (1 to 100) and the sum of the counts, together with that list's tally and classified list |

## Left out

- FastAPI application setup, CORS middleware, route decorators and the welcome endpoint `GET /`: framework configuration with no logic of its own.
- The 11-character `video_id` validation. The framework enforces it before the handler runs, so the model takes any identifier.
- Loading the API key from the environment and the `print` logging: process I/O. The key's value is a parameter of type `Option<string>`.
- `obtener_info_video`: a best-effort pass-through of an external response with defaults. Its result enters `Endpoint.AnalyzeVideo` as the `videoInfo` parameter.
- The Google API client calls and the mapping of any exception to HTTP 500: network calls into a library outside the model. A fetch in the model never fails.
- The VADER scorer: an external lexicon and floating-point heuristic, abstracted as an arbitrary function to `real`. Scores are compared with the exact reals 0.05 and -0.05, not with their nearest double-precision values. This is equivalent for scores that are doubles, since no double lies strictly between 0.05 and its double rounding.
- Termination on an endless stream of pages: the feed is a finite sequence, so the model cannot express a platform that keeps returning tokens forever. In the source that case would loop until 100 comments are held, or forever if the pages stay empty.
- `async`/`await`: there is no concurrency within a request, so everything is sequential.
