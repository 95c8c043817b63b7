# Email classifier core, modelled in Dafny

This project models the sequential logic of a small web application that
classifies an email as "Produtivo" or "Improdutivo" and suggests a reply:

- `clean_text` (`app/services/nlp.py`), the text cleaner. It makes four
  passes: carriage returns become spaces and the ends are stripped; a
  trailing signature is cut; runs of spaces and tabs are collapsed; runs of
  three or more newlines are collapsed.
- The classification client (`app/services/openai_client.py`). It builds the
  fixed message list (system prompt, two exemplar pairs, user prompt). Its
  retry loop `_call_chat_json_mode` makes up to four requests with
  doubling sleeps. `classify_and_suggest` loops over the configured model
  and `gpt-4o-mini`, then coerces the returned JSON into a result with a
  valid category, or uses a fixed fallback result.
- The decision logic of the `/process` route (`app/main.py`). It decides
  between the text field and the uploaded file, checks the file extension
  and the empty case, cleans the text, classifies it, and projects the
  result onto four keys.

Modules:

- `Wrappers` (`wrappers.dfy`): `Option`.
- `Nlp` (`nlp.dfy`): each regular expression is a function on strings. The
  signature pattern is given twice: as the computable `SignatureAt`, and as
  the backtracking-match predicate `RegexMatchesAt`. These are proved
  equivalent.
- `OpenAIClient` (`openai_client.dfy`):
  - The API is an oracle: `api(call, messages, model, attempt)` is the
    outcome of request `attempt` of the `call`-th invocation of the retry
    loop within one classification.
  - An outcome is a response, or an exception. An exception is caught by
    the transient clause (rate limit, connection), by the re-raising
    clause (`BadRequestError`, `APIStatusError`), or by neither.
  - An exception that leaves a call carries a flag `statusError`: whether it
    is an instance of the classes that the model loop catches. A re-raised
    exception always has it and one caught by neither clause never does; for
    a transient failure the outcome says which it was, since a
    `RateLimitError` is an `APIStatusError` and an `APIConnectionError` is not.
  - `json.loads` is the parameter `parse`; `None` stands for a decoding
    error.
  - `CallChatJsonMode`, `RunModelLoop` and `CoerceParsed` are methods with
    the source's loops, `return`, `continue`, `break` and in-place
    dictionary updates; `ClassifyAndSuggest` runs the last two in turn.
    Each is proved equal to a recursive specification function
    (`Retry`, `ModelLoop` with `Coerce`), and the properties are proved
    about those functions.
- `App` (`app.dfy`):
  - `Decide` is the decision of the route.
  - `Process` is the page it renders.
  - The upload's decoding and PDF extraction are parameters.

Behaviour worth knowing, as the code has it:

- Four connection failures in a row raise an error that the model loop
  does not catch (it is not an `APIStatusError`). The error leaves
  `classify_and_suggest`, and the fallback model is not tried.
- Four rate-limit failures raise a `RateLimitError`. That class is an
  `APIStatusError`, so the loop moves on to the fallback model
  (`ExhaustedConnectionErrorPropagates`, `ExhaustedRateLimitFallsBack`).
- Text decoded from a `.txt` upload is not stripped before the emptiness
  check. An upload holding only whitespace is classified, through the
  empty string (`BlankUploadIsClassified`).
- `clean_text` neither strips nor is idempotent: `"Hello \n--x"` cleans to
  `"Hello "`, which cleans to `"Hello"` (`NotIdempotentExample`).

## Model

| member | source | states |
|---|---|---|
| Nlp.ReplaceCR | app/services/nlp.py:5 | same length; each `\r` becomes a space and every other character is kept; no `\r` is left |
| Nlp.Strip | app/services/nlp.py:5 | the result is the input with a whitespace block removed at each end (Python `isspace` set), and it starts and ends with non-whitespace or is empty |
| Nlp.SignatureAtIff | app/services/nlp.py:6 | the computable test at `i` holds iff `\n--+\s*[\s\S]{0,400}$` matches at `i` under some split into dashes, whitespace and a tail of at most 400 characters |
| Nlp.FirstSignature | app/services/nlp.py:6 | the first index from `from` where the pattern matches, or the length when none does |
| Nlp.CutSignature | app/services/nlp.py:6 | the result is a prefix of the input; when shorter, the pattern matches where it ends; no earlier position matches (leftmost match) |
| Nlp.CollapseHSpace | app/services/nlp.py:7 | never longer; no tab; only input characters or spaces; no two adjacent spaces/tabs; the exact replacement is stated by `CollapseHSpaceByPosition` |
| Nlp.CollapseHSpaceByPosition | app/services/nlp.py:7 | the pass equals the per-position reading: a space or tab that starts a run becomes exactly one space, the rest of the run is dropped, every other character is kept in order |
| Nlp.CollapseHSpaceKeepsText | app/services/nlp.py:7 | removing spaces and tabs from input and output gives the same text: only the runs change |
| Nlp.CollapseHSpaceIdle | app/services/nlp.py:7 | text with no tab and no double space is unchanged |
| Nlp.CollapseNewlines | app/services/nlp.py:8 | never longer; only input characters; no three adjacent newlines; does not create double spaces; the exact replacement is stated by `CollapseNewlinesByCharacter` |
| Nlp.CollapseNewlinesByCharacter | app/services/nlp.py:8 | the pass equals the character-at-a-time reading that writes a newline only while fewer than two of its run have been written: the first two newlines of each run are kept, a run of three or more becomes exactly two, and every other character is kept in order |
| Nlp.CollapseNewlinesKeepsText | app/services/nlp.py:8 | removing newlines from input and output gives the same text |
| Nlp.CollapseNewlinesIdle | app/services/nlp.py:8 | text with no three adjacent newlines is unchanged |
| Nlp.CutSignatureIdle | app/services/nlp.py:6 | text with no newline followed by two dashes is unchanged |
| Nlp.CleanText | app/services/nlp.py:3-9 | `None` and `""` give `""`; the result is never longer than the input and has no `\r`, no tab, no two adjacent spaces/tabs and no three adjacent newlines |
| Nlp.CleanTextIdle | app/services/nlp.py:3-9 | text already clean (no `\r`/tab, no double space, no `\n\n\n`, no outer whitespace, no `\n--`) is returned unchanged |
| Nlp.CleanTextEmptyIff | app/services/nlp.py:3-9 | the result is empty exactly when the input is only whitespace |
| Nlp.CleanTextCutsSignature | app/services/nlp.py:3-9 | a clean body followed by a signature cleans to the body |
| Nlp.SignatureCutExample | app/services/nlp.py:6 | `"Hello\n--\nSent from my phone"` cleans to `"Hello"` |
| Nlp.LongTailKeptExample | app/services/nlp.py:6 | a dash line followed by 401 characters is kept |
| Nlp.NotIdempotentExample | app/services/nlp.py:5-6 | cleaning `"Hello \n--x"` twice differs from cleaning it once |
| OpenAIClient.BuildUserPrompt | app/services/openai_client.py:57-62 | the email text appears verbatim between two `\n---\n` delimiters; the prompt starts with the fixed header and ends with the fixed trailer |
| OpenAIClient.PromptRoundTrip | app/services/openai_client.py:57-62 | the email text is read back from the prompt, so distinct texts give distinct prompts |
| OpenAIClient.BaseMessages | app/services/openai_client.py:91-92 | six messages: the system prompt, the four exemplars, then the user prompt that carries the text; roles alternate user/assistant after the first |
| OpenAIClient.ContentOrEmpty | app/services/openai_client.py:75 | non-empty content is returned as is; missing or empty content gives `"{}"` |
| OpenAIClient.RetryFrom | app/services/openai_client.py:64-84 | at most 4 requests; every request but the last failed transiently; one sleep per transient failure, doubling from 1; a response returns its content; any other exception is raised at once with no sleep; after four transient failures the last error is raised |
| OpenAIClient.CallChatJsonMode | app/services/openai_client.py:64-84 | the loop with `backoff`, `last_err` and early returns gives exactly the trace of `Retry`, which is `RetryFrom` from the first attempt; 1 to 4 requests; the `RuntimeError` is never raised |
| OpenAIClient.FirstNonTransientDecides | app/services/openai_client.py:67-81 | the first non-transient attempt `k` is the last request: `k + 1` requests, `k` sleeps, and its response or error decides the call |
| OpenAIClient.TwoFailuresThenSuccess | app/services/openai_client.py:65-79 | two transient failures and then a response give sleeps `[1, 2]` and three requests |
| OpenAIClient.AllTransientRaisesLast | app/services/openai_client.py:65-83 | four transient failures give sleeps `[1, 2, 4, 8]` and raise the fourth error |
| OpenAIClient.NonEmpty | app/services/openai_client.py:97-99 | the non-empty model identifiers, and only those (in order: `NonEmptyIsFilter`) |
| OpenAIClient.NonEmptyIsFilter | app/services/openai_client.py:97-99 | skipping falsy identifiers is an order-keeping filter: one identifier is kept exactly when non-empty, and a concatenation is filtered piece by piece |
| OpenAIClient.ModelLoop | app/services/openai_client.py:94-104 | the `for mdl in model_to_try` loop over a list of models: at most one call per model; no call means the raw text is still the one before the loop and nothing was slept; an exception that ends it is one line 103 does not catch, raised by a model that was called. Its order, skips, end and sleeps are proved in `ModelLoopTriesInOrder`, `ModelLoopSkipsBeforeLast`, `ModelLoopEnd` and `ModelLoopSleeps` |
| OpenAIClient.ModelLoopTriesInOrder | app/services/openai_client.py:97-104 | the models called are non-empty candidates, in order (a prefix of them) |
| OpenAIClient.ModelLoopSkipsBeforeLast | app/services/openai_client.py:97-104 | every model called before the last raised an exception caught at line 103 |
| OpenAIClient.ModelLoopEnd | app/services/openai_client.py:95-104 | if the last model raised a caught exception, or none was called, every non-empty model was called and the raw text is still `"{}"`; otherwise the loop ends with the last model's text or its uncaught exception |
| OpenAIClient.ModelLoopSleeps | app/services/openai_client.py:97-104 | the sleeps are those of the calls made, one after another |
| OpenAIClient.SkipsIff | app/services/openai_client.py:76-104 | the model loop moves on exactly when the call's last request raised a `BadRequestError`/`APIStatusError`: a re-raised one, or a fourth `RateLimitError`; a fourth `APIConnectionError` or an exception no clause catches propagates |
| OpenAIClient.ModelLoopSingle | app/services/openai_client.py:97-104 | a single non-empty model is called once and decides the end |
| OpenAIClient.CandidatesLoop | app/services/openai_client.py:94-104 | the loop over `[configured, "gpt-4o-mini"]` in terms of its calls: an empty configured model is skipped; the fallback runs only after a caught exception |
| OpenAIClient.ClassifyTriedModels | app/services/openai_client.py:94-104 | the models called are `[fallback]`, `[configured, fallback]` or `[configured]`, depending on whether the configured model is empty or raised a caught exception |
| OpenAIClient.SetDefault | app/services/openai_client.py:110-112 | `setdefault` adds the key with the value only when it is absent; other entries are kept |
| OpenAIClient.CoerceFields | app/services/openai_client.py:108-112 | the result has the input's keys plus the four result keys; the category is valid; a valid category is kept and any other becomes "Produtivo"; every other present key keeps its value; absent `justificativa`/`resposta_sugerida`/`topicos` become `""`/`""`/`[]` |
| OpenAIClient.Coerce | app/services/openai_client.py:106-123 | a JSON object becomes `CoerceFields` of its fields; a decoding error or a non-object gives the fixed fallback result; either way the four keys are present and the category is valid |
| OpenAIClient.CoerceFieldsIdempotent | app/services/openai_client.py:108-112 | coercing an already coerced result changes nothing |
| OpenAIClient.FallbackResultIsCoerced | app/services/openai_client.py:115-123 | the fallback result is a fixed point of the coercion |
| OpenAIClient.Conclude | app/services/openai_client.py:104-123 | the loop's exception is raised unchanged exactly when the loop did not finish; a finished loop gives the coercion of its parsed raw text, which holds the four result keys with a valid category |
| OpenAIClient.ClassifyLoop | app/services/openai_client.py:94-104 | the model loop over `[configured, "gpt-4o-mini"]`: at least one model is called, those called are non-empty candidates in order, the sleeps are those of the calls, and an exception that ends it was raised by a request and is not caught at line 103; `ClassifyTriedModels` gives the three possible lists of models called |
| OpenAIClient.RunModelLoop | app/services/openai_client.py:94-104 | the loop with `continue` and `break` gives exactly the end, models called and sleeps of `ClassifyLoop`; an exception leaving it is one raised by a request that line 103 does not catch |
| OpenAIClient.CoerceParsed | app/services/openai_client.py:106-123 | the in-place updates of the parsed dictionary, or the fallback, give exactly `Coerce` |
| OpenAIClient.Classify | app/services/openai_client.py:86-123 | what `classify_and_suggest` returns or raises: it fails exactly when the model loop ends in an exception, with that exception, which line 103 does not catch; otherwise the result is the coercion of the raw text the loop ended with; `ClassifyOutcome` gives the four keys and valid category |
| OpenAIClient.ClassifyAndSuggest | app/services/openai_client.py:86-123 | builds the messages, runs the model loop and coerces its text: the outcome of `Classify`, and the models called and sleeps of `ClassifyLoop`; a result has the four keys and a valid category; only an exception raised by a request and not caught at line 103 escapes |
| OpenAIClient.RejectedModelFallsBack | app/services/openai_client.py:80-81 | a configured model whose first request is rejected is not retried: the fallback model is called next with no sleep, and its answer is coerced |
| OpenAIClient.ExhaustedRateLimitFallsBack | app/services/openai_client.py:76-83 | four rate-limit failures (an `APIStatusError`) on the configured model lead to the fallback model after sleeps 1, 2, 4, 8 |
| OpenAIClient.ExhaustedConnectionErrorPropagates | app/services/openai_client.py:76-83 | four connection failures on the configured model leave `classify_and_suggest` with the fourth error, after sleeps 1, 2, 4, 8 |
| OpenAIClient.AllModelsSkippedGivesDefaults | app/services/openai_client.py:95-112 | when every model raises a caught exception and `"{}"` decodes to the empty object, the result is "Produtivo" with empty fields |
| OpenAIClient.CoerceEmptyObject | app/services/openai_client.py:108-112 | the empty object coerces to "Produtivo" with `""`, `""`, `[]` |
| OpenAIClient.ClassifyFailsUncaught | app/services/openai_client.py:97-104 | only an exception raised by a request and not caught at line 103 leaves the loop; the `RuntimeError` never does |
| OpenAIClient.ClassifyOutcome | app/services/openai_client.py:86-123 | `classify_and_suggest` returns a result with the four keys and a valid category, or raises an exception from a request that line 103 does not catch |
| OpenAIClient.FirstAnswerIsCoerced | app/services/openai_client.py:97-113 | a configured model answering on its first request is the only call, with no sleep, and its content is coerced |
| App.SubmittedText | app/main.py:32-46 | a text field non-empty after strip (or no file) gives the stripped field; otherwise a file name ending in `.txt`, compared without case, gives the decoded content, one ending in `.pdf` the extracted text, and any other name nothing |
| App.Decide | app/main.py:32-57 | unsupported type exactly when no text is selected; empty input exactly when the selected text is `""`; otherwise the selected text, non-empty, is classified through `clean_text` |
| App.TextFieldWins | app/main.py:32-33 | a text field non-empty after strip is classified, stripped, whatever the file |
| App.ExtensionIgnoresCase | app/main.py:35-37 | lowering the file name does not change the selected text |
| App.UploadSelectsReader | app/main.py:33-38 | with an empty text field, `.txt` selects the decoder and `.pdf` the PDF extractor |
| App.UnsupportedTypeIff | app/main.py:33-46 | the unsupported-type error comes exactly from an empty text field and a file with another extension |
| App.EmptySubmissionRefused | app/main.py:48-55 | no text and no file give the empty-input error |
| App.BlankUploadIsClassified | app/main.py:35-36 | a `.txt` upload of whitespace alone passes the check unstripped and is classified through `""` |
| App.Project | app/main.py:61-66 | exactly the four result keys; present values are copied; absent ones become "Produtivo", `""`, `""` and `[]` |
| App.Respond | app/main.py:57-76 | when the classifier answers on the cleaned text, the result page carries the text, its cleaned form and the projection of that answer (four keys, valid category); when it raises, the page is a server error with that exception |
| App.Process | app/main.py:26-76 | the two error pages correspond exactly to the two refusals; otherwise the page is the projection of the classifier's answer on the cleaned selected text, or a server error with the exception it raised; a result page shows the selected text, its cleaned form and four keys with a valid category |
| App.RefusalIgnoresClassifier | app/main.py:40-55 | a refused submission's page does not depend on the API, the JSON decoder or the model: the classifier is not called |
| App.CleanPastedTextAnswered | app/main.py:32-66 | clean pasted text answered at once by the configured model is shown unchanged, with the coerced answer |
| App.CategoryOnlyAnswer | app/main.py:61-66 | an answer holding only a valid category is shown with it and the defaults `""`, `""`, `[]` |

## Left out

- The HTTP layer is not modelled: FastAPI routing, templating, the static
  mount, the `/` and `/health` routes, and the async `file.read()`. A page
  is the template's data.
- `content.decode("utf-8", errors="ignore")` and PDF text extraction are
  the parameters `decode` and `extract`. `app/utils/pdf.py` is not part of
  this model.
- `App.Process`: `extract` is total, so the server error that
  `extract_text_from_pdf_bytes` raises on a malformed PDF is not modelled;
  a server error in the model comes only from the classifier.
- Configuration (`app/core/config.py`) is not modelled: the configured
  model name is the parameter `configured`.
- The SDK request is an oracle, so its parameters (temperature,
  `response_format`) are not modelled. `time.sleep` is recorded in a sleep
  trace instead of being slept.
- The backoff is a natural number, not a float. Doubling from 1.0 is exact.
- The SDK's exception classes are not modelled. The flag `statusError`
  stands for "is a `BadRequestError` or `APIStatusError`". The attempt kind
  `Other` stands for any exception of the request lines that neither clause
  catches, whether from the SDK or not (an `IndexError` from an empty
  `choices` list, say); the model does not tell these apart.
- `json.loads` is an uninterpreted `parse`. JSON numbers are integers.
- Objects are maps, so key order is not kept.
- `App.Lower` lowers ASCII letters only. Python's `str.lower` is full
  Unicode, but no other character lowers to a letter of `.txt` or `.pdf`.
- A file name of `None` is not modelled; the source fails on it.
- Whitespace for `strip()` and `\s` is the explicit set of characters for
  which Python's `str.isspace` holds. No Unicode tables are used.
- The signature pattern's `$` is taken as the end of the text. After the
  strip the text never ends in a newline, so the two agree. The pattern
  has no letters, so the `(?i)` flag changes nothing.
- `Nlp.CleanText`: does not claim that the result is stripped or
  idempotent. Both are false (`NotIdempotentExample`).
- Entity normalisation, lemmatisation, stopword filtering and a second
  `clean_text` variant are not in `app/services/nlp.py`. They are not part
  of this model.
- The browser scripts under `app/static/` are UI code and are not
  modelled.
