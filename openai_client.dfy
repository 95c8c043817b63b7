/**
 * The classification client: the fixed message list sent to the chat API,
 * the retry loop around one API call, the loop over candidate models, and the
 * coercion of the returned JSON into a result with a valid category.
 *
 * The API itself is an oracle: `api(call, messages, model, attempt)` is the
 * outcome of attempt `attempt` (from 0) of the `call`-th invocation (from 0) of
 * the retry loop within one classification. `json.loads` is the parameter
 * `parse`, whose `None` stands for a raised decoding error.
 */
module OpenAIClient {
  import opened Wrappers

  // ---------------------------------------------------------------------------
  // Data
  // ---------------------------------------------------------------------------

  /** A value as `json.loads` returns it. Objects are maps: key order is not kept. */
  datatype Json =
    | JNull
    | JBool(b: bool)
    | JNumber(n: int)
    | JString(s: string)
    | JArray(items: seq<Json>)
    | JObject(fields: map<string, Json>)

  /** One entry of the chat message list. */
  datatype Message = Message(role: string, content: string)

  /** An exception object raised while making one request: by the SDK, or by
      anything else on those lines, such as an `IndexError` from an empty
      `choices` list. */
  datatype ApiError = ApiError(id: nat)

  /** What can escape the retry loop: an exception raised by a request, with
      whether it is an instance of `BadRequestError` or `APIStatusError` (the
      classes the model loop catches), or the `RuntimeError` of its last line. */
  datatype Exception = RequestException(error: ApiError, statusError: bool) | RuntimeError(message: string)

  /** The outcome of one API request: a response with its (possibly missing)
      message content, or an exception caught by the transient clause
      (`RateLimitError`, which is an `APIStatusError`, or `APIConnectionError`,
      which is not: `statusError` says which), by the re-raising clause
      (`BadRequestError`, `APIStatusError`), or by neither (so by no clause of
      the model loop either). */
  datatype Attempt =
    | Ok(content: Option<string>)
    | Transient(error: ApiError, statusError: bool)
    | Rejected(error: ApiError)
    | Other(error: ApiError)

  /** The exception a failed request raises. */
  function ExceptionOf(a: Attempt): (e: Exception)
    requires !a.Ok?
  {
    match a
    case Transient(err, status) => RequestException(err, status)
    case Rejected(err) => RequestException(err, true)
    case Other(err) => RequestException(err, false)
  }

  type Api = (nat, seq<Message>, string, nat) -> Attempt

  /** How a call of the retry loop ends: it returns the raw text, or raises. */
  datatype CallResult = Returned(raw: string) | Raised(exception: Exception)

  /** A call's result, the durations it slept, in order, and its number of requests. */
  datatype Trace = Trace(result: CallResult, sleeps: seq<nat>, attempts: nat)

  // ---------------------------------------------------------------------------
  // Prompt and message list
  // ---------------------------------------------------------------------------

  const SystemPrompt: string := "Você é um assistente que classifica emails como Produtivo ou Improdutivo e sugere uma resposta.\nDefinições:\n- Produtivo: requer ação/resposta específica (suporte, dúvida técnica, atualização de caso).\n- Improdutivo: não requer ação imediata (felicitações, agradecimentos simples).\n\nInstruções:\n- Seja objetivo.\n- Não invente informações.\n- Se houver múltiplos assuntos, aplique a categoria mais exigente em termos de ação (priorize Produtivo).\n- O campo resposta_sugerida deve ser redigido no mesmo idioma do email original, a menos que o email esteja em português; nesse caso, responda em português.\n- Responda **apenas** com JSON válido no formato exigido.\n"

  /** Two user/assistant exemplar pairs; each assistant content is the
      `json.dumps` text of a result. */
  const FewShots: seq<Message> := [
    Message("user", "Olá, poderiam verificar o status do ticket #1234? O sistema ainda cai quando tento exportar relatórios."),
    Message("assistant", "{\"categoria\": \"Produtivo\", \"justificativa\": \"Solicitação de verificação de ticket com problema técnico.\", \"topicos\": [\"status do ticket\", \"erro ao exportar\"], \"resposta_sugerida\": \"Olá! Obrigado pelo retorno. Verificaremos o status do ticket #1234 e retornaremos com uma atualização. Se possível, envie horário aproximado do último erro e o navegador utilizado.\"}"),
    Message("user", "Bom dia, parabéns à equipe pelo novo portal, ficou excelente!"),
    Message("assistant", "{\"categoria\": \"Improdutivo\", \"justificativa\": \"Mensagem de congratulações, sem ação solicitada.\", \"topicos\": [\"felicitações\", \"elogio\"], \"resposta_sugerida\": \"Muito obrigado pela mensagem! Ficamos felizes com o feedback. Permanecemos à disposição.\"}")
  ]

  const JsonInstructions: string := "Formato JSON obrigatório:\n{\"categoria\":\"Produtivo|Improdutivo\",\"justificativa\":\"...\",\"topicos\":[\"...\"],\"resposta_sugerida\":\"...\"}"

  /** The delimiter written on each side of the email text. */
  const Delimiter: string := "\n---\n"
  const PromptHeader: string := "Texto do email a analisar:" + Delimiter
  const PromptTrailer: string := Delimiter + "Na resposta_sugerida, use tom formal, claro e profissional. " + JsonInstructions

  /** `_build_user_prompt`: the email text verbatim, with a delimiter right
      before and right after it. */
  function BuildUserPrompt(emailText: string): (r: string)
    ensures |r| == |PromptHeader| + |emailText| + |PromptTrailer|
    ensures r[|PromptHeader| - |Delimiter|..|PromptHeader|] == Delimiter
    ensures r[|PromptHeader|..|PromptHeader| + |emailText|] == emailText
    ensures r[|PromptHeader| + |emailText|..|PromptHeader| + |emailText| + |Delimiter|] == Delimiter
    ensures r[..|PromptHeader|] == PromptHeader && r[|r| - |PromptTrailer|..] == PromptTrailer
  {
    PromptHeader + emailText + PromptTrailer
  }

  /** The inverse of `BuildUserPrompt`: the text between the fixed header and
      the fixed trailer, if the prompt has both. */
  function ExtractEmailText(prompt: string): Option<string> {
    if |prompt| >= |PromptHeader| + |PromptTrailer|
       && prompt[..|PromptHeader|] == PromptHeader
       && prompt[|prompt| - |PromptTrailer|..] == PromptTrailer
    then Some(prompt[|PromptHeader|..|prompt| - |PromptTrailer|])
    else None
  }

  /** The email text can be read back from the prompt, so distinct emails give
      distinct prompts. */
  lemma PromptRoundTrip(emailText: string)
    ensures ExtractEmailText(BuildUserPrompt(emailText)) == Some(emailText)
  {
    var p := BuildUserPrompt(emailText);
    assert p[..|PromptHeader|] == PromptHeader;
    assert p[|p| - |PromptTrailer|..] == PromptTrailer;
    assert p[|PromptHeader|..|p| - |PromptTrailer|] == emailText;
  }

  /** `base_messages`: the system prompt, the four exemplar messages, then the
      user prompt carrying the email text; roles alternate after the first. */
  function BaseMessages(emailText: string): (r: seq<Message>)
    ensures |r| == 6
    ensures r[0] == Message("system", SystemPrompt)
    ensures r[1..5] == FewShots
    ensures forall i :: 1 <= i < 6 ==> r[i].role == (if i % 2 == 1 then "user" else "assistant")
    ensures ExtractEmailText(r[5].content) == Some(emailText)
  {
    PromptRoundTrip(emailText);
    [Message("system", SystemPrompt)] + FewShots + [Message("user", BuildUserPrompt(emailText))]
  }

  // ---------------------------------------------------------------------------
  // `_call_chat_json_mode`: up to four requests with doubling sleeps
  // ---------------------------------------------------------------------------

  const MaxAttempts: nat := 4
  const UnknownFailure: string := "Falha desconhecida ao chamar a API."
  const EmptyObject: string := "{}"

  function Pow2(k: nat): (r: nat)
    ensures r >= 1
  {
    if k == 0 then 1 else 2 * Pow2(k - 1)
  }

  /** `content or "{}"`: the raw text returned on success is never empty. */
  function ContentOrEmpty(content: Option<string>): (r: string)
    ensures r != ""
    ensures content.Some? && content.value != "" ==> r == content.value
    ensures content.None? || content.value == "" ==> r == EmptyObject
  {
    if content.Some? && content.value != "" then content.value else EmptyObject
  }

  /** The retry loop from attempt `k` on, with `Pow2(k)` as the current backoff.
      Every attempt before the last was transient; each transient failure is
      followed by one sleep, the sleeps double from `Pow2(k)`; a response
      returns its content, any other exception is raised at once, and after
      the fourth transient failure that failure's error is raised. The
      `RuntimeError` is never the result. */
  function RetryFrom(api: Api, call: nat, messages: seq<Message>, model: string, k: nat): (t: Trace)
    requires k < MaxAttempts
    ensures k < t.attempts <= MaxAttempts
    ensures forall j :: k <= j < t.attempts - 1 ==> api(call, messages, model, j).Transient?
    ensures t.attempts - k - 1 <= |t.sleeps| <= t.attempts - k
    ensures forall i :: 0 <= i < |t.sleeps| ==> t.sleeps[i] == Pow2(k + i)
    ensures var last := api(call, messages, model, t.attempts - 1);
      (last.Ok? ==> t.result == Returned(ContentOrEmpty(last.content)))
      && (!last.Ok? ==> t.result == Raised(ExceptionOf(last)))
      && (last.Transient? <==> |t.sleeps| == t.attempts - k)
      && (last.Transient? ==> t.attempts == MaxAttempts)
    decreases MaxAttempts - k
  {
    match api(call, messages, model, k)
    case Ok(content) => Trace(Returned(ContentOrEmpty(content)), [], k + 1)
    case Transient(e, status) =>
      if k + 1 == MaxAttempts then Trace(Raised(RequestException(e, status)), [Pow2(k)], k + 1)
      else
        var rest := RetryFrom(api, call, messages, model, k + 1);
        Trace(rest.result, [Pow2(k)] + rest.sleeps, rest.attempts)
    case Rejected(e) => Trace(Raised(RequestException(e, true)), [], k + 1)
    case Other(e) => Trace(Raised(RequestException(e, false)), [], k + 1)
  }

  /** The whole retry loop of the `call`-th invocation: one to four requests,
      sleeps of 1, 2, 4 and 8 seconds in that order, and an exception only
      from a request. */
  function Retry(api: Api, call: nat, messages: seq<Message>, model: string): Trace {
    RetryFrom(api, call, messages, model, 0)
  }

  /** The retry loop raises only exceptions from a request. */
  lemma RetryRaisesRequest(api: Api, call: nat, messages: seq<Message>, model: string)
    ensures var t := Retry(api, call, messages, model);
      t.result.Raised? ==> t.result.exception.RequestException?
  {
  }

  lemma AppendAssoc<T>(a: seq<T>, b: seq<T>, c: seq<T>)
    ensures a + (b + c) == (a + b) + c
  {
  }

  /** `_call_chat_json_mode(messages, model)`: the loop as the source writes it,
      with `backoff`, `last_err` and early returns; the sleeps are recorded
      instead of slept. */
  method CallChatJsonMode(messages: seq<Message>, model: string, api: Api, call: nat)
    returns (result: CallResult, sleeps: seq<nat>, attempts: nat)
    ensures Trace(result, sleeps, attempts) == Retry(api, call, messages, model)
    ensures 1 <= attempts <= MaxAttempts
    ensures result.Raised? ==> result.exception.RequestException?
  {
    var backoff: nat := 1;
    var lastErr: Option<Exception> := None;
    sleeps, attempts := [], 0;
    for i := 0 to MaxAttempts
      invariant attempts == i && |sleeps| == i && backoff == Pow2(i)
      invariant forall j :: 0 <= j < i ==> api(call, messages, model, j).Transient?
      invariant i > 0 ==> lastErr == Some(ExceptionOf(api(call, messages, model, i - 1)))
      invariant i < MaxAttempts ==>
        var rest := RetryFrom(api, call, messages, model, i);
        Retry(api, call, messages, model) == Trace(rest.result, sleeps + rest.sleeps, rest.attempts)
      invariant i == MaxAttempts ==>
        lastErr.Some? && Retry(api, call, messages, model) == Trace(Raised(lastErr.value), sleeps, MaxAttempts)
    {
      attempts := attempts + 1;
      match api(call, messages, model, i)
      case Ok(content) =>
        result := Returned(ContentOrEmpty(content));
        assert sleeps + [] == sleeps;
        return;
      case Transient(e, status) =>
        ghost var before := sleeps;
        lastErr := Some(RequestException(e, status));
        sleeps := sleeps + [backoff];
        backoff := backoff * 2;
        if i + 1 < MaxAttempts {
          ghost var rest := RetryFrom(api, call, messages, model, i + 1);
          AppendAssoc(before, [Pow2(i)], rest.sleeps);
        }
      case Rejected(e) =>
        // caught by the second clause and raised again
        result := Raised(RequestException(e, true));
        assert sleeps + [] == sleeps;
        return;
      case Other(e) =>
        // caught by neither clause: it leaves the loop as it is
        result := Raised(RequestException(e, false));
        assert sleeps + [] == sleeps;
        return;
    }
    result := Raised(if lastErr.Some? then lastErr.value else RuntimeError(UnknownFailure));
  }

  /** The first attempt that is not transient decides the call: it is the last
      request, one sleep follows each transient failure before it, and a
      rejected or unexpected error is raised with no further sleep. */
  lemma FirstNonTransientDecides(api: Api, call: nat, messages: seq<Message>, model: string, k: nat)
    requires k < MaxAttempts
    requires forall j :: 0 <= j < k ==> api(call, messages, model, j).Transient?
    requires !api(call, messages, model, k).Transient?
    ensures var t := Retry(api, call, messages, model); var a := api(call, messages, model, k);
      t.attempts == k + 1 && |t.sleeps| == k
      && t.result == (if a.Ok? then Returned(ContentOrEmpty(a.content)) else Raised(ExceptionOf(a)))
  {
    var t := Retry(api, call, messages, model);
    assert t.attempts - 1 == k;
  }

  /** Two transient failures and then a response: the sleeps are 1 then 2. */
  lemma TwoFailuresThenSuccess(api: Api, call: nat, messages: seq<Message>, model: string, content: Option<string>)
    requires api(call, messages, model, 0).Transient? && api(call, messages, model, 1).Transient?
    requires api(call, messages, model, 2) == Ok(content)
    ensures Retry(api, call, messages, model) == Trace(Returned(ContentOrEmpty(content)), [1, 2], 3)
  {
    FirstNonTransientDecides(api, call, messages, model, 2);
    var t := Retry(api, call, messages, model);
    assert t.sleeps[0] == Pow2(0) && t.sleeps[1] == Pow2(1);
  }

  /** Four transient failures: four requests, sleeps 1, 2, 4, 8, and the last
      failure is raised. */
  lemma AllTransientRaisesLast(api: Api, call: nat, messages: seq<Message>, model: string)
    requires forall j :: 0 <= j < MaxAttempts ==> api(call, messages, model, j).Transient?
    ensures Retry(api, call, messages, model)
      == Trace(Raised(ExceptionOf(api(call, messages, model, 3))), [1, 2, 4, 8], 4)
  {
    var t := Retry(api, call, messages, model);
    assert api(call, messages, model, t.attempts - 1).Transient?;
    assert t.sleeps[0] == Pow2(0) && t.sleeps[1] == Pow2(1) && t.sleeps[2] == Pow2(2) && t.sleeps[3] == Pow2(3);
  }

  // ---------------------------------------------------------------------------
  // `classify_and_suggest`: the model loop
  // ---------------------------------------------------------------------------

  const FallbackModel: string := "gpt-4o-mini"

  /** `model_to_try`. */
  function Candidates(configured: string): seq<string> {
    [configured, FallbackModel]
  }

  /** The exceptions the model loop catches (`BadRequestError`, `APIStatusError`). */
  predicate CaughtByModelLoop(e: Exception) {
    e.RequestException? && e.statusError
  }

  /** One invocation of `_call_chat_json_mode` as the model loop sees it: the
      `call`-th invocation, on a model, gives a trace. `Calls` instantiates it
      with the retry loop. */
  type Caller = (nat, string) -> Trace

  /** The invocations made on `messages` through `api`. */
  function Calls(api: Api, messages: seq<Message>): Caller {
    (call: nat, model: string) => Retry(api, call, messages, model)
  }

  /** The `call`-th invocation, on `model`, raises an exception the model loop catches. */
  predicate Skips(run: Caller, call: nat, model: string) {
    var r := run(call, model).result;
    r.Raised? && CaughtByModelLoop(r.exception)
  }

  /** The model identifiers that are not falsy, in order. */
  function NonEmpty(models: seq<string>): (r: seq<string>)
    ensures |r| <= |models|
    ensures forall m :: m in r <==> m in models && m != ""
  {
    if models == [] then []
    else (if models[0] == "" then [] else [models[0]]) + NonEmpty(models[1..])
  }

  /** `NonEmpty` is the order-keeping filter: a single identifier is kept
      exactly when it is not empty, and a concatenation is filtered piece by
      piece. */
  lemma {:induction false} NonEmptyIsFilter(a: seq<string>, b: seq<string>, m: string)
    ensures NonEmpty([m]) == (if m == "" then [] else [m])
    ensures NonEmpty(a + b) == NonEmpty(a) + NonEmpty(b)
    decreases |a|
  {
    assert [m][1..] == [];
    if a == [] {
      assert a + b == b;
    } else {
      assert (a + b)[0] == a[0] && (a + b)[1..] == a[1..] + b;
      NonEmptyIsFilter(a[1..], b, m);
      AppendAssoc(if a[0] == "" then [] else [a[0]], NonEmpty(a[1..]), NonEmpty(b));
    }
  }

  /** How the model loop ends: with the raw text to parse, or with an
      exception that leaves `classify_and_suggest`. */
  datatype LoopEnd = Finished(raw: string) | Propagated(exception: Exception)

  /** The loop's end, the models it called, in order, and all sleeps. */
  datatype LoopTrace = LoopTrace(end: LoopEnd, tried: seq<string>, sleeps: seq<nat>)

  function EndOf(r: CallResult): LoopEnd {
    match r
    case Returned(raw) => Finished(raw)
    case Raised(e) => Propagated(e)
  }

  /** The sleeps of the calls on `tried`, numbered from `call`, one after another. */
  ghost function SleepsOf(run: Caller, call: nat, tried: seq<string>): seq<nat>
    decreases |tried|
  {
    if tried == [] then []
    else run(call, tried[0]).sleeps + SleepsOf(run, call + 1, tried[1..])
  }

  /** The loop over `models`, the first of which is the `call`-th call;
      `lastRaw` is the raw text in force before the loop. */
  function ModelLoop(run: Caller, call: nat, models: seq<string>, lastRaw: string): (r: LoopTrace)
    ensures |r.tried| <= |models|
    ensures r.tried == [] ==> r.end == Finished(lastRaw) && r.sleeps == []
    ensures r.end.Propagated? ==> r.tried != [] && !CaughtByModelLoop(r.end.exception)
    decreases |models|
  {
    if models == [] then LoopTrace(Finished(lastRaw), [], [])
    else if models[0] == "" then ModelLoop(run, call, models[1..], lastRaw)
    else
      var c := run(call, models[0]);
      match c.result
      case Returned(raw) => LoopTrace(Finished(raw), [models[0]], c.sleeps)
      case Raised(e) =>
        if CaughtByModelLoop(e) then
          var rest := ModelLoop(run, call + 1, models[1..], lastRaw);
          LoopTrace(rest.end, [models[0]] + rest.tried, c.sleeps + rest.sleeps)
        else LoopTrace(Propagated(e), [models[0]], c.sleeps)
  }

  /** The models called are non-empty ones of `models`, in order. */
  lemma {:induction false} ModelLoopTriesInOrder(run: Caller, call: nat, models: seq<string>, lastRaw: string)
    ensures ModelLoop(run, call, models, lastRaw).tried <= NonEmpty(models)
    decreases |models|
  {
    if models != [] {
      ModelLoopTriesInOrder(run, call + 1, models[1..], lastRaw);
      ModelLoopTriesInOrder(run, call, models[1..], lastRaw);
    }
  }

  /** Every call on `tried`, numbered from `call`, but the last raised a caught exception. */
  ghost predicate SkipsBeforeLast(run: Caller, call: nat, tried: seq<string>) {
    forall j :: 0 <= j < |tried| - 1 ==> Skips(run, call + j, tried[j])
  }

  lemma SkipsBeforeLastCons(run: Caller, call: nat, m: string, rest: seq<string>)
    requires Skips(run, call, m) && SkipsBeforeLast(run, call + 1, rest)
    ensures SkipsBeforeLast(run, call, [m] + rest)
  {
    var tried := [m] + rest;
    forall j | 0 <= j < |tried| - 1 ensures Skips(run, call + j, tried[j]) {
      if j > 0 {
        assert tried[j] == rest[j - 1];
      }
    }
  }

  /** Every model called before the last one raised a caught exception. */
  lemma {:induction false} ModelLoopSkipsBeforeLast(run: Caller, call: nat, models: seq<string>, lastRaw: string)
    ensures SkipsBeforeLast(run, call, ModelLoop(run, call, models, lastRaw).tried)
    decreases |models|
  {
    if models == [] {
    } else if models[0] == "" {
      ModelLoopSkipsBeforeLast(run, call, models[1..], lastRaw);
    } else {
      var c := run(call, models[0]);
      if c.result.Raised? && CaughtByModelLoop(c.result.exception) {
        ModelLoopSkipsBeforeLast(run, call + 1, models[1..], lastRaw);
        SkipsBeforeLastCons(run, call, models[0], ModelLoop(run, call + 1, models[1..], lastRaw).tried);
      }
    }
  }

  /** How the loop ends: when no model was called or the last one raised a
      caught exception, with `lastRaw` after calling every non-empty model;
      otherwise with the last model's response or its uncaught exception. */
  lemma {:induction false} ModelLoopEnd(run: Caller, call: nat, models: seq<string>, lastRaw: string)
    ensures var t := ModelLoop(run, call, models, lastRaw);
      && (t.tried == [] || Skips(run, call + |t.tried| - 1, t.tried[|t.tried| - 1])
          ==> t.end == Finished(lastRaw) && t.tried == NonEmpty(models))
      && (t.tried != [] && !Skips(run, call + |t.tried| - 1, t.tried[|t.tried| - 1])
          ==> t.end == EndOf(run(call + |t.tried| - 1, t.tried[|t.tried| - 1]).result))
    decreases |models|
  {
    if models == [] {
    } else if models[0] == "" {
      ModelLoopEnd(run, call, models[1..], lastRaw);
    } else {
      var t := ModelLoop(run, call, models, lastRaw);
      var c := run(call, models[0]);
      if c.result.Raised? && CaughtByModelLoop(c.result.exception) {
        var rest := ModelLoop(run, call + 1, models[1..], lastRaw);
        ModelLoopEnd(run, call + 1, models[1..], lastRaw);
        assert t.tried == [models[0]] + rest.tried;
        if rest.tried != [] {
          assert t.tried[|t.tried| - 1] == rest.tried[|rest.tried| - 1];
        }
      }
    }
  }

  /** The loop's sleeps are those of the calls it made, one after another. */
  lemma {:induction false} ModelLoopSleeps(run: Caller, call: nat, models: seq<string>, lastRaw: string)
    ensures var t := ModelLoop(run, call, models, lastRaw);
      t.sleeps == SleepsOf(run, call, t.tried)
    decreases |models|
  {
    if models == [] {
    } else if models[0] == "" {
      ModelLoopSleeps(run, call, models[1..], lastRaw);
    } else {
      var t := ModelLoop(run, call, models, lastRaw);
      var c := run(call, models[0]);
      if c.result.Raised? && CaughtByModelLoop(c.result.exception) {
        var rest := ModelLoop(run, call + 1, models[1..], lastRaw);
        ModelLoopSleeps(run, call + 1, models[1..], lastRaw);
        assert t.tried == [models[0]] + rest.tried;
        assert t.tried[1..] == rest.tried;
      } else {
        assert t.tried[1..] == [];
        assert c.sleeps + [] == c.sleeps;
      }
    }
  }

  /** The model loop moves on exactly when the call's last request raised a
      `BadRequestError` or `APIStatusError`: one re-raised at once by the second
      clause, or a fourth `RateLimitError`. A fourth `APIConnectionError` and
      an exception that no clause catches leave `classify_and_suggest`. */
  lemma SkipsIff(api: Api, messages: seq<Message>, call: nat, model: string)
    ensures var t := Retry(api, call, messages, model);
      var last := api(call, messages, model, t.attempts - 1);
      Skips(Calls(api, messages), call, model) <==> (last.Rejected? || (last.Transient? && last.statusError))
  {
  }

  // ---------------------------------------------------------------------------
  // `classify_and_suggest`: coercion of the parsed response
  // ---------------------------------------------------------------------------

  const Categoria: string := "categoria"
  const Justificativa: string := "justificativa"
  const Topicos: string := "topicos"
  const RespostaSugerida: string := "resposta_sugerida"
  const Produtivo: string := "Produtivo"
  const Improdutivo: string := "Improdutivo"

  /** The keys every classification result holds. */
  const ResultKeys: set<string> := {Categoria, Justificativa, Topicos, RespostaSugerida}

  /** The result returned when the raw text is not a JSON object. */
  const FallbackResult: map<string, Json> := map[
    Categoria := JString(Produtivo),
    Justificativa := JString("Fallback aplicado (não foi possível interpretar o JSON)."),
    Topicos := JArray([]),
    RespostaSugerida := JString("Olá! Recebemos sua mensagem e vamos analisá-la. "
      + "Se possível, compartilhe detalhes adicionais para agilizar o atendimento.")]

  /** `parsed.get("categoria") in ("Produtivo", "Improdutivo")` for a present value. */
  predicate ValidCategoria(v: Json) {
    v == JString(Produtivo) || v == JString(Improdutivo)
  }

  /** `dict.setdefault(key, value)`: an absent key gets `value`, a present one is kept. */
  function SetDefault(fields: map<string, Json>, key: string, value: Json): (r: map<string, Json>)
    ensures r.Keys == fields.Keys + {key}
    ensures key in fields ==> r == fields
    ensures key !in fields ==> r[key] == value
    ensures forall k :: k in fields ==> r[k] == fields[k]
  {
    if key in fields then fields else fields[key := value]
  }

  /** The coercion of a parsed JSON object: an absent or invalid category
      becomes "Produtivo", and the three other result keys get empty
      defaults when absent. */
  function CoerceFields(fields: map<string, Json>): (r: map<string, Json>)
    ensures r.Keys == fields.Keys + ResultKeys
    ensures ValidCategoria(r[Categoria])
    ensures Categoria in fields && ValidCategoria(fields[Categoria]) ==> r[Categoria] == fields[Categoria]
    ensures !(Categoria in fields && ValidCategoria(fields[Categoria])) ==> r[Categoria] == JString(Produtivo)
    ensures forall k :: k in fields && k != Categoria ==> r[k] == fields[k]
    ensures Justificativa !in fields ==> r[Justificativa] == JString("")
    ensures RespostaSugerida !in fields ==> r[RespostaSugerida] == JString("")
    ensures Topicos !in fields ==> r[Topicos] == JArray([])
  {
    var categorised :=
      if Categoria in fields && ValidCategoria(fields[Categoria]) then fields
      else fields[Categoria := JString(Produtivo)];
    SetDefault(SetDefault(SetDefault(categorised, RespostaSugerida, JString("")),
      Justificativa, JString("")), Topicos, JArray([]))
  }

  /** The whole `try` block after the model loop: a raw text that does not
      decode to an object (`parse` gives `None`, or `.get` fails on a list,
      string, number, boolean or null) gives the fallback result. */
  function Coerce(parsed: Option<Json>): (r: map<string, Json>)
    ensures r.Keys >= ResultKeys && ValidCategoria(r[Categoria])
    ensures !(parsed.Some? && parsed.value.JObject?) ==> r == FallbackResult
    ensures parsed.Some? && parsed.value.JObject? ==> r == CoerceFields(parsed.value.fields)
    ensures parsed.Some? && parsed.value.JObject? ==> r.Keys == parsed.value.fields.Keys + ResultKeys
  {
    if parsed.Some? && parsed.value.JObject? then CoerceFields(parsed.value.fields)
    else FallbackResult
  }

  /** Coercing an already coerced result changes nothing. */
  lemma CoerceFieldsIdempotent(fields: map<string, Json>)
    ensures CoerceFields(CoerceFields(fields)) == CoerceFields(fields)
  {
    var once := CoerceFields(fields);
    var twice := CoerceFields(once);
    forall k | k in twice.Keys ensures twice[k] == once[k] {
    }
  }

  /** The fallback result is already coerced. */
  lemma FallbackResultIsCoerced()
    ensures CoerceFields(FallbackResult) == FallbackResult
  {
    var r := CoerceFields(FallbackResult);
    assert r.Keys == FallbackResult.Keys;
    forall k | k in r.Keys ensures r[k] == FallbackResult[k] {
    }
  }

  // ---------------------------------------------------------------------------
  // `classify_and_suggest`
  // ---------------------------------------------------------------------------

  /** What `classify_and_suggest` does: returns a result, or lets an exception out. */
  datatype Outcome = Classified(result: map<string, Json>) | Failed(exception: Exception)

  /** The outcome once the model loop has ended: the loop's exception is
      passed on unchanged, and a finished loop always gives a result with the
      four result keys and a valid category. */
  function Conclude(end: LoopEnd, parse: string -> Option<Json>): (r: Outcome)
    ensures r.Failed? <==> end.Propagated?
    ensures r.Failed? ==> r.exception == end.exception
    ensures end.Finished? ==> r == Classified(Coerce(parse(end.raw)))
    ensures r.Classified? ==> ResultKeys <= r.result.Keys && ValidCategoria(r.result[Categoria])
  {
    match end
    case Finished(raw) => Classified(Coerce(parse(raw)))
    case Propagated(e) => Failed(e)
  }

  /** The model loop of one classification on `messages`, over the configured
      model and the fallback: at least one model is called (the fallback is
      never empty), the models called are non-empty candidates in order, the
      sleeps are those of the calls, and an exception that ends it is one
      raised by a request that line 103 does not catch. */
  function ClassifyLoop(api: Api, configured: string, messages: seq<Message>): (r: LoopTrace)
    ensures r.tried != [] && r.tried <= NonEmpty(Candidates(configured))
    ensures r.sleeps == SleepsOf(Calls(api, messages), 0, r.tried)
    ensures r.end.Propagated? ==> r.end.exception.RequestException? && !CaughtByModelLoop(r.end.exception)
  {
    var run := Calls(api, messages);
    ModelLoopTriesInOrder(run, 0, Candidates(configured), EmptyObject);
    ModelLoopEnd(run, 0, Candidates(configured), EmptyObject);
    ModelLoopSleeps(run, 0, Candidates(configured), EmptyObject);
    var t := ModelLoop(run, 0, Candidates(configured), EmptyObject);
    if t.tried == [] then t
    else RetryRaisesRequest(api, |t.tried| - 1, messages, t.tried[|t.tried| - 1]); t
  }

  /** What `classify_and_suggest(emailText)` returns or raises: it fails
      exactly when the model loop ends in an exception, with that exception,
      and otherwise returns the coercion of the raw text the loop ended with. */
  function Classify(api: Api, parse: string -> Option<Json>, configured: string, emailText: string): (r: Outcome)
    ensures var t := ClassifyLoop(api, configured, BaseMessages(emailText));
      && (r.Failed? <==> t.end.Propagated?)
      && (r.Failed? ==> r.exception == t.end.exception && !CaughtByModelLoop(r.exception))
      && (r.Classified? ==> r.result == Coerce(parse(t.end.raw)))
  {
    Conclude(ClassifyLoop(api, configured, BaseMessages(emailText)).end, parse)
  }

  /** `classify_and_suggest(email_text)` with `settings.OPENAI_MODEL` as
      `configured` and `json.loads` as `parse`. It returns the outcome, the
      models called, in order, and all sleeps. */
  method ClassifyAndSuggest(emailText: string, configured: string, api: Api, parse: string -> Option<Json>)
    returns (out: Outcome, tried: seq<string>, sleeps: seq<nat>)
    ensures var t := ClassifyLoop(api, configured, BaseMessages(emailText));
      out == Classify(api, parse, configured, emailText) && tried == t.tried && sleeps == t.sleeps
    ensures out.Classified? ==> ResultKeys <= out.result.Keys && ValidCategoria(out.result[Categoria])
    ensures out.Failed? ==> out.exception.RequestException? && !CaughtByModelLoop(out.exception)
  {
    var messages := BaseMessages(emailText);
    var end;
    end, tried, sleeps := RunModelLoop(messages, configured, api);
    match end
    case Propagated(e) =>
      out := Failed(e);
    case Finished(raw) =>
      var result := CoerceParsed(parse(raw));
      out := Classified(result);
  }

  /** The `for mdl in model_to_try` loop of `classify_and_suggest` as the
      source writes it, with `continue` and `break`: how it ends, the models
      called, in order, and all sleeps. An exception that leaves it was raised
      by a request and is not one that line 103 catches. */
  method RunModelLoop(messages: seq<Message>, configured: string, api: Api)
    returns (end: LoopEnd, tried: seq<string>, sleeps: seq<nat>)
    ensures LoopTrace(end, tried, sleeps) == ClassifyLoop(api, configured, messages)
    ensures end.Propagated? ==> end.exception.RequestException? && !CaughtByModelLoop(end.exception)
  {
    ghost var run := Calls(api, messages);
    ghost var whole := ClassifyLoop(api, configured, messages);
    var models := Candidates(configured);
    var lastRaw := EmptyObject;
    tried, sleeps := [], [];
    var i := 0;
    while i < |models|
      invariant 0 <= i <= |models| && lastRaw == EmptyObject
      invariant var rest := ModelLoop(run, |tried|, models[i..], EmptyObject);
        whole == LoopTrace(rest.end, tried + rest.tried, sleeps + rest.sleeps)
    {
      var mdl := models[i];
      if mdl == "" {
        i := i + 1;
        continue;
      }
      ghost var before := ModelLoop(run, |tried|, models[i..], EmptyObject);
      ghost var beforeTried, beforeSleeps := tried, sleeps;
      var result, s, attempts := CallChatJsonMode(messages, mdl, api, |tried|);
      assert Trace(result, s, attempts) == run(|tried|, mdl);
      tried, sleeps := tried + [mdl], sleeps + s;
      match result
      case Returned(raw) =>
        lastRaw := raw;
        assert before == LoopTrace(Finished(raw), [mdl], s);
        break;
      case Raised(e) =>
        if CaughtByModelLoop(e) {
          ghost var rest := ModelLoop(run, |tried|, models[i + 1..], EmptyObject);
          assert before == LoopTrace(rest.end, [mdl] + rest.tried, s + rest.sleeps);
          AppendAssoc(beforeTried, [mdl], rest.tried);
          AppendAssoc(beforeSleeps, s, rest.sleeps);
          i := i + 1;
          continue;
        }
        assert before == LoopTrace(Propagated(e), [mdl], s);
        return Propagated(e), tried, sleeps;
    }
    end := Finished(lastRaw);
  }

  /** The `try` block of `classify_and_suggest` on the decoded raw text:
      the dictionary is updated in place, or replaced by the fallback result. */
  method CoerceParsed(parsed: Option<Json>) returns (result: map<string, Json>)
    ensures result == Coerce(parsed)
  {
    if !(parsed.Some? && parsed.value.JObject?) {
      return FallbackResult;
    }
    result := parsed.value.fields;
    if !(Categoria in result && ValidCategoria(result[Categoria])) {
      result := result[Categoria := JString(Produtivo)];
    }
    if RespostaSugerida !in result {
      result := result[RespostaSugerida := JString("")];
    }
    if Justificativa !in result {
      result := result[Justificativa := JString("")];
    }
    if Topicos !in result {
      result := result[Topicos := JArray([])];
    }
  }

  /** The loop over a single non-empty model calls it once and ends with its
      response or exception, or with `lastRaw` when the exception is caught. */
  lemma ModelLoopSingle(run: Caller, call: nat, model: string, lastRaw: string)
    requires model != ""
    ensures var t := ModelLoop(run, call, [model], lastRaw); var r := run(call, model);
      t.tried == [model] && t.sleeps == r.sleeps
      && t.end == (if Skips(run, call, model) then Finished(lastRaw) else EndOf(r.result))
  {
    assert [model][1..] == [];
    var r := run(call, model);
    if Skips(run, call, model) {
      assert r.sleeps + [] == r.sleeps;
    }
  }

  /** The loop over the two candidates, in the terms of the calls it makes. */
  lemma CandidatesLoop(run: Caller, configured: string)
    ensures var t := ModelLoop(run, 0, Candidates(configured), EmptyObject);
      var second := if configured == "" then 0 else 1;
      var last := ModelLoop(run, second, [FallbackModel], EmptyObject);
      if configured == "" then t == last
      else if Skips(run, 0, configured)
      then t == LoopTrace(last.end, [configured] + last.tried, run(0, configured).sleeps + last.sleeps)
      else t == LoopTrace(EndOf(run(0, configured).result), [configured], run(0, configured).sleeps)
  {
    assert Candidates(configured)[1..] == [FallbackModel];
  }

  /** The models called: the configured one unless it is empty, and the
      fallback model when there is no configured one or it raised a caught
      exception. */
  lemma ClassifyTriedModels(api: Api, configured: string, messages: seq<Message>)
    ensures var run := Calls(api, messages);
      ClassifyLoop(api, configured, messages).tried ==
        if configured == "" then [FallbackModel]
        else if Skips(run, 0, configured) then [configured, FallbackModel]
        else [configured]
  {
    var run := Calls(api, messages);
    CandidatesLoop(run, configured);
    ModelLoopSingle(run, if configured == "" then 0 else 1, FallbackModel, EmptyObject);
  }

  /** A configured model the API rejects (an unknown model name, say) is not
      retried: the fallback model is called next, with no sleep, and its
      response is coerced. */
  lemma RejectedModelFallsBack(api: Api, parse: string -> Option<Json>, configured: string, messages: seq<Message>,
                               e: ApiError, content: Option<string>)
    requires configured != ""
    requires api(0, messages, configured, 0) == Rejected(e)
    requires api(1, messages, FallbackModel, 0) == Ok(content)
    ensures var t := ClassifyLoop(api, configured, messages);
      t.tried == [configured, FallbackModel] && t.sleeps == []
      && Conclude(t.end, parse) == Classified(Coerce(parse(ContentOrEmpty(content))))
  {
    var run := Calls(api, messages);
    FirstNonTransientDecides(api, 0, messages, configured, 0);
    FirstNonTransientDecides(api, 1, messages, FallbackModel, 0);
    CandidatesLoop(run, configured);
    ModelLoopSingle(run, 1, FallbackModel, EmptyObject);
  }

  /** Four rate-limit failures on the configured model exhaust its retries; a
      `RateLimitError` is an `APIStatusError`, so the loop goes on to the
      fallback model. */
  lemma ExhaustedRateLimitFallsBack(api: Api, configured: string, messages: seq<Message>)
    requires configured != ""
    requires forall j :: 0 <= j < MaxAttempts ==> api(0, messages, configured, j).Transient?
    requires api(0, messages, configured, 3).statusError
    ensures var t := ClassifyLoop(api, configured, messages);
      t.tried == [configured, FallbackModel] && t.sleeps[..4] == [1, 2, 4, 8]
  {
    var run := Calls(api, messages);
    AllTransientRaisesLast(api, 0, messages, configured);
    CandidatesLoop(run, configured);
    ModelLoopSingle(run, 1, FallbackModel, EmptyObject);
    var t := ClassifyLoop(api, configured, messages);
    var last := ModelLoop(run, 1, [FallbackModel], EmptyObject);
    assert t.sleeps == [1, 2, 4, 8] + last.sleeps;
  }

  /** Four connection failures on the configured model: the last one is not
      caught by the model loop and leaves `classify_and_suggest`, after
      sleeps of 1, 2, 4 and 8 seconds. */
  lemma ExhaustedConnectionErrorPropagates(api: Api, parse: string -> Option<Json>, configured: string, messages: seq<Message>)
    requires configured != ""
    requires forall j :: 0 <= j < MaxAttempts ==> api(0, messages, configured, j).Transient?
    requires !api(0, messages, configured, 3).statusError
    ensures var t := ClassifyLoop(api, configured, messages);
      t.tried == [configured] && t.sleeps == [1, 2, 4, 8]
      && Conclude(t.end, parse) == Failed(RequestException(api(0, messages, configured, 3).error, false))
  {
    AllTransientRaisesLast(api, 0, messages, configured);
    CandidatesLoop(Calls(api, messages), configured);
  }

  /** When every model raises a caught exception, the raw text stays "{}",
      and when that decodes to the empty object the result is "Produtivo"
      with empty fields. */
  lemma AllModelsSkippedGivesDefaults(api: Api, parse: string -> Option<Json>, configured: string, messages: seq<Message>)
    requires parse(EmptyObject) == Some(JObject(map[]))
    requires configured == "" || Skips(Calls(api, messages), 0, configured)
    requires Skips(Calls(api, messages), if configured == "" then 0 else 1, FallbackModel)
    ensures Conclude(ClassifyLoop(api, configured, messages).end, parse) == Classified(map[
      Categoria := JString(Produtivo), Justificativa := JString(""),
      Topicos := JArray([]), RespostaSugerida := JString("")])
  {
    var run := Calls(api, messages);
    CandidatesLoop(run, configured);
    ModelLoopSingle(run, if configured == "" then 0 else 1, FallbackModel, EmptyObject);
    assert ClassifyLoop(api, configured, messages).end == Finished(EmptyObject);
    CoerceEmptyObject();
  }

  /** The empty object coerces to "Produtivo" with empty fields. */
  lemma CoerceEmptyObject()
    ensures CoerceFields(map[]) == map[
      Categoria := JString(Produtivo), Justificativa := JString(""),
      Topicos := JArray([]), RespostaSugerida := JString("")]
  {
    var r := CoerceFields(map[]);
    var expected := map[Categoria := JString(Produtivo), Justificativa := JString(""),
      Topicos := JArray([]), RespostaSugerida := JString("")];
    assert r.Keys == expected.Keys;
  }

  /** Only an exception raised by a request that the model loop does not catch leaves
      `classify_and_suggest`; the `RuntimeError` never does. */
  lemma ClassifyFailsUncaught(api: Api, parse: string -> Option<Json>, configured: string, messages: seq<Message>)
    ensures var o := Conclude(ClassifyLoop(api, configured, messages).end, parse);
      o.Failed? ==> o.exception.RequestException? && !CaughtByModelLoop(o.exception)
  {
    var run := Calls(api, messages);
    CandidatesLoop(run, configured);
    ModelLoopSingle(run, if configured == "" then 0 else 1, FallbackModel, EmptyObject);
  }

  /** What `classify_and_suggest` promises its caller: a result holding the
      four result keys with a valid category, or an exception raised by a request that the
      model loop does not catch. */
  lemma ClassifyOutcome(api: Api, parse: string -> Option<Json>, configured: string, emailText: string)
    ensures var o := Classify(api, parse, configured, emailText);
      && (o.Classified? ==> ResultKeys <= o.result.Keys && ValidCategoria(o.result[Categoria]))
      && (o.Failed? ==> o.exception.RequestException? && !CaughtByModelLoop(o.exception))
  {
    ClassifyFailsUncaught(api, parse, configured, BaseMessages(emailText));
  }

  /** A configured model that answers on its first attempt decides the
      classification: one call, no sleep, its content coerced. */
  lemma FirstAnswerIsCoerced(api: Api, parse: string -> Option<Json>, configured: string, messages: seq<Message>,
                             content: Option<string>)
    requires configured != ""
    requires api(0, messages, configured, 0) == Ok(content)
    ensures var t := ClassifyLoop(api, configured, messages);
      t.tried == [configured] && t.sleeps == []
      && Conclude(t.end, parse) == Classified(Coerce(parse(ContentOrEmpty(content))))
  {
    FirstNonTransientDecides(api, 0, messages, configured, 0);
    CandidatesLoop(Calls(api, messages), configured);
  }
}
