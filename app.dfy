/**
 * The `/process` route: which text is classified, the two validation errors,
 * the cleaning and classification calls, and the four fields handed to the
 * result page. Reading the upload, decoding it as UTF-8 and extracting the
 * text of a PDF are parameters; rendering is left out, and a page is the
 * template's name with the values it receives.
 */
module App {
  import opened Wrappers
  import Nlp
  import OpenAIClient

  /** An uploaded file: its name and its bytes. */
  datatype Upload = Upload(filename: string, content: seq<bv8>)

  /** What `process` decides before classifying: refuse the file type,
      refuse the empty submission, or classify `text` through its cleaned form. */
  datatype Decision = UnsupportedType | EmptyInput | Classify(text: string, cleaned: string)

  /** What the route renders: `index.html` with an error, `result.html` with
      the text, the cleaned text and the result, or an exception that leaves
      the route (a server error). */
  datatype Page =
    | ErrorPage(error: string)
    | ResultPage(rawText: string, cleaned: string, result: map<string, OpenAIClient.Json>)
    | ServerError(exception: OpenAIClient.Exception)

  const UnsupportedTypeMessage: string :=
    "Tipo de arquivo não suportado. Por favor, envie um arquivo .txt ou .pdf."
  const EmptyInputMessage: string :=
    "Por favor, cole o texto do e-mail ou envie um arquivo .txt/.pdf."

  function LowerChar(c: char): char {
    if 'A' <= c <= 'Z' then (c as int + 32) as char else c
  }

  /** `str.lower()` on ASCII letters. */
  function Lower(s: string): (r: string)
    ensures |r| == |s|
    ensures forall i :: 0 <= i < |s| ==> r[i] == LowerChar(s[i])
  {
    seq(|s|, i requires 0 <= i < |s| => LowerChar(s[i]))
  }

  /** `str.endswith(suffix)`. */
  predicate EndsWith(s: string, suffix: string) {
    |suffix| <= |s| && s[|s| - |suffix|..] == suffix
  }

  /** The text of the submission: the stripped text field (`None` counts as
      empty), or, when that is empty and a file came, the decoded `.txt` or
      the extracted `.pdf` text, the extension compared without case; `None`
      for any other file name. */
  function SubmittedText(emailText: Option<string>, file: Option<Upload>,
                         decode: seq<bv8> -> string, extract: seq<bv8> -> string): (r: Option<string>)
    ensures var field := Nlp.Strip(if emailText.Some? then emailText.value else "");
      && (field != "" || file.None? ==> r == Some(field))
      && (field == "" && file.Some? && EndsWith(Lower(file.value.filename), ".txt")
          ==> r == Some(decode(file.value.content)))
      && (field == "" && file.Some? && !EndsWith(Lower(file.value.filename), ".txt")
          && EndsWith(Lower(file.value.filename), ".pdf")
          ==> r == Some(extract(file.value.content)))
      && (field == "" && file.Some? && !EndsWith(Lower(file.value.filename), ".txt")
          && !EndsWith(Lower(file.value.filename), ".pdf")
          ==> r.None?)
  {
    var text := Nlp.Strip(if emailText.Some? then emailText.value else "");
    if file.Some? && text == "" then
      var name := Lower(file.value.filename);
      if EndsWith(name, ".txt") then Some(decode(file.value.content))
      else if EndsWith(name, ".pdf") then Some(extract(file.value.content))
      else None
    else Some(text)
  }

  /** The decision of `process`: an unsupported file type, an empty text, or
      the classification of the text through `clean_text`. */
  function Decide(emailText: Option<string>, file: Option<Upload>,
                  decode: seq<bv8> -> string, extract: seq<bv8> -> string): (d: Decision)
    ensures d.Classify? ==> d.text != "" && d.cleaned == Nlp.CleanText(Some(d.text))
    ensures d.Classify? ==> SubmittedText(emailText, file, decode, extract) == Some(d.text)
    ensures d == UnsupportedType <==> SubmittedText(emailText, file, decode, extract).None?
    ensures d == EmptyInput <==> SubmittedText(emailText, file, decode, extract) == Some("")
  {
    match SubmittedText(emailText, file, decode, extract)
    case None => UnsupportedType
    case Some(text) => if text == "" then EmptyInput else Classify(text, Nlp.CleanText(Some(text)))
  }

  /** `ai_result.get(key, default)`. */
  function Get(ai: map<string, OpenAIClient.Json>, key: string, default: OpenAIClient.Json): OpenAIClient.Json {
    if key in ai then ai[key] else default
  }

  /** The `result` dictionary: the four result keys of the classification,
      with the defaults of the route for absent ones. */
  function Project(ai: map<string, OpenAIClient.Json>): (r: map<string, OpenAIClient.Json>)
    ensures r.Keys == OpenAIClient.ResultKeys
    ensures forall k :: k in OpenAIClient.ResultKeys && k in ai ==> r[k] == ai[k]
    ensures OpenAIClient.Categoria !in ai ==> r[OpenAIClient.Categoria] == OpenAIClient.JString(OpenAIClient.Produtivo)
    ensures OpenAIClient.Justificativa !in ai ==> r[OpenAIClient.Justificativa] == OpenAIClient.JString("")
    ensures OpenAIClient.RespostaSugerida !in ai ==> r[OpenAIClient.RespostaSugerida] == OpenAIClient.JString("")
    ensures OpenAIClient.Topicos !in ai ==> r[OpenAIClient.Topicos] == OpenAIClient.JArray([])
  {
    map[
      OpenAIClient.Categoria := Get(ai, OpenAIClient.Categoria, OpenAIClient.JString(OpenAIClient.Produtivo)),
      OpenAIClient.Justificativa := Get(ai, OpenAIClient.Justificativa, OpenAIClient.JString("")),
      OpenAIClient.RespostaSugerida := Get(ai, OpenAIClient.RespostaSugerida, OpenAIClient.JString("")),
      OpenAIClient.Topicos := Get(ai, OpenAIClient.Topicos, OpenAIClient.JArray([]))]
  }

  /** The page for a text to classify: the classification of its cleaned
      form, shown with the four result keys, or the exception it raises. */
  function Respond(text: string, cleaned: string,
                   api: OpenAIClient.Api, parse: string -> Option<OpenAIClient.Json>, configured: string): (p: Page)
    ensures !p.ErrorPage?
    ensures var o := OpenAIClient.Classify(api, parse, configured, cleaned);
      && (o.Classified? ==> p == ResultPage(text, cleaned, Project(o.result)))
      && (o.Failed? ==> p == ServerError(o.exception))
    ensures p.ResultPage? ==>
      && p.rawText == text && p.cleaned == cleaned
      && p.result.Keys == OpenAIClient.ResultKeys
      && OpenAIClient.ValidCategoria(p.result[OpenAIClient.Categoria])
    ensures p.ServerError? ==> p.exception.RequestException? && !OpenAIClient.CaughtByModelLoop(p.exception)
  {
    OpenAIClient.ClassifyOutcome(api, parse, configured, cleaned);
    match OpenAIClient.Classify(api, parse, configured, cleaned)
    case Failed(e) => ServerError(e)
    case Classified(ai) => ResultPage(text, cleaned, Project(ai))
  }

  /** `process(email_text, file)`: `configured` is `settings.OPENAI_MODEL`,
      `api` and `parse` are those of the classification. A refused submission
      shows its message; otherwise the classifier is called once, on the
      cleaned form of the selected text, and a result page shows that text,
      its cleaned form and the classifier's answer on exactly the four result
      keys with a valid category. */
  function Process(emailText: Option<string>, file: Option<Upload>,
                   decode: seq<bv8> -> string, extract: seq<bv8> -> string,
                   api: OpenAIClient.Api, parse: string -> Option<OpenAIClient.Json>, configured: string): (p: Page)
    ensures var d := Decide(emailText, file, decode, extract);
      && (d == UnsupportedType <==> p == ErrorPage(UnsupportedTypeMessage))
      && (d == EmptyInput <==> p == ErrorPage(EmptyInputMessage))
    ensures p.ResultPage? ==>
      && p.rawText != "" && p.cleaned == Nlp.CleanText(Some(p.rawText))
      && SubmittedText(emailText, file, decode, extract) == Some(p.rawText)
      && p.result.Keys == OpenAIClient.ResultKeys
      && OpenAIClient.ValidCategoria(p.result[OpenAIClient.Categoria])
    ensures p.ServerError? ==> p.exception.RequestException? && !OpenAIClient.CaughtByModelLoop(p.exception)
    ensures var d := Decide(emailText, file, decode, extract);
      d.Classify? ==>
        var o := OpenAIClient.Classify(api, parse, configured, d.cleaned);
        && (o.Classified? ==> p == ResultPage(d.text, d.cleaned, Project(o.result)))
        && (o.Failed? ==> p == ServerError(o.exception))
  {
    match Decide(emailText, file, decode, extract)
    case UnsupportedType => ErrorPage(UnsupportedTypeMessage)
    case EmptyInput => ErrorPage(EmptyInputMessage)
    case Classify(text, cleaned) => Respond(text, cleaned, api, parse, configured)
  }

  // ---------------------------------------------------------------------------
  // Properties of the route
  // ---------------------------------------------------------------------------

  lemma LowerIdempotent(s: string)
    ensures Lower(Lower(s)) == Lower(s)
  {
    var once := Lower(s);
    var twice := Lower(once);
    forall i | 0 <= i < |s| ensures twice[i] == once[i] {
      assert twice[i] == LowerChar(once[i]) && once[i] == LowerChar(s[i]);
    }
  }

  /** A non-empty text field wins: the file, whatever it is, is not read. */
  lemma TextFieldWins(emailText: string, file: Option<Upload>, decode: seq<bv8> -> string, extract: seq<bv8> -> string)
    requires Nlp.Strip(emailText) != ""
    ensures Decide(Some(emailText), file, decode, extract)
      == Classify(Nlp.Strip(emailText), Nlp.CleanText(Some(Nlp.Strip(emailText))))
  {
  }

  /** The extension of the upload is compared without regard to case: the
      selected text is the same for the lowered file name. */
  lemma ExtensionIgnoresCase(emailText: Option<string>, filename: string, content: seq<bv8>,
                             decode: seq<bv8> -> string, extract: seq<bv8> -> string)
    ensures SubmittedText(emailText, Some(Upload(filename, content)), decode, extract)
      == SubmittedText(emailText, Some(Upload(Lower(filename), content)), decode, extract)
  {
    var name := Lower(filename);
    LowerIdempotent(filename);
    assert Lower(name) == name;
    assert EndsWith(Lower(name), ".txt") == EndsWith(name, ".txt");
    assert EndsWith(Lower(name), ".pdf") == EndsWith(name, ".pdf");
  }

  /** With an empty text field, a `.txt` upload is decoded and a `.pdf`
      upload extracted. */
  lemma UploadSelectsReader(emailText: Option<string>, filename: string, content: seq<bv8>,
                            decode: seq<bv8> -> string, extract: seq<bv8> -> string)
    requires emailText.None? || Nlp.Strip(emailText.value) == ""
    ensures EndsWith(Lower(filename), ".txt")
      ==> SubmittedText(emailText, Some(Upload(filename, content)), decode, extract) == Some(decode(content))
    ensures !EndsWith(Lower(filename), ".txt") && EndsWith(Lower(filename), ".pdf")
      ==> SubmittedText(emailText, Some(Upload(filename, content)), decode, extract) == Some(extract(content))
  {
  }

  /** The unsupported-type error comes exactly from an empty text field with
      a file whose name ends in neither `.txt` nor `.pdf`. */
  lemma UnsupportedTypeIff(emailText: Option<string>, file: Option<Upload>,
                          decode: seq<bv8> -> string, extract: seq<bv8> -> string)
    ensures var field := Nlp.Strip(if emailText.Some? then emailText.value else "");
      (Decide(emailText, file, decode, extract) == UnsupportedType
       <==> (field == "" && file.Some?
             && !EndsWith(Lower(file.value.filename), ".txt") && !EndsWith(Lower(file.value.filename), ".pdf")))
  {
  }

  /** With no text and no file the submission is refused as empty. */
  lemma EmptySubmissionRefused(emailText: Option<string>, decode: seq<bv8> -> string, extract: seq<bv8> -> string)
    requires emailText.None? || Nlp.Strip(emailText.value) == ""
    ensures Decide(emailText, None, decode, extract) == EmptyInput
  {
    assert Nlp.Strip("") == "";
  }

  /** A refused submission never reaches the classifier: its page is the
      same whatever the API, the decoder of its answer and the model. */
  lemma RefusalIgnoresClassifier(emailText: Option<string>, file: Option<Upload>,
                                 decode: seq<bv8> -> string, extract: seq<bv8> -> string,
                                 api: OpenAIClient.Api, parse: string -> Option<OpenAIClient.Json>, configured: string,
                                 api': OpenAIClient.Api, parse': string -> Option<OpenAIClient.Json>, configured': string)
    requires !Decide(emailText, file, decode, extract).Classify?
    ensures Process(emailText, file, decode, extract, api, parse, configured)
      == Process(emailText, file, decode, extract, api', parse', configured')
  {
  }

  /** The text of a `.txt` upload is not stripped before the emptiness check:
      an upload of whitespace alone is classified, through the empty string. */
  lemma BlankUploadIsClassified(filename: string, content: seq<bv8>, decode: seq<bv8> -> string, extract: seq<bv8> -> string)
    requires EndsWith(Lower(filename), ".txt")
    requires decode(content) != "" && forall i :: 0 <= i < |decode(content)| ==> Nlp.IsSpace(decode(content)[i])
    ensures Decide(None, Some(Upload(filename, content)), decode, extract) == Classify(decode(content), "")
  {
    assert Nlp.Strip("") == "";
    Nlp.CleanTextBlank(decode(content));
  }

  /** Pasted text that is already clean, answered on the first attempt by
      the configured model: whatever file came along, the page shows the text
      as typed and as cleaned, which are the same, and the coerced answer. */
  lemma CleanPastedTextAnswered(text: string, file: Option<Upload>, decode: seq<bv8> -> string, extract: seq<bv8> -> string,
                                api: OpenAIClient.Api, parse: string -> Option<OpenAIClient.Json>, configured: string,
                                content: Option<string>)
    requires Nlp.IsClean(text) && text != ""
    requires configured != ""
    requires api(0, OpenAIClient.BaseMessages(text), configured, 0) == OpenAIClient.Ok(content)
    ensures Process(Some(text), file, decode, extract, api, parse, configured)
      == ResultPage(text, text, Project(OpenAIClient.Coerce(parse(OpenAIClient.ContentOrEmpty(content)))))
  {
    Nlp.StripIdle(text);
    Nlp.CleanTextIdle(text);
    OpenAIClient.FirstAnswerIsCoerced(api, parse, configured, OpenAIClient.BaseMessages(text), content);
  }

  /** An answer holding only a category keeps it, with empty defaults for the rest. */
  lemma CategoryOnlyAnswer(category: OpenAIClient.Json)
    requires OpenAIClient.ValidCategoria(category)
    ensures Project(OpenAIClient.CoerceFields(map[OpenAIClient.Categoria := category])) == map[
      OpenAIClient.Categoria := category,
      OpenAIClient.Justificativa := OpenAIClient.JString(""),
      OpenAIClient.RespostaSugerida := OpenAIClient.JString(""),
      OpenAIClient.Topicos := OpenAIClient.JArray([])]
  {
    var expected := map[
      OpenAIClient.Categoria := category,
      OpenAIClient.Justificativa := OpenAIClient.JString(""),
      OpenAIClient.RespostaSugerida := OpenAIClient.JString(""),
      OpenAIClient.Topicos := OpenAIClient.JArray([])];
    assert Project(OpenAIClient.CoerceFields(map[OpenAIClient.Categoria := category])).Keys == expected.Keys;
  }
}
