/**
 * The field validators of the request bodies (src/models/request_models.py): the
 * non-blank checks on a question and on a text/title pair, and the URL-scheme check
 * on a list of URLs. A validator either returns the value unchanged or raises
 * `ValueError` with a fixed message.
 */
module RequestModels {
  import opened Wrappers
  import opened PyStrings

  const QuestionBlank: string := "Question cannot be empty or whitespace."
  const TextBlank: string := "Text cannot be empty or whitespace."
  const UrlScheme: string := "URL must start with 'http://' or 'https://'."

  /** `QuestionRequest.validate_question`. */
  function ValidateQuestion(value: string): (r: Result<string, string>)
    ensures r.Ok? <==> !IsBlank(value)
    ensures r.Ok? ==> r.value == value
    ensures r.Err? ==> r.error == QuestionBlank
  {
    StripEmptyIffBlank(value);
    if Strip(value) == [] then Err(QuestionBlank) else Ok(value)
  }

  /** `TextRequest.validate_text`, run on `text` and on `title`. */
  function ValidateText(value: string): (r: Result<string, string>)
    ensures r.Ok? <==> !IsBlank(value)
    ensures r.Ok? ==> r.value == value
    ensures r.Err? ==> r.error == TextBlank
  {
    StripEmptyIffBlank(value);
    if Strip(value) == [] then Err(TextBlank) else Ok(value)
  }

  datatype TextRequest = TextRequest(text: string, title: string)

  /** One entry of pydantic's validation error: the field and the validator's message. */
  datatype FieldError = FieldError(field: string, message: string)

  /** The errors one field contributes: none, or the validator's message under the field's name. */
  function FieldErrors(field: string, value: string): (errors: seq<FieldError>)
    ensures errors == [] <==> !IsBlank(value)
    ensures errors != [] ==> errors == [FieldError(field, TextBlank)]
  {
    match ValidateText(value)
    case Ok(_) => []
    case Err(message) => [FieldError(field, message)]
  }

  /** Building a `TextRequest`: each field is validated on its own and the errors are collected in field order. */
  function NewTextRequest(text: string, title: string): (r: Result<TextRequest, seq<FieldError>>)
    ensures r.Ok? <==> !IsBlank(text) && !IsBlank(title)
    ensures r.Ok? ==> r.value == TextRequest(text, title)
    ensures r.Err? ==> 1 <= |r.error| <= 2
    ensures r.Err? ==> (FieldError("text", TextBlank) in r.error <==> IsBlank(text))
    ensures r.Err? ==> (FieldError("title", TextBlank) in r.error <==> IsBlank(title))
    ensures r.Err? && IsBlank(text) ==> r.error[0] == FieldError("text", TextBlank)
  {
    var textErrors, titleErrors := FieldErrors("text", text), FieldErrors("title", title);
    if textErrors == [] && titleErrors == [] then Ok(TextRequest(text, title))
    else Err(textErrors + titleErrors)
  }

  /** `url.startswith(("http://", "https://"))`: exact and case-sensitive. */
  predicate HasHttpScheme(url: string) {
    "http://" <= url || "https://" <= url
  }

  /** `URLsRequest.validate_urls`: checks each URL in turn and raises at the first without the scheme. */
  method ValidateUrls(values: seq<string>) returns (r: Result<seq<string>, string>)
    ensures r.Ok? <==> forall i | 0 <= i < |values| :: HasHttpScheme(values[i])
    ensures r.Ok? ==> r.value == values
    ensures r.Err? ==> r.error == UrlScheme
  {
    for i := 0 to |values|
      invariant forall j | 0 <= j < i :: HasHttpScheme(values[j])
    {
      if !HasHttpScheme(values[i]) {
        return Err(UrlScheme);
      }
    }
    return Ok(values);
  }

  /** The scheme check does not fold case and knows no other scheme. */
  lemma SchemeExamples()
    ensures HasHttpScheme("http://x") && HasHttpScheme("https://x")
    ensures !HasHttpScheme("HTTP://x") && !HasHttpScheme("ftp://x") && !HasHttpScheme("http:/x")
  {
    assert "HTTP://x"[0] != "http://"[0] && "HTTP://x"[0] != "https://"[0];
    assert "ftp://x"[0] != "http://"[0];
    assert "http:/x"[6] != "http://"[6] && "http:/x"[4] != "https://"[4];
  }
}
