/** The error hierarchy of the server and the fixed table of user-facing
    error texts. */
module Errors {
  import opened Wrappers

  /** The free-form `details` map every error carries; values are kept as text. */
  type Details = map<string, string>

  /** Which class of the hierarchy an error belongs to, with the fields that
      class adds to GoogleAdsMCPError. */
  datatype ErrorKind =
    | Base
    | Authentication
    | QuotaExhausted(retryAfterSeconds: int)
    | ResourceNotFound(resourceType: string, resourceId: string)
    | InvalidInput(field: string)

  /** A GoogleAdsMCPError or one of its four subclasses: each has the base
      class's `message` and `details`. */
  datatype McpError = McpError(kind: ErrorKind, message: string, details: Details)

  /** Python's `details or {}`: None and the empty map both give the empty map. */
  function DetailsOrEmpty(details: Option<Details>): (d: Details)
    ensures details.None? ==> d == map[]
    ensures details.Some? ==> d == details.value
  {
    match details
    case Some(m) => m
    case None => map[]
  }

  function NewMcpError(message: string, details: Option<Details> := None): (e: McpError)
    ensures e.kind.Base? && e.message == message && e.details == DetailsOrEmpty(details)
  {
    McpError(Base, message, DetailsOrEmpty(details))
  }

  function NewAuthenticationError(message: string, details: Option<Details> := None): (e: McpError)
    ensures e.kind.Authentication? && e.message == message && e.details == DetailsOrEmpty(details)
  {
    McpError(Authentication, message, DetailsOrEmpty(details))
  }

  function NewQuotaExhaustedError(message: string, retryAfterSeconds: int := 0,
                                  details: Option<Details> := None): (e: McpError)
    ensures e.kind == QuotaExhausted(retryAfterSeconds)
    ensures e.message == message && e.details == DetailsOrEmpty(details)
  {
    McpError(QuotaExhausted(retryAfterSeconds), message, DetailsOrEmpty(details))
  }

  function NewResourceNotFoundError(message: string, resourceType: string := "",
                                    resourceId: string := "",
                                    details: Option<Details> := None): (e: McpError)
    ensures e.kind == ResourceNotFound(resourceType, resourceId)
    ensures e.message == message && e.details == DetailsOrEmpty(details)
  {
    McpError(ResourceNotFound(resourceType, resourceId), message, DetailsOrEmpty(details))
  }

  function NewInvalidInputError(message: string, field: string := "",
                                details: Option<Details> := None): (e: McpError)
    ensures e.kind == InvalidInput(field)
    ensures e.message == message && e.details == DetailsOrEmpty(details)
  {
    McpError(InvalidInput(field), message, DetailsOrEmpty(details))
  }

  /** The defaults of the subclass constructors: no retry delay, empty
      resource type and id, empty field, empty details. */
  lemma ConstructorDefaults(message: string)
    ensures NewQuotaExhaustedError(message).kind.retryAfterSeconds == 0
    ensures NewResourceNotFoundError(message).kind == ResourceNotFound("", "")
    ensures NewInvalidInputError(message).kind.field == ""
    ensures NewMcpError(message).details == map[] && NewMcpError(message).message == message
    ensures NewMcpError(message, Some(map[])).details == map[]
  {
  }

  /** The user-facing texts, by error code. */
  const ErrorMessages: map<string, string> := map[
    "AUTHENTICATION_ERROR" :=
      "Errore auth: verifica developer_token e refresh_token. Rigenera token se scaduto.",
    "QUOTA_ERROR" :=
      "Quota esaurita: attendi prima di riprovare. Limite: controlla developer token access level.",
    "REQUEST_ERROR" := "Errore nella request: verifica customer_id e parametri.",
    "INTERNAL_ERROR" :=
      "Errore interno Google Ads: riprova tra 30s. Se persiste, controlla status.cloud.google.com",
    "RESOURCE_NOT_FOUND" := "Risorsa non trovata: verifica che l'ID sia corretto e accessibile.",
    "FIELD_ERROR" := "Campo non valido nella query GAQL. Controlla sintassi e nomi campi."
  ]

  /** The table text for a known code, a generic text naming the code otherwise. */
  function BaseMessage(code: string): (m: string)
    ensures code in ErrorMessages ==> m == ErrorMessages[code]
    ensures code !in ErrorMessages ==> m == "Errore Google Ads (" + code + ")"
  {
    if code in ErrorMessages then ErrorMessages[code] else "Errore Google Ads (" + code + ")"
  }

  /** The message text: the base message, then " Dettaglio: " and the detail. */
  function FormatGoogleAdsError(code: string, detail: string): (r: string)
    ensures BaseMessage(code) <= r && |r| == |BaseMessage(code)| + 12 + |detail|
    ensures r[|BaseMessage(code)|..|BaseMessage(code)| + 12] == " Dettaglio: "
    ensures r[|r| - |detail|..] == detail
  {
    BaseMessage(code) + " Dettaglio: " + detail
  }

  /** The formatted text is never empty, names the detail at its end, and for
      an unknown code names the code itself. */
  lemma FormatShape(code: string, detail: string)
    ensures |FormatGoogleAdsError(code, detail)| > |detail| + 12
    ensures FormatGoogleAdsError(code, detail)[|FormatGoogleAdsError(code, detail)| - |detail|..] == detail
    ensures code !in ErrorMessages ==>
      FormatGoogleAdsError(code, detail)[19..19 + |code|] == code
  {
    var r := FormatGoogleAdsError(code, detail);
    assert |BaseMessage(code)| > 0 by {
      if code in ErrorMessages {
        assert ErrorMessages[code] != [];
      }
    }
    assert r == (BaseMessage(code) + " Dettaglio: ") + detail;
    if code !in ErrorMessages {
      assert r == "Errore Google Ads (" + code + (") Dettaglio: " + detail);
    }
  }
}
