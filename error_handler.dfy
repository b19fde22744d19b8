/**
 * Error normalisation of the first frontend (`src/utils/errorHandler.ts`): any thrown value becomes
 * an application error with a message and a code, and `handleError` turns it into the text shown to
 * the user. Logging to the console is left out.
 */
module ErrorHandler {
  import opened Wrappers

  /** What a `catch` can receive, as far as `normalizeError` distinguishes it. */
  datatype Thrown = ErrorObject(message: string) | StringValue(text: string) | OtherValue

  /** `AppError`: `details` keeps the thrown value when the source attaches it. */
  datatype AppError = AppError(message: string, code: Option<string>, details: Option<Thrown>)

  const UnknownErrorCode := "UNKNOWN_ERROR"
  const StringErrorCode := "STRING_ERROR"
  const SupabaseErrorCode := "SUPABASE_ERROR"
  const NetworkErrorCode := "NETWORK_ERROR"
  const ValidationErrorCode := "VALIDATION_ERROR"

  const UnknownErrorMessage := "An unknown error occurred"
  const SupabaseMessage := "資料庫連線錯誤，請稍後再試"
  const NetworkMessage := "網路連線失敗，請檢查您的網路設定"
  const ValidationMessage := "輸入資料驗證失敗，請檢查您的輸入"
  const FallbackMessage := "發生未知錯誤，請稍後再試"

  /** `normalizeError` (lines 15-36). */
  function NormalizeError(error: Thrown): (r: AppError)
    ensures error.ErrorObject? ==> r.message == error.message && r.code == Some(UnknownErrorCode)
    ensures error.StringValue? ==> r.message == error.text && r.code == Some(StringErrorCode) && r.details.None?
    ensures error.OtherValue? ==> r.message == UnknownErrorMessage && r.code == Some(UnknownErrorCode)
    ensures !error.StringValue? ==> r.details == Some(error)
  {
    match error
    case ErrorObject(message) => AppError(message, Some(UnknownErrorCode), Some(error))
    case StringValue(text) => AppError(text, Some(StringErrorCode), None)
    case OtherValue => AppError(UnknownErrorMessage, Some(UnknownErrorCode), Some(error))
  }

  /** `handleError` (lines 53-68) without its logging, switch cases included. */
  function HandleError(error: Thrown): (r: string)
    ensures r != ""
  {
    var normalized := NormalizeError(error);
    if normalized.code == Some(SupabaseErrorCode) then SupabaseMessage
    else if normalized.code == Some(NetworkErrorCode) then NetworkMessage
    else if normalized.code == Some(ValidationErrorCode) then ValidationMessage
    else if normalized.message != "" then normalized.message
    else FallbackMessage
  }

  // ---------------------------------------------------------------------------
  // Properties

  /** Every normalised error carries one of two codes, never one the switch looks for. */
  lemma NormalizedCodes(error: Thrown)
    ensures NormalizeError(error).code == Some(UnknownErrorCode) || NormalizeError(error).code == Some(StringErrorCode)
    ensures NormalizeError(error).code != Some(SupabaseErrorCode)
    ensures NormalizeError(error).code != Some(NetworkErrorCode)
    ensures NormalizeError(error).code != Some(ValidationErrorCode)
  {
  }

  /** So `handleError` always takes the default branch: the message, or the fallback when it is empty. */
  lemma HandleErrorTakesDefault(error: Thrown)
    ensures NormalizeError(error).message != "" ==> HandleError(error) == NormalizeError(error).message
    ensures NormalizeError(error).message == "" ==> HandleError(error) == FallbackMessage
  {
    NormalizedCodes(error);
  }

  /** What the user sees for each kind of thrown value. */
  lemma HandleErrorMessages(message: string)
    ensures message != "" ==> HandleError(ErrorObject(message)) == message && HandleError(StringValue(message)) == message
    ensures HandleError(ErrorObject("")) == FallbackMessage && HandleError(StringValue("")) == FallbackMessage
    ensures HandleError(OtherValue) == UnknownErrorMessage
  {
    HandleErrorTakesDefault(ErrorObject(message));
    HandleErrorTakesDefault(StringValue(message));
    HandleErrorTakesDefault(ErrorObject(""));
    HandleErrorTakesDefault(StringValue(""));
    HandleErrorTakesDefault(OtherValue);
  }
}
