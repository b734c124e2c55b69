/** The IPFS upload hook of frontend/app/hooks/usePinata.ts: the checks made before a
    request is sent, the URL built from the pinned hash, the error message chosen for a
    failure, and the `isUploading` / `uploadError` state. The request itself is not
    modelled: its outcome is a parameter. */
module Pinata {
  import opened Types
  import opened JsString

  const ApiKeyPlaceholder := "your_pinata_api_key"
  const SecretKeyPlaceholder := "your_pinata_secret_key"

  /** 100 MiB. */
  const MaxFileSize := 100 * 1024 * 1024

  const AllowedTypes := ["image/jpeg", "image/jpg", "image/png", "image/gif", "image/webp"]

  const GatewayPrefix := "https://gateway.pinata.cloud/ipfs/"

  const KeysMissingMessage := "Pinata API keys not configured. Please set NEXT_PUBLIC_PINATA_API_KEY and NEXT_PUBLIC_PINATA_SECRET_KEY"
  const JsonKeysMissingMessage := "Pinata API keys not configured"
  const NoFileMessage := "No file provided"
  const FileTooLargeMessage := "File size too large. Maximum size is 100MB"
  const InvalidTypeMessage := "Invalid file type. Only JPEG, PNG, GIF, and WebP images are allowed"
  const StatusMessagePrefix := "Upload failed with status: "
  const FileUploadFallback := "Upload failed"
  const JsonUploadFallback := "JSON upload failed"

  /** `process.env.X || placeholder`: the variable when it is set and not empty, the
      placeholder otherwise. */
  function ConfiguredKey(env: Option<string>, placeholder: string): (key: string)
    ensures env.Some? && env.value != "" ==> key == env.value
    ensures env.None? || env.value == "" ==> key == placeholder
  {
    if env.Some? && env.value != "" then env.value else placeholder
  }

  /** The two keys the hook sends. */
  datatype Keys = Keys(apiKey: string, secretKey: string)

  function KeysFromEnv(apiEnv: Option<string>, secretEnv: Option<string>): (keys: Keys)
    ensures keys.apiKey == ConfiguredKey(apiEnv, ApiKeyPlaceholder)
    ensures keys.secretKey == ConfiguredKey(secretEnv, SecretKeyPlaceholder)
  {
    Keys(ConfiguredKey(apiEnv, ApiKeyPlaceholder), ConfiguredKey(secretEnv, SecretKeyPlaceholder))
  }

  /** Neither key is still its placeholder. */
  predicate KeysConfigured(keys: Keys) {
    keys.apiKey != ApiKeyPlaceholder && keys.secretKey != SecretKeyPlaceholder
  }

  /** An unset or empty variable leaves its placeholder in place, so the keys count as not
      configured. */
  lemma UnsetVariableMeansUnconfigured(apiEnv: Option<string>, secretEnv: Option<string>)
    ensures (apiEnv.None? || apiEnv.value == "" || secretEnv.None? || secretEnv.value == "")
      ==> !KeysConfigured(KeysFromEnv(apiEnv, secretEnv))
  {
  }

  /** The part of a `File` the checks read: its size in bytes and its MIME type. */
  datatype File = File(size: nat, mimeType: string)

  /** The checks of `uploadToPinata`, in order: keys, presence, size, type. None means the
      request is sent. */
  function FileCheck(keys: Keys, file: Option<File>): (error: Option<string>)
    ensures !KeysConfigured(keys) ==> error == Some(KeysMissingMessage)
    ensures KeysConfigured(keys) && file.None? ==> error == Some(NoFileMessage)
    ensures KeysConfigured(keys) && file.Some? && file.value.size > MaxFileSize ==>
      error == Some(FileTooLargeMessage)
    ensures KeysConfigured(keys) && file.Some? && file.value.size <= MaxFileSize ==>
      error == if file.value.mimeType in AllowedTypes then None else Some(InvalidTypeMessage)
    ensures error.None? <==>
      KeysConfigured(keys) && file.Some? && file.value.size <= MaxFileSize && file.value.mimeType in AllowedTypes
  {
    if !KeysConfigured(keys) then Some(KeysMissingMessage)
    else if file.None? then Some(NoFileMessage)
    else if file.value.size > MaxFileSize then Some(FileTooLargeMessage)
    else if file.value.mimeType !in AllowedTypes then Some(InvalidTypeMessage)
    else None
  }

  /** The size limit is inclusive: a file of exactly 100 MiB of an allowed type passes,
      one byte more does not. */
  lemma SizeLimitInclusive(keys: Keys, mimeType: string)
    requires KeysConfigured(keys) && mimeType in AllowedTypes
    ensures FileCheck(keys, Some(File(104857600, mimeType))).None?
    ensures FileCheck(keys, Some(File(104857601, mimeType))) == Some(FileTooLargeMessage)
  {
  }

  /** The check of `uploadJSON`: the keys only. */
  function JsonCheck(keys: Keys): (error: Option<string>)
    ensures error.None? <==> KeysConfigured(keys)
    ensures error.Some? ==> error.value == JsonKeysMissingMessage
  {
    if !KeysConfigured(keys) then Some(JsonKeysMissingMessage) else None
  }

  /** Whatever file passes its checks, the JSON check passes for the same keys; the JSON
      check makes no size or type check, so it passes for a file that fails those. */
  lemma JsonCheckIsKeysOnly(keys: Keys, file: Option<File>)
    ensures FileCheck(keys, file).None? ==> JsonCheck(keys).None?
    ensures KeysConfigured(keys) ==> JsonCheck(keys).None?
    ensures !KeysConfigured(keys) ==> FileCheck(keys, file).Some? && JsonCheck(keys).Some?
  {
  }

  /** How the request ended: an OK response with the pinned hash, a response that is not
      OK (its status and the `error` field of its body, if any), or a thrown value. */
  datatype Response = Ok(ipfsHash: string) | NotOk(status: nat, errorField: Option<string>) | Threw(thrown: Thrown)

  /** The URL returned for a pinned hash. */
  function GatewayUrl(ipfsHash: string): (url: string)
    ensures StartsWith(url, GatewayPrefix)
    ensures url[|GatewayPrefix|..] == ipfsHash
  {
    GatewayPrefix + ipfsHash
  }

  /** `errorData.error || "Upload failed with status: " + status`. */
  function NotOkMessage(status: nat, errorField: Option<string>): (message: string)
    ensures errorField.Some? && errorField.value != "" ==> message == errorField.value
    ensures errorField.None? || errorField.value == "" ==>
      StartsWith(message, StatusMessagePrefix) && message[|StatusMessagePrefix|..] == NatToDecimal(status)
  {
    if errorField.Some? && errorField.value != "" then errorField.value
    else StatusMessagePrefix + NatToDecimal(status)
  }

  /** Without an error field, the status can be read back from the message. */
  lemma StatusReadBack(status: nat, errorField: Option<string>)
    requires errorField.None? || errorField.value == ""
    ensures DecimalValue(NotOkMessage(status, errorField)[|StatusMessagePrefix|..]) == status
  {
    DecimalRoundTrip(status);
  }

  /** The outcome of a request that was sent: the gateway URL, or the message that ends up
      in `uploadError` (an Error's message, or the fallback for anything else thrown). */
  function ResponseResult(response: Response, fallback: string): (r: Result<string, string>)
    ensures response.Ok? <==> r.Success?
    ensures response.Ok? ==> r.value == GatewayUrl(response.ipfsHash)
    ensures response.NotOk? ==> r == Failure(NotOkMessage(response.status, response.errorField))
    ensures response.Threw? ==> r == Failure(MessageOf(response.thrown, fallback))
  {
    match response
    case Ok(h) => Success(GatewayUrl(h))
    case NotOk(status, field) => Failure(NotOkMessage(status, field))
    case Threw(t) => Failure(MessageOf(t, fallback))
  }

  /** `uploadToPinata` as a value: a failed check ends it with the check's message and no
      request; otherwise the request's outcome decides. */
  function UploadFileResult(keys: Keys, file: Option<File>, response: Response): (r: Result<string, string>)
    ensures FileCheck(keys, file).Some? ==> r == Failure(FileCheck(keys, file).value)
    ensures FileCheck(keys, file).None? ==> r == ResponseResult(response, FileUploadFallback)
    ensures r.Success? ==> FileCheck(keys, file).None? && response.Ok?
  {
    match FileCheck(keys, file)
    case Some(message) => Failure(message)
    case None => ResponseResult(response, FileUploadFallback)
  }

  /** `uploadJSON` as a value. */
  function UploadJsonResult(keys: Keys, response: Response): (r: Result<string, string>)
    ensures JsonCheck(keys).Some? ==> r == Failure(JsonKeysMissingMessage)
    ensures JsonCheck(keys).None? ==> r == ResponseResult(response, JsonUploadFallback)
    ensures r.Success? ==> KeysConfigured(keys) && response.Ok?
  {
    match JsonCheck(keys)
    case Some(message) => Failure(message)
    case None => ResponseResult(response, JsonUploadFallback)
  }

  /** A successful upload always returns a gateway URL, from which the pinned hash can be
      read back. */
  lemma SuccessIsGatewayUrl(keys: Keys, file: Option<File>, response: Response)
    requires UploadFileResult(keys, file, response).Success?
    ensures StartsWith(UploadFileResult(keys, file, response).value, GatewayPrefix)
    ensures UploadFileResult(keys, file, response).value[|GatewayPrefix|..] == response.ipfsHash
  {
  }

  /** The message `uploadError` holds after an upload: none after a success. */
  function ErrorAfter(r: Result<string, string>): (error: Option<string>)
    ensures r.Success? <==> error.None?
    ensures r.Failure? ==> error == Some(r.error)
  {
    match r
    case Success(_) => None
    case Failure(message) => Some(message)
  }

  /** The hook's state. */
  class Uploader {
    var isUploading: bool
    var uploadError: Option<string>

    constructor ()
      ensures !isUploading && uploadError.None?
    {
      isUploading := false;
      uploadError := None;
    }

    /** The start of either upload: uploading, with no error. */
    method BeginUpload()
      modifies this
      ensures isUploading && uploadError.None?
    {
      isUploading := true;
      uploadError := None;
    }

    /** The `catch` and `finally` of either upload: a failure's message is stored (a
        success leaves the error as it was), and `isUploading` is cleared whatever the
        outcome. */
    method FinishUpload(r: Result<string, string>)
      modifies this
      ensures !isUploading
      ensures r.Failure? ==> uploadError == Some(r.error)
      ensures r.Success? ==> uploadError == old(uploadError)
    {
      if r.Failure? {
        uploadError := Some(r.error);
      }
      isUploading := false;
    }

    /** `uploadToPinata`: the checks in order, then the request. Returns the URL, or, for
        a failure, the message stored in `uploadError`; the value rethrown (the Error
        itself, or the raw value for anything else thrown) is not modelled. */
    method UploadToPinata(keys: Keys, file: Option<File>, response: Response) returns (r: Result<string, string>)
      modifies this
      ensures r == UploadFileResult(keys, file, response)
      ensures !isUploading && uploadError == ErrorAfter(r)
    {
      BeginUpload();
      if keys.apiKey == ApiKeyPlaceholder || keys.secretKey == SecretKeyPlaceholder {
        r := Failure(KeysMissingMessage);
      } else if file.None? {
        r := Failure(NoFileMessage);
      } else if file.value.size > MaxFileSize {
        r := Failure(FileTooLargeMessage);
      } else if file.value.mimeType !in AllowedTypes {
        r := Failure(InvalidTypeMessage);
      } else {
        r := ResponseResult(response, FileUploadFallback);
      }
      FinishUpload(r);
    }

    /** `uploadJSON`: the key check, then the request. */
    method UploadJson(keys: Keys, response: Response) returns (r: Result<string, string>)
      modifies this
      ensures r == UploadJsonResult(keys, response)
      ensures !isUploading && uploadError == ErrorAfter(r)
    {
      BeginUpload();
      if keys.apiKey == ApiKeyPlaceholder || keys.secretKey == SecretKeyPlaceholder {
        r := Failure(JsonKeysMissingMessage);
      } else {
        r := ResponseResult(response, JsonUploadFallback);
      }
      FinishUpload(r);
    }

    /** `clearError` */
    method ClearError()
      modifies this`uploadError
      ensures uploadError.None?
    {
      uploadError := None;
    }
  }
}
