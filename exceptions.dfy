/**
 * The error taxonomy of the backup add-on (backup/exceptions.py): every failure the
 * add-on can explain to a user is one constructor of KnownError, and each carries a
 * code, a message, an HTTP status and a structured data payload.
 */
module Exceptions {
  import opened Wrappers

  /** A JSON-like value: the parsed API responses ensureKey searches and the payloads data() returns. */
  datatype Value =
    | Null
    | Bool(b: bool)
    | Int(i: int)
    | Str(s: string)
    | Array(items: seq<Value>)
    | Object(fields: map<string, Value>)

  /** The names of the ERROR_* constants the taxonomy imports; their string values are not modelled. */
  datatype CodeName =
    | ErrorMultipleDeletes | ErrorHaDeleteError | ErrorGoogleSession | ErrorGoogleTimeout
    | ErrorGoogleInternal | ErrorGoogleConnect | ErrorGoogleDns | ErrorDriveFull
    | ErrorBadPasswordKey | ErrorInvalidConfig | ErrorLogic | ErrorCredsExpired
    | ErrorNoSnapshot | ErrorNotUploadable | ErrorPleaseWait | ErrorProtocol
    | ErrorSnapshotInProgress | ErrorUploadFailed | ErrorExistingFolder
    | ErrorMultipleFolders | ErrorBackupFolderMissing

  /** What code() returns: one of the registered constants, or the value a SimulatedError was given. */
  datatype ErrorCode = Registered(name: CodeName) | Given(text: string)

  /** One constructor per KnownError subclass, carrying what its __init__ stores. */
  datatype KnownError =
    | SimulatedError(code: string)
    | LogicError(message: string)
    | ProtocolError(parameter: string, objectName: Option<string>, debugObject: Option<Value>)
    | SnapshotInProgress
    | SnapshotPasswordKeyInvalid
    | UploadFailed
    | GoogleCredentialsExpired
    | NoSnapshot
    | NotUploadable
    | PleaseWait
    | InvalidConfigurationValue(key: string, current: string)
    | DeleteMutlipleSnapshotsError(deleteSources: Value)
    | DriveQuotaExceeded
    | GoogleDnsFailure
    | GoogleCantConnect
    | GoogleInternalError
    | GoogleTimeoutError
    | GoogleSessionError
    | HomeAssistantDeleteError
    | ExistingBackupFolderError(existingId: string)
    | MultipleBackupFoldersError(count: int)
    | BackupFolderMissingError

  /** The variants whose constructor takes no argument. */
  predicate Parameterless(e: KnownError)
  {
    !(e.SimulatedError? || e.LogicError? || e.ProtocolError? || e.InvalidConfigurationValue?
      || e.DeleteMutlipleSnapshotsError? || e.ExistingBackupFolderError? || e.MultipleBackupFoldersError?)
  }

  /** Python truthiness of ProtocolError's optional object name: None and "" are falsy. */
  predicate Truthy(name: Option<string>)
  {
    name.Some? && name.value != ""
  }

  function Code(e: KnownError): ErrorCode
  {
    match e
    case SimulatedError(c) => Given(c)
    case LogicError(_) => Registered(ErrorLogic)
    case ProtocolError(_, _, _) => Registered(ErrorProtocol)
    case SnapshotInProgress => Registered(ErrorSnapshotInProgress)
    case SnapshotPasswordKeyInvalid => Registered(ErrorBadPasswordKey)
    case UploadFailed => Registered(ErrorUploadFailed)
    case GoogleCredentialsExpired => Registered(ErrorCredsExpired)
    case NoSnapshot => Registered(ErrorNoSnapshot)
    case NotUploadable => Registered(ErrorNotUploadable)
    case PleaseWait => Registered(ErrorPleaseWait)
    case InvalidConfigurationValue(_, _) => Registered(ErrorInvalidConfig)
    case DeleteMutlipleSnapshotsError(_) => Registered(ErrorMultipleDeletes)
    case DriveQuotaExceeded => Registered(ErrorDriveFull)
    case GoogleDnsFailure => Registered(ErrorGoogleDns)
    case GoogleCantConnect => Registered(ErrorGoogleConnect)
    case GoogleInternalError => Registered(ErrorGoogleInternal)
    case GoogleTimeoutError => Registered(ErrorGoogleTimeout)
    case GoogleSessionError => Registered(ErrorGoogleSession)
    case HomeAssistantDeleteError => Registered(ErrorHaDeleteError)
    case ExistingBackupFolderError(_) => Registered(ErrorExistingFolder)
    case MultipleBackupFoldersError(_) => Registered(ErrorMultipleFolders)
    case BackupFolderMissingError => Registered(ErrorBackupFolderMissing)
  }

  const ProtocolPrefix := "Required key '"
  const ProtocolInfix := "' was missing from "
  const ConfigInfix := "' isn't a valid value for "

  function Message(e: KnownError): string
  {
    match e
    case SimulatedError(c) => "Gave code " + c
    case LogicError(m) => m
    case ProtocolError(p, n, _) =>
      if Truthy(n) then ProtocolPrefix + p + ProtocolInfix + n.value else p
    case SnapshotInProgress => "A snapshot is already in progress"
    case SnapshotPasswordKeyInvalid =>
      "Couldn't find your snapshot password in your secrets file.  Please check your settings."
    case UploadFailed => "Snapshot upload failed.  Please check the supervisor logs for details."
    case GoogleCredentialsExpired =>
      "Your Google Drive credentials have expired.  Please reauthorize with Google Drive through the Web UI."
    case NoSnapshot => "The snapshot doesn't exist anymore"
    case NotUploadable => "This snapshot can't be uploaded to Home Assistant yet"
    case PleaseWait => "Please wait until the sync is finished."
    case InvalidConfigurationValue(k, v) => "'" + v + ConfigInfix + k
    case DeleteMutlipleSnapshotsError(_) =>
      "The add-on has been configured to delete more than one older snapshots.  Please confirm this by visiting the add-on's web UI or by setting the config option 'confirm_multiple_deletes'=false in your add-on configuration."
    case DriveQuotaExceeded => "Google Drive is out of space"
    case GoogleDnsFailure => "Unable to resolve host www.googleapis.com"
    case GoogleCantConnect => "Unable to connect to www.googleapis.com"
    case GoogleInternalError => "Google Drive returned an internal error (HTTP: 5XX)"
    case GoogleTimeoutError => "Timed out while trying to reach Google Drive"
    case GoogleSessionError => "Upload session with Google Drive expired.  The upload could not complete."
    case HomeAssistantDeleteError => "Home Assistant refused to delete the snapshot."
    case ExistingBackupFolderError(_) =>
      "A backup folder already exists.  Please visit the add-on Web UI to select where to backup."
    case MultipleBackupFoldersError(_) =>
      "Multiple backup folders were found.  Please visit the add-on Web UI to select where to backup."
    case BackupFolderMissingError =>
      "The backup folder is missing.  Please visit the add-on Web UI to select where to backup."
  }

  /** The base class default; no variant overrides it. */
  function HttpStatus(e: KnownError): int
  {
    500
  }

  /** The base class default is the empty mapping; three variants override it. */
  function Data(e: KnownError): Value
  {
    match e
    case DeleteMutlipleSnapshotsError(sources) => sources
    case ExistingBackupFolderError(id) => Object(map["existing_id" := Str(id)])
    case MultipleBackupFoldersError(n) => Object(map["count" := Int(n)])
    case _ => Object(map[])
  }

  /**
   * Looks up a required key of a parsed object. A missing key raises a ProtocolError
   * naming the key and the object, with the object attached for debugging.
   */
  function EnsureKey(key: string, target: map<string, Value>, name: string): (r: Result<Value, KnownError>)
    ensures r.Success? <==> key in target
    ensures r.Success? ==> r.value == target[key]
    ensures r.Failure? ==> Code(r.error) == Registered(ErrorProtocol)
    ensures r.Failure? ==> r.error.ProtocolError? && r.error.parameter == key
                           && r.error.objectName == Some(name) && r.error.debugObject == Some(Object(target))
    ensures r.Failure? && name != "" ==> Message(r.error) == ProtocolPrefix + key + ProtocolInfix + name
    ensures r.Failure? && name == "" ==> Message(r.error) == key
  {
    if key !in target then Failure(ProtocolError(key, Some(name), Some(Object(target))))
    else Success(target[key])
  }

  /** The message of a ProtocolError reads the parameter and the name, never the debug object. */
  lemma ProtocolMessageIgnoresDebugObject(p: string, n: Option<string>, d1: Option<Value>, d2: Option<Value>)
    ensures Message(ProtocolError(p, n, d1)) == Message(ProtocolError(p, n, d2))
  {
  }

  /**
   * A named ProtocolError's message is the fixed prefix, the key, the fixed infix and the
   * name, in that order: it mentions both, and the key can be read back from it.
   */
  lemma ProtocolMessageMentionsKeyAndName(p: string, n: string, d: Option<Value>)
    requires n != ""
    ensures var m := Message(ProtocolError(p, Some(n), d));
            && |m| == |ProtocolPrefix| + |p| + |ProtocolInfix| + |n|
            && m[..|ProtocolPrefix|] == ProtocolPrefix
            && m[|ProtocolPrefix|..|ProtocolPrefix| + |p|] == p
            && m[|ProtocolPrefix| + |p|..|m| - |n|] == ProtocolInfix
            && m[|m| - |n|..] == n
  {
    var m := Message(ProtocolError(p, Some(n), d));
    assert m == ProtocolPrefix + p + ProtocolInfix + n;
  }

  /** Without a name (None or the empty string) the message is the bare parameter. */
  lemma ProtocolMessageWithoutName(p: string, n: Option<string>, d: Option<Value>)
    requires !Truthy(n)
    ensures Message(ProtocolError(p, n, d)) == p
  {
  }

  /** SimulatedError(c) reports c as its code, and c is what follows "Gave code " in its message. */
  lemma SimulatedErrorEchoesCode(c: string)
    ensures Code(SimulatedError(c)) == Given(c)
    ensures var m := Message(SimulatedError(c)); |m| >= 10 && m[..10] == "Gave code " && m[10..] == c
  {
  }

  /** LogicError carries its message verbatim under the logic code. */
  lemma LogicErrorEchoesMessage(m: string)
    ensures Message(LogicError(m)) == m && Code(LogicError(m)) == Registered(ErrorLogic)
  {
  }

  /** InvalidConfigurationValue quotes the rejected value first and names the key last. */
  lemma InvalidConfigurationMessage(k: string, v: string)
    ensures Code(InvalidConfigurationValue(k, v)) == Registered(ErrorInvalidConfig)
    ensures var m := Message(InvalidConfigurationValue(k, v));
            && |m| == 1 + |v| + |ConfigInfix| + |k|
            && m[0] == '\'' && m[1..1 + |v|] == v
            && m[1 + |v|..|m| - |k|] == ConfigInfix && m[|m| - |k|..] == k
  {
    var m := Message(InvalidConfigurationValue(k, v));
    assert m == "'" + v + ConfigInfix + k;
  }

  /** Only a SimulatedError reports a code outside the registry. */
  lemma CodeRegistered(e: KnownError)
    ensures Code(e).Given? <==> e.SimulatedError?
  {
  }

  /** Every variant reports status 500. */
  lemma HttpStatusAlways500(e: KnownError)
    ensures HttpStatus(e) == 500
  {
  }

  /** data() is the empty mapping except for the three variants that carry a payload. */
  lemma DataDefaultsToEmpty(e: KnownError)
    ensures !(e.DeleteMutlipleSnapshotsError? || e.ExistingBackupFolderError? || e.MultipleBackupFoldersError?)
            ==> Data(e) == Object(map[])
    ensures e.DeleteMutlipleSnapshotsError? ==> Data(e) == e.deleteSources
    ensures e.ExistingBackupFolderError? ==>
              Data(e).Object? && Data(e).fields.Keys == {"existing_id"}
              && Data(e).fields["existing_id"] == Str(e.existingId)
    ensures e.MultipleBackupFoldersError? ==>
              Data(e).Object? && Data(e).fields.Keys == {"count"} && Data(e).fields["count"] == Int(e.count)
  {
  }

  /**
   * Among the parameterless variants the registered constant names tell the variants
   * apart: a consumer dispatching on the code name recovers the variant.
   */
  lemma ParameterlessCodeIdentifiesVariant(a: KnownError, b: KnownError)
    requires Parameterless(a) && Parameterless(b)
    ensures Code(a) == Code(b) <==> a == b
  {
  }

  /** The registered code names the constructor: two errors with the same code name are the same kind. */
  lemma RegisteredCodeIdentifiesKind(a: KnownError, b: KnownError)
    requires Code(a).Registered? && Code(a) == Code(b)
    ensures a.LogicError? <==> b.LogicError?
    ensures a.ProtocolError? <==> b.ProtocolError?
    ensures a.InvalidConfigurationValue? <==> b.InvalidConfigurationValue?
    ensures a.DeleteMutlipleSnapshotsError? <==> b.DeleteMutlipleSnapshotsError?
    ensures a.ExistingBackupFolderError? <==> b.ExistingBackupFolderError?
    ensures a.MultipleBackupFoldersError? <==> b.MultipleBackupFoldersError?
    ensures Parameterless(a) ==> a == b
  {
  }
}
