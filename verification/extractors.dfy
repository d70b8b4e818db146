/**
 * The record-to-typed-value extractors of the Keeper client: each checks the
 * record's declared type, which is the only check that can fail, and then
 * fills its output from fixed field types and labels, degrading every missing
 * or malformed field to Go's zero value.
 */
module Extractors {
  import opened Wrappers
  import opened Errors
  import opened KeeperRecord
  import opened KeeperTypes
  import Base64
  import Decimal

  /** Declared record types, one per extractor. */
  const LoginType := "login"
  const DatabaseCredentialsType := "databaseCredentials"
  const ServerCredentialsType := "serverCredentials"
  const ApiKeyType := "API Key"
  const EncryptedNotesType := "encryptedNotes"
  const FileType := "file"
  const SoftwareLicenseType := "softwareLicense"
  const SshKeysType := "sshKeys"

  /** Field type of passwords and SSH passphrases. */
  const PasswordFieldType := "password"

  /**
   * `time.Unix(seconds, 0).Format(time.RFC3339)`: the rendering depends on the
   * process's local time zone, so it is a parameter of the model.
   */
  type TimeFormatter = int -> string

  /**
   * Epoch milliseconds, written as a decimal string, to a timestamp; "" when the
   * string is not a 64-bit decimal integer. The division truncates toward zero.
   */
  function ConvertDateStr(dateStr: string, local: TimeFormatter): (r: string)
    ensures Decimal.Atoi(dateStr).None? ==> r == ""
    ensures Decimal.Atoi(dateStr).Some? ==> r == local(Decimal.Quot(Decimal.Atoi(dateStr).value, 1000))
    ensures forall ms :: Decimal.InIntRange(ms) && dateStr == Decimal.FormatInt(ms) ==> r == local(Decimal.Quot(ms, 1000))
  {
    Decimal.AtoiFormatIntAll();
    match Decimal.Atoi(dateStr)
    case None => ""
    case Some(ms) => local(Decimal.Quot(ms, 1000))
  }

  /** The type gate shared by every extractor. */
  function ValidateRecord(r: Record, recordType: string): (res: Result<Record, Error>)
    ensures res.Ok? <==> r.recordType == recordType
    ensures res.Ok? ==> res.value == r
    ensures res.Err? ==> res.error == WrongRecordType(r.uid, recordType, r.recordType)
  {
    if r.recordType != recordType then Err(WrongRecordType(r.uid, recordType, r.recordType))
    else Ok(r)
  }

  /** `ref` describes `f`: metadata copied, content the standard base64 of its bytes. */
  ghost predicate IsFileRefOf(f: Attachment, ref: FileRef) {
    && ref.uid == f.uid
    && ref.title == f.title
    && ref.name == f.name
    && ref.fileType == f.fileType
    && ref.size == f.size
    && ref.lastModified == f.lastModified
    && ref.base64Data == Base64.Encode(f.data)
  }

  /** One reference per attached file, in the same order. */
  ghost predicate AreFileRefsOf(files: seq<Attachment>, refs: seq<FileRef>) {
    && |refs| == |files|
    && forall i :: 0 <= i < |refs| ==> IsFileRefOf(files[i], refs[i])
  }

  function FileRefOf(f: Attachment): FileRef {
    FileRef(f.uid, f.title, f.name, f.fileType, f.size, f.lastModified, Base64.Encode(f.data))
  }

  /** `getFileRecords` over the record's attachments. */
  function FileRecords(files: seq<Attachment>): (refs: seq<FileRef>)
    ensures AreFileRefsOf(files, refs)
    decreases |files|
  {
    if |files| == 0 then []
    else [FileRefOf(files[0])] + FileRecords(files[1..])
  }

  function GetFileRecords(r: Record): (refs: seq<FileRef>)
    ensures |refs| == |r.files|
    ensures AreFileRefsOf(r.files, refs)
  {
    FileRecords(r.files)
  }

  /** `common` carries the record's identity verbatim and a reference for each attachment. */
  ghost predicate IsCommonOf(r: Record, common: KeeperRecordField) {
    && common.uid == r.uid
    && common.recordType == r.recordType
    && common.title == r.title
    && common.notes == r.notes
    && AreFileRefsOf(r.files, common.fileRefs)
  }

  /** `getRecordFields`. */
  function GetRecordFields(r: Record): (common: KeeperRecordField)
    ensures IsCommonOf(r, common)
  {
    KeeperRecordField(r.uid, r.recordType, r.title, r.notes, GetFileRecords(r))
  }

  /**
   * `getHostItemData`: reads the object in the first "host" field. A port
   * that is not a decimal integer becomes -1; an absent or non-string port
   * stays 0; anything missing higher up gives the zero connection.
   */
  function GetHostItemData(r: Record): (hc: HostConnection)
    ensures FirstObject(r, "host").None? ==> hc == NoHost
    ensures FirstObject(r, "host").Some? ==>
      var m := FirstObject(r, "host").value;
      && hc.hostName == StringMember(m, "hostName").GetOr("")
      && (StringMember(m, "port").None? ==> hc.port == 0)
      && (StringMember(m, "port").Some? && Decimal.Atoi(StringMember(m, "port").value).None? ==> hc.port == -1)
      && (StringMember(m, "port").Some? && Decimal.Atoi(StringMember(m, "port").value).Some? ==>
            hc.port == Decimal.Atoi(StringMember(m, "port").value).value)
    ensures Decimal.InIntRange(hc.port)
  {
    match FirstObject(r, "host")
    case None => NoHost
    case Some(m) =>
      var hostName := StringMember(m, "hostName").GetOr("");
      match StringMember(m, "port")
      case None => HostConnection(hostName, 0)
      case Some(p) =>
        match Decimal.Atoi(p)
        case None => HostConnection(hostName, -1)
        case Some(port) => HostConnection(hostName, port)
  }

  /**
   * `getKeyPairItemData`: reads the object in the first "keyPair" field; each
   * key is copied only when it is a string, independently of the other.
   */
  function GetKeyPairItemData(r: Record): (kp: KeyPair)
    ensures FirstObject(r, "keyPair").None? ==> kp == NoKeyPair
    ensures FirstObject(r, "keyPair").Some? ==>
      var m := FirstObject(r, "keyPair").value;
      && kp.publicKey == StringMember(m, "publicKey").GetOr("")
      && kp.privateKey == StringMember(m, "privateKey").GetOr("")
  {
    match FirstObject(r, "keyPair")
    case None => NoKeyPair
    case Some(m) =>
      KeyPair(StringMember(m, "publicKey").GetOr(""), StringMember(m, "privateKey").GetOr(""))
  }

  function GetServerCredentials(r: Record): (res: Result<KeeperServerCredentials, Error>)
    ensures res.Err? <==> r.recordType != ServerCredentialsType
    ensures res.Err? ==> res.error == WrongRecordType(r.uid, ServerCredentialsType, r.recordType)
    ensures res.Ok? ==> IsCommonOf(r, res.value.common) && res.value.common.recordType == ServerCredentialsType
    ensures res.Ok? ==> res.value.hostConnection == GetHostItemData(r)
    ensures res.Ok? ==> IsFirstValue(r.fields, ByType("login"), res.value.login)
    ensures res.Ok? ==> IsFirstValue(r.fields, ByType(PasswordFieldType), res.value.password)
  {
    var record :- ValidateRecord(r, ServerCredentialsType);
    Ok(KeeperServerCredentials(
      GetRecordFields(record),
      GetHostItemData(record),
      GetFieldValueByType(record, "login"),
      GetFieldValueByType(record, PasswordFieldType)))
  }

  function GetDatabaseCredentials(r: Record): (res: Result<KeeperDataBaseCredentials, Error>)
    ensures res.Err? <==> r.recordType != DatabaseCredentialsType
    ensures res.Err? ==> res.error == WrongRecordType(r.uid, DatabaseCredentialsType, r.recordType)
    ensures res.Ok? ==> IsCommonOf(r, res.value.common) && res.value.common.recordType == DatabaseCredentialsType
    ensures res.Ok? ==> res.value.hostConnection == GetHostItemData(r)
    ensures res.Ok? ==> IsFirstValue(r.fields, ByType("login"), res.value.login)
    ensures res.Ok? ==> IsFirstValue(r.fields, ByType(PasswordFieldType), res.value.password)
    ensures res.Ok? ==> IsFirstValue(r.fields, ByType("text"), res.value.dbType)
  {
    var record :- ValidateRecord(r, DatabaseCredentialsType);
    Ok(KeeperDataBaseCredentials(
      GetRecordFields(record),
      GetHostItemData(record),
      GetFieldValueByType(record, "login"),
      GetFieldValueByType(record, PasswordFieldType),
      GetFieldValueByType(record, "text")))
  }

  function GetAPIKey(r: Record): (res: Result<KeeperAPIKey, Error>)
    ensures res.Err? <==> r.recordType != ApiKeyType
    ensures res.Err? ==> res.error == WrongRecordType(r.uid, ApiKeyType, r.recordType)
    ensures res.Ok? ==> IsCommonOf(r, res.value.common) && res.value.common.recordType == ApiKeyType
    ensures res.Ok? ==> IsFirstValue(r.fields, ByLabel("AppID"), res.value.appId)
    ensures res.Ok? ==> IsFirstValue(r.fields, ByLabel("ClientSecret"), res.value.clientSecret)
  {
    var record :- ValidateRecord(r, ApiKeyType);
    Ok(KeeperAPIKey(
      GetRecordFields(record),
      GetFieldValueByLabel(record, "AppID"),
      GetFieldValueByLabel(record, "ClientSecret")))
  }

  function GetEncryptedNote(r: Record, local: TimeFormatter): (res: Result<KeeperEncryptedNote, Error>)
    ensures res.Err? <==> r.recordType != EncryptedNotesType
    ensures res.Err? ==> res.error == WrongRecordType(r.uid, EncryptedNotesType, r.recordType)
    ensures res.Ok? ==> IsCommonOf(r, res.value.common) && res.value.common.recordType == EncryptedNotesType
    ensures res.Ok? ==> IsFirstValue(r.fields, ByType("note"), res.value.note)
    ensures res.Ok? ==> res.value.date == ConvertDateStr(GetFieldValueByType(r, "date"), local)
  {
    var record :- ValidateRecord(r, EncryptedNotesType);
    var noteContent := GetFieldValueByType(record, "note");
    Ok(KeeperEncryptedNote(
      GetRecordFields(record),
      noteContent,
      ConvertDateStr(GetFieldValueByType(record, "date"), local)))
  }

  function GetFile(r: Record): (res: Result<KeeperFile, Error>)
    ensures res.Err? <==> r.recordType != FileType
    ensures res.Err? ==> res.error == WrongRecordType(r.uid, FileType, r.recordType)
    ensures res.Ok? ==> IsCommonOf(r, res.value.common) && res.value.common.recordType == FileType
  {
    var record :- ValidateRecord(r, FileType);
    Ok(KeeperFile(GetRecordFields(record)))
  }

  function GetSoftwareLicense(r: Record, local: TimeFormatter): (res: Result<KeeperSoftwareLicense, Error>)
    ensures res.Err? <==> r.recordType != SoftwareLicenseType
    ensures res.Err? ==> res.error == WrongRecordType(r.uid, SoftwareLicenseType, r.recordType)
    ensures res.Ok? ==> IsCommonOf(r, res.value.common) && res.value.common.recordType == SoftwareLicenseType
    ensures res.Ok? ==> IsFirstValue(r.fields, ByType("licenseNumber"), res.value.licenseNumber)
    ensures res.Ok? ==> res.value.activationDate == ConvertDateStr(GetFieldValueByType(r, "date"), local)
    ensures res.Ok? ==> res.value.expirationDate == ConvertDateStr(GetFieldValueByType(r, "expirationDate"), local)
  {
    var record :- ValidateRecord(r, SoftwareLicenseType);
    Ok(KeeperSoftwareLicense(
      GetRecordFields(record),
      GetFieldValueByType(record, "licenseNumber"),
      ConvertDateStr(GetFieldValueByType(record, "date"), local),
      ConvertDateStr(GetFieldValueByType(record, "expirationDate"), local)))
  }

  function GetLogin(r: Record): (res: Result<KeeperLogin, Error>)
    ensures res.Err? <==> r.recordType != LoginType
    ensures res.Err? ==> res.error == WrongRecordType(r.uid, LoginType, r.recordType)
    ensures res.Ok? ==> IsCommonOf(r, res.value.common) && res.value.common.recordType == LoginType
    ensures res.Ok? ==> IsFirstValue(r.fields, ByType(LoginType), res.value.login)
    ensures res.Ok? ==> IsFirstValue(r.fields, ByType(PasswordFieldType), res.value.password)
    ensures res.Ok? ==> IsFirstValue(r.fields, ByType("url"), res.value.url)
  {
    var record :- ValidateRecord(r, LoginType);
    Ok(KeeperLogin(
      GetRecordFields(record),
      GetFieldValueByType(record, LoginType),
      GetFieldValueByType(record, PasswordFieldType),
      GetFieldValueByType(record, "url")))
  }

  function GetSSHKey(r: Record): (res: Result<KeeperSSHKey, Error>)
    ensures res.Err? <==> r.recordType != SshKeysType
    ensures res.Err? ==> res.error == WrongRecordType(r.uid, SshKeysType, r.recordType)
    ensures res.Ok? ==> IsCommonOf(r, res.value.common) && res.value.common.recordType == SshKeysType
    ensures res.Ok? ==> IsFirstValue(r.fields, ByType(LoginType), res.value.login)
    ensures res.Ok? ==> IsFirstValue(r.fields, ByType(PasswordFieldType), res.value.passphrase)
    ensures res.Ok? ==> res.value.keyPair == GetKeyPairItemData(r)
    ensures res.Ok? ==> res.value.hostConnection == GetHostItemData(r)
  {
    var record :- ValidateRecord(r, SshKeysType);
    Ok(KeeperSSHKey(
      GetRecordFields(record),
      GetFieldValueByType(record, LoginType),
      GetFieldValueByType(record, PasswordFieldType),
      GetKeyPairItemData(record),
      GetHostItemData(record)))
  }
}
