/**
 * The client facade: each operation fetches one record by uid and hands it to
 * the matching extractor. Nothing is cached between calls, and each operation
 * makes exactly one vault request: its body calls `GetSecret` once, with the
 * uid it was given.
 */
module PackerClient {
  import opened Wrappers
  import opened Errors
  import opened KeeperRecord
  import opened KeeperTypes
  import opened KsmClient
  import Extractors

  /** The facade over one vault client; `NewClient` is this constructor. */
  datatype PackerKeeperClient = PackerKeeperClient(keeper: KSMClient)

  /** Fetch, stop on a fetch error, else extract: the shape of every facade operation. */
  function Dispatch<T>(c: PackerKeeperClient, uid: string, extract: Record -> Result<T, Error>): (o: Result<T, Error>)
    ensures GetSecret(c.keeper, uid).Err? ==> o == Err(GetSecret(c.keeper, uid).error)
    ensures GetSecret(c.keeper, uid).Ok? ==> o == extract(GetSecret(c.keeper, uid).value)
  {
    var fetched := GetSecret(c.keeper, uid);
    match fetched
    case Err(e) => Err(e)
    case Ok(r) => extract(r)
  }

  function GetServerCredentials(c: PackerKeeperClient, uid: string): (o: Result<KeeperServerCredentials, Error>)
    ensures GetSecret(c.keeper, uid).Err? ==> o == Err(GetSecret(c.keeper, uid).error)
    ensures GetSecret(c.keeper, uid).Ok? ==> o == Extractors.GetServerCredentials(GetSecret(c.keeper, uid).value)
  {
    Dispatch(c, uid, Extractors.GetServerCredentials)
  }

  function GetDatabaseCredentials(c: PackerKeeperClient, uid: string): (o: Result<KeeperDataBaseCredentials, Error>)
    ensures GetSecret(c.keeper, uid).Err? ==> o == Err(GetSecret(c.keeper, uid).error)
    ensures GetSecret(c.keeper, uid).Ok? ==> o == Extractors.GetDatabaseCredentials(GetSecret(c.keeper, uid).value)
  {
    Dispatch(c, uid, Extractors.GetDatabaseCredentials)
  }

  function GetAPIKey(c: PackerKeeperClient, uid: string): (o: Result<KeeperAPIKey, Error>)
    ensures GetSecret(c.keeper, uid).Err? ==> o == Err(GetSecret(c.keeper, uid).error)
    ensures GetSecret(c.keeper, uid).Ok? ==> o == Extractors.GetAPIKey(GetSecret(c.keeper, uid).value)
  {
    Dispatch(c, uid, Extractors.GetAPIKey)
  }

  function GetEncryptedNote(c: PackerKeeperClient, uid: string, local: Extractors.TimeFormatter): (o: Result<KeeperEncryptedNote, Error>)
    ensures GetSecret(c.keeper, uid).Err? ==> o == Err(GetSecret(c.keeper, uid).error)
    ensures GetSecret(c.keeper, uid).Ok? ==> o == Extractors.GetEncryptedNote(GetSecret(c.keeper, uid).value, local)
  {
    Dispatch(c, uid, r => Extractors.GetEncryptedNote(r, local))
  }

  function GetFile(c: PackerKeeperClient, uid: string): (o: Result<KeeperFile, Error>)
    ensures GetSecret(c.keeper, uid).Err? ==> o == Err(GetSecret(c.keeper, uid).error)
    ensures GetSecret(c.keeper, uid).Ok? ==> o == Extractors.GetFile(GetSecret(c.keeper, uid).value)
  {
    Dispatch(c, uid, Extractors.GetFile)
  }

  function GetSoftwareLicense(c: PackerKeeperClient, uid: string, local: Extractors.TimeFormatter): (o: Result<KeeperSoftwareLicense, Error>)
    ensures GetSecret(c.keeper, uid).Err? ==> o == Err(GetSecret(c.keeper, uid).error)
    ensures GetSecret(c.keeper, uid).Ok? ==> o == Extractors.GetSoftwareLicense(GetSecret(c.keeper, uid).value, local)
  {
    Dispatch(c, uid, r => Extractors.GetSoftwareLicense(r, local))
  }

  function GetLogin(c: PackerKeeperClient, uid: string): (o: Result<KeeperLogin, Error>)
    ensures GetSecret(c.keeper, uid).Err? ==> o == Err(GetSecret(c.keeper, uid).error)
    ensures GetSecret(c.keeper, uid).Ok? ==> o == Extractors.GetLogin(GetSecret(c.keeper, uid).value)
  {
    Dispatch(c, uid, Extractors.GetLogin)
  }

  function GetSSHKey(c: PackerKeeperClient, uid: string): (o: Result<KeeperSSHKey, Error>)
    ensures GetSecret(c.keeper, uid).Err? ==> o == Err(GetSecret(c.keeper, uid).error)
    ensures GetSecret(c.keeper, uid).Ok? ==> o == Extractors.GetSSHKey(GetSecret(c.keeper, uid).value)
  {
    Dispatch(c, uid, Extractors.GetSSHKey)
  }

  /**
   * Through the facade, a call fails with WrongRecordType exactly when the
   * fetch succeeded and the record's declared type is not the operation's;
   * a fetch failure is reported as it is and never reaches an extractor.
   */
  lemma FacadeTypeGate(c: PackerKeeperClient, uid: string, local: Extractors.TimeFormatter)
    ensures var f := GetSecret(c.keeper, uid);
      && (GetLogin(c, uid).Ok? <==> f.Ok? && f.value.recordType == Extractors.LoginType)
      && (GetAPIKey(c, uid).Ok? <==> f.Ok? && f.value.recordType == Extractors.ApiKeyType)
      && (GetSSHKey(c, uid).Ok? <==> f.Ok? && f.value.recordType == Extractors.SshKeysType)
      && (GetEncryptedNote(c, uid, local).Ok? <==> f.Ok? && f.value.recordType == Extractors.EncryptedNotesType)
      && (GetFile(c, uid).Ok? <==> f.Ok? && f.value.recordType == Extractors.FileType)
      && (GetSoftwareLicense(c, uid, local).Ok? <==> f.Ok? && f.value.recordType == Extractors.SoftwareLicenseType)
      && (GetServerCredentials(c, uid).Ok? <==> f.Ok? && f.value.recordType == Extractors.ServerCredentialsType)
      && (GetDatabaseCredentials(c, uid).Ok? <==> f.Ok? && f.value.recordType == Extractors.DatabaseCredentialsType)
    ensures GetSecret(c.keeper, uid).Ok? ==>
      var r := GetSecret(c.keeper, uid).value;
      && (GetLogin(c, uid).Err? ==> GetLogin(c, uid).error == WrongRecordType(r.uid, Extractors.LoginType, r.recordType))
      && (GetSSHKey(c, uid).Err? ==> GetSSHKey(c, uid).error == WrongRecordType(r.uid, Extractors.SshKeysType, r.recordType))
    ensures GetSecret(c.keeper, uid).Err? ==>
      var e := GetSecret(c.keeper, uid).error;
      && GetLogin(c, uid) == Err(e) && GetAPIKey(c, uid) == Err(e)
      && GetSSHKey(c, uid) == Err(e) && GetEncryptedNote(c, uid, local) == Err(e)
      && GetFile(c, uid) == Err(e) && GetSoftwareLicense(c, uid, local) == Err(e)
      && GetServerCredentials(c, uid) == Err(e) && GetDatabaseCredentials(c, uid) == Err(e)
  {
  }

  /**
   * The unit test's set-up: a vault that answers every uid with one record of
   * declared type "invalid" makes every operation fail with WrongRecordType.
   */
  lemma InvalidTypeRefusedEverywhere(c: PackerKeeperClient, uid: string, r: Record, local: Extractors.TimeFormatter)
    requires r.recordType == "invalid"
    requires c.keeper.vault(uid) == Ok([r])
    ensures IsWrongRecordType(GetLogin(c, uid).error)
    ensures IsWrongRecordType(GetAPIKey(c, uid).error)
    ensures IsWrongRecordType(GetSoftwareLicense(c, uid, local).error)
    ensures IsWrongRecordType(GetFile(c, uid).error)
    ensures IsWrongRecordType(GetEncryptedNote(c, uid, local).error)
    ensures IsWrongRecordType(GetDatabaseCredentials(c, uid).error)
    ensures IsWrongRecordType(GetServerCredentials(c, uid).error)
    ensures IsWrongRecordType(GetSSHKey(c, uid).error)
  {
  }
}
