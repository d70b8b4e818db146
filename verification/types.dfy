/**
 * The typed outputs of the datasources and their configuration. Every output
 * embeds the common `KeeperRecordField` as its `common` part; Go's zero values
 * (the empty string, 0) are what an absent field degrades to.
 */
module KeeperTypes {
  import opened Wrappers

  /** An attached file as handed to the build: metadata plus base64 content. */
  datatype FileRef = FileRef(
    uid: string,
    title: string,
    name: string,
    fileType: string,
    size: int,
    lastModified: int,
    base64Data: string)

  /** The fields every output shares. */
  datatype KeeperRecordField = KeeperRecordField(
    uid: string,
    recordType: string,
    title: string,
    notes: string,
    fileRefs: seq<FileRef>)

  /** Connection details; `port` is signed, so both -1 (malformed) and 0 (absent) exist. */
  datatype HostConnection = HostConnection(hostName: string, port: int)

  datatype KeyPair = KeyPair(publicKey: string, privateKey: string)

  /** Go's zero `HostConnection{}`. */
  const NoHost := HostConnection("", 0)

  /** Go's zero `KeyPair{}`. */
  const NoKeyPair := KeyPair("", "")

  datatype KeeperLogin = KeeperLogin(
    common: KeeperRecordField,
    login: string,
    password: string,
    url: string)

  datatype KeeperAPIKey = KeeperAPIKey(
    common: KeeperRecordField,
    appId: string,
    clientSecret: string)

  datatype KeeperSSHKey = KeeperSSHKey(
    common: KeeperRecordField,
    login: string,
    passphrase: string,
    keyPair: KeyPair,
    hostConnection: HostConnection)

  /** `date` is a formatted timestamp, or "" when unknown. */
  datatype KeeperEncryptedNote = KeeperEncryptedNote(
    common: KeeperRecordField,
    note: string,
    date: string)

  /** A file record carries nothing beyond the common fields. */
  datatype KeeperFile = KeeperFile(common: KeeperRecordField)

  /** Both dates are formatted timestamps, or "" when unknown. */
  datatype KeeperSoftwareLicense = KeeperSoftwareLicense(
    common: KeeperRecordField,
    licenseNumber: string,
    activationDate: string,
    expirationDate: string)

  datatype KeeperServerCredentials = KeeperServerCredentials(
    common: KeeperRecordField,
    hostConnection: HostConnection,
    login: string,
    password: string)

  datatype KeeperDataBaseCredentials = KeeperDataBaseCredentials(
    common: KeeperRecordField,
    hostConnection: HostConnection,
    login: string,
    password: string,
    dbType: string)

  /** Datasource configuration: the uid is optional, so absent and empty differ. */
  datatype Config = Config(uid: Option<string>)
}
