/**
 * Properties that relate the extractors to independent descriptions: records
 * built the way the vault's templates store values (the inverse direction),
 * the decoder of the file content, and the decimal rendering of timestamps.
 */
module ExtractorProperties {
  import opened Wrappers
  import opened Errors
  import opened KeeperRecord
  import opened KeeperTypes
  import opened Extractors
  import Base64
  import Decimal

  /** Every file reference's content decodes back to exactly the attached bytes. */
  lemma FileRefContentDecodes(r: Record, i: nat)
    requires i < |r.files|
    ensures |GetFileRecords(r)| == |r.files|
    ensures Base64.Decode(GetFileRecords(r)[i].base64Data) == Some(r.files[i].data)
  {
    Base64.DecodeEncode(r.files[i].data);
  }

  /**
   * With a formatter that never yields "" (RFC 3339 text never is empty), the
   * result is "" exactly when the string is not a decimal 64-bit integer.
   */
  lemma ConvertDateEmptyIff(dateStr: string, local: TimeFormatter)
    requires forall t :: local(t) != ""
    ensures ConvertDateStr(dateStr, local) == "" <==> Decimal.Atoi(dateStr).None?
  {
  }

  /** The examples of the unit tests, and Go's truncation of negative milliseconds. */
  lemma ConvertDateExamples(local: TimeFormatter)
    ensures ConvertDateStr("invalid-date", local) == ""
    ensures ConvertDateStr(Decimal.FormatInt(1672531199000), local) == local(1672531199)
    ensures ConvertDateStr(Decimal.FormatInt(1), local) == local(0)
    ensures ConvertDateStr(Decimal.FormatInt(-1500), local) == local(-1)
  {
    Decimal.AtoiRefuses();
    assert Decimal.InIntRange(1672531199000) && Decimal.Quot(1672531199000, 1000) == 1672531199;
    assert Decimal.InIntRange(1) && Decimal.Quot(1, 1000) == 0;
    assert Decimal.InIntRange(-1500) && Decimal.Quot(-1500, 1000) == -1;
  }

  /** Spellings other than the shortest one convert like it: a sign, leading zeros, "-0". */
  lemma ConvertDateSpellings(local: TimeFormatter)
    ensures ConvertDateStr("-01500", local) == local(-1)
    ensures ConvertDateStr("+007", local) == local(0)
    ensures ConvertDateStr("-0", local) == local(0)
    ensures ConvertDateStr("+5000", local) == local(5)
  {
    Decimal.AtoiSpellingExamples();
    assert Decimal.Quot(-1500, 1000) == -1 && Decimal.Quot(7, 1000) == 0 && Decimal.Quot(0, 1000) == 0;
    Decimal.AtoiPlusExample();
    assert Decimal.Quot(5000, 1000) == 5;
  }

  /**
   * A date the vault stores as a JSON number reads as that number's decimal
   * text, so it converts exactly as the same milliseconds stored as text.
   */
  lemma StoredMillisConvert(r: Record, fieldType: string, ms: int, local: TimeFormatter)
    requires Decimal.InIntRange(ms)
    requires FirstField(r, ByType(fieldType)).Some?
    requires FirstItem(FirstField(r, ByType(fieldType)).value.value) == Some(Num(ms))
    ensures GetFieldValueByType(r, fieldType) == Decimal.FormatInt(ms)
    ensures ConvertDateStr(GetFieldValueByType(r, fieldType), local) == local(Decimal.Quot(ms, 1000))
  {
  }

  /** The object the vault stores for a connection. */
  function HostMembers(hostName: string, port: string): map<string, Value> {
    map["hostName" := Str(hostName), "port" := Str(port)]
  }

  /** A connection whose port is the decimal text of a 64-bit integer is read back exactly. */
  lemma HostRoundTrip(r: Record, hc: HostConnection)
    requires Decimal.InIntRange(hc.port)
    requires FirstObject(r, "host") == Some(HostMembers(hc.hostName, Decimal.FormatInt(hc.port)))
    ensures GetHostItemData(r) == hc
  {
    Decimal.AtoiFormatInt(hc.port);
  }

  /**
   * A port that is not a decimal integer yields -1 and keeps the host name;
   * a stored "-1" is indistinguishable from it.
   */
  lemma HostMalformedPort(r: Record, hostName: string, port: string)
    requires FirstObject(r, "host") == Some(HostMembers(hostName, port))
    requires Decimal.Atoi(port).None? || port == "-1"
    ensures GetHostItemData(r) == HostConnection(hostName, -1)
  {
    if port == "-1" {
      Decimal.AtoiFormatInt(-1);
      assert Decimal.FormatInt(-1) == "-1";
    }
  }

  /** The object the vault stores for a key pair. */
  function KeyPairMembers(kp: KeyPair): map<string, Value> {
    map["publicKey" := Str(kp.publicKey), "privateKey" := Str(kp.privateKey)]
  }

  lemma KeyPairRoundTrip(r: Record, kp: KeyPair)
    requires FirstObject(r, "keyPair") == Some(KeyPairMembers(kp))
    ensures GetKeyPairItemData(r) == kp
  {
  }

  /** A public key is copied even when the private key is not a string. */
  lemma KeyPairKeysIndependent(r: Record, publicKey: string, privateKey: Value)
    requires !privateKey.Str?
    requires FirstObject(r, "keyPair") == Some(map["publicKey" := Str(publicKey), "privateKey" := privateKey])
    ensures GetKeyPairItemData(r) == KeyPair(publicKey, "")
  {
  }

  /** The common part expected of a record with these identity fields. */
  function Common(uid: string, recordType: string, title: string, notes: string, files: seq<Attachment>): KeeperRecordField {
    KeeperRecordField(uid, recordType, title, notes, FileRecords(files))
  }

  /** An empty field, as templates hold for unused slots. */
  function EmptyField(fieldType: string): Field {
    Field(fieldType, fieldType, List([]))
  }

  /** The slots of the vault's login template. */
  function LoginSlots(login: string, password: string, url: string): seq<Field> {
    [EmptyField("passkey"), TextField("login", "login", login), TextField("password", "password", password),
     TextField("url", "url", url), EmptyField("fileRef"), EmptyField("oneTimeCode")]
  }

  function LoginRecord(uid: string, title: string, notes: string, login: string, password: string, url: string, files: seq<Attachment>): Record {
    Record(uid, LoginType, title, notes, LoginSlots(login, password, url), files)
  }

  /** The login template's three text slots read back as stored. */
  lemma LoginFields(r: Record, login: string, password: string, url: string)
    requires r.fields == LoginSlots(login, password, url)
    ensures GetFieldValueByType(r, "login") == login
    ensures GetFieldValueByType(r, "password") == password
    ensures GetFieldValueByType(r, "url") == url
  {
    FirstMatchWins(r, ByType("login"), 1);
    FirstMatchWins(r, ByType("password"), 2);
    FirstMatchWins(r, ByType("url"), 3);
  }

  lemma LoginRoundTrip(uid: string, title: string, notes: string, login: string, password: string, url: string, files: seq<Attachment>)
    ensures GetLogin(LoginRecord(uid, title, notes, login, password, url, files))
         == Ok(KeeperLogin(Common(uid, LoginType, title, notes, files), login, password, url))
  {
    LoginFields(LoginRecord(uid, title, notes, login, password, url, files), login, password, url);
  }

  function ApiKeyRecord(uid: string, title: string, notes: string, appId: string, clientSecret: string, files: seq<Attachment>): Record {
    Record(uid, ApiKeyType, title, notes,
      [TextField("text", "AppID", appId), TextField("text", "ClientSecret", clientSecret), Field("fileRef", "Cert", List([]))],
      files)
  }

  /** Both values are "text" fields; only their labels tell them apart. */
  lemma ApiKeyRoundTrip(uid: string, title: string, notes: string, appId: string, clientSecret: string, files: seq<Attachment>)
    ensures GetAPIKey(ApiKeyRecord(uid, title, notes, appId, clientSecret, files))
         == Ok(KeeperAPIKey(Common(uid, ApiKeyType, title, notes, files), appId, clientSecret))
  {
    var r := ApiKeyRecord(uid, title, notes, appId, clientSecret, files);
    FirstMatchWins(r, ByLabel("AppID"), 0);
    FirstMatchWins(r, ByLabel("ClientSecret"), 1);
  }

  /** The slots of the vault's software license template; dates are stored as text. */
  function SoftwareLicenseSlots(licenseNumber: string, expiration: string, activation: string): seq<Field> {
    [TextField("licenseNumber", "licenseNumber", licenseNumber),
     TextField("expirationDate", "expirationDate", expiration),
     TextField("date", "dateActive", activation),
     EmptyField("fileRef")]
  }

  function SoftwareLicenseRecord(uid: string, title: string, notes: string, licenseNumber: string, expirationMs: int, activationMs: int, files: seq<Attachment>): Record {
    Record(uid, SoftwareLicenseType, title, notes,
      SoftwareLicenseSlots(licenseNumber, Decimal.FormatInt(expirationMs), Decimal.FormatInt(activationMs)),
      files)
  }

  /** The license template's number and its two date texts read back as stored. */
  lemma SoftwareLicenseFields(r: Record, licenseNumber: string, expiration: string, activation: string)
    requires r.fields == SoftwareLicenseSlots(licenseNumber, expiration, activation)
    ensures GetFieldValueByType(r, "licenseNumber") == licenseNumber
    ensures GetFieldValueByType(r, "expirationDate") == expiration
    ensures GetFieldValueByType(r, "date") == activation
  {
    FirstMatchWins(r, ByType("licenseNumber"), 0);
    FirstMatchWins(r, ByType("expirationDate"), 1);
    FirstMatchWins(r, ByType("date"), 2);
  }

  lemma SoftwareLicenseRoundTrip(uid: string, title: string, notes: string, licenseNumber: string, expirationMs: int, activationMs: int, files: seq<Attachment>, local: TimeFormatter)
    requires Decimal.InIntRange(expirationMs) && Decimal.InIntRange(activationMs)
    ensures GetSoftwareLicense(SoftwareLicenseRecord(uid, title, notes, licenseNumber, expirationMs, activationMs, files), local)
         == Ok(KeeperSoftwareLicense(Common(uid, SoftwareLicenseType, title, notes, files), licenseNumber,
                 local(Decimal.Quot(activationMs, 1000)), local(Decimal.Quot(expirationMs, 1000))))
  {
    SoftwareLicenseFields(SoftwareLicenseRecord(uid, title, notes, licenseNumber, expirationMs, activationMs, files),
                          licenseNumber, Decimal.FormatInt(expirationMs), Decimal.FormatInt(activationMs));
  }

  function FileRecord(uid: string, title: string, notes: string, files: seq<Attachment>): Record {
    Record(uid, FileType, title, notes, [EmptyField("fileRef")], files)
  }

  /** A file record yields one reference per attachment, in order, each decoding to its bytes. */
  lemma FileRoundTrip(uid: string, title: string, notes: string, files: seq<Attachment>)
    ensures GetFile(FileRecord(uid, title, notes, files)) == Ok(KeeperFile(Common(uid, FileType, title, notes, files)))
    ensures |FileRecords(files)| == |files|
    ensures forall i :: 0 <= i < |files| ==> Base64.Decode(FileRecords(files)[i].base64Data) == Some(files[i].data)
  {
    forall i | 0 <= i < |files|
      ensures Base64.Decode(FileRecords(files)[i].base64Data) == Some(files[i].data)
    {
      FileRefContentDecodes(FileRecord(uid, title, notes, files), i);
    }
  }

  /** The slots of the vault's encrypted note template. */
  function EncryptedNoteSlots(note: string, date: string): seq<Field> {
    [TextField("note", "note", note), TextField("date", "date", date), EmptyField("fileRef")]
  }

  function EncryptedNoteRecord(uid: string, title: string, notes: string, note: string, dateMs: int, files: seq<Attachment>): Record {
    Record(uid, EncryptedNotesType, title, notes, EncryptedNoteSlots(note, Decimal.FormatInt(dateMs)), files)
  }

  /** The note template's note and date text read back as stored. */
  lemma EncryptedNoteFields(r: Record, note: string, date: string)
    requires r.fields == EncryptedNoteSlots(note, date)
    ensures GetFieldValueByType(r, "note") == note
    ensures GetFieldValueByType(r, "date") == date
  {
    FirstMatchWins(r, ByType("note"), 0);
    FirstMatchWins(r, ByType("date"), 1);
  }

  lemma EncryptedNoteRoundTrip(uid: string, title: string, notes: string, note: string, dateMs: int, files: seq<Attachment>, local: TimeFormatter)
    requires Decimal.InIntRange(dateMs)
    ensures GetEncryptedNote(EncryptedNoteRecord(uid, title, notes, note, dateMs, files), local)
         == Ok(KeeperEncryptedNote(Common(uid, EncryptedNotesType, title, notes, files), note, local(Decimal.Quot(dateMs, 1000))))
  {
    EncryptedNoteFields(EncryptedNoteRecord(uid, title, notes, note, dateMs, files), note, Decimal.FormatInt(dateMs));
  }

  /** The note template as the vault returns it: the date is a JSON number. */
  function EncryptedNoteNumericSlots(note: string, dateMs: int): seq<Field> {
    [TextField("note", "note", note), Field("date", "date", List([Num(dateMs)])), EmptyField("fileRef")]
  }

  function EncryptedNoteNumericRecord(uid: string, title: string, notes: string, note: string, dateMs: int, files: seq<Attachment>): Record {
    Record(uid, EncryptedNotesType, title, notes, EncryptedNoteNumericSlots(note, dateMs), files)
  }

  /** The numeric date reads as its decimal text. */
  lemma EncryptedNoteNumericFields(r: Record, note: string, dateMs: int)
    requires r.fields == EncryptedNoteNumericSlots(note, dateMs)
    ensures GetFieldValueByType(r, "note") == note
    ensures GetFieldValueByType(r, "date") == Decimal.FormatInt(dateMs)
  {
    FirstMatchWins(r, ByType("note"), 0);
    FirstMatchWins(r, ByType("date"), 1);
  }

  /** A note whose date the vault stores as a number yields the formatted date. */
  lemma EncryptedNoteNumericRoundTrip(uid: string, title: string, notes: string, note: string, dateMs: int, files: seq<Attachment>, local: TimeFormatter)
    requires Decimal.InIntRange(dateMs)
    ensures GetEncryptedNote(EncryptedNoteNumericRecord(uid, title, notes, note, dateMs, files), local)
         == Ok(KeeperEncryptedNote(Common(uid, EncryptedNotesType, title, notes, files), note, local(Decimal.Quot(dateMs, 1000))))
  {
    EncryptedNoteNumericFields(EncryptedNoteNumericRecord(uid, title, notes, note, dateMs, files), note, dateMs);
  }

  /** A "host" field as the vault stores a connection, the port as text. */
  function HostField(hostName: string, port: string): Field {
    ObjectField("host", "host", HostMembers(hostName, port))
  }

  /** The connection `hc` as its host field. */
  function HostFieldOf(hc: HostConnection): Field {
    HostField(hc.hostName, Decimal.FormatInt(hc.port))
  }

  /** A record whose first "host" field holds `hc` yields exactly `hc`. */
  lemma HostFieldRoundTrip(r: Record, hc: HostConnection)
    requires Decimal.InIntRange(hc.port)
    requires FirstField(r, ByType("host")) == Some(HostFieldOf(hc))
    ensures GetHostItemData(r) == hc
  {
    HostRoundTrip(r, hc);
  }

  /** The slots of the vault's server credentials template. */
  function ServerCredentialsSlots(login: string, password: string, host: Field): seq<Field> {
    [TextField("login", "login", login), TextField("password", "password", password), host]
  }

  function ServerCredentialsRecord(uid: string, title: string, notes: string, login: string, password: string, hc: HostConnection, files: seq<Attachment>): Record {
    Record(uid, ServerCredentialsType, title, notes, ServerCredentialsSlots(login, password, HostFieldOf(hc)), files)
  }

  /** The server template's login and password read back; its host slot is the first "host" field. */
  lemma ServerCredentialsFields(r: Record, login: string, password: string, host: Field)
    requires host.fieldType == "host"
    requires r.fields == ServerCredentialsSlots(login, password, host)
    ensures GetFieldValueByType(r, "login") == login
    ensures GetFieldValueByType(r, "password") == password
    ensures FirstField(r, ByType("host")) == Some(host)
  {
    FirstMatchWins(r, ByType("login"), 0);
    FirstMatchWins(r, ByType("password"), 1);
    FirstFieldAt(r, ByType("host"), 2);
  }

  lemma ServerCredentialsRoundTrip(uid: string, title: string, notes: string, login: string, password: string, hc: HostConnection, files: seq<Attachment>)
    requires Decimal.InIntRange(hc.port)
    ensures GetServerCredentials(ServerCredentialsRecord(uid, title, notes, login, password, hc, files))
         == Ok(KeeperServerCredentials(Common(uid, ServerCredentialsType, title, notes, files), hc, login, password))
  {
    var r := ServerCredentialsRecord(uid, title, notes, login, password, hc, files);
    ServerCredentialsFields(r, login, password, HostFieldOf(hc));
    HostFieldRoundTrip(r, hc);
  }

  /**
   * A database record with a database type: a "text" field (labelled "type")
   * ahead of the host, login and password fields.
   */
  function DatabaseCredentialsSlots(dbType: string, host: Field, login: string, password: string): seq<Field> {
    [TextField("text", "type", dbType), host, TextField("login", "login", login), TextField("password", "password", password)]
  }

  function DatabaseCredentialsRecord(uid: string, title: string, notes: string, dbType: string, login: string, password: string, hc: HostConnection, files: seq<Attachment>): Record {
    Record(uid, DatabaseCredentialsType, title, notes, DatabaseCredentialsSlots(dbType, HostFieldOf(hc), login, password), files)
  }

  /** The database template's three text slots read back; its host slot is the first "host" field. */
  lemma DatabaseCredentialsFields(r: Record, dbType: string, host: Field, login: string, password: string)
    requires host.fieldType == "host"
    requires r.fields == DatabaseCredentialsSlots(dbType, host, login, password)
    ensures GetFieldValueByType(r, "text") == dbType
    ensures FirstField(r, ByType("host")) == Some(host)
    ensures GetFieldValueByType(r, "login") == login
    ensures GetFieldValueByType(r, "password") == password
  {
    FirstMatchWins(r, ByType("text"), 0);
    FirstFieldAt(r, ByType("host"), 1);
    FirstMatchWins(r, ByType("login"), 2);
    FirstMatchWins(r, ByType("password"), 3);
  }

  lemma DatabaseCredentialsRoundTrip(uid: string, title: string, notes: string, dbType: string, login: string, password: string, hc: HostConnection, files: seq<Attachment>)
    requires Decimal.InIntRange(hc.port)
    ensures GetDatabaseCredentials(DatabaseCredentialsRecord(uid, title, notes, dbType, login, password, hc, files))
         == Ok(KeeperDataBaseCredentials(Common(uid, DatabaseCredentialsType, title, notes, files), hc, login, password, dbType))
  {
    var r := DatabaseCredentialsRecord(uid, title, notes, dbType, login, password, hc, files);
    DatabaseCredentialsFields(r, dbType, HostFieldOf(hc), login, password);
    HostFieldRoundTrip(r, hc);
  }

  /** The layout of the unit test's database record: login, password and host, and no "text" field. */
  function DatabaseCredentialsTestSlots(login: string, password: string, host: Field): seq<Field> {
    [TextField("login", "login", login), TextField("password", "password", password), host]
  }

  function DatabaseCredentialsTestRecord(uid: string, title: string, notes: string, login: string, password: string, hc: HostConnection, files: seq<Attachment>): Record {
    Record(uid, DatabaseCredentialsType, title, notes, DatabaseCredentialsTestSlots(login, password, HostFieldOf(hc)), files)
  }

  /** Login and password read back; no field is a "text" field; the host slot is the first "host" field. */
  lemma DatabaseCredentialsTestFields(r: Record, login: string, password: string, host: Field)
    requires host.fieldType == "host"
    requires r.fields == DatabaseCredentialsTestSlots(login, password, host)
    ensures GetFieldValueByType(r, "login") == login
    ensures GetFieldValueByType(r, "password") == password
    ensures FirstField(r, ByType("host")) == Some(host)
    ensures GetFieldValueByType(r, "text") == ""
  {
    FirstMatchWins(r, ByType("login"), 0);
    FirstMatchWins(r, ByType("password"), 1);
    FirstFieldAt(r, ByType("host"), 2);
    AbsentFieldIsEmpty(r, ByType("text"));
  }

  /** The unit test's record yields its login, password and connection, and an empty database type. */
  lemma DatabaseCredentialsTestRoundTrip(uid: string, title: string, notes: string, login: string, password: string, hc: HostConnection, files: seq<Attachment>)
    requires Decimal.InIntRange(hc.port)
    ensures GetDatabaseCredentials(DatabaseCredentialsTestRecord(uid, title, notes, login, password, hc, files))
         == Ok(KeeperDataBaseCredentials(Common(uid, DatabaseCredentialsType, title, notes, files), hc, login, password, ""))
  {
    var r := DatabaseCredentialsTestRecord(uid, title, notes, login, password, hc, files);
    DatabaseCredentialsTestFields(r, login, password, HostFieldOf(hc));
    HostFieldRoundTrip(r, hc);
  }

  /** The slots of the vault's SSH key template. */
  function SshKeySlots(login: string, keyPair: Field, passphrase: string, host: Field): seq<Field> {
    [TextField("login", "login", login), keyPair, TextField("password", "passphrase", passphrase), host, EmptyField("fileRef")]
  }

  function SshKeyRecord(uid: string, title: string, notes: string, login: string, passphrase: string, kp: KeyPair, hc: HostConnection, files: seq<Attachment>): Record {
    Record(uid, SshKeysType, title, notes,
      SshKeySlots(login, ObjectField("keyPair", "keyPair", KeyPairMembers(kp)), passphrase, HostFieldOf(hc)),
      files)
  }

  /** The SSH key template's login and passphrase read back; its key-pair and host slots are the first of their types. */
  lemma SshKeyFields(r: Record, login: string, keyPair: Field, passphrase: string, host: Field)
    requires keyPair.fieldType == "keyPair" && host.fieldType == "host"
    requires r.fields == SshKeySlots(login, keyPair, passphrase, host)
    ensures GetFieldValueByType(r, "login") == login
    ensures FirstField(r, ByType("keyPair")) == Some(keyPair)
    ensures GetFieldValueByType(r, "password") == passphrase
    ensures FirstField(r, ByType("host")) == Some(host)
  {
    FirstMatchWins(r, ByType("login"), 0);
    FirstFieldAt(r, ByType("keyPair"), 1);
    FirstMatchWins(r, ByType("password"), 2);
    FirstFieldAt(r, ByType("host"), 3);
  }

  lemma SshKeyRoundTrip(uid: string, title: string, notes: string, login: string, passphrase: string, kp: KeyPair, hc: HostConnection, files: seq<Attachment>)
    requires Decimal.InIntRange(hc.port)
    ensures GetSSHKey(SshKeyRecord(uid, title, notes, login, passphrase, kp, hc, files))
         == Ok(KeeperSSHKey(Common(uid, SshKeysType, title, notes, files), login, passphrase, kp, hc))
  {
    var r := SshKeyRecord(uid, title, notes, login, passphrase, kp, hc, files);
    SshKeyFields(r, login, ObjectField("keyPair", "keyPair", KeyPairMembers(kp)), passphrase, HostFieldOf(hc));
    KeyPairRoundTrip(r, kp);
    HostFieldRoundTrip(r, hc);
  }

  /** The declared types of the extractors whose type gate `r` passes. */
  function AcceptingTypes(r: Record, local: TimeFormatter): set<string> {
    (if GetLogin(r).Ok? then {LoginType} else {})
    + (if GetAPIKey(r).Ok? then {ApiKeyType} else {})
    + (if GetSSHKey(r).Ok? then {SshKeysType} else {})
    + (if GetEncryptedNote(r, local).Ok? then {EncryptedNotesType} else {})
    + (if GetFile(r).Ok? then {FileType} else {})
    + (if GetSoftwareLicense(r, local).Ok? then {SoftwareLicenseType} else {})
    + (if GetServerCredentials(r).Ok? then {ServerCredentialsType} else {})
    + (if GetDatabaseCredentials(r).Ok? then {DatabaseCredentialsType} else {})
  }

  /** The eight declared types are distinct, so at most one extractor accepts any record. */
  lemma AtMostOneExtractorAccepts(r: Record, local: TimeFormatter)
    ensures AcceptingTypes(r, local) <= {r.recordType}
    ensures |AcceptingTypes(r, local)| <= 1
  {
    var s := AcceptingTypes(r, local);
    assert s <= {r.recordType};
    if s != {} {
      assert s == {r.recordType};
    }
  }

  /** A record of any other declared type is refused by every extractor, as the unit tests check with "invalid". */
  lemma UnknownTypeRefusedByAll(r: Record, local: TimeFormatter)
    requires r.recordType !in {LoginType, ApiKeyType, SshKeysType, EncryptedNotesType, FileType,
                               SoftwareLicenseType, ServerCredentialsType, DatabaseCredentialsType}
    ensures AcceptingTypes(r, local) == {}
    ensures IsWrongRecordType(GetLogin(r).error) && IsWrongRecordType(GetAPIKey(r).error)
    ensures IsWrongRecordType(GetSSHKey(r).error) && IsWrongRecordType(GetEncryptedNote(r, local).error)
    ensures IsWrongRecordType(GetFile(r).error) && IsWrongRecordType(GetSoftwareLicense(r, local).error)
    ensures IsWrongRecordType(GetServerCredentials(r).error) && IsWrongRecordType(GetDatabaseCredentials(r).error)
  {
  }
}
