# Keeper datasource extraction layer, in Dafny

This project models the core of a Packer plugin that reads secrets from a Keeper
Secrets Manager vault: the layer that turns one loosely typed vault record into
one of eight typed outputs (login, API key, SSH key, encrypted note, file,
software license, server credentials, database credentials). It also covers the
client facade that fetches a record by uid and dispatches it to an extractor, the
process-wide client singleton, the construction of that client from the
environment, and the uid check on datasource configurations.

Every extractor has one strict check: the record's declared type must equal the
extractor's constant, and a mismatch yields `WrongRecordType(uid, expected,
actual)`. Nothing else can fail. Missing or malformed fields turn into Go's zero
values, with one exception: an unparsable port becomes `-1`. A date is converted
from epoch milliseconds to formatted text, and one that does not parse stays `""`.

Layout, one module per file:

- `wrappers.dfy` (`Wrappers`): `Option` and `Result`.
- `errors.dfy` (`Errors`): the error values, with `WrongRecordType` carrying its diagnostics.
- `base64.dfy` (`Base64`): standard padded base64 as in section 4 of RFC 4648, with a decoder
  proved to invert it.
- `decimal.dfy` (`Decimal`): Go's `strconv.Atoi` on a 64-bit platform, its inverse
  `FormatInt`, and Go's truncating division.
- `record.dfy` (`KeeperRecord`): the raw record as a closed tagged union of field values,
  plus the library accessors.
- `types.dfy` (`KeeperTypes`): the output shapes and `Config`.
- `extractors.dfy` (`Extractors`): the type gate, the common fields, file references, host
  and key-pair parsing, date conversion, and the eight extractors.
- `extractor_properties.dfy` (`ExtractorProperties`): round trips from records built the way
  the vault stores each shape, plus exclusivity of the type gate.
- `ksm_client.dfy` (`KsmClient`): configuration lookup, credential validation, client
  construction and the record fetch.
- `client.dfy` (`PackerClient`): the fetch-then-dispatch facade.
- `singleton.dfy` (`Singleton`): `GetSecretClient` as a sequential state machine.
- `datasource.dfy` (`Datasource`): `ValidateDataSourceConfig`.

Modelling assumptions:

- **Accessors.** The Keeper library's record accessors are not part of this model. A lookup by
  field type or by label picks the first field that matches. It reads the first element of
  that field's value list. A string is read as it is. A JSON integer is read as its decimal
  digits, because the vault returns dates as epoch milliseconds and the library coerces them
  to text. The result is `""` when there is no such field, no first element, or a first
  element that is anything else. `GetFieldsByType(t)[0]` is the same first match.
- **Time formatting.** `time.Unix(s, 0).Format(time.RFC3339)` depends on the process's local
  time zone. It is the parameter `local: int -> string`.
- **Environment.** Environment variables, readable files, the library's decoding of a
  configuration text, and the remote vault are fields of an `Environment` value.
- **Go `int`.** Go's `int` is taken to be 64 bits wide. `Atoi` refuses values outside that
  range, so ports and dates stay inside it.
- **Output types.** Each output type embeds the common `KeeperRecordField` as its `common`
  part. `KeeperFile` has nothing else. Ports are signed `int`, so `-1` and `0` can both occur.
  Dates are strings, with `""` meaning unknown. `Config.uid` is an `Option`, so an absent uid
  and an empty uid are different inputs.
- **`NewClient`.** It is the datatype constructor `PackerKeeperClient(keeper)`.
- **Initialisation errors.** The comments in `client.go` (lines 24-26 and 43) describe one
  shared client that every datasource reuses, and a returned error. The code keeps only a
  success: its error variable is local to each call, so a failure reaches only the first
  caller. The model follows the code, and the discrepancy is recorded under Findings.

## Model

| member | source | states |
|---|---|---|
| Base64.Encode | datasource/keeper_datasource/keeper_client.go:320 | the encoding of n bytes has 4·⌈n/3⌉ characters, all from the standard alphabet or the pad `=` |
| Base64.DecodeEncode | datasource/keeper_datasource/keeper_client.go:320 | decoding the base64 text of any byte string gives back exactly those bytes |
| Base64.EncodeDecode | datasource/keeper_datasource/keeper_client.go:320 | conversely, any text the strict decoder accepts as some bytes is exactly the encoding of those bytes, pads and unused bits included, so the encoding of every byte string is fixed character for character |
| Base64.DecodeInjective | datasource/keeper_datasource/keeper_client.go:320 | two different texts never decode to the same bytes: each byte string has one encoding |
| Base64.PadBitsMustBeZero | datasource/keeper_datasource/keeper_client.go:320 | the zero byte encodes as "AA==", and texts whose unused low bits are set ("AB==", "AAB=") are not encodings, as section 3.5 of RFC 4648 requires |
| Base64.EncodeInjective | datasource/keeper_datasource/keeper_client.go:320 | two different byte strings never get the same base64 text |
| Base64.TestVectors | datasource/keeper_datasource/keeper_client.go:320 | the encoder meets the test vectors of section 10 of RFC 4648 ("f" → "Zg==", "foobar" → "Zm9vYmFy") and maps the test file bytes "string" to "c3RyaW5n" |
| Decimal.Atoi | datasource/keeper_datasource/keeper_client.go:240 | a parsed value always fits Go's 64-bit int, and only text starting with a digit or sign can parse |
| Decimal.AtoiAcceptsSpelling | datasource/keeper_datasource/keeper_client.go:240 | every spelling of a 64-bit integer is read as that integer: an optional sign (`-` allowed on zero, required on a negative), any number of leading zeros, then its shortest digits |
| Decimal.AtoiOnlySpellings | datasource/keeper_datasource/keeper_client.go:240 | conversely, any text read as n is such a spelling of n: its sign, then zeros, then the shortest digits of the magnitude of n |
| Decimal.AtoiSpellingExamples | datasource/keeper_datasource/keeper_client.go:240 | "-01500" reads as -1500, "+007" as 7 and "-0" as 0 |
| Decimal.AtoiFormatInt | datasource/keeper_datasource/keeper_client.go:360 | every 64-bit integer is read back exactly from its decimal text |
| Decimal.AtoiOutOfRange | datasource/keeper_datasource/keeper_client.go:240 | the decimal text of an integer outside the 64-bit range is refused, not wrapped |
| Decimal.AtoiLeadingZeroAndPlus | datasource/keeper_datasource/keeper_client.go:240 | a leading zero or an explicit `+` does not change the value read |
| Decimal.AtoiRefuses | datasource/keeper_datasource/keeper_client.go:240-243 | "invalid-date", "", a bare sign, a trailing letter and a leading space are all refused |
| Decimal.Quot | datasource/keeper_datasource/keeper_client.go:246 | the quotient truncates toward zero, so the remainder has the sign of the dividend |
| KeeperRecord.FirstIndex | datasource/keeper_datasource/keeper_client.go:332-340 | the index found is that of a matching field before which no field matches, or the length when none matches |
| KeeperRecord.GetFieldValue | datasource/keeper_datasource/keeper_client.go:93-94 | a lookup yields the text of the first matching field, or "" when no field matches; it never fails |
| KeeperRecord.FirstObject | datasource/keeper_datasource/keeper_client.go:332-349 | an object is found iff a field of the type exists and the first such field's value is a non-empty list whose first element is an object, and then it is that object |
| KeeperRecord.StringMember | datasource/keeper_datasource/keeper_client.go:352-357 | a member is read iff the key is present and holds a string, and then it is that string |
| KeeperRecord.IsFirstValueUnique | datasource/keeper_datasource/keeper_client.go:93-94 | the reference meaning of a lookup determines a single string |
| KeeperRecord.FirstFieldAt | datasource/keeper_datasource/keeper_client.go:332-340 | the first field picked is the matching one with no match before it, whatever follows |
| KeeperRecord.FirstMatchWins | datasource/keeper_datasource/keeper_client.go:192-194 | a lookup returns the text of the first matching field even when later fields also match |
| KeeperRecord.AbsentFieldIsEmpty | datasource/keeper_datasource/keeper_client.go:192-194 | a missing field reads as "" rather than as an error |
| Extractors.ValidateRecord | datasource/keeper_datasource/keeper_client.go:251-257 | the record passes iff its declared type equals the expected one; otherwise the error is WrongRecordType with uid, expected and actual type |
| Extractors.ConvertDateStr | datasource/keeper_datasource/keeper_client.go:238-248 | text that does not parse as a 64-bit integer gives ""; any text Atoi reads as ms (with a sign, leading zeros or neither) gives the formatted whole seconds of ms, truncated toward zero; in particular so does the decimal text of any 64-bit ms |
| Extractors.GetFileRecords | datasource/keeper_datasource/keeper_client.go:310-327 | one reference per attachment of the record, each describing the attachment at the same position |
| Extractors.FileRecords | datasource/keeper_datasource/keeper_client.go:310-327 | exactly one reference per attached file, in the same order, with uid, title, name, type, size and last-modified copied and the content as standard base64 of the file bytes |
| Extractors.GetRecordFields | datasource/keeper_datasource/keeper_client.go:260-268 | uid, type, title and notes are copied verbatim and the file references describe the attachments |
| Extractors.GetHostItemData | datasource/keeper_datasource/keeper_client.go:330-370 | no host object gives ("", 0); a string hostName is copied; a string port that parses gives that port, one that does not gives -1 with the host name kept; an absent or non-string port leaves 0 |
| Extractors.GetKeyPairItemData | datasource/keeper_datasource/keeper_client.go:373-404 | no key-pair object gives an empty pair; otherwise each key is copied exactly when it is a string, independently of the other |
| Extractors.GetServerCredentials | datasource/keeper_datasource/keeper_client.go:82-96 | errors iff the type is not "serverCredentials"; on success, common fields copied, connection from the host field, login and password from the first fields of those types |
| Extractors.GetDatabaseCredentials | datasource/keeper_datasource/keeper_client.go:99-114 | errors iff the type is not "databaseCredentials"; on success, as for server credentials plus dbType from the first "text" field |
| Extractors.GetAPIKey | datasource/keeper_datasource/keeper_client.go:118-131 | errors iff the type is not "API Key"; on success, appId and clientSecret from the first fields labelled "AppID" and "ClientSecret" |
| Extractors.GetEncryptedNote | datasource/keeper_datasource/keeper_client.go:134-148 | errors iff the type is not "encryptedNotes"; on success, note from the first "note" field and date converted from the first "date" field |
| Extractors.GetFile | datasource/keeper_datasource/keeper_client.go:151-162 | errors iff the type is not "file"; on success, only the common fields |
| Extractors.GetSoftwareLicense | datasource/keeper_datasource/keeper_client.go:165-179 | errors iff the type is not "softwareLicense"; on success, license number from its field, activation date converted from "date", expiration date converted from "expirationDate" |
| Extractors.GetLogin | datasource/keeper_datasource/keeper_client.go:182-197 | errors iff the type is not "login"; on success, login, password and url from the first fields of those types |
| Extractors.GetSSHKey | datasource/keeper_datasource/keeper_client.go:200-215 | errors iff the type is not "sshKeys"; on success, login, the passphrase from the first "password" field, the key pair and the connection |
| ExtractorProperties.FileRefContentDecodes | datasource/keeper_datasource/keeper_client.go:310-327 | each file reference's content decodes back to exactly the attachment's bytes |
| ExtractorProperties.ConvertDateEmptyIff | datasource/keeper_datasource/keeper_client.go:238-248 | with a formatter that never yields "", the result is "" exactly when the text is not a 64-bit decimal integer |
| ExtractorProperties.ConvertDateExamples | datasource/keeper_datasource/client_test.go:578-594 | "invalid-date" gives ""; 1672531199000 ms formats 1672531199 s; -1500 ms formats -1 s, not -2 |
| ExtractorProperties.ConvertDateSpellings | datasource/keeper_datasource/keeper_client.go:240-247 | "-01500" formats -1 s, "+5000" formats 5 s, and "+007" and "-0" format 0 s: texts Atoi accepts besides the shortest spelling are converted, not refused |
| ExtractorProperties.StoredMillisConvert | datasource/keeper_datasource/keeper_client.go:235-248 | a date field whose first element is a JSON integer reads as that integer's decimal text and converts to its formatted whole seconds |
| ExtractorProperties.HostRoundTrip | datasource/keeper_datasource/client_test.go:450-510 | a host object holding a name and the decimal text of a 64-bit port is read back as exactly that connection |
| ExtractorProperties.HostMalformedPort | datasource/keeper_datasource/keeper_client.go:357-364 | an unparsable port gives -1 with the host name kept, and a stored "-1" cannot be told apart from it |
| ExtractorProperties.KeyPairRoundTrip | datasource/keeper_datasource/keeper_client.go:373-404 | a key-pair object with two string keys is read back as exactly that pair |
| ExtractorProperties.KeyPairKeysIndependent | datasource/keeper_datasource/keeper_client.go:395-401 | the public key is copied even when the private key is not a string |
| ExtractorProperties.LoginRoundTrip | datasource/keeper_datasource/client_test.go:92-163 | a login record laid out like the vault's login template yields exactly its uid, type "login", title, notes, login, password and url |
| ExtractorProperties.ApiKeyRoundTrip | datasource/keeper_datasource/client_test.go:166-219 | two "text" fields are told apart by label, and an API key record yields exactly its app id and client secret |
| ExtractorProperties.SoftwareLicenseRoundTrip | datasource/keeper_datasource/client_test.go:222-288 | a license record yields its number and both dates as the formatted whole seconds of the stored milliseconds |
| ExtractorProperties.FileRoundTrip | datasource/keeper_datasource/client_test.go:291-389 | a file record yields one reference per attachment, in order, each decoding to that attachment's bytes |
| ExtractorProperties.EncryptedNoteRoundTrip | datasource/keeper_datasource/client_test.go:392-447 | a note record yields its note and its formatted date |
| ExtractorProperties.EncryptedNoteNumericRoundTrip | datasource/keeper_datasource/keeper-encrypted-note/data_keeper_encrypted_note_acc_test.go:36 | a note record whose date the vault stores as a JSON number yields the formatted date, not "" |
| ExtractorProperties.ServerCredentialsRoundTrip | datasource/keeper_datasource/client_test.go:450-510 | a server record yields its login, password, host name and port |
| ExtractorProperties.DatabaseCredentialsRoundTrip | datasource/keeper_datasource/keeper_client.go:99-114 | a database record with a "text" field, a host, a login and a password yields its login, password, connection and database type |
| ExtractorProperties.DatabaseCredentialsTestRoundTrip | datasource/keeper_datasource/client_test.go:513-573 | the unit test's layout (login, password, host, no "text" field) yields its login, password and connection, and "" as the database type |
| ExtractorProperties.SshKeyRoundTrip | datasource/keeper_datasource/keeper_client.go:200-215 | an SSH key record yields its login, passphrase, key pair and connection |
| ExtractorProperties.AtMostOneExtractorAccepts | datasource/keeper_datasource/keeper_client.go:17-29 | the eight type constants are distinct, so at most one extractor accepts a record, and it is the one for the record's declared type |
| ExtractorProperties.UnknownTypeRefusedByAll | datasource/keeper_datasource/client_test.go:17-89 | a record whose type is none of the eight is refused by every extractor with WrongRecordType |
| KsmClient.GetClientOptions | datasource/keeper_datasource/keeper_client.go:271-296 | the only errors are NoConfig and an unreadable file; NoConfig occurs iff neither variable is set |
| KsmClient.FileConfigUsed | datasource/keeper_datasource/keeper_client.go:274-284 | with the file variable set, a readable file's text is what gets decoded, and an unreadable file is ConfigFileUnreadable(path) even when KSM_CONFIG is set |
| KsmClient.ConfigFileTakesPrecedence | datasource/keeper_datasource/keeper_client.go:274-284 | when the file variable is set, the inline configuration's value or absence changes nothing |
| KsmClient.InlineConfigUsed | datasource/keeper_datasource/keeper_client.go:288-293 | without the file variable, the inline configuration text is what gets decoded |
| KsmClient.ValidateClientOptions | datasource/keeper_datasource/keeper_client.go:300-306 | no error iff app key, client id and private key are all non-empty; otherwise InvalidCredentials |
| KsmClient.EmptyValueInvalid | datasource/keeper_datasource/keeper_client.go:301 | a required key stored with an empty value is refused like a missing one |
| KsmClient.NewKeeperSecretClient | datasource/keeper_datasource/keeper_client.go:60-79 | succeeds iff options are found and hold all three credentials, and then the client holds exactly those options and the environment's vault; an options error passes through, and otherwise the error is InvalidCredentials |
| KsmClient.GetSecret | datasource/keeper_datasource/keeper_client.go:218-233 | a vault error passes through unchanged; an empty answer is NoRecords(uid); otherwise the first record |
| KsmClient.GetSecretSucceedsIff | datasource/keeper_datasource/keeper_client.go:218-233 | a fetch succeeds iff the vault answers with at least one record, and then it yields one of the records the vault returned |
| PackerClient.Dispatch | datasource/keeper_datasource/client.go:51-122 | a fetch error is returned as is; otherwise the extractor's result on the fetched record |
| PackerClient.GetServerCredentials | datasource/keeper_datasource/client.go:52-59 | the fetch error, or the server-credentials extractor applied to the fetched record |
| PackerClient.GetDatabaseCredentials | datasource/keeper_datasource/client.go:62-68 | the fetch error, or the database-credentials extractor applied to the fetched record |
| PackerClient.GetAPIKey | datasource/keeper_datasource/client.go:71-77 | the fetch error, or the API-key extractor applied to the fetched record |
| PackerClient.GetEncryptedNote | datasource/keeper_datasource/client.go:80-86 | the fetch error, or the encrypted-note extractor applied to the fetched record |
| PackerClient.GetFile | datasource/keeper_datasource/client.go:89-95 | the fetch error, or the file extractor applied to the fetched record |
| PackerClient.GetSoftwareLicense | datasource/keeper_datasource/client.go:98-104 | the fetch error, or the software-license extractor applied to the fetched record |
| PackerClient.GetLogin | datasource/keeper_datasource/client.go:107-113 | the fetch error, or the login extractor applied to the fetched record |
| PackerClient.GetSSHKey | datasource/keeper_datasource/client.go:116-122 | the fetch error, or the SSH-key extractor applied to the fetched record |
| PackerClient.FacadeTypeGate | datasource/keeper_datasource/client.go:51-122 | each operation succeeds iff the fetch succeeded and the record has that operation's type; a fetch failure reaches every operation unchanged |
| PackerClient.InvalidTypeRefusedEverywhere | datasource/keeper_datasource/client_test.go:17-89 | with a vault answering one record of type "invalid", all eight operations fail with WrongRecordType |
| Singleton.GetSecretClient | datasource/keeper_datasource/client.go:27-49 | a call never leaves the state uninitialised and never changes a settled state; a ready state answers its client with no error; a failed state answers neither client nor error |
| Singleton.AtMostOneConstruction | datasource/keeper_datasource/client.go:30-41 | across any sequence of calls, the client is constructed at most once, and never again once settled |
| Singleton.SettledRun | datasource/keeper_datasource/client.go:44-48 | once settled, every call gives the same answer, whatever its environment |
| Singleton.SuccessShared | datasource/keeper_datasource/client.go:40-48 | after a successful construction, every call returns that same client and no error |
| Singleton.FailureNotReplayed | datasource/keeper_datasource/client.go:29-48 | as written, after a failed construction only the first call sees the error; every later call gets (nil, nil) |
| Singleton.GetSecretClientCaching | datasource/keeper_datasource/client.go:27-49 | with a package-level error: every answer holds exactly one of client and error, and a failed state answers its stored error |
| Singleton.FailureReplayed | datasource/keeper_datasource/client.go:29-48 | with a package-level error, every call after a failed construction returns that same error |
| Datasource.ValidateDataSourceConfig | datasource/keeper_datasource/datasource.go:13-19 | no error iff a non-empty uid is present; otherwise UidRequired |
| Datasource.ValidateExamples | datasource/keeper_datasource/datasource.go:14-18 | an absent uid and an empty uid are distinct inputs, both refused; any non-empty uid passes |

## Left out

- Extractors.ConvertDateStr: the RFC 3339 rendering itself is the parameter `local`. The model
  fixes only the parse and the truncating division by 1000. The local time zone makes the
  rendered text environment-dependent.
- KeeperRecord.GetFieldValue: a JSON integer is assumed to render as its plain decimal digits.
  A boolean, null or non-integral number reads as "". The library's rendering is not part of
  this model. Lookups also search only the record's standard field list, not its custom fields.
- The Keeper library internals: record parsing, `GetSecrets`, `NewSecretsManager`, configuration
  storage and the file download behind `GetFileData`. They appear only as values: the
  `Vault` function, the `parseConfig` function and the bytes of each `Attachment`.
- Error message texts. The error values carry the same diagnostics, namely uid, expected type
  and actual type.
- The concurrency of `sync.Once`. The model runs calls one after another.
- The `KeeperClient` interface and the test mock behind it. The facade is modelled over the
  production client only.
- The per-datasource plugin wrappers: configuration decoding, `Execute`, HCL2 conversion and
  log-secret filtering. Also left out: the generated HCL2 specs and plugin registration in
  `main.go`. These are plumbing around the core.
- Test utilities and acceptance tests. They need a live vault or match log output. The tests
  call `GetApiKey`; the code defines `GetAPIKey`, which is what is modelled.
- `Base64.Decode` is not an operation of the source, which never decodes. It is the strict
  decoder of section 3.5 of RFC 4648, refusing set unused bits in the last group, and serves
  only as the two-sided inverse against which `Encode` is proved.

## Findings

| source | as written | input that shows it | evidently intended | confidence | as-written member | corrected member |
|---|---|---|---|---|---|---|
| datasource/keeper_datasource/client.go:29-48 | `initError` is local to each call of `GetSecretClient`, so after a failed construction every later call returns a nil client with a nil error | neither `KEEPER_CONFIG_FILE` nor `KSM_CONFIG` set, and two datasources in one build: the first gets NoConfig; the second gets (nil, nil), and its `Execute` then calls a method on the nil client (datasource/keeper_datasource/keeper-login/data_keeper_login.go:54-60) | every call after a failed construction returns that construction's error | not executed; high | Singleton.FailureNotReplayed | Singleton.FailureReplayed |
