# bst core, modelled in Dafny

A model of four pieces of the `bst` developer tools for voice-assistant skills:

- **Encoder key and URL derivation** (`lib/client/bst-encode.ts`), module `BstEncode` on top
  of `JsString`. `callEncode` turns a source URL into the S3 key of the encoded file:
  1. the text after the last `/`;
  2. cut at the first `?`;
  3. the text before the first `.`;
  4. plus `-encoded.mp3`.

  `urlForS3` builds the public URL. The JavaScript `indexOf`, `lastIndexOf` and `substring`
  semantics are written out: -1 means "not found", `substring` clamps a negative end to 0 and
  swaps reversed arguments. So a name with no `.` gives the key `-encoded.mp3`.
  `uploadFile`, `callEncode`, `encodeFileAndPublish` and `encodeURLAndPublish` are functions.
  The S3 upload error is an input of `uploadFile` and `encodeFileAndPublish`. The encoder's HTTP
  status and message are an input of the other three. Each function returns what its callback
  receives, or the error it throws. `encodeFileAndPublish` reads the
  configuration's bucket (line 51) before `uploadFile` checks for a missing configuration.
  So along that path an undefined configuration throws a TypeError, never the guard's
  "No AWS Configuration parameters defined"; `EncodeFileAndPublish` states this.
- **Skill invocation** (`lib/alexa/skill-invoker.ts`), module `SkillInvocation`. `say` is a
  function of the phrase and three opaque collaborators: intent lookup, request building and
  the HTTP transport. Intent lookup and request building may throw. `say` returns the trace of
  POSTs issued, callbacks made and any exception that escapes it.
- **The speak command** (`bin/bst-speak.ts`), module `BstSpeak`. The loop that joins the
  leading string arguments is a method. It is proved equal to a fold and to a plain
  single-space join of the words once leading empty strings are dropped. The "Token Required"
  classification is a function.
- **Project config and process supervisor**, module `BstConfig`. The behaviour follows what
  `test/client/bst-config-test.ts` asserts of `BSTConfig` and `BSTProcess`. The implementation
  file `lib/client/bst-config.ts` is not part of this model.
  - `ConfigDirectory` is an in-memory config directory holding the config file and the
    process record.
  - `ProcessTable` holds the live pids (the liveness oracle) and every signal sent.
  - `Config` is a loaded `BSTConfig`.
  - Each test is a method whose postcondition is that test's assertions.

  The contracts follow what the tests assert. Where the tests are silent, the model fixes one
  behaviour:
  - `running()` with no record returns no process and sends no probe;
  - `running()` with a record probes exactly once;
  - the record also stores the port and proxy type given to `run`;
  - a freshly bootstrapped config has no application id.

## Model

| member | source | states |
|---|---|---|
| `JsString.IndexOf` | lib/client/bst-encode.ts:96-100 | -1 exactly when the character is absent; otherwise its first position |
| `JsString.LastIndexOf` | lib/client/bst-encode.ts:95 | -1 exactly when the character is absent; otherwise its last position |
| `JsString.Substring` | lib/client/bst-encode.ts:97-100 | the slice between the bounds when they are in range, in either order; a negative end counts as 0 |
| `JsString.SubstringFrom` | lib/client/bst-encode.ts:95 | the suffix from an in-range start; the whole string from a start of 0 or less |
| `BstEncode.LastSegment` | lib/client/bst-encode.ts:95 | the filename has no `/`; it is the suffix following the last `/`, or the whole URL when there is none |
| `BstEncode.StripQuery` | lib/client/bst-encode.ts:96-98 | the result has no `?`; it is the prefix before the first `?`, or unchanged when there is none |
| `BstEncode.BaseName` | lib/client/bst-encode.ts:100 | the basename has no `.`; it is the prefix before the first `.`, and `""` when the name has no `.` |
| `BstEncode.EncodedKey` | lib/client/bst-encode.ts:95-101 | the key ends with `-encoded.mp3`. Before that suffix is the basename: the whole text of the query-stripped last URL segment up to its first `.`, free of `.`, `/` and `?`. The key is just `-encoded.mp3` when that segment has no `.` |
| `BstEncode.EncodedKeyOfPlainName` | lib/client/bst-encode.ts:100-101 | a name without `/`, `?` or `.` yields the key `-encoded.mp3` |
| `BstEncode.UrlForS3` | lib/client/bst-encode.ts:139-141 | the URL starts with `https://s3.amazonaws.com/`, then the bucket, and ends with `/` and the key |
| `BstEncode.ParseS3Url` | lib/client/bst-encode.ts:139-141 | reference inverse of `UrlForS3`, with no counterpart in the source (which only builds URLs): the bucket read back from a URL contains no `/` |
| `BstEncode.S3UrlRoundTrip` | lib/client/bst-encode.ts:139-141 | for a bucket without `/`, the bucket and key are recovered from the URL |
| `BstEncode.LastSegmentOfS3Url` | lib/client/bst-encode.ts:51-52 | the filename callEncode derives from an uploaded object's URL is the uploaded name |
| `BstEncode.CallEncode` | lib/client/bst-encode.ts:93-133 | POST to the encoder host and path, carrying the configured access key id and secret, the source URL, the configured bucket and the derived key; non-200 gives `(statusMessage, null)`; 200 gives `(null, URL of that bucket and key)`; never both or neither; an undefined configuration throws reading `accessKeyId` |
| `BstEncode.ReportedUrlNamesTarget` | lib/client/bst-encode.ts:111-127 | the URL reported on success decodes to the configured bucket and to the `targetKey` header |
| `BstEncode.UploadFile` | lib/client/bst-encode.ts:71-91 | throws "No AWS Configuration parameters defined" exactly when the configuration is undefined; otherwise reports the object's S3 URL whatever putObject's error |
| `BstEncode.TrimTrailingSlashes` | lib/client/bst-encode.ts:49 | a prefix of the path, not ending in `/`, that drops only `/` characters |
| `BstEncode.SplitExtension` | lib/client/bst-encode.ts:49-50 | name + ext is the path component; ext is empty or one `.` followed by no other `.`, with a non-empty name |
| `BstEncode.ParsePath` | lib/client/bst-encode.ts:49-50 | name + ext is the last component of the path, trailing slashes ignored |
| `BstEncode.UploadName` | lib/client/bst-encode.ts:49-50 | the uploaded object name is the last path component, with no `/` |
| `BstEncode.EncodeFileAndPublish` | lib/client/bst-encode.ts:42-57 | an undefined configuration throws a TypeError on `bucket`, never the guard's error. Otherwise the encoder gets the uploaded object's URL and writes the key derived from the uploaded name into the configured bucket. The callback gets the status message as the error exactly when the status is not 200, and otherwise the S3 URL of that key |
| `BstEncode.EncodeUrlAndPublish` | lib/client/bst-encode.ts:60-69 | an undefined configuration throws a TypeError on `accessKeyId`. Otherwise the encoder is sent the given URL and the key derived from it in the configured bucket. The callback gets the status message as the error exactly when the status is not 200, and otherwise the S3 URL of that key |
| `SkillInvocation.NewSkillInvoker` | lib/alexa/skill-invoker.ts:8-10 | the service request is built from the invoker's own interaction model and application id |
| `SkillInvocation.Say` | lib/alexa/skill-invoker.ts:18-43 | a matcher that throws escapes `say` with no POST and no callback. Otherwise: one callback and at most one POST, to `skillURL`. No intent: `(null, "No matching intent for phrase: " + phrase)` and no POST. Build throws: `(null, message)` and no POST. Otherwise one POST of the built request; a transport error or synchronous throw gives `(null, message)`, a body gives `(body)` with no error |
| `SkillInvocation.SaySucceedsIff` | lib/alexa/skill-invoker.ts:27-33 | the callback gets `(body)` exactly when an intent matched, the request was built and the transport answered with that body |
| `BstSpeak.LeadingStrings` | bin/bst-speak.ts:17-21 | the strings before the first non-string argument, in order; arguments after it are ignored |
| `BstSpeak.BuildUtterance` | bin/bst-speak.ts:16-27 | the loop's utterance is the left fold of the leading strings; equivalently their single-space join once leading `""` are dropped; `""` when there are none |
| `BstSpeak.UtteranceIsJoin` | bin/bst-speak.ts:23-26 | the separator rule: the fold equals the single-space join after dropping leading empty strings, and is empty exactly when nothing remains |
| `BstSpeak.UtteranceOfNonEmptyWords` | bin/bst-speak.ts:16-27 | with no empty argument, the utterance is the words joined by single spaces |
| `BstSpeak.ClassifySpeakError` | bin/bst-speak.ts:37-51 | guidance and exit status 0 exactly for the message "Token Required"; every other error is rethrown unchanged |
| `BstConfig.ConfigDirectory.Empty` | test/client/bst-config-test.ts:19-23 | each test starts from a directory with no config file and no process record |
| `BstConfig.ProcessTable.IsRunning` | test/client/bst-config-test.ts:160-166 | the liveness probe sends signal 0 to the pid and reports whether it is alive |
| `BstConfig.ProcessTable.Kill` | test/client/bst-config-test.ts:167-168 | `SIGKILL` is delivered to exactly the given pid |
| `BstConfig.Config.BootstrapIfNeeded` | test/client/bst-config-test.ts:29-33 | an existing config is kept as it is; a missing one is written with the fresh key |
| `BstConfig.Config.Load` | test/client/bst-config-test.ts:35-46 | bootstraps if needed, and the loaded key and application id are those persisted |
| `BstConfig.Config.UpdateApplicationID` | test/client/bst-config-test.ts:48-61 | the persisted config gets the new id with the same secret key |
| `BstConfig.Run` | test/client/bst-config-test.ts:81-90 | the single process record is replaced by one with the given port, proxy type and pid |
| `BstConfig.Running` | test/client/bst-config-test.ts:92-120 | no record: no process and no probe. A record: exactly one probe, of the recorded pid; the record is returned exactly when that pid is alive. The record file is never removed |
| `BstConfig.NewConfigCreated` | test/client/bst-config-test.ts:29-33 | bootstrapping an empty directory leaves a config file |
| `BstConfig.LoadsExistingConfig` | test/client/bst-config-test.ts:35-46 | two loads return the same secret key, the one generated first |
| `BstConfig.UpdatesExistingConfig` | test/client/bst-config-test.ts:48-61 | after `updateApplicationID("12345678")` a fresh load has that id and the same key; the process record is untouched |
| `BstConfig.NewProcessWritten` | test/client/bst-config-test.ts:81-90 | after `run(9000, LAMBDA, 9999)` the persisted pid is 9999 |
| `BstConfig.ExistingProcessLoaded` | test/client/bst-config-test.ts:92-105 | with 9999 alive, `running()` probes 9999 only and returns a record with pid 9999 |
| `BstConfig.ExistingProcessNotRunning` | test/client/bst-config-test.ts:107-120 | with 9999 dead, `running()` probes 9999 only and returns no process, while the record stays on disk |
| `BstConfig.KillRunningProcess` | test/client/bst-config-test.ts:153-181 | killing the running record sends signal 0 then `SIGKILL`, both to the recorded pid only |

## Left out

- S3 `putObject`, the HTTP request to the encoder and `request.post` are network I/O. Their results are inputs: the upload error, the status code and message, and the transport's outcome.
- The encoder request's `error` event has no handler in the source. A failed connection is not modelled.
- The `responseData` accumulation in callEncode is never read, so it is not modelled.
- The file bytes read by `FileUtil.readFile` and read failures are not modelled; the data is passed to S3 unchanged.
- `BstEncode.ParsePath` follows the POSIX rules of Node's `path.parse`. Windows separators and drive roots are not modelled.
- `BstEncode.EncodeFileAndPublish`: `Threw` stands for an exception raised inside the file-read callback (line 51 runs there). A caller of encodeFileAndPublish cannot catch it, assuming `FileUtil.readFile` calls back asynchronously; FileUtil is not part of this model.
- Thrown TypeErrors carry the property read, not the engine's message text.
- `intentForPhrase`, `intentRequest` and the transport are opaque parameters of `SkillInvocation.Say`. Matching, slot extraction and envelope construction are not part of this model.
- `SkillInvocation.Say` does not model a callback that itself throws.
- An `e.message` of a thrown value that is not an Error (undefined) is not modelled.
- Callbacks are modelled as happening in order, not later in time. Asynchrony and cross-process races on the record file are left out.
- `SilentEchoClient.speak`, commander parsing, console output (the guidance text, "Your token is saved", the transcript and card), `process.exit` and `Global.initializeCLI` are CLI plumbing. `BstSpeak.ClassifySpeakError` gives only the action and the exit status.
- The real filesystem, JSON file formats and the `rm -rf` setup are replaced by `ConfigDirectory`.
- Probing real OS pids (tests at test/client/bst-config-test.ts:122-135) is replaced by the `alive` set of `ProcessTable`.
- Secret-key generation is random, so the key a bootstrap would write is a parameter. Uniqueness across directories is not modelled.
- `BSTProxy` start and stop and tunnel teardown are external. In the kill test, the proxy's port and pid are parameters.
- The process record holds port, proxy type and pid, the arguments of `run`. A start time and a separate lambda port are not asserted by the tests and are not modelled.
- Signal-delivery failures (no such process, permission denied) and corrupt config files are not modelled.
- `BstConfig.ProcessTable.Kill` records the SIGKILL delivery only. Its effect on whether the pid still answers the probe is not modelled; the live set stays as the oracle gave it.
- `BstConfig.Config.UpdateApplicationID` writes this loaded config's key with the new id. Only the persisted result is asserted by the test.
