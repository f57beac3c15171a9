# kroger-mcp shared tools state, modelled in Dafny

This project models `src/kroger_mcp/tools/shared.py` of the kroger-mcp server: the
helper module every tool uses to get an API client and to read or write the
user's preferred store location. It has three parts.

- **Required-variable validator** (`env.dfy`): `load_and_validate_env` walks the
  required names in a loop. It collects each name that `os.getenv` finds unset or
  empty, and raises one `ValueError` listing all of them, in input order.
- **Session cache** (`session.dfy`): the two module-level slots
  `_client_credentials_client` and `_authenticated_client` are the fields of the
  class `Sessions`. A `KrogerAPI` handle is the class `ApiClient`, so "the same
  handle" is reference equality.
  - `get_client_credentials_client` fills its slot lazily.
  - `get_authenticated_client` runs the fixed recovery procedure: cached and
    valid, clear the slot, check the environment, load the token file, test,
    refresh at most once, test again, else "Authentication required".
  - Errors are classified by searching their text for "Authentication required".
  - Each `invalidate_*` method clears one slot.
  - The external library is replaced by parameters. `TokenLoad` is what
    `load_token` gave. A function `Option<TokenInfo> -> TokenTest` answers
    `test_current_token()` for a handle's token record: valid, invalid, or raised. A function
    `string -> RefreshOutcome` answers `refresh_token(...)`. A `Status` is the
    outcome of `client_credentials()`.
- **Preference store** (`preferences.dfy`): the file system is a
  `map<Path, Content>`, and a path missing from the map is a missing file.
  - `Content` is what a file holds: blank, corrupt (rejected by `json.loads`),
    undecodable (not UTF-8, an error neither named handler catches), or a parsed
    document.
  - Whether a read raises an OS error is not a property of the file. Each load
    takes its own `ReadOutcome`.
  - A parsed document is either a JSON object or valid JSON of another kind.
  - JSON encoding is an exact round trip of the record.
  - `Saved`, `LoadResult` and `AfterLoad` state declaratively what a save and a
    load do. The methods of `PreferenceStore` perform the steps of the source
    (write temporary file, optional delete, rename, cleanup) and are proved equal
    to them.
  - A `WriteFault` says how the file system treats one save. A `LoadIo` gives a
    load its read outcome and the write outcomes of its first and second default
    writes. `set_preferred_location_id` takes one `LoadIo` per load and one
    `WriteFault` for its own save. `Platform` selects the Windows
    remove-then-rename branch.

`outcomes.dfy` holds `Option`, `Result` (returns a value or raises with a message)
and `Status` (returns nothing or raises). `text.dfy` holds Python's substring test
and `', '.join`.

Behaviour of the code that the model records as it is:

- When `client_credentials()` fails, the unauthorised handle stays cached, because
  the slot is assigned first. The next call returns it without authorising
  (`FailedAuthorizationStaysCached`).
- A loaded token record that is an empty dict counts as no token (`if token_info:`).
- When a loaded token tests invalid and has no `refresh_token`, the call raises
  "Authentication required" but the handle bound to the stale token stays in the
  slot. The same holds when a refresh succeeds but the new token still tests
  invalid. Only a refresh that raises clears the slot.
- `test_current_token()` raising has three outcomes. On the cached handle, the
  check sits outside the `try`, so the error escapes unwrapped and the slot is
  kept. On the freshly loaded token, the error is classified and the new handle
  stays cached. After a refresh, the refresh's own handler clears the slot and the
  call ends in "Authentication required".
- A missing environment variable during user recovery is reported as
  "Authentication failed: Missing required environment variables: ...". The
  required names cannot contain "Authentication required" (`EnvErrorIsWrapped`).
- On Windows, a rename that fails after the old target was deleted leaves no
  preferences file at all (`SaveReplacesWhole`). On POSIX the target keeps its old
  contents.
- When the file is missing and the default cannot be written, the save's OS error
  lands in the load's JSON/OS error handler, which writes the default once more.
  The file is created unless both writes fail (`MissingFileIsCreated`).
- A read that raises an OS error sends the load to the same handler. The handler
  writes the default over whatever the file held, a valid record included
  (`FailedReadOverwritesRecord`).
- The read-back check of `set_preferred_location_id` fails exactly when its save
  succeeded and the reload's read raised. That reload yields the default record
  and writes it over the record just saved when it can. The call then raises
  "Failed to save preferred location. Expected: <id>, Got: None".
- A file holding valid JSON that is not an object is returned by the load as it
  is. `get_preferred_location_id` and `set_preferred_location_id` then raise.

Where the design description and the code differ, the model follows the code:

- The design says the app-credentials handle is cached after authorisation; the
  code caches it before.
- The design says the preferences file always holds `preferred_location_id`; the
  code returns a stored object without that key unchanged, and the getter then
  yields `None`.
- The design speaks of distinct error kinds; the code distinguishes them only by
  message text.

## Model

| member | source | states |
|---|---|---|
| `Env.EnvCheck` | src/kroger_mcp/tools/shared.py:20-28 | the validator passes exactly when every required name is set to a non-empty value |
| `Env.LoadAndValidateEnv` | src/kroger_mcp/tools/shared.py:20-28 | the loop's result is the aggregated check: it passes iff every name is set, and otherwise raises with the prefix followed by all missing names joined by ", " |
| `Env.MissingMembers` | src/kroger_mcp/tools/shared.py:22-25 | a name is reported iff it is required and unset or empty, so a set name never appears in the report |
| `Env.NothingMissingIffAllSet` | src/kroger_mcp/tools/shared.py:22-27 | the report is empty exactly when all required names are set |
| `Env.MissingInInputOrder` | src/kroger_mcp/tools/shared.py:22-25 | the report picks, at strictly increasing positions of the input, exactly the positions whose name is unset |
| `Env.MessageNamesEveryMissing` | src/kroger_mcp/tools/shared.py:27-28 | the error message contains every missing name, not only the first |
| `Text.JoinContainsEach` | src/kroger_mcp/tools/shared.py:28 | `', '.join(xs)` contains every element of `xs` |
| `Session.Sessions.constructor` | src/kroger_mcp/tools/shared.py:12-14 | both slots start empty |
| `Session.Sessions.GetClientCredentialsClient` | src/kroger_mcp/tools/shared.py:34-47 | a filled slot is returned unchanged; otherwise a missing variable raises with the init prefix and leaves the slot empty, and with the variables set a fresh handle is cached before authorisation, so it stays cached, unauthorised, when authorisation raises with the init prefix |
| `Session.Classify` | src/kroger_mcp/tools/shared.py:96-102 | the classified error is the original or "Authentication failed: " plus it, always contains the original text, and mentions "Authentication required" exactly when the original does |
| `Session.WrappingAddsNoPhrase` | src/kroger_mcp/tools/shared.py:97-102 | the "Authentication failed: " prefix neither creates nor hides an "Authentication required" occurrence |
| `Session.Sessions.GetAuthenticatedClient` | src/kroger_mcp/tools/shared.py:49-102 | cached and valid: the same handle, one validity check, nothing else; a validity check of the cached handle that raises escapes unwrapped with the slot unchanged; otherwise the slot is cleared and each recovery branch (env error, load error, no token, token valid, token check raising, no refresh key, failed refresh, refreshed token valid, invalid or raising) ends in its stated slot and result; refresh is tried at most once; a returned handle always tests valid; the app slot is untouched |
| `Session.Sessions.InvalidateAuthenticatedClient` | src/kroger_mcp/tools/shared.py:104-107 | clears the user slot and leaves the app slot as it was |
| `Session.Sessions.InvalidateClientCredentialsClient` | src/kroger_mcp/tools/shared.py:109-112 | clears the app slot and leaves the user slot as it was |
| `Session.AuthRequiredPassesThrough` | src/kroger_mcp/tools/shared.py:92-99 | the "Authentication required" error is re-raised unchanged by the classifier |
| `Session.OtherErrorsAreWrapped` | src/kroger_mcp/tools/shared.py:96-102 | an error not mentioning "Authentication required" is re-raised as "Authentication failed: " plus its text, which it still contains |
| `Session.EnvErrorIsWrapped` | src/kroger_mcp/tools/shared.py:64-102 | a missing-variable error during user recovery is always wrapped as an authentication failure, never passed through |
| `Session.CachedClientIsReused` | src/kroger_mcp/tools/shared.py:56-58 | two calls in a row with a token that stays valid return the identical handle, even when the token file is gone by the second call |
| `Session.InvalidateForcesRecovery` | src/kroger_mcp/tools/shared.py:54-78 | after invalidation the next call builds a new handle from the token file rather than reusing the old one |
| `Session.FailedAuthorizationStaysCached` | src/kroger_mcp/tools/shared.py:38-47 | a failed authorisation raises with the init prefix, and the next call returns the cached handle that was never authorised |
| `Preferences.PreferenceStore.SavePreferences` | src/kroger_mcp/tools/shared.py:146-174 | the step-by-step save (temp write, Windows delete, rename, cleanup) produces exactly `Saved` and returns or re-raises the file-system error |
| `Preferences.PreferenceStore.LoadPreferences` | src/kroger_mcp/tools/shared.py:114-144 | never raises; returns `LoadResult` of the old file system and that load's read outcome, and leaves exactly `AfterLoad`: the missing-file write with its second attempt, the best-effort rewrite after a failed read or corrupt JSON, no write otherwise |
| `Preferences.PreferenceStore.GetPreferredLocationId` | src/kroger_mcp/tools/shared.py:176-181 | returns the loaded value of `preferred_location_id`, `None` when the key is absent, and raises for a document that is not an object |
| `Preferences.PreferenceStore.SetPreferredLocationId` | src/kroger_mcp/tools/shared.py:183-195 | on an object, saves the loaded record with only `preferred_location_id` replaced and re-raises a failed save; after a successful save it passes exactly when the reload reads without error, and otherwise raises the mismatch error with "Got: None" after the reload's default write; on a pass the file yields the new id and every other loaded key; raises for a non-object document |
| `Preferences.SaveThenLoadRoundTrips` | src/kroger_mcp/tools/shared.py:114-163 | a load that reads without error after a successful save returns the saved record with all its keys, and writes nothing |
| `Preferences.SaveTouchesOnlyItsPaths` | src/kroger_mcp/tools/shared.py:153-173 | a save changes no other path and never leaves the `.tmp` file behind |
| `Preferences.SaveReplacesWhole` | src/kroger_mcp/tools/shared.py:159-174 | after a save the target holds the new record or its previous contents, and disappears only when it was missing and the save failed, or when a rename fails on Windows |
| `Preferences.LoadFallsBackToDefault` | src/kroger_mcp/tools/shared.py:116-144 | a missing, blank, corrupt or undecodable file, or a read that raises, yields `{preferred_location_id: None}`; blank and undecodable files read without error are not rewritten |
| `Preferences.MissingFileIsCreated` | src/kroger_mcp/tools/shared.py:128-141 | a missing file ends up holding the default record unless both the first write and the handler's second write fail, in which case it stays missing |
| `Preferences.FailedReadOverwritesRecord` | src/kroger_mcp/tools/shared.py:133-141 | a read that raises, followed by a write that succeeds, replaces any stored record, a valid one included, with the default |
| `Preferences.LoadIsStable` | src/kroger_mcp/tools/shared.py:114-144 | after a load that read without error, a second load returns the same document, whatever the first wrote or failed to write |

## Left out

- `kroger_api` itself is not modelled: `KrogerAPI()`, `client_credentials()`, `load_token()`, `test_current_token()` and `refresh_token()` are HTTP/OAuth calls. They appear only as oracle parameters. `KrogerAPI()` is taken never to raise.
- `os.path.exists` is taken never to raise. An OS error while reading is a per-load `ReadOutcome`. A file that is undecodable is a property of its content.
- The validity oracle is a function of the token record. Within one call, the same record therefore tests the same way each time.
- JSON encoding details (`indent=2`, `ensure_ascii=False`) are left out. A saved record reads back exactly.
- `os.makedirs` is taken to succeed. `flush` and `fsync` are durability plumbing. Crash atomicity of `os.rename` is not modelled.
- Removing the temporary file during cleanup is taken to succeed, although the source swallows a failure there.
- The save's `json.dump` failing on an unserialisable value cannot happen: every `Value` is JSON.
- `Show` renders an `Other` value as its JSON text, where the f-string would print Python's `str()` of the decoded value (`True`, `[1, 2]`). The mismatch message only ever shows `None` here, because the reload yields either the new id or the default record.
- The exact texts of Python's `TypeError` and `AttributeError` for a non-object document vary with the JSON kind. They are modelled by one fixed message.
- `print` diagnostics are logging only.
- `format_currency` is float formatting, and `get_zip_code` and `get_default_zip_code` are plain lookups with a default.
- Concurrent callers racing on the slots or on the preferences file are not modelled. The code assumes one thread.
- The ghost counters `checks` and `refreshes` of `GetAuthenticatedClient` count the oracle calls. The oracles themselves cannot observe being called.
