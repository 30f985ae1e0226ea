# CustomerSuccessBox PHP client — delivery core in Dafny

This project models how the CustomerSuccessBox PHP client gets usage events
to the CustomerSuccessBox API, and proves properties of that model. It covers:

- **`Configuration`**: the endpoint, API key, enabled flag, transport name and
  transport options, with the validating setters and `isEnabled`.
- **`AbstractAPITransport`**: the bounded record queue, `flush`, and the
  recursive `send`. `send` cuts a list of records into contiguous chunks until
  each chunk's JSON fits in `MAX_POST_LENGTH` (65536) bytes. The model also
  covers option validation (`proxy`, `debug`) and the API headers.
- **`AsyncTransport`**: the environment guard of its constructor,
  `escapeArg`, and the `curl` command line that `send` hands to `exec`.
- **`CSB`**, the facade: it picks the transport by name and remembers the
  logged-in account and user. It turns each event (`login`, `logout`,
  `account`, `user`, `feature`) into one record for the transport, and
  forwards `flush` only while the configuration is enabled.

Files and modules:

| file | module | models |
|---|---|---|
| `php.dfy` | `Php` | PHP exceptions, `empty()` on strings, `trim()`, `strtoupper()`, `substr($s, 0, $n)` |
| `configuration.dfy` | `Config` | `src/Configuration.php` (class `Configuration`) |
| `api_transport.dfy` | `ApiTransport` | `src/Transport/AbstractAPITransport.php` (class `APITransport` plus the pure `send` specification) |
| `async_transport.dfy` | `Async` | `src/Transport/AsyncTransport.php` |
| `csb.dfy` | `Client` | `src/CSB.php` (class `CSB`) |

Classes whose methods update fields in place stay classes:
`Configuration`, `APITransport` and `CSB`.

- `sendChunk` appends the payload to the log `sent`.
- The facade's calls on its transport are appended to the log `calls`.
- `json_encode` of a list of records is `"[" + join(",", texts) + "]"`, where
  each record is given by its own JSON text.
- The recursive `send` is specified by the pure function `SendTrace`. It
  returns the record lists that reach `sendChunk`, in order, and whether the
  call ended with the exception `array_chunk` raises.
- `APITransport.Send` is the imperative recursion, with the `foreach` over
  chunks as a loop. It is proved to post exactly `SendTrace`'s payloads.

Two places where the code differs from what its comments and names suggest.
The model follows the code in both:

- The queue guard is `count <= MAX_QUEUE_LENGTH`, so the queue holds up to
  101 records, not 100.
- The chunk size `floor(count / ceil(len / MAX))` is not clamped to a minimum
  of 1. It is 0 whenever a list over the ceiling has fewer records than the
  posts it needs, for example two records that each exceed the ceiling.
  `array_chunk` then raises a `ValueError` (PHP 8). The model makes this an
  explicit error outcome. It can only happen when some record is over the
  ceiling on its own (`ApiTransport.SendLosesNothing`). The error propagates out of the recursion: the
  remaining chunks are not sent, and `flush` does not reach the line that
  empties the queue.

## Model

| member | source | states |
|---|---|---|
| `Php.LeadingTrim` | src/Configuration.php:74 | the count of leading trim characters: all of them are trim characters, and the next one is not |
| `Php.TrailingTrim` | src/Configuration.php:74 | the same at the end of the string |
| `Php.Trim` | src/Configuration.php:74 | `trim()` returns the infix that neither starts nor ends with a trim character; outside it the input holds only trim characters |
| `Php.PhpEmpty` | src/Configuration.php:76 | PHP's `empty()` on a string: true only for `''` and `'0'`, so only for strings of at most one character |
| `Php.TrimIdempotent` | src/Configuration.php:74 | trimming an already trimmed value changes nothing |
| `Php.ToUpper` | src/Transport/AsyncTransport.php:34 | ASCII `strtoupper`: same length; each lower-case letter is raised, every other character is kept |
| `Php.Prefix` | src/Transport/AsyncTransport.php:34 | `substr($s, 0, 3)`: a prefix of length 3, or the whole string when it is shorter |
| `Config.Configuration.Init` | src/Configuration.php:34-46 | defaults: no endpoint, no key, enabled, transport `'sync'`, no options |
| `Config.Configuration.New` | src/Configuration.php:55-63 | two strings go through `setEndpoint`, then `setAPIKey`, raising the first failure; otherwise nothing is set and the configuration is disabled |
| `Config.Configuration.SetEndpoint` | src/Configuration.php:72-83 | stores the trimmed endpoint, or raises 'Invalid Endpoint' for a PHP-empty one and keeps the old value |
| `Config.Configuration.SetAPIKey` | src/Configuration.php:103-114 | stores the trimmed key, or raises 'API key cannot be empty' and keeps the old value |
| `Config.Configuration.AddOption` | src/Configuration.php:144-149 | sets exactly one key; every other entry is unchanged |
| `Config.Configuration.SetOptions` | src/Configuration.php:158-163 | replaces the whole option map |
| `Config.Configuration.SetEnabled` | src/Configuration.php:170-187 | changes only the flag; afterwards `isEnabled` holds iff a key is set and the flag is on |
| `Config.Configuration.IsEnabled` | src/Configuration.php:170-173 | `isEnabled`: holds only when a key is set (and the flag is on) |
| `Config.Configuration.SetTransport` | src/Configuration.php:194-211 | `getTransport` returns the last name given |
| `ApiTransport.JsonOfTwo` | src/Transport/AbstractAPITransport.php:111-112 | the JSON of two records is 3 bytes longer than the two records together |
| `ApiTransport.Json` | src/Transport/AbstractAPITransport.php:111 | the JSON array text of the records: starts with `[` and ends with `]` |
| `ApiTransport.Enqueue` | src/Transport/AbstractAPITransport.php:79-86 | `addEntry` keeps the queue as a prefix; it appends the record when the queue holds at most MAX_QUEUE_LENGTH records and leaves a longer queue unchanged |
| `ApiTransport.EnqueueAll` | src/Transport/AbstractAPITransport.php:79-86 | a run of `addEntry` calls keeps the old queue as a prefix and never grows a queue of at most MAX_QUEUE_LENGTH + 1 records past that |
| `ApiTransport.EnqueueAllKeepsOldest` | src/Transport/AbstractAPITransport.php:79-86 | any run of `addEntry` calls keeps the oldest MAX_QUEUE_LENGTH + 1 records, in order, and drops the rest |
| `ApiTransport.CeilDiv` | src/Transport/AbstractAPITransport.php:120 | `ceil(a / b)` is the least r with r·b ≥ a |
| `ApiTransport.ChunkSize` | src/Transport/AbstractAPITransport.php:120 | the chunk size is at most half the records; it is 0 exactly when there are fewer records than posts needed |
| `ApiTransport.QuotientBounds` | src/Transport/AbstractAPITransport.php:120 | `floor(count / posts)` with at least two posts is at most half the records, and 0 exactly when there are fewer records than posts |
| `ApiTransport.FlattenAppend` | src/Transport/AbstractAPITransport.php:121-124 | concatenating chunk lists concatenates their records |
| `ApiTransport.Chunks` | src/Transport/AbstractAPITransport.php:121 | `array_chunk`: non-empty contiguous slices of `size` records (the last possibly shorter) that together give back the input |
| `ApiTransport.PayloadsAt` | src/Transport/AbstractAPITransport.php:126 | the i-th payload is the JSON of the i-th posted batch |
| `ApiTransport.PayloadsAppend` | src/Transport/AbstractAPITransport.php:122-126 | the payloads of consecutive batch lists are concatenated |
| `ApiTransport.SendFits` | src/Transport/AbstractAPITransport.php:115-127 | a list whose JSON fits is posted whole, as exactly one payload, with no error |
| `ApiTransport.LoneOversizedDropped` | src/Transport/AbstractAPITransport.php:116-118 | a single oversized record posts nothing and raises nothing |
| `ApiTransport.SendTrace` | src/Transport/AbstractAPITransport.php:109-128 | `send($items)` as the list of batches it posts and whether it raised: no batch is longer than the input, and only a list of two or more records can raise |
| `ApiTransport.SendEach` | src/Transport/AbstractAPITransport.php:122-124 | the `foreach` over the chunks: every batch posted is shorter than the list that was chunked, and it raises only when there is a chunk |
| `ApiTransport.SendTraceFits` | src/Transport/AbstractAPITransport.php:109-128 | every batch the recursion posts serialises within the ceiling |
| `ApiTransport.SendEachFits` | src/Transport/AbstractAPITransport.php:122-124 | the same for the `foreach` over the chunks |
| `ApiTransport.PayloadsWithinLimit` | src/Transport/AbstractAPITransport.php:115-127 | no payload `send` emits, at any depth, exceeds MAX_POST_LENGTH |
| `ApiTransport.SubseqOfLonger` | src/Transport/AbstractAPITransport.php:122-124 | a subsequence of the later chunks is a subsequence of all of them |
| `ApiTransport.SubseqAppend` | src/Transport/AbstractAPITransport.php:122-124 | in-order subsequences of consecutive chunks combine |
| `ApiTransport.SubseqRefl` | src/Transport/AbstractAPITransport.php:126 | a batch posted whole is an in-order subsequence of itself |
| `ApiTransport.SendTraceInOrder` | src/Transport/AbstractAPITransport.php:109-128 | `send` posts records of its input, in input order, none repeated: an in-order subsequence of the input |
| `ApiTransport.SendEachInOrder` | src/Transport/AbstractAPITransport.php:122-124 | the same for the `foreach` over the chunks |
| `ApiTransport.FlattenMembers` | src/Transport/AbstractAPITransport.php:121 | every record of a chunk is a record of the chunked list |
| `ApiTransport.OnlyRecordFits` | src/Transport/AbstractAPITransport.php:116 | a one-record list whose record fits is not over the ceiling |
| `ApiTransport.JoinWithinPosts` | src/Transport/AbstractAPITransport.php:111-112 | when every record fits alone, the JSON of n records is at most n·MAX_POST_LENGTH bytes |
| `ApiTransport.ChunkSizePositive` | src/Transport/AbstractAPITransport.php:120-121 | when every record fits alone, a list over the ceiling needs no more posts than it has records, so its chunk size is at least 1 |
| `ApiTransport.SendTraceComplete` | src/Transport/AbstractAPITransport.php:109-128 | when every record fits alone, the recursion raises nothing and the posted batches concatenate to the input |
| `ApiTransport.SendEachComplete` | src/Transport/AbstractAPITransport.php:122-124 | the same for the `foreach` over the chunks |
| `ApiTransport.SendLosesNothing` | src/Transport/AbstractAPITransport.php:109-128 | when every record fits on its own, `send` never raises the chunk-size error and posts every record, in order, in consecutive batches |
| `ApiTransport.TwoOversizedRecordsRaise` | src/Transport/AbstractAPITransport.php:120-121 | two records that each exceed the ceiling give chunk size 0: `array_chunk` raises before anything is posted |
| `ApiTransport.Matches` | src/Transport/AbstractAPITransport.php:58-70 | `preg_match` of the two option patterns: a value matching `/./` is not empty; a value matching the 0-or-1 pattern has at most two characters |
| `ApiTransport.AllowedOptions` | src/Transport/AbstractAPITransport.php:146-152 | exactly `proxy` with the any-character pattern, then `debug` with the optional 0-or-1 pattern |
| `ApiTransport.ApiHeaders` | src/Transport/AbstractAPITransport.php:157-164 | exactly Content-Type and Accept `application/json`, then `Authorization: Bearer <key>`, in that order |
| `ApiTransport.APITransport.Init` | src/Transport/AbstractAPITransport.php:29-36 | no proxy, no debug value, an empty queue, nothing sent |
| `ApiTransport.APITransport.New` | src/Transport/AbstractAPITransport.php:45-49 | the transport is built iff each present `proxy`/`debug` option matches its pattern, otherwise the `proxy` error comes before the `debug` one; once built, `proxy` and `debug` hold the options given (or nothing) and the queue and payload log are empty |
| `ApiTransport.APITransport.VerifyOptions` | src/Transport/AbstractAPITransport.php:58-70 | a present, matching option is stored in the field of its name; the first present non-matching one raises "Option '<name>' has invalid value"; absent and unlisted options are ignored |
| `ApiTransport.APITransport.AddEntry` | src/Transport/AbstractAPITransport.php:79-86 | appends at the tail while the queue holds at most 100 records, otherwise changes nothing; the queue never exceeds 101 |
| `ApiTransport.APITransport.SendChunk` | src/Transport/AbstractAPITransport.php:137 | one payload is handed to the concrete transport |
| `ApiTransport.APITransport.Send` | src/Transport/AbstractAPITransport.php:109-128 | posts exactly the payloads of `SendTrace`, raises exactly when it ends in the chunk-size error, and keeps every posted payload within the ceiling |
| `ApiTransport.APITransport.SendChunks` | src/Transport/AbstractAPITransport.php:121-124 | the `foreach` posts the chunks' payloads in order and stops at the first chunk that raises |
| `ApiTransport.APITransport.Flush` | src/Transport/AbstractAPITransport.php:93-102 | an empty queue sends nothing; otherwise one `send` of the whole queue, after which the queue is empty unless `send` raised |
| `Async.CheckEnvironment` | src/Transport/AsyncTransport.php:28-39 | fails with the `exec` message when `exec` is missing, otherwise with the Windows message iff the OS name starts with "win" in any case; passes iff neither applies |
| `Async.WindowsNamesRefused` | src/Transport/AsyncTransport.php:34-36 | "Windows_NT", "WINNT" and "WIN32" are refused; "Linux" and "Darwin" pass |
| `Async.EscapeArg` | src/Transport/AsyncTransport.php:89-92 | `escapeArg`: the escaped text is never shorter than the input and is empty only for the empty input |
| `Async.EscapeArgLength` | src/Transport/AsyncTransport.php:89-92 | the escaped text is the input's length plus 4 per `'` |
| `Async.EscapeArgNoQuote` | src/Transport/AsyncTransport.php:89-92 | a string without `'` is returned unchanged |
| `Async.EscapeArgAppend` | src/Transport/AsyncTransport.php:89-92 | the replacement works character by character: escaping distributes over concatenation |
| `Async.QuoteEscapeRead` | src/Transport/AsyncTransport.php:91 | inside single quotes the shell reads the replacement `'"'"'` as one `'` and is back inside single quotes |
| `Async.PlainCharRead` | src/Transport/AsyncTransport.php:91 | inside single quotes every other character reads as itself |
| `Async.EscapedRead` | src/Transport/AsyncTransport.php:89-92 | a POSIX shell reading the escaped text inside single quotes gets the original text back, then carries on with what follows |
| `Async.QuotedArgRoundTrip` | src/Transport/AsyncTransport.php:89-92 | `'` + escapeArg(s) + `'` is one shell word whose value is exactly s |
| `Async.HeaderArgsOfApiHeaders` | src/Transport/AsyncTransport.php:55-59 | the command carries one `--header "Name: Value"` argument per API header, in header order |
| `Async.Command` | src/Transport/AsyncTransport.php:55-69 | the command string begins with the `curl -X POST` head and its headers and is longer than the head and the escaped data together |
| `Async.CommandShape` | src/Transport/AsyncTransport.php:55-69 | the command starts with `curl -X POST` and the headers, ends with ` > /dev/null 2>&1 &`, and has a `--proxy '<proxy>'` clause just before that iff a proxy is set and is neither `''` nor `'0'` (`--max-time 5` otherwise) |
| `Async.CommandCarriesData` | src/Transport/AsyncTransport.php:61-63 | right after the headers and ` --data ` comes the single-quoted escaped data, which the shell reads back as exactly the data |
| `Async.AppendHeaders` | src/Transport/AsyncTransport.php:57-59 | the `foreach` appends one header argument per header, in order |
| `Async.Send` | src/Transport/AsyncTransport.php:49-80 | disabled: returns false and builds no command; enabled: returns true and the command is exactly `Command(...)` |
| `Client.SelectTransport` | src/CSB.php:48-54 | the shell transport iff the name is `'async'`; `'sync'` and every other name give the cURL transport |
| `Client.CSB.New` | src/CSB.php:46-58 | what the constructor's body does once the transport classes load (PHP refuses their declarations as written; see Left out): `'async'` would raise ArgumentCountError (one argument passed to a two-argument constructor); any other name builds the cURL transport, raising when cURL is missing or an option is invalid; a built facade has no IDs stored and has made no calls |
| `Client.CSB.constructor` | src/CSB.php:56 | the facade after its transport has been built: the configuration kept, no IDs stored, no calls made |
| `Client.CSB.CheckForAccountAndUserID` | src/CSB.php:67-86 | succeeds iff each ID is given or stored; a given (non-empty) ID is used as is, an empty one is replaced by the stored one; the account error is raised before the user error; both results are non-empty |
| `Client.CSB.Track` | src/CSB.php:88-99 | exactly one `'track'` record with the given IDs and event is sent |
| `Client.CSB.Login` | src/CSB.php:107-125 | empty account: 'Invalid Account ID', nothing changes; empty user: 'Invalid User ID' after the account ID has already been stored; otherwise both stored and one 'User Login' record sent |
| `Client.CSB.Account` | src/CSB.php:133-149 | a non-empty account ID is stored and one `'account'` record sent; otherwise 'Invalid Account ID' and nothing changes |
| `Client.CSB.User` | src/CSB.php:158-181 | the same partial update as `login`, then one `'user'` record |
| `Client.CSB.Logout` | src/CSB.php:189-197 | resolves the IDs, then sends one 'User Logout' record or raises the resolution error; the stored IDs never change |
| `Client.CSB.Feature` | src/CSB.php:209-225 | resolves the IDs, then sends one `'feature'` record carrying `total` or raises; the stored IDs never change |
| `Client.CSB.Flush` | src/CSB.php:230-237 | forwarded to the transport exactly once while the configuration is enabled, otherwise nothing happens |

Every event method of `CSB` (`Login`, `Account`, `User`, `Logout`, `Feature`)
and `Flush` requires and keeps the invariant `CSB.Valid`: every record sent
names a non-empty account and, where the record has one, a non-empty user.
The private helper `Track` does not check its IDs, as in the source; its
callers pass IDs they have already checked.

## Left out

- Running the command (`exec`), `curl`'s HTTP exchange in `CurlTransport::sendChunk`, and `error_log` with `date()`: these are I/O. `sendChunk` is a log of payloads.
- Timestamps (`date(DateTime::ISO8601)`) are a parameter of each event method.
- `register_shutdown_function([$this, 'flush'])` in the `CSB` constructor is not modelled. `CSB.Flush` is the entry point it would call.
- Real JSON encoding is not modelled. A record is given by its JSON text, and a list is the bracketed, comma-joined texts. `json_encode` failures are not modelled.
- `preg_match` is not modelled as a regex engine. Only the two fixed patterns are written out as predicates, including `$` matching before a final newline.
- Option values and constructor arguments that are not strings: options are a string-to-string map; an argument that is not a string is `None`.
- `AsyncTransport` does not fit its parent. Its constructor passes `(endpoint, apiKey)` where the parent expects a `Configuration`, `send($uri, $data)` overrides `send($items)`, and it calls `$this->isEnabled()` and reads `$this->endpoint`, neither of which exists. So `Async.Send` takes the enabled state, key, endpoint, URI, data and proxy as parameters. Only the constructor's guard is modelled, as `Async.CheckEnvironment` over the `exec` availability and OS name.
- Client.CSB.constructor: it is the state `Client.CSB.New` builds once the transport exists, and it cannot fail by itself. The failures of `new CSB(...)` are modelled in `Client.CSB.New`.
- Client.CSB.New: whether cURL is available is a parameter. The ArgumentCountError message leaves out PHP's "in <file> on line <n>" part. The facade keeps which transport was chosen, not the transport object.
- Declarations as written: `TransportInterface` declares `send($uri, $data)`, but `AbstractAPITransport` implements it as `send($items)`, and `AsyncTransport` overrides that again with `send($uri, $data)`. PHP 7 and 8 refuse these incompatible declarations with a fatal error, so `AbstractAPITransport`, `CurlTransport`, `AsyncTransport` and `EmptyTransport` cannot be loaded as written. The model shows what the method bodies do once the declarations are accepted.
- Client.CSB.New: as written, `new CSB(...)` dies with the declaration error above for every transport name, before the ArgumentCountError or the cURL check. The model gives the outcome of the constructor's body once the transport classes load.
- `EmptyTransport` and `TransportInterface` are not part of this model: the first always returns true; the second only declares methods.
- Client.CSB.Account, Client.CSB.User, Client.CSB.Feature: the default arguments `$traits = []` (`account`, `user`) and `$total = 1`, `$accountID = null`, `$userID = null` (`feature`) are required parameters in the model. `Client.DEFAULT_TOTAL` is the default total, and an omitted ID is the empty string.
- `Client.CSB.Track`, `Account`, `User`, `Feature`: `Transport->send($item)` is recorded as one call carrying the record. What the transport then does with a single record map is not modelled. The facade never uses the queue.
- `array_chunk` with size 0 is modelled as PHP 8 behaviour (a `ValueError`). Under PHP 7 it warns and returns null, and `send` would then post nothing and return normally.
- Getters (`getEndpoint`, `getApiKey`, `getOptions`, `getTransport`) are field reads.
- IDs are strings; PHP `null` and `''` are both the empty string (both PHP-empty). IDs given as integers are not modelled.
- Integer widths: lengths and counts are unbounded integers. PHP's float division in `ceil`/`floor` is exact for these magnitudes.
