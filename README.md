# toolstack.app dev server — a verified model

`main.go` serves the toolstack.app site folder (`./site`) over HTTP. In
development it also keeps a set of live-reload websocket clients and tells
each of them to reload when a file in the site folder changes. Its `/ip/`
page shows the caller's address, which it derives from `X-Forwarded-For`,
`X-Real-IP` or the connection's remote address.

The model covers the following:

- **`LiveReload`** (`live_reload.dfy`)
  - The live-reload hub, as the class `Hub` over abstract connection ids.
  - Register, unregister and broadcast (`notifyClients`). A write that fails is an input, and such a client is dropped.
  - The watcher's event-kind filter on fsnotify's `Op` bit mask.
  - The client set after any run of hub steps (`Run`).
- **`ClientIp`** (`client_ip.dfy`)
  - `getIP`, written twice. `ClientIPs` is the specification function. `GetIP` is a method with the source's loop over the comma-separated entries, proved equal to it.
  - `net.SplitHostPort` is an input (`Option<string>`).
- **`Handler`** (`handler.dfy`)
  - The listen-address default.
  - The mux: `/ws` in development only, then the `/` handler's health check, HTML pages and static files.
  - The page file path and `RootSlash`.
  - Plain-text client detection and the address text size.
  - The control flow of the template handler, with the site folder and the template engine as inputs.
  - The live-reload script injection, which replaces only the first `</body>`.
- **`GoStrings`** (`go_strings.dfy`)
  - The Go `strings` functions the server uses: `HasPrefix`, `HasSuffix`, `Index`, `Contains`, `Replace` with n = 1, `TrimSpace` with `unicode.IsSpace`, and `Split` on a one-character separator.
  - Go's `len` on a string, which counts UTF-8 bytes.
  - Lemmas relating these functions to each other, such as `Split`/`Join` round trips and piece counts.
- **`WhiteSpace`** (`white_space.dfy`): the 25-character table of `unicode.IsSpace`, checked against Go's two-part definition.
- **`Wrappers`** (`wrappers.dfy`): the `Option` type.

## Model

| member | source | states |
|---|---|---|
| LiveReload.Hub.constructor | main.go:84-91 | a new hub has no clients |
| LiveReload.Hub.Register | main.go:52-54 | the connection becomes a member and nothing else changes |
| LiveReload.Hub.Unregister | main.go:57-61 | the connection is no longer a member and nothing else changes; removing a non-member leaves the set as it was |
| LiveReload.Hub.Broadcast | main.go:66-82 | the new set is the old set minus the failing clients; the dropped clients are exactly the failing members; the message is delivered to exactly the non-failing members, each once |
| LiveReload.Hub.OnFileChange | main.go:124-133 | an event that passes the filter broadcasts, with the effect of one `FileChange` step: the message reaches exactly the non-failing members, each once, and the dropped clients are exactly the failing members; any other event changes nothing, delivers nothing and drops nothing |
| LiveReload.TriggersReload | main.go:130 | an event that triggers a reload has a non-empty mask that is not Chmod alone |
| LiveReload.TriggersReloadIff | main.go:130 | an event triggers a reload exactly when its mask carries Create, Write, Remove or Rename; Chmod alone does not trigger one, and adding Chmod to a mask does not change the outcome |
| LiveReload.Step | main.go:52-133 | after one hub step, a connection is a client exactly when the step connected it, or when the step did not concern it and it was a client before; a disconnect, and a file change that passes the filter (`TriggersReload`) for a failing client, concern that connection and make it a non-client; a file change that fails the filter concerns no connection |
| LiveReload.Run | main.go:52-82 | after any run of hub steps, every client was a client at the start or is connected by some step of the run |
| LiveReload.RunMembership | main.go:52-82 | after any interleaving of connects, disconnects and broadcasts, a connection is a client exactly when the last step that concerned it connected it (or, if no step did, when it was a client at the start) |
| LiveReload.TwoTabsScenario | main.go:52-82 | two tabs connect and a file is written: both get the reload; one tab goes away and a file is written again: only the other gets it, and the closed one is no longer a client |
| ClientIp.ClientIPs | main.go:143-206 | with a non-empty `X-Forwarded-For`, the forwarded list has one entry per comma, and the address has no comma and no surrounding white space; otherwise the forwarded list is empty, a non-empty `X-Real-IP` is the address unchanged, and without either the address holds no '%' zone |
| ClientIp.RemoteIp | main.go:188-205 | the address taken from the remote address never holds a '%' zone |
| ClientIp.GetIP | main.go:143-206 | the address returned is exactly the one `ClientIPs` defines, in all three cases of the precedence |
| ClientIp.WalkForwardedFor | main.go:156-179 | the loop that keeps the first trimmed entry as the address and appends the others gives exactly `ForwardedForIPs`: the first trimmed entry, then every other entry trimmed, in order |
| ClientIp.TrimEach | main.go:159-174 | the trimmed list has one entry per entry |
| ClientIp.TrimEachExtend | main.go:159-174 | trimming a list one entry longer appends that entry, trimmed, at the end: the loop's appends build the trimmed list |
| ClientIp.TrimEachAt | main.go:159-174 | entry `k` of the trimmed list is entry `k` of the list, trimmed: the order is kept |
| ClientIp.TrimEachNoSpace | main.go:159-174 | a list of entries without white space is unchanged by trimming |
| ClientIp.Precedence | main.go:154-186 | a non-empty `X-Forwarded-For` decides the result whatever the other inputs hold; otherwise a non-empty `X-Real-IP` is returned unchanged with an empty forwarded list; otherwise the remote address is used |
| ClientIp.ForwardedForLayout | main.go:156-177 | the first comma-separated entry, trimmed, is the address; every other entry, trimmed and in order, is the forwarded list, with one forwarded entry per entry after the first |
| ClientIp.ForwardedForUntrimmed | main.go:159-177 | for a header without white space the entries are taken as they are: the address followed by the forwarded list is exactly the split of the header |
| ClientIp.ForwardedForCount | main.go:159-177 | the forwarded list has as many entries as the header has commas |
| ClientIp.ForwardedForEntries | main.go:159-176 | the address and every forwarded entry contain no comma and have no surrounding white space |
| ClientIp.ForwardedForRoundTrip | main.go:159-177 | for a header without white space, the address followed by the forwarded list, joined with commas, gives back the header: no entry is lost or reordered |
| ClientIp.PiecesHaveNoSpace | main.go:159 | splitting a string that has no white space gives pieces that have no white space |
| ClientIp.TrimmedHasNoNewChars | main.go:160 | trimming introduces no character that was not already there |
| ClientIp.RemoteAddrFallback | main.go:188-205 | a failed split gives "Unknown"; host `::1` gives "127.0.0.1"; any other host gives the part up to, not including, its first '%', and a host without '%' is returned whole |
| ClientIp.LoopbackWithZone | main.go:194-202 | the loopback test runs before the zone is stripped, so `::1%lo0` gives "::1" |
| Handler.ListenAddr | main.go:93-99 | the address is never empty: it is `LISTEN_ADDR` when that is set and non-empty, and ":8000" otherwise |
| Handler.RootRoute | main.go:379-393 | the `/` handler sends exactly the paths under `/healthz` to the health check; among the rest, exactly those ending in `/` or `.html` go to the template handler; it never routes to the socket |
| Handler.Dispatch | main.go:373-394 | a request goes to the websocket exactly when the server is in development and the path is `/ws`; every other request goes to the `/` handler |
| Handler.ProductionHasNoSocket | main.go:368-377 | outside development no request reaches the websocket, and `/ws` is served as a static file |
| Handler.HealthCheckFirst | main.go:380-387 | every path under `/healthz`, including `/healthz/`, is a health check in both modes, ahead of the page rule |
| Handler.PagesAreTemplates | main.go:387-388 | `/` and `/ip/` go to the template handler in both modes |
| Handler.RootSlash | main.go:209-215 | `RootSlash` is "" or "/", and it is "" exactly in development when `X-Forwarded-Host` does not end in `orb.local` |
| Handler.FilePath | main.go:217-220 | the page file is under `./site` followed by the path; a path ending in `/` names that directory's `index.html`; any other path names the path itself |
| Handler.TemplatePagesAreHtmlFiles | main.go:217-220 | every request routed to the template handler names a `.html` file under the site folder |
| Handler.RootPageFile | main.go:217-220 | the site root is read from `./site/index.html` |
| Handler.IsPlainTextClient | main.go:247-248 | a client is a plain-text client exactly when `text/plain` occurs at some position of its `Accept` header, or curl, Wget or HTTPie occurs at some position of its user agent |
| Handler.CurlGetsPlainText | main.go:247-248 | a curl user agent is a plain-text client whatever its version and `Accept` header |
| Handler.TextSize | main.go:255-258 | the size is `text-2xl` exactly when the address is longer than 18 UTF-8 bytes, and `text-4xl` exactly when it is not |
| Handler.TextSizeByLength | main.go:255-258 | an address longer than 18 characters gets `text-2xl`; an ASCII address of at most 18 characters gets `text-4xl` |
| Handler.IpAnswer | main.go:241-264 | a client gets plain text exactly when it is a plain-text client, and the body is the address followed by a newline; other clients get the IP template with the address, the forwarded list, `RootSlash` and the size class `TextSize` gives for the address: `text-2xl` exactly when the address is longer than 18 UTF-8 bytes, and `text-4xl` exactly when it is not |
| Handler.InjectLiveReload | main.go:310-321 | the page is unchanged outside development and whenever it has no `</body>`; otherwise it grows by the snippet minus one closing tag |
| Handler.InjectFirstBodyOnly | main.go:313-320 | only the first `</body>` is replaced by the snippet; the text after it, including any later `</body>`, is untouched |
| Handler.InjectedPageKeepsBodyClose | main.go:313-320 | an injected page still contains `</body>` |
| Handler.FinishPage | main.go:288-324 | a page is HTML exactly when the template engine renders it with `RootSlash`, and its body is the rendered output after injection; otherwise the answer is a server error |
| Handler.Stat | main.go:222 | `os.Stat` reports "does not exist" exactly when the path is not in the filesystem and no proper prefix of it ending before a `/` is a regular file; it fails otherwise when such a prefix is a regular file; it reports a directory or a file with its content exactly when the path names one |
| Handler.ServeTemplatePage | main.go:208-326 | "not found" is answered exactly when `os.Stat` reports the page file missing. A stat that fails otherwise, a directory, or a file that does not parse gives a server error. A plain-text answer is given exactly when the file exists and parses, the path is under `/ip/` and the client is a plain-text client, and its body is the derived address followed by a newline. Other `/ip/` clients get the IP template executed with the derived address, its size class, `RootSlash` and the forwarded list: a failed execution is a server error, and the output otherwise goes through `FinishPage`. Any other page is its file's content through `FinishPage` |
| Handler.ServedPageInjection | main.go:285-324 | outside development an ordinary page is served exactly as rendered; in development the script goes in front of its first `</body>` |
| Handler.PlainTextNeedsThePageFile | main.go:222-253 | a curl client asking for `/ip/` on a site without that page (and with no regular file on the way to it) gets "not found", not its address |
| Handler.IpPageMissing | main.go:217-222 | without `./site/ip/index.html`, and with only directories on the way to it, `os.Stat` reports the IP page missing |
| Handler.PageAsFolder | main.go:217-222 | the page file of a path `name/` lies below the page file of `name`, so when that is a regular file, `os.Stat` fails with an error that is not "does not exist" |
| Handler.PageAsFolderIsServerError | main.go:217-232 | a path such as `/index.html/`, where `./site/index.html` is a regular file, answers a server error and not "not found" |
| GoStrings.HasPrefixIff | main.go:380 | `HasPrefix` holds exactly when the prefix is no longer than the string and matches its leading characters one by one |
| GoStrings.HasSuffixIff | main.go:387 | `HasSuffix` holds exactly when the suffix is no longer than the string and matches its trailing characters one by one |
| GoStrings.IndexFrom | main.go:247-248 | the search from a position returns -1 or a position at or after it that holds an occurrence, and no earlier position from there on holds one |
| GoStrings.Index | main.go:247-248 | `strings.Index` returns -1 or a position holding an occurrence, and no earlier position holds one: the first occurrence, or -1 when there is none |
| GoStrings.ContainsIff | main.go:247-248 | an occurrence at any position makes `Contains` true, and when `Contains` holds, `Index` finds an occurrence |
| GoStrings.Contains | main.go:247-248 | `Contains` holds exactly when some position of the string holds an occurrence |
| GoStrings.ReplaceFirst | main.go:313-320 | without an occurrence the string is unchanged; with one, its length changes by the length of the replacement minus that of the pattern |
| GoStrings.ReplaceFirstAt | main.go:313-320 | `p + pat + q`, where `pat` does not occur before the end of `p`, becomes `p + repl + q` |
| GoStrings.ReplaceFirstKeepsPattern | main.go:313-320 | a replacement that itself contains the pattern leaves the string containing the pattern |
| WhiteSpace.IsSpaceCases | main.go:160 | within Latin-1 the white-space characters are exactly '\t', '\n', '\v', '\f', '\r', ' ', U+0085 and U+00A0; above it they are exactly U+1680, U+2000 to U+200A, U+2028, U+2029, U+202F, U+205F and U+3000, as `unicode.IsSpace` decides |
| WhiteSpace.IsOneOfIff | main.go:160 | the table lookup `IsSpace` uses is membership in the table |
| WhiteSpace.Latin1SpacesAre | main.go:160 | the Latin-1 part of the table holds exactly the eight characters `unicode.IsSpace` lists |
| WhiteSpace.WideSpacesAre | main.go:160 | the rest of the table holds exactly the White_Space characters above Latin-1, given as ranges |
| GoStrings.TrimLeftSpace | main.go:160 | the result is a suffix of the input; what was removed is all white space; the result does not start with white space |
| GoStrings.TrimRightSpace | main.go:160 | the result is a prefix of the input; what was removed is all white space; the result does not end with white space |
| GoStrings.TrimSpace | main.go:160 | the result is no longer than the input and neither starts nor ends with white space |
| GoStrings.TrimSpaceSlice | main.go:160 | the result is a contiguous slice of the input, with only white space on each side of it |
| GoStrings.TrimSpaceEmpty | main.go:160 | trimming gives the empty string exactly when the input is all white space |
| GoStrings.TrimSpaceFixed | main.go:160 | a string with no white space at either end is unchanged by trimming |
| GoStrings.TrimSpaceIdempotent | main.go:160 | trimming twice is the same as trimming once |
| GoStrings.TrimSpaceNoSpace | main.go:160 | a string without white space is unchanged by trimming |
| GoStrings.IndexChar | main.go:159 | the result is -1 when the character does not occur and otherwise the position of its first occurrence |
| GoStrings.Split | main.go:159 | splitting always gives at least one piece |
| GoStrings.CountCharConcat | main.go:159 | the count of a character in a concatenation is the sum of the counts |
| GoStrings.SplitCount | main.go:159 | splitting gives one more piece than the string has separators |
| GoStrings.SplitPieces | main.go:159 | no piece contains the separator |
| GoStrings.JoinSplit | main.go:159 | joining the pieces with the separator gives back the string |
| GoStrings.SplitJoin | main.go:159 | splitting the join of separator-free pieces gives back those pieces |
| GoStrings.SplitFirst | main.go:199-202 | the first piece is a prefix of the string that lacks the separator and is followed by it when shorter than the string; a string without the separator is its own first piece |
| GoStrings.Utf8Width | main.go:256 | a character takes 1 to 4 bytes, and exactly 1 when it is ASCII |
| GoStrings.Utf8Len | main.go:256 | the byte length lies between the character count and four times it, and equals the character count exactly when all characters are ASCII |

## Left out

- The websocket upgrade, `ReadMessage`, `WriteMessage` and `conn.Close` (gorilla/websocket) are foreign calls. Whether a write succeeds is an input to `Broadcast`, and the read loop is only its outcome: a call to `Unregister`.
- The mutex and the goroutines are not modelled. Each locked section is one atomic method, and concurrent interleavings are the event sequences of `Run`.
- Go iterates over a map in random order. `Broadcast` picks its next client nondeterministically, and its contract holds for every order.
- The fsnotify watcher setup, `filepath.Walk`, the `Errors` channel and `log.Fatal` are operating-system I/O. Only the event filter and its effect (`OnFileChange`) are modelled.
- `html/template` parsing and execution, `os.Stat`, `os.ReadFile` and `http.FileServer` are library and filesystem I/O. The site is a map from path to entry (a directory, or a regular file with its content). `Stat` derives the outcome of `os.Stat` from that map, and the template engine is a set of input functions (`Engine`).
- Handler.Stat: the only failure it models besides "does not exist" is "not a directory". A permission error would take the same path, a server error, because `template.ParseFiles` cannot read the file either. Permissions are not part of the model.
- Handler.ServeTemplatePage: the "404 file not found error" of `os.ReadFile` is not modelled. By the time it runs, `template.ParseFiles` has already read the same file, so only a change to the file between the two reads can produce it. The model reads the site once.
- HTTP status codes and error messages are reduced to the kind of answer (`NotFound`, `ServerError`, `Text`, `Html`).
- The `Content-Type` headers and the health check's status code and body are not part of the model.
- The text of the reload message ("reload") is not modelled. The script reloads on any message, so `Broadcast` states only who receives one.
- `net/http`'s mux cleans paths and redirects before routing, and it can match on host names. The model routes the cleaned path only.
- Logging, colours, timing, `loggingMiddleware` and `responseLogger` are output only.
- The `debug` query flag only adds logging and does not change the result of `getIP`, so it is not an input.
- Environment reads (`GOLANG_ENV`, `LISTEN_ADDR`) are parameters. `ListenAndServe` itself is I/O.
- `net.SplitHostPort` is an input: the host it yields, or `None` when it fails.
- GoStrings.Split: only a one-character separator is modelled, because the server splits only on "," and "%".
- Strings are sequences of Unicode scalar values. Go strings hold arbitrary bytes, and invalid UTF-8 is not modelled. Go's `len` is modelled as the UTF-8 byte length.
- Go distinguishes a nil slice from an empty one. `ForwardedIPS` is `[]` in both cases, because the template renders them alike.
