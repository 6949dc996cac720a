# osu! favourites downloader, modelled in Dafny

`download.py` fetches a player's favourite beatmap sets from the osu! API. For each set it
tries three public mirrors in turn and streams the body of every mirror that answers into
`<download_dir>/<id>.osz`, so the file ends up holding what the last answering mirror sent.
It reports progress on standard output. This project models the control logic of that
script, with the network, the disk and the terminal replaced by explicit state, and proves
what that logic guarantees.

## Modules

- `Builtins` (builtins.dfy): the Python behaviour the script relies on.
  - Python exceptions become `Result.Raised`.
  - `str()` of JSON scalars (`PyStr`).
  - `int()` of a string, including whitespace, a sign and `_` digit separators (`ParseInt`).
  - `int()` of a quotient, truncating toward zero (`TruncDiv`).
  - `str * n` (`Repeat`).
- `Mirrors` (mirrors.dfy): the mirror table, in declaration order, and `str.format` with
  one positional argument.
- `Host` (host.dfy): the world outside the script.
  - `FileSystem` is a class over a map from path to bytes.
  - `Console` is the list of messages written, each rendered to its exact text.
  - `Web` gives each URL a fixed answer to HEAD and to GET, and logs every request sent.
  - `Path.joinpath`.
- `Progress` (progress.dfy): streaming one response body into the open file, and the
  50-column progress bar.
- `Downloader` (download.dfy): `download_beatmapset`.
  - `Download` folds `Attempt` over the three mirrors. It is the reference for the whole
    state the call leaves behind.
  - `Outcome` states the return value independently of the loop.
  - The method `DownloadBeatmapset` runs the loop on the live objects.
- `Beatmaps` (beatmaps.dfy): `BeatmapSet(**record)` and `read_beatmap_list`.
- `Favourites` (favourites.dfy): the loop of `download_favourites`, up to the hand-off
  to `add_to_zip`.
- `Cli` (cli.dfy): the argument check and dispatch of `main`.

## Behaviour worth knowing

- The mirror loop has no `break`. Every mirror that answers 200 re-opens the target with
  `"wb"` and writes it again. The file ends up holding what the last answering mirror sent.
- The target is written whether or not it is already on disk.
- When the response has a Content-Length, the progress display is a bar and a percentage,
  redrawn after every chunk. The bar is 50 columns only while no more than Content-Length
  bytes have arrived.
- `main` takes `<player> <download_dir> [<limit>]`. Fewer than two arguments raise
  ArgumentsException; arguments past the third are ignored.
- An exception raised while downloading one set is not caught. It ends the whole batch.
- For an id that is not a str, the first mirror that answers raises TypeError when the
  file name is built, before any GET.

## Model

| member | source | states |
|---|---|---|
| Builtins.ParseInt | download.py:79 | `int(s)` for a str in base 10, as used on Content-Length (line 79) and on the limit argument (line 144): surrounding space, `\t`, `\n`, `\v`, `\f` and `\r` are stripped, one optional sign, then decimal digits with single underscores only between digits; anything else is ValueError (None) |
| Builtins.PyStr | download.py:16 | `str(v)` of a JSON scalar: `None`, `True`/`False`, the decimal digits of an int, a str unchanged; also what `"{}".format(id)` inserts at lines 55-56 |
| Builtins.ParseIntOfIntToString | download.py:79 | `int(str(i)) == i` for every integer, so a decimal header or argument reaches the code unchanged |
| Builtins.TruncDiv | download.py:83-84 | `int(a / b)`: non-negative when the operands agree in sign (or `a` is 0), and floor division for a non-negative numerator and a positive divisor |
| Builtins.TruncDivTruncates | download.py:83-84 | the quotient truncates toward zero, stated without division: `abs(q) * abs(b) <= abs(a) < (abs(q) + 1) * abs(b)`; non-positive when the operands differ in sign |
| Builtins.Repeat | download.py:84 | `c * n` has `max(n, 0)` characters, all equal to `c` |
| Mirrors.Format | download.py:55 | `template.format(arg)` with one positional argument, left to right: `{{` and `}}` are single braces, the first `{}` takes the argument, a second `{}` is IndexError, a lone brace is ValueError |
| Mirrors.FormatSingleSlot | download.py:55 | a template with one `{}` slot and no other brace formats to its text with the argument in the slot |
| Mirrors.FormatLiteral | download.py:55 | brace-free text is copied unchanged by `str.format` |
| Mirrors.MirrorUrlIsFormat | download.py:44-55 | `mirrors[m].format(id)` succeeds on each of the three templates and gives `MirrorUrl` |
| Mirrors.MirrorUrlsSpelledOut | download.py:44-48 | the three URLs: `https://beatconnect.io/b/<id>`, `https://api.chimu.moe/v1/download/<id>?n=1`, `https://nerinyan.moe/d/<id>` |
| Mirrors.MirrorUrl | download.py:55 | the URL is the template's length less the two slot characters plus the id's length |
| Host.JoinPath | download.py:65-67 | `Path(absolute_path).joinpath(id + ".osz")` ends with the file name, and is `base/name` for a base without a trailing slash |
| Host.Render | download.py:56-96 | the exact text of each message: the "Trying to download" line (56), "Downloading <path>" (71), the `\r[====    ] n%` bar (84), "Downloaded #id" (89), the two-line failure notice (93-94) and "Finished downloading!" (96); the batch counter of line 135 is rendered the same way |
| Host.Console.Emit | download.py:56 | printing appends one message, and the text written grows by exactly its rendering |
| Host.FileSystem.Create | download.py:70 | `open(filename, "wb")` leaves the file present and empty, and changes no other file |
| Host.FileSystem.Append | download.py:76 | `f.write(data)` appends the data to that file only |
| Host.FileSystem.Exists | download.py:88 | `filename.exists()` is true exactly when the path is in the file map |
| Host.Web.SendHead | download.py:61 | the HEAD answer is the web's answer for the URL, and the request is logged |
| Host.Web.SendGet | download.py:72 | the GET answer is the web's answer for the URL, and the request is logged |
| Progress.Fill | download.py:83 | `done = int(50 * dl / total_length)`, the number of `=` in the bar, truncated toward zero (TruncDiv) |
| Progress.Percent | download.py:84 | the percentage printed after the bar, `int(100 * dl / total_length)`, truncated toward zero (TruncDiv) |
| Progress.ProgressEvents | download.py:80-84 | one bar per chunk received, in order, each drawn for the byte count `dl` after that chunk |
| Progress.BarWithinBounds | download.py:83-84 | while `dl <= total`: `done` is in [0, 50], the bar interior is 50 characters, the percentage is in [0, 100], and the bar is full, and shows 100, exactly when `dl == total` |
| Progress.BarMonotone | download.py:83-84 | for a positive Content-Length, more bytes never shrink the fill or the percentage |
| Progress.ProgressCountsBytes | download.py:78-84 | one bar per chunk; the counter after chunk k is the byte count of chunks 0..k; the counter never decreases; the last bar counts the whole body |
| Progress.ProgressBarsFit | download.py:78-85 | if the body is no longer than Content-Length, every bar drawn fits 50 columns and shows at most 100%; a body of exactly that length ends on a full bar at 100% |
| Progress.BodyTransfer | download.py:73-85 | the body of the `with` block after the GET: no Content-Length writes `response.content` in one piece; an unparsable header is ValueError before anything is written; otherwise the chunk loop runs |
| Progress.StreamTransfer | download.py:78-85 | the chunk loop for a parsed length: a length of 0 writes the first chunk and then raises ZeroDivisionError; any other length writes every chunk and draws one bar per chunk |
| Progress.TransferOutcome | download.py:73-84 | the file gets the in-order concatenation of the chunks whenever nothing escapes; no Content-Length means one write and no bar; ValueError exactly when the header does not parse; ZeroDivisionError exactly when it is 0 and a chunk arrives, after that chunk was written |
| Progress.WriteBody | download.py:73-84 | the open file, the console and the escaping exception all follow `BodyTransfer` |
| Progress.WriteChunk | download.py:81-85 | one pass of the chunk loop: `dl` grows by the chunk's length, the chunk is appended to the file, then the bar for `dl` is printed, or ZeroDivisionError escapes with the console unchanged when Content-Length is 0 |
| Progress.StreamChunks | download.py:78-85 | the chunk loop: `dl` is the byte count so far, the file is the old contents plus the chunks so far, one bar is written per chunk, and the result is `StreamTransfer` |
| Downloader.ItemId | download.py:50-51 | the id is `.id` when present, else `.beatmapset_id`; if neither exists, AttributeError escapes |
| Downloader.Answered | download.py:66 | `not timeout and r.status_code == 200`: the HEAD did not raise and answered 200 |
| Downloader.Target | download.py:67 | the file every answering mirror writes, `Path(absolute_path).joinpath(id + ".osz")` |
| Downloader.Closing | download.py:92-96 | the messages after the loop: the failure notice unless a download succeeded, then "Finished downloading!" |
| Downloader.Returned | download.py:97 | what the caller sees: the value of `downloaded`, or the exception that escaped |
| Downloader.Fetch | download.py:70-90 | one `with open(filename, "wb")` block: the target is truncated, "Downloading" is printed, one GET is sent to the final URL; a GET that raises ends with the file empty; otherwise the body is streamed and, unless it raised, `downloaded` and `success` are set and "Downloaded #id" printed |
| Downloader.Attempt | download.py:54-90 | one pass of the mirror loop: the announcement and the HEAD; a mirror that does not answer 200 is skipped; an answering mirror with a non-str id raises TypeError; otherwise Fetch |
| Downloader.Attempts | download.py:54-90 | the mirror loop over the first n mirrors of the table, in order; an exception ends it |
| Downloader.Download | download.py:43-97 | the whole call: the id lookup (AttributeError when neither attribute exists), the loop, then, unless an exception escaped, the failure notice when nothing succeeded and "Finished downloading!" |
| Downloader.Outcome | download.py:43-97 | the value returned, stated from the answering URLs alone: None when no mirror answered 200, TypeError for a non-str id when one did, else the first transfer fault, else the target path |
| Downloader.FetchShape | download.py:70-86 | an answering mirror logs one GET, leaves the target holding `Written(reply)`, and announces the download exactly when no fault escaped |
| Downloader.AttemptsRaise | download.py:54-86 | the exception that ends the loop, if any, is TypeError for a non-str id with an answering mirror, else the first fault among the answering mirrors' transfers |
| Downloader.AttemptsTidy | download.py:65-90 | files are never removed, a recorded `downloaded` path is a file, and the loop prints none of the closing notices or counters |
| Downloader.AttemptsFiles | download.py:66-90 | while nothing has escaped: `downloaded` and `success` are set exactly when some mirror answered 200, and only the target changed, holding what the last answering mirror sent |
| Downloader.AttemptsLogs | download.py:54-72 | while nothing has escaped: every mirror so far was probed in table order, each answering mirror was fetched from its final URL, and each was announced by name |
| Downloader.FirstRaising | download.py:54-86 | the first mirror whose pass raises, if any: it is among the mirrors considered, its pass raises, and no earlier pass does |
| Downloader.AttemptOwnRaise | download.py:54-86 | a pass that starts with nothing raised lets escape exactly its own exception: none for a mirror that does not answer 200, TypeError for a non-str id, else the fault of its GET |
| Downloader.AttemptsStop | download.py:54-86 | the loop lets escape the exception of the first pass that raises, and nothing when no pass raises |
| Downloader.LoopLogs | download.py:54-86 | whether or not an exception escapes, the loop has probed and announced exactly the mirrors it ran, in table order, and sent a GET to each of them that answered (none for a non-str id) |
| Downloader.LoopStopsAtRaise | download.py:54-86 | when the loop raises, the last mirror it ran answered 200, the exception is that mirror's own, and no earlier pass raised |
| Downloader.LogsSpelledOut | download.py:44-72 | the loop's HEADs are a prefix of the three table URLs spelled out, its announcements the matching prefix of the three names, and its GETs a prefix of the answering mirrors' final URLs |
| Downloader.RaisedSticks | download.py:54-86 | once an exception escapes, the remaining mirrors change nothing |
| Downloader.RejectedMirrorChangesNothing | download.py:58-66 | a HEAD that raises or answers other than 200 leaves the files, `downloaded`, `success` and the exception as they were; only the announcement and the probe are added |
| Downloader.AnsweringMirrorRewritesTarget | download.py:66-86 | an answering mirror overwrites `<absolute_path>/<id>.osz` with what its GET streamed, whatever the file held; `downloaded` and `success` are set exactly when no fault escaped |
| Downloader.DownloadReturnsOutcome | download.py:43-97 | the value returned, or the exception raised, is the one `Outcome` states: None iff no mirror answered 200, else the target path unless a transfer raised |
| Downloader.DownloadShape | download.py:92-97 | the whole call is the loop, followed, when nothing escaped, by the failure notice (only if nothing succeeded) and the closing notice |
| Downloader.MirrorsTriedInOrder | download.py:44-72 | the three mirrors are announced and probed in the order beatconnect.io, chimu.moe, nerinyan.moe with their exact URLs, and a GET goes to each answering mirror's final URL, in order |
| Downloader.MirrorsTriedUntilRaise | download.py:54-86 | when an exception escapes at mirror k: that mirror answered 200 and the exception is its own (TypeError for a non-str id, else its GET's fault), no earlier pass raised, exactly the first k+1 URLs were probed and k+1 names announced, in table order, and the GETs are a prefix of the answering mirrors' URLs |
| Downloader.AllProbeUrls | download.py:44-55 | the probe URLs of the three mirrors, spelled out, in table order |
| Downloader.AllMirrorNames | download.py:44-56 | the announced mirror names, in table order |
| Downloader.LastAnsweringMirrorWins | download.py:66-86 | without an exception, the files equal the starting files with the target set to what the last answering mirror sent; with no answering mirror, nothing changes |
| Downloader.FailureNoticeIffNothingDownloaded | download.py:88-96 | the failure notice is printed iff nothing was downloaded; "Finished downloading!" is always the last message; `success` holds iff a path is returned; if an exception escapes, neither notice is printed |
| Downloader.DownloadKeepsFiles | download.py:67-97 | no file disappears, a returned path is a file, and no batch counter is printed |
| Downloader.FetchInto | download.py:70-90 | the `with open(filename, "wb")` block on the live objects follows `FetchShape` |
| Downloader.TryMirror | download.py:54-90 | one pass of the mirror loop on the live objects follows `Attempt` |
| Downloader.MirrorLoop | download.py:54-90 | the mirror loop on the live objects follows `Attempts` over the whole table |
| Downloader.DownloadBeatmapset | download.py:43-97 | the files, output and requests follow `Download`; the result equals `Outcome`; no file disappears; a returned path is a file |
| Beatmaps.FromRecord | download.py:13-19 | the constructor succeeds iff there is no key `self` and all five keys are present; `id == str(record["id"])` and the other four fields are copied; a key `self` raises TypeError (it clashes with the instance argument); otherwise KeyError names the first missing key, in the order title, id, artist, status, favourite_count |
| Beatmaps.ReadBeatmapList | download.py:22-29 | no listing gives `[]`; otherwise the result is one BeatmapSet per record, in order, exactly when every record is complete, and else the exception (TypeError or KeyError) of the first record the constructor rejects |
| Beatmaps.ListingIds | download.py:16 | every object of a listing has the str() of its record's id |
| Beatmaps.IntegerIdRoundTrip | download.py:16 | an integer id survives the str() the constructor applies: `int(b.id)` gives it back |
| Favourites.Advance | download.py:130-135 | one pass of the batch loop given the call's effects: its files, output and requests are taken over; a returned path is appended to `downloaded` and the counter printed; an exception ends the batch |
| Favourites.RunBatch | download.py:128-135 | the batch loop over the stored results in order, stopping at the first exception |
| Favourites.Collected | download.py:128-135 | the list handed on, stated from each item's Outcome alone: the returned paths in item order, or the first exception |
| Favourites.BatchCollects | download.py:128-135 | the list collected, or the exception that ends the loop, is the one the items' Outcomes give, in item order |
| Favourites.BatchStep | download.py:130-135 | one pass appends the call's output, then a counter only when a path came back, and appends that path to `downloaded` |
| Favourites.CounterMatchesDownloaded | download.py:128-135 | the counters printed are exactly 1, 2, ..., len(downloaded), so `counter == len(downloaded)` after every item |
| Favourites.CounterWithinTotal | download.py:128-135 | every counter is printed out of `len(stored_results)`, and `len(downloaded)` never exceeds the number of items processed |
| Favourites.CollectedMeaning | download.py:130-134 | the loop finishes iff every transfer of every item completes; the list is then exactly `<absolute_path>/<id>.osz` of the items some mirror answered for, in item order |
| Favourites.ItemOutcome | download.py:43-97 | for a stored result, download_beatmapset returns normally iff every transfer completes, and then returns the target path iff some mirror answered 200 |
| Favourites.CollectOne | download.py:130-135 | one pass of the loop on the live objects: the call's files, output and requests, then, only when a path came back, that path appended to `downloaded` and the counter `len(downloaded)/total` printed; the exception, if any, passes through |
| Favourites.BatchSticks | download.py:130-131 | an exception from one item ends the loop; later items change nothing |
| Favourites.DownloadFavourites | download.py:122-136 | the loop on the live objects follows `RunBatch`, and the list it hands to add_to_zip is the one `Collected` describes |
| Cli.Dispatch | download.py:140-146 | fewer than two arguments raise ArgumentsException("Please check the arguments."); two leave the limit unset; a third must parse as an int (ValueError otherwise) and becomes the limit |
| Cli.RequestedLimit | download.py:99-127 | the limit used is the one given, else read_favourites' default of 100 |
| Cli.DispatchPassesLimit | download.py:143-144 | a decimal third argument reaches the listing request as the same integer, whatever follows it |
| Cli.TwoArgumentsUseDefault | download.py:145-146 | with exactly two arguments the listing asks for 100 favourites |

## Left out

- Network I/O: `requests.head`, `requests.get`, redirects and time-outs. Each is a fixed
  answer per URL (`Web.head`, `Web.get`), and the URL reached after redirects is part of
  the HEAD answer. Any exception from the HEAD counts as a skipped mirror, as the bare
  `except` makes it. A GET that raises is `ConnectionError`.
- `read_favourites`: the OAuth token request, `CredentialsError`, the session headers and
  the JSON fetch. This is a network client. The stored results are an input to
  `DownloadFavourites`.
- `add_to_zip` and `ZipFile`: archive writing, its message "Adding to zip...." and the
  caller's "Files added to zip".
  `DownloadFavourites` returns the list that would be handed to it.
- `abspath(download_dir)`: the absolute path is a parameter. `Path` normalisation (`..`,
  repeated slashes) is not modelled; `JoinPath` only joins strings.
- `os.makedirs`: directories are not modelled, and the file map has no directory entries.
- Host.FileSystem.Create: `open(filename, "wb")` never fails in the model. In the source,
  `os.makedirs` (line 69) and `open` (line 70) can raise OSError (permission denied, the
  target is a directory); nothing catches it, so it would end the call and the batch.
- Host.FileSystem.Append: `f.write` (lines 76 and 82) never fails in the model. A write
  that raises OSError (disk full) is not modelled, so the batch lemmas' "the loop finishes
  iff every transfer completes" holds for a disk that accepts every write.
- `sys.stdout.flush` and terminal behaviour of `\r`: messages are logged, not displayed.
- The float division in the bar. `int(50 * dl / total_length)` is modelled as exact
  division truncated toward zero. Python rounds the quotient to the nearest float before
  truncating, so from about 2^47 bytes (2^48 for the fill) a quotient just below an
  integer can round up to it, and Python would then draw one more than the model.
- `response.iter_content` raising mid-stream, and Ctrl+C: the chunks are a fixed,
  finite sequence.
- Mirrors.Format: only the `{}`, `{{` and `}}` forms of `str.format` are modelled. A
  field with a name, index or format spec raises ValueError in the model, where Python
  would look it up. The three templates use only `{}`.
- Builtins.ParseInt: only ASCII whitespace and ASCII digits are recognised. Python's
  `int()` also accepts other Unicode digits and spaces.
- Builtins.ParseInt: the limit on digit count (since CPython 3.11 and in the 3.7-3.10
  security releases, `int()` raises ValueError on a string of more than 4300 digits) is
  not modelled; nor is the matching limit on `str()` of such an int, which
  Builtins.ParseIntOfIntToString therefore ignores.
- JSON values: records hold null, booleans, integers and strings. Floats, arrays and
  nested objects are not modelled. A listing that is not a list of objects (the API's
  error object) is not modelled.
- `Item`: the object passed to download_beatmapset is seen only through `.id` and
  `.beatmapset_id`.
- Text encoding: paths and messages are `seq<char>`. The bytes of a file are `seq<byte>`.
