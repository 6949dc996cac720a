/** download_beatmapset: probe every mirror in the table, in order, and stream the body of
    each mirror that answers 200 into <absolute_path>/<id>.osz. There is no early exit
    after a success and no check for a file already on disk, so every answering mirror
    truncates and rewrites the same file. */
module Downloader {
  import opened Builtins
  import opened Host
  import opened Mirrors
  import opened Progress

  /** The object handed to download_beatmapset, seen through the two attributes it reads. */
  datatype Item = Item(id: Option<Value>, beatmapsetId: Option<Value>)

  /** `id = beatmapset.id`, or `beatmapset.beatmapset_id` when there is no `id`; when
      neither exists the second lookup's AttributeError escapes. */
  function ItemId(item: Item): (r: Result<Value>)
    ensures r.Ok? <==> item.id.Some? || item.beatmapsetId.Some?
    ensures r.Ok? ==> r.value == if item.id.Some? then item.id.value else item.beatmapsetId.value
    ensures r.Raised? ==> r.exc == AttributeError("beatmapset_id")
  {
    match item.id
    case Some(v) => Ok(v)
    case None =>
      match item.beatmapsetId
      case Some(v) => Ok(v)
      case None => Raised(AttributeError("beatmapset_id"))
  }

  /** `not timeout and r.status_code == 200` */
  predicate Answered(h: HeadReply) {
    h.HeadResponse? && h.status == 200
  }

  /** The file every answering mirror writes: Path(absolute_path).joinpath(id + ".osz"). */
  function Target(absPath: Path, id: string): Path {
    JoinPath(absPath, id + ".osz")
  }

  /** The observable state of one call: the files, what was written to standard output,
      the requests issued, the locals `downloaded` and `success`, and the exception that
      escaped, if any. */
  datatype Trace = Trace(
    files: map<Path, Bytes>,
    events: seq<Event>,
    requests: seq<Request>,
    downloaded: Option<Path>,
    success: bool,
    raised: Option<Exception>)

  /** The body of `with open(filename, "wb")` once the GET has answered. */
  function Fetch(t: Trace, target: Path, idText: string, url: string, reply: GetReply): Trace {
    var created := t.(files := t.files[target := []],
                     events := t.events + [Downloading(target)],
                     requests := t.requests + [GetRequest(url)]);
    match reply
    case GetFailed => created.(raised := Some(ConnectionError(url)))
    case GetResponse(contentLength, chunks) =>
      var body := BodyTransfer(contentLength, chunks);
      var written := created.(files := created.files[target := body.written],
                             events := created.events + body.progress);
      if body.raised.Some? then written.(raised := body.raised)
      else written.(downloaded := Some(target), success := true,
                    events := written.events + [Downloaded(idText)])
  }

  /** One pass of the mirror loop, for mirror i. */
  function Attempt(t: Trace, id: Value, absPath: Path,
                   head: string -> HeadReply, get: string -> GetReply, i: nat): Trace
    requires i < |MirrorTable|
  {
    var idText := PyStr(id);
    var url := MirrorUrl(i, idText);
    var probed := t.(events := t.events + [Trying(idText, MirrorTable[i].name)],
                     requests := t.requests + [HeadRequest(url)]);
    var reply := head(url);
    if !Answered(reply) then probed
    else if !id.Str? then probed.(raised := Some(TypeError))
    else Fetch(probed, Target(absPath, id.s), idText, reply.url, get(reply.url))
  }

  /** The state after the first n mirrors; an exception ends the loop. */
  function Attempts(id: Value, absPath: Path, head: string -> HeadReply, get: string -> GetReply,
                    files0: map<Path, Bytes>, n: nat): Trace
    requires n <= |MirrorTable|
  {
    if n == 0 then Trace(files0, [], [], None, false, None)
    else
      var t := Attempts(id, absPath, head, get, files0, n - 1);
      if t.raised.Some? then t else Attempt(t, id, absPath, head, get, n - 1)
  }

  /** The messages printed after the loop: the failure notice unless a download succeeded, then the closing notice. */
  function Closing(success: bool, idText: string): seq<Event> {
    (if success then [] else [Failed(idText)]) + [Finished]
  }

  /** The whole call, starting from the files `files0`. */
  function Download(item: Item, absPath: Path, head: string -> HeadReply, get: string -> GetReply,
                    files0: map<Path, Bytes>): Trace
  {
    match ItemId(item)
    case Raised(e) => Trace(files0, [], [], None, false, Some(e))
    case Ok(id) =>
      var t := Attempts(id, absPath, head, get, files0, |MirrorTable|);
      if t.raised.Some? then t
      else t.(events := t.events + Closing(t.success, PyStr(id)))
  }

  /** What the caller sees: the value returned (`downloaded`), or the exception. */
  function Returned(t: Trace): Result<Option<Path>> {
    if t.raised.Some? then Raised(t.raised.value) else Ok(t.downloaded)
  }

  // ---- an independent description of the return value ----

  /** The final URLs (after redirects) of the mirrors among the first n that answer 200. */
  function AnsweredUrls(idText: string, head: string -> HeadReply, n: nat): seq<string>
    requires n <= |MirrorTable|
  {
    if n == 0 then []
    else
      var reply := head(MirrorUrl(n - 1, idText));
      AnsweredUrls(idText, head, n - 1) + (if Answered(reply) then [reply.url] else [])
  }

  /** The exception streaming the GET answer for `url` lets escape, if any. */
  function Fault(url: string, reply: GetReply): Option<Exception> {
    match reply
    case GetFailed => Some(ConnectionError(url))
    case GetResponse(contentLength, chunks) => BodyTransfer(contentLength, chunks).raised
  }

  /** The first fault among the downloads from `urls`, in order. */
  function FirstFault(get: string -> GetReply, urls: seq<string>): Option<Exception> {
    if urls == [] then None
    else
      var earlier := FirstFault(get, urls[..|urls| - 1]);
      if earlier.Some? then earlier else Fault(urls[|urls| - 1], get(urls[|urls| - 1]))
  }

  /** The bytes the target holds after the mirror whose GET answered `reply`: nothing when
      the GET raised (the file was already truncated), else what the stream wrote. */
  function Written(reply: GetReply): Bytes {
    match reply
    case GetFailed => []
    case GetResponse(contentLength, chunks) => BodyTransfer(contentLength, chunks).written
  }

  /** The progress bars the stream of `reply` writes. */
  function Streamed(reply: GetReply): seq<Event> {
    match reply
    case GetFailed => []
    case GetResponse(contentLength, chunks) => BodyTransfer(contentLength, chunks).progress
  }

  /** Fetch, flattened: one GET logged, the target rewritten with Written, and the
      download announced only when no fault escaped. */
  lemma FetchShape(t: Trace, target: Path, idText: string, url: string, reply: GetReply)
    ensures var f := Fetch(t, target, idText, url, reply);
      && f.raised == (if Fault(url, reply).Some? then Fault(url, reply) else t.raised)
      && f.requests == t.requests + [GetRequest(url)]
      && f.files == t.files[target := Written(reply)]
      && f.events == t.events + [Downloading(target)] + Streamed(reply)
                     + (if Fault(url, reply).None? then [Downloaded(idText)] else [])
      && f.downloaded == (if Fault(url, reply).None? then Some(target) else t.downloaded)
      && f.success == (Fault(url, reply).None? || t.success)
  {
    if reply.GetFailed? {
      assert Streamed(reply) == [];
      assert t.files[target := []] == t.files[target := Written(reply)];
    } else {
      assert t.files[target := []][target := Written(reply)] == t.files[target := Written(reply)];
    }
  }

  /** The return value of download_beatmapset stated directly: None when no mirror
      answered 200, the target path when one did and every transfer finished, otherwise
      the first exception (TypeError for an id that is not a str). */
  function Outcome(item: Item, absPath: Path, head: string -> HeadReply, get: string -> GetReply)
    : Result<Option<Path>>
  {
    match ItemId(item)
    case Raised(e) => Raised(e)
    case Ok(id) =>
      var urls := AnsweredUrls(PyStr(id), head, |MirrorTable|);
      if urls == [] then Ok(None)
      else if !id.Str? then Raised(TypeError)
      else match FirstFault(get, urls)
        case Some(e) => Raised(e)
        case None => Ok(Some(Target(absPath, id.s)))
  }

  // ---- views of the logs ----

  function HeadUrls(requests: seq<Request>): seq<string> {
    if requests == [] then []
    else
      var last := requests[|requests| - 1];
      HeadUrls(requests[..|requests| - 1]) + (if last.HeadRequest? then [last.url] else [])
  }

  function GetUrls(requests: seq<Request>): seq<string> {
    if requests == [] then []
    else
      var last := requests[|requests| - 1];
      GetUrls(requests[..|requests| - 1]) + (if last.GetRequest? then [last.url] else [])
  }

  /** The mirror names of the "Trying to download" messages, in the order written. */
  function TriedMirrors(events: seq<Event>): seq<string> {
    if events == [] then []
    else
      var last := events[|events| - 1];
      TriedMirrors(events[..|events| - 1]) + (if last.Trying? then [last.mirror] else [])
  }

  /** The URLs of the first n mirrors for the id text. */
  function ProbeUrls(idText: string, n: nat): seq<string>
    requires n <= |MirrorTable|
  {
    if n == 0 then [] else ProbeUrls(idText, n - 1) + [MirrorUrl(n - 1, idText)]
  }

  function MirrorNames(n: nat): seq<string>
    requires n <= |MirrorTable|
  {
    if n == 0 then [] else MirrorNames(n - 1) + [MirrorTable[n - 1].name]
  }

  // ---- filters of logs over concatenation ----

  lemma {:induction false} HeadUrlsAppend(a: seq<Request>, b: seq<Request>)
    ensures HeadUrls(a + b) == HeadUrls(a) + HeadUrls(b)
    decreases |b|
  {
    if b != [] {
      var b' := b[..|b| - 1];
      assert (a + b)[..|a + b| - 1] == a + b';
      HeadUrlsAppend(a, b');
    } else {
      assert a + b == a;
    }
  }

  lemma {:induction false} GetUrlsAppend(a: seq<Request>, b: seq<Request>)
    ensures GetUrls(a + b) == GetUrls(a) + GetUrls(b)
    decreases |b|
  {
    if b != [] {
      var b' := b[..|b| - 1];
      assert (a + b)[..|a + b| - 1] == a + b';
      GetUrlsAppend(a, b');
    } else {
      assert a + b == a;
    }
  }

  lemma {:induction false} TriedMirrorsAppend(a: seq<Event>, b: seq<Event>)
    ensures TriedMirrors(a + b) == TriedMirrors(a) + TriedMirrors(b)
    decreases |b|
  {
    if b != [] {
      var b' := b[..|b| - 1];
      assert (a + b)[..|a + b| - 1] == a + b';
      TriedMirrorsAppend(a, b');
    } else {
      assert a + b == a;
    }
  }

  lemma {:induction false} NoTrying(events: seq<Event>)
    requires forall e :: e in events ==> !e.Trying?
    ensures TriedMirrors(events) == []
  {
    if events != [] {
      assert forall e :: e in events[..|events| - 1] ==> e in events;
      assert events[|events| - 1] in events;
      NoTrying(events[..|events| - 1]);
    }
  }

  /** Streaming writes nothing but progress bars. */
  lemma ProgressOnlyBars(contentLength: Option<string>, chunks: seq<Bytes>)
    ensures forall e :: e in BodyTransfer(contentLength, chunks).progress ==> e.ProgressBar?
  {
    if contentLength.Some? && ParseInt(contentLength.value).Some? && ParseInt(contentLength.value).value != 0 {
      ProgressCountsBytes(chunks, ParseInt(contentLength.value).value);
    }
  }

  // ---- what the loop maintains ----

  /** The exception the first n mirrors let escape, stated from the answering URLs. */
  function ExpectedRaise(id: Value, get: string -> GetReply, urls: seq<string>): Option<Exception> {
    if urls == [] then None else if !id.Str? then Some(TypeError) else FirstFault(get, urls)
  }

  lemma FirstFaultExtends(get: string -> GetReply, urls: seq<string>, u: string)
    ensures FirstFault(get, urls + [u]) ==
      if FirstFault(get, urls).Some? then FirstFault(get, urls) else Fault(u, get(u))
  {
    assert (urls + [u])[..|urls|] == urls;
  }

  /** One more answering URL: an exception already expected stays the one expected. */
  lemma ExpectedRaiseExtends(id: Value, get: string -> GetReply, urls: seq<string>, u: string)
    ensures ExpectedRaise(id, get, urls).Some? ==> ExpectedRaise(id, get, urls + [u]) == ExpectedRaise(id, get, urls)
    ensures ExpectedRaise(id, get, urls).None? && id.Str? ==> ExpectedRaise(id, get, urls + [u]) == Fault(u, get(u))
  {
    FirstFaultExtends(get, urls, u);
  }

  lemma ExpectedRaiseSticks(id: Value, head: string -> HeadReply, get: string -> GetReply, i: nat)
    requires i < |MirrorTable| && ExpectedRaise(id, get, AnsweredUrls(PyStr(id), head, i)).Some?
    ensures ExpectedRaise(id, get, AnsweredUrls(PyStr(id), head, i + 1))
         == ExpectedRaise(id, get, AnsweredUrls(PyStr(id), head, i))
  {
    var idText := PyStr(id);
    var reply := head(MirrorUrl(i, idText));
    var urls := AnsweredUrls(idText, head, i);
    if Answered(reply) {
      assert AnsweredUrls(idText, head, i + 1) == urls + [reply.url];
      ExpectedRaiseExtends(id, get, urls, reply.url);
    } else {
      assert AnsweredUrls(idText, head, i + 1) == urls;
    }
  }

  lemma AttemptRaise(t: Trace, id: Value, absPath: Path, head: string -> HeadReply,
                     get: string -> GetReply, i: nat)
    requires i < |MirrorTable| && t.raised.None?
    requires ExpectedRaise(id, get, AnsweredUrls(PyStr(id), head, i)).None?
    ensures Attempt(t, id, absPath, head, get, i).raised
         == ExpectedRaise(id, get, AnsweredUrls(PyStr(id), head, i + 1))
  {
    var idText := PyStr(id);
    var url := MirrorUrl(i, idText);
    var reply := head(url);
    var urls := AnsweredUrls(idText, head, i);
    var probed := t.(events := t.events + [Trying(idText, MirrorTable[i].name)],
                     requests := t.requests + [HeadRequest(url)]);
    if Answered(reply) {
      assert AnsweredUrls(idText, head, i + 1) == urls + [reply.url];
      ExpectedRaiseExtends(id, get, urls, reply.url);
      if id.Str? {
        var target := Target(absPath, idText);
        assert Attempt(t, id, absPath, head, get, i) == Fetch(probed, target, idText, reply.url, get(reply.url));
        FetchShape(probed, target, idText, reply.url, get(reply.url));
      } else {
        assert Attempt(t, id, absPath, head, get, i) == probed.(raised := Some(TypeError));
      }
    } else {
      assert Attempt(t, id, absPath, head, get, i) == probed;
      assert AnsweredUrls(idText, head, i + 1) == urls;
    }
  }

  lemma {:induction false} AttemptsRaise(id: Value, absPath: Path, head: string -> HeadReply,
                                         get: string -> GetReply, files0: map<Path, Bytes>, n: nat)
    requires n <= |MirrorTable|
    ensures Attempts(id, absPath, head, get, files0, n).raised
         == ExpectedRaise(id, get, AnsweredUrls(PyStr(id), head, n))
  {
    if n > 0 {
      AttemptsRaise(id, absPath, head, get, files0, n - 1);
      var t := Attempts(id, absPath, head, get, files0, n - 1);
      if t.raised.Some? {
        ExpectedRaiseSticks(id, head, get, n - 1);
        assert Attempts(id, absPath, head, get, files0, n) == t;
      } else {
        AttemptRaise(t, id, absPath, head, get, n - 1);
        assert Attempts(id, absPath, head, get, files0, n) == Attempt(t, id, absPath, head, get, n - 1);
      }
    }
  }

  /** Files are only ever added or rewritten, a returned path names a file, and the loop
      writes none of the closing messages. */
  ghost predicate Tidy(t: Trace, files0: map<Path, Bytes>) {
    && files0.Keys <= t.files.Keys
    && (t.downloaded.Some? ==> t.downloaded.value in t.files)
    && Quiet(t.events)
  }

  /** None of the closing notices or batch counters. */
  predicate Quiet(events: seq<Event>) {
    forall e :: e in events ==> !e.Failed? && !e.Finished? && !e.Counted?
  }

  lemma QuietAppend(a: seq<Event>, b: seq<Event>)
    requires Quiet(a) && Quiet(b)
    ensures Quiet(a + b)
  {
  }

  lemma FetchTidy(p: Trace, target: Path, idText: string, url: string, reply: GetReply,
                  files0: map<Path, Bytes>)
    requires Tidy(p, files0)
    ensures Tidy(Fetch(p, target, idText, url, reply), files0)
  {
    FetchShape(p, target, idText, url, reply);
    if reply.GetResponse? {
      ProgressOnlyBars(reply.contentLength, reply.chunks);
    }
    var announced := if Fault(url, reply).None? then [Downloaded(idText)] else [];
    QuietAppend(p.events, [Downloading(target)]);
    QuietAppend(p.events + [Downloading(target)], Streamed(reply));
    QuietAppend(p.events + [Downloading(target)] + Streamed(reply), announced);
  }

  lemma AttemptTidy(t: Trace, id: Value, absPath: Path, head: string -> HeadReply,
                    get: string -> GetReply, files0: map<Path, Bytes>, i: nat)
    requires i < |MirrorTable| && Tidy(t, files0)
    ensures Tidy(Attempt(t, id, absPath, head, get, i), files0)
  {
    var idText := PyStr(id);
    var url := MirrorUrl(i, idText);
    var reply := head(url);
    var trying := [Trying(idText, MirrorTable[i].name)];
    QuietAppend(t.events, trying);
    var probed := t.(events := t.events + trying, requests := t.requests + [HeadRequest(url)]);
    assert Tidy(probed, files0);
    if Answered(reply) && id.Str? {
      var target := Target(absPath, idText);
      assert Attempt(t, id, absPath, head, get, i) == Fetch(probed, target, idText, reply.url, get(reply.url));
      FetchTidy(probed, target, idText, reply.url, get(reply.url), files0);
    }
  }

  lemma {:induction false} AttemptsTidy(id: Value, absPath: Path, head: string -> HeadReply,
                                        get: string -> GetReply, files0: map<Path, Bytes>, n: nat)
    requires n <= |MirrorTable|
    ensures Tidy(Attempts(id, absPath, head, get, files0, n), files0)
  {
    if n > 0 {
      AttemptsTidy(id, absPath, head, get, files0, n - 1);
      var t := Attempts(id, absPath, head, get, files0, n - 1);
      if t.raised.None? {
        AttemptTidy(t, id, absPath, head, get, files0, n - 1);
      }
    }
  }

  /** While nothing has escaped: `downloaded`, `success` and the files follow from which
      mirrors answered; the target holds what the last answering mirror sent. */
  ghost predicate FilesSoFar(t: Trace, id: Value, absPath: Path, get: string -> GetReply,
                             files0: map<Path, Bytes>, urls: seq<string>)
  {
    var target := Target(absPath, PyStr(id));
    && t.downloaded == (if urls == [] then None else Some(target))
    && t.success == (urls != [])
    && t.files == (if urls == [] then files0 else files0[target := Written(get(urls[|urls| - 1]))])
  }

  /** An answering mirror whose transfer finishes extends FilesSoFar by its final URL. */
  lemma FetchFiles(p: Trace, id: Value, absPath: Path, get: string -> GetReply,
                   files0: map<Path, Bytes>, urls: seq<string>, url: string)
    requires FilesSoFar(p, id, absPath, get, files0, urls) && p.raised.None?
    requires Fetch(p, Target(absPath, PyStr(id)), PyStr(id), url, get(url)).raised.None?
    ensures FilesSoFar(Fetch(p, Target(absPath, PyStr(id)), PyStr(id), url, get(url)),
                       id, absPath, get, files0, urls + [url])
  {
    var target := Target(absPath, PyStr(id));
    FetchShape(p, target, PyStr(id), url, get(url));
    var urls' := urls + [url];
    assert urls'[|urls'| - 1] == url;
    assert p.files[target := Written(get(url))] == files0[target := Written(get(url))];
  }

  lemma AttemptFiles(t: Trace, id: Value, absPath: Path, head: string -> HeadReply,
                     get: string -> GetReply, files0: map<Path, Bytes>, i: nat)
    requires i < |MirrorTable| && t.raised.None?
    requires FilesSoFar(t, id, absPath, get, files0, AnsweredUrls(PyStr(id), head, i))
    requires Attempt(t, id, absPath, head, get, i).raised.None?
    ensures FilesSoFar(Attempt(t, id, absPath, head, get, i), id, absPath, get, files0,
                       AnsweredUrls(PyStr(id), head, i + 1))
  {
    var idText := PyStr(id);
    var url := MirrorUrl(i, idText);
    var reply := head(url);
    var urls := AnsweredUrls(idText, head, i);
    var probed := t.(events := t.events + [Trying(idText, MirrorTable[i].name)],
                     requests := t.requests + [HeadRequest(url)]);
    if Answered(reply) {
      assert id.Str?;
      assert Attempt(t, id, absPath, head, get, i) == Fetch(probed, Target(absPath, idText), idText, reply.url, get(reply.url));
      assert AnsweredUrls(idText, head, i + 1) == urls + [reply.url];
      FetchFiles(probed, id, absPath, get, files0, urls, reply.url);
    } else {
      assert AnsweredUrls(idText, head, i + 1) == urls;
    }
  }

  lemma {:induction false} AttemptsFiles(id: Value, absPath: Path, head: string -> HeadReply,
                                         get: string -> GetReply, files0: map<Path, Bytes>, n: nat)
    requires n <= |MirrorTable|
    requires Attempts(id, absPath, head, get, files0, n).raised.None?
    ensures FilesSoFar(Attempts(id, absPath, head, get, files0, n), id, absPath, get, files0,
                       AnsweredUrls(PyStr(id), head, n))
  {
    if n > 0 {
      var t := Attempts(id, absPath, head, get, files0, n - 1);
      assert t.raised.None?;
      AttemptsFiles(id, absPath, head, get, files0, n - 1);
      AttemptFiles(t, id, absPath, head, get, files0, n - 1);
    }
  }

  /** The first n mirrors have been probed, in order, the mirrors in `urls` were fetched
      from their final URLs, and a message names each mirror tried. */
  ghost predicate LogsSoFar(t: Trace, idText: string, urls: seq<string>, n: nat)
    requires n <= |MirrorTable|
  {
    && HeadUrls(t.requests) == ProbeUrls(idText, n)
    && GetUrls(t.requests) == urls
    && TriedMirrors(t.events) == MirrorNames(n)
  }

  /** The exception pass i lets escape when nothing escaped before it: TypeError when
      the mirror answers and the id is not a str, the fault of its GET when it is. */
  function OwnRaise(id: Value, head: string -> HeadReply, get: string -> GetReply, i: nat): Option<Exception>
    requires i < |MirrorTable|
  {
    var reply := head(MirrorUrl(i, PyStr(id)));
    if !Answered(reply) then None
    else if !id.Str? then Some(TypeError)
    else Fault(reply.url, get(reply.url))
  }

  /** The first of the first n mirrors whose pass raises, if any. */
  function FirstRaising(id: Value, head: string -> HeadReply, get: string -> GetReply, n: nat): (r: Option<nat>)
    requires n <= |MirrorTable|
    ensures r.Some? ==> r.value < n && OwnRaise(id, head, get, r.value).Some?
    ensures forall j :: 0 <= j < n && (r.None? || j < r.value) ==> OwnRaise(id, head, get, j).None?
  {
    if n == 0 then None
    else
      var earlier := FirstRaising(id, head, get, n - 1);
      if earlier.Some? then earlier
      else if OwnRaise(id, head, get, n - 1).Some? then Some(n - 1)
      else None
  }

  /** How many of the first n mirrors the loop runs: all of them, unless a pass raises;
      then it stops after the mirror that raised. */
  function MirrorsRun(id: Value, head: string -> HeadReply, get: string -> GetReply, n: nat): (p: nat)
    requires n <= |MirrorTable|
    ensures p <= n
  {
    match FirstRaising(id, head, get, n)
    case Some(k) => k + 1
    case None => n
  }

  /** The GETs the first p mirrors send: one per answering mirror, and none at all for an
      id that is not a str (the file name cannot be built). */
  function GetsSent(id: Value, head: string -> HeadReply, p: nat): seq<string>
    requires p <= |MirrorTable|
  {
    if id.Str? then AnsweredUrls(PyStr(id), head, p) else []
  }

  /** A pass that starts with nothing raised lets escape exactly its own exception. */
  lemma AttemptOwnRaise(t: Trace, id: Value, absPath: Path, head: string -> HeadReply,
                        get: string -> GetReply, i: nat)
    requires i < |MirrorTable| && t.raised.None?
    ensures Attempt(t, id, absPath, head, get, i).raised == OwnRaise(id, head, get, i)
  {
    var idText := PyStr(id);
    var url := MirrorUrl(i, idText);
    var reply := head(url);
    var probed := t.(events := t.events + [Trying(idText, MirrorTable[i].name)],
                     requests := t.requests + [HeadRequest(url)]);
    if Answered(reply) && id.Str? {
      var target := Target(absPath, idText);
      assert Attempt(t, id, absPath, head, get, i) == Fetch(probed, target, idText, reply.url, get(reply.url));
      FetchShape(probed, target, idText, reply.url, get(reply.url));
    }
  }

  /** The loop lets escape the exception of the first pass that raises, and nothing when
      none does. */
  lemma {:induction false} AttemptsStop(id: Value, absPath: Path, head: string -> HeadReply,
                                        get: string -> GetReply, files0: map<Path, Bytes>, n: nat)
    requires n <= |MirrorTable|
    ensures Attempts(id, absPath, head, get, files0, n).raised
         == match FirstRaising(id, head, get, n)
            case Some(k) => OwnRaise(id, head, get, k)
            case None => None
  {
    if n > 0 {
      AttemptsStop(id, absPath, head, get, files0, n - 1);
      var t := Attempts(id, absPath, head, get, files0, n - 1);
      var earlier := FirstRaising(id, head, get, n - 1);
      if earlier.Some? {
        assert FirstRaising(id, head, get, n) == earlier;
        assert Attempts(id, absPath, head, get, files0, n) == t;
      } else {
        AttemptOwnRaise(t, id, absPath, head, get, n - 1);
        assert Attempts(id, absPath, head, get, files0, n) == Attempt(t, id, absPath, head, get, n - 1);
      }
    }
  }

  /** A fetch adds one GET and no mirror announcement. */
  lemma FetchLogs(p: Trace, target: Path, idText: string, url: string, reply: GetReply)
    ensures var f := Fetch(p, target, idText, url, reply);
      && HeadUrls(f.requests) == HeadUrls(p.requests)
      && GetUrls(f.requests) == GetUrls(p.requests) + [url]
      && TriedMirrors(f.events) == TriedMirrors(p.events)
  {
    FetchShape(p, target, idText, url, reply);
    HeadUrlsAppend(p.requests, [GetRequest(url)]);
    GetUrlsAppend(p.requests, [GetRequest(url)]);
    var shown := p.events + [Downloading(target)];
    TriedMirrorsAppend(p.events, [Downloading(target)]);
    if reply.GetResponse? {
      ProgressOnlyBars(reply.contentLength, reply.chunks);
    }
    NoTrying(Streamed(reply));
    TriedMirrorsAppend(shown, Streamed(reply));
    var announced := if Fault(url, reply).None? then [Downloaded(idText)] else [];
    TriedMirrorsAppend(shown + Streamed(reply), announced);
  }

  /** One pass, whether or not it raises, adds its probe and its announcement, and a GET
      exactly when the mirror answered and the id is a str. */
  lemma AttemptLogs(t: Trace, id: Value, absPath: Path, head: string -> HeadReply,
                    get: string -> GetReply, i: nat)
    requires i < |MirrorTable|
    requires LogsSoFar(t, PyStr(id), GetsSent(id, head, i), i)
    ensures LogsSoFar(Attempt(t, id, absPath, head, get, i), PyStr(id), GetsSent(id, head, i + 1), i + 1)
  {
    var idText := PyStr(id);
    var url := MirrorUrl(i, idText);
    var reply := head(url);
    var urls := AnsweredUrls(idText, head, i);
    var trying := Trying(idText, MirrorTable[i].name);
    var probed := t.(events := t.events + [trying], requests := t.requests + [HeadRequest(url)]);
    HeadUrlsAppend(t.requests, [HeadRequest(url)]);
    GetUrlsAppend(t.requests, [HeadRequest(url)]);
    TriedMirrorsAppend(t.events, [trying]);
    assert HeadUrls(probed.requests) == ProbeUrls(idText, i + 1);
    assert GetUrls(probed.requests) == GetsSent(id, head, i);
    assert TriedMirrors(probed.events) == MirrorNames(i + 1);
    if !Answered(reply) {
      assert Attempt(t, id, absPath, head, get, i) == probed;
      assert AnsweredUrls(idText, head, i + 1) == urls;
    } else if id.Str? {
      var target := Target(absPath, idText);
      assert Attempt(t, id, absPath, head, get, i) == Fetch(probed, target, idText, reply.url, get(reply.url));
      assert AnsweredUrls(idText, head, i + 1) == urls + [reply.url];
      FetchLogs(probed, target, idText, reply.url, get(reply.url));
    } else {
      assert Attempt(t, id, absPath, head, get, i) == probed.(raised := Some(TypeError));
    }
  }

  /** While nothing has escaped: the first n mirrors were announced and probed in order,
      and a GET went to each of them that answered. */
  lemma {:induction false} AttemptsLogs(id: Value, absPath: Path, head: string -> HeadReply,
                                        get: string -> GetReply, files0: map<Path, Bytes>, n: nat)
    requires n <= |MirrorTable|
    requires Attempts(id, absPath, head, get, files0, n).raised.None?
    ensures LogsSoFar(Attempts(id, absPath, head, get, files0, n), PyStr(id), GetsSent(id, head, n), n)
  {
    if n > 0 {
      AttemptsLogs(id, absPath, head, get, files0, n - 1);
      AttemptLogs(Attempts(id, absPath, head, get, files0, n - 1), id, absPath, head, get, n - 1);
    }
  }

  /** The logs of the whole loop, whether or not an exception escaped: the mirrors it ran
      were announced and probed in order, and fetched when they answered. */
  lemma LoopLogs(id: Value, absPath: Path, head: string -> HeadReply,
                 get: string -> GetReply, files0: map<Path, Bytes>)
    ensures var p := MirrorsRun(id, head, get, |MirrorTable|);
      LogsSoFar(Attempts(id, absPath, head, get, files0, |MirrorTable|), PyStr(id), GetsSent(id, head, p), p)
  {
    AttemptsStop(id, absPath, head, get, files0, |MirrorTable|);
    match FirstRaising(id, head, get, |MirrorTable|)
    case None =>
      AttemptsLogs(id, absPath, head, get, files0, |MirrorTable|);
    case Some(k) =>
      AttemptsStop(id, absPath, head, get, files0, k);
      var t := Attempts(id, absPath, head, get, files0, k);
      AttemptsLogs(id, absPath, head, get, files0, k);
      AttemptLogs(t, id, absPath, head, get, k);
      AttemptOwnRaise(t, id, absPath, head, get, k);
      assert Attempts(id, absPath, head, get, files0, k + 1) == Attempt(t, id, absPath, head, get, k);
      RaisedSticks(id, absPath, head, get, files0, k + 1, |MirrorTable|);
  }

  lemma {:induction false} ProbeUrlsPrefix(idText: string, p: nat, n: nat)
    requires p <= n <= |MirrorTable|
    ensures |ProbeUrls(idText, n)| == n && ProbeUrls(idText, n)[..p] == ProbeUrls(idText, p)
    decreases n
  {
    if n > 0 {
      ProbeUrlsPrefix(idText, if p < n then p else n - 1, n - 1);
    }
  }

  lemma {:induction false} MirrorNamesPrefix(p: nat, n: nat)
    requires p <= n <= |MirrorTable|
    ensures |MirrorNames(n)| == n && MirrorNames(n)[..p] == MirrorNames(p)
    decreases n
  {
    if n > 0 {
      MirrorNamesPrefix(if p < n then p else n - 1, n - 1);
    }
  }

  lemma {:induction false} AnsweredUrlsPrefix(idText: string, head: string -> HeadReply, p: nat, n: nat)
    requires p <= n <= |MirrorTable|
    ensures AnsweredUrls(idText, head, p) <= AnsweredUrls(idText, head, n)
    decreases n
  {
    if p < n {
      AnsweredUrlsPrefix(idText, head, p, n - 1);
    }
  }


  // ---- the properties of the whole call ----

  /** Once an exception has escaped, the remaining mirrors change nothing. */
  lemma {:induction false} RaisedSticks(id: Value, absPath: Path, head: string -> HeadReply,
                                        get: string -> GetReply, files0: map<Path, Bytes>, n: nat, m: nat)
    requires n <= m <= |MirrorTable|
    requires Attempts(id, absPath, head, get, files0, n).raised.Some?
    ensures Attempts(id, absPath, head, get, files0, m) == Attempts(id, absPath, head, get, files0, n)
    decreases m
  {
    if m > n {
      RaisedSticks(id, absPath, head, get, files0, n, m - 1);
    }
  }

  /** A mirror whose HEAD fails or answers anything but 200 is only announced and probed. */
  lemma RejectedMirrorChangesNothing(t: Trace, id: Value, absPath: Path, head: string -> HeadReply,
                                     get: string -> GetReply, i: nat)
    requires i < |MirrorTable|
    requires !Answered(head(MirrorUrl(i, PyStr(id))))
    ensures var a := Attempt(t, id, absPath, head, get, i);
      && a.files == t.files && a.downloaded == t.downloaded && a.success == t.success
      && a.raised == t.raised
      && a.requests == t.requests + [HeadRequest(MirrorUrl(i, PyStr(id)))]
      && a.events == t.events + [Trying(PyStr(id), MirrorTable[i].name)]
  {
  }

  /** A mirror that answers 200 truncates the target and leaves in it what its GET
      streamed, whatever the target held before; it is announced as downloaded exactly
      when no fault escaped. */
  lemma AnsweringMirrorRewritesTarget(t: Trace, id: Value, absPath: Path, head: string -> HeadReply,
                                      get: string -> GetReply, i: nat)
    requires i < |MirrorTable| && id.Str?
    requires Answered(head(MirrorUrl(i, id.s)))
    ensures var url := head(MirrorUrl(i, id.s)).url;
      var a := Attempt(t, id, absPath, head, get, i);
      && a.files == t.files[Target(absPath, id.s) := Written(get(url))]
      && a.requests == t.requests + [HeadRequest(MirrorUrl(i, id.s)), GetRequest(url)]
      && (a.raised == if Fault(url, get(url)).Some? then Fault(url, get(url)) else t.raised)
      && (a.downloaded == if Fault(url, get(url)).None? then Some(Target(absPath, id.s)) else t.downloaded)
      && (a.success <==> Fault(url, get(url)).None? || t.success)
  {
    var idText := PyStr(id);
    var url := MirrorUrl(i, idText);
    var reply := head(url);
    var probed := t.(events := t.events + [Trying(idText, MirrorTable[i].name)],
                     requests := t.requests + [HeadRequest(url)]);
    var target := Target(absPath, id.s);
    var answer := get(reply.url);
    FetchShape(probed, target, idText, reply.url, answer);
  }

  /** download_beatmapset returns exactly what Outcome describes. */
  lemma DownloadReturnsOutcome(item: Item, absPath: Path, head: string -> HeadReply,
                               get: string -> GetReply, files0: map<Path, Bytes>)
    ensures Returned(Download(item, absPath, head, get, files0)) == Outcome(item, absPath, head, get)
  {
    if ItemId(item).Ok? {
      var id := ItemId(item).value;
      AttemptsRaise(id, absPath, head, get, files0, |MirrorTable|);
      var t := Attempts(id, absPath, head, get, files0, |MirrorTable|);
      if t.raised.None? {
        AttemptsFiles(id, absPath, head, get, files0, |MirrorTable|);
      }
    }
  }

  /** The whole call is the loop followed, when nothing escaped it, by the closing messages. */
  lemma DownloadShape(item: Item, absPath: Path, head: string -> HeadReply,
                      get: string -> GetReply, files0: map<Path, Bytes>, id: Value)
    requires ItemId(item) == Ok(id)
    ensures var t := Attempts(id, absPath, head, get, files0, |MirrorTable|);
      var d := Download(item, absPath, head, get, files0);
      && d.raised == t.raised && d.files == t.files && d.requests == t.requests
      && d.downloaded == t.downloaded && d.success == t.success
      && d.events == if t.raised.Some? then t.events else t.events + Closing(t.success, PyStr(id))
  {
  }

  /** With a valid id and nothing raised: the three mirrors are announced and probed in
      the order of the table, and a GET goes to the final URL of each mirror that answered
      200, in the same order. */
  lemma MirrorsTriedInOrder(item: Item, absPath: Path, head: string -> HeadReply,
                            get: string -> GetReply, files0: map<Path, Bytes>, id: Value)
    requires ItemId(item) == Ok(id)
    requires Download(item, absPath, head, get, files0).raised.None?
    ensures var t := Download(item, absPath, head, get, files0);
      && HeadUrls(t.requests) == ["https://beatconnect.io/b/" + PyStr(id),
                                  "https://api.chimu.moe/v1/download/" + PyStr(id) + "?n=1",
                                  "https://nerinyan.moe/d/" + PyStr(id)]
      && GetUrls(t.requests) == AnsweredUrls(PyStr(id), head, |MirrorTable|)
      && TriedMirrors(t.events) == ["beatconnect.io", "chimu.moe", "nerinyan.moe"]
  {
    DownloadShape(item, absPath, head, get, files0, id);
    var t := Attempts(id, absPath, head, get, files0, |MirrorTable|);
    AttemptsStop(id, absPath, head, get, files0, |MirrorTable|);
    LogsSpelledOut(id, absPath, head, get, files0);
    if !id.Str? {
      NothingAnswered(id, head, get);
    }
    var closing := Closing(t.success, PyStr(id));
    TriedMirrorsAppend(t.events, closing);
    NoTrying(closing);
  }

  /** For an id that is not a str, a run in which no pass raises had no mirror answer. */
  lemma NothingAnswered(id: Value, head: string -> HeadReply, get: string -> GetReply)
    requires !id.Str? && FirstRaising(id, head, get, |MirrorTable|).None?
    ensures AnsweredUrls(PyStr(id), head, |MirrorTable|) == []
  {
    var idText := PyStr(id);
    assert OwnRaise(id, head, get, 0).None?;
    assert AnsweredUrls(idText, head, 1) == [];
    assert OwnRaise(id, head, get, 1).None?;
    assert AnsweredUrls(idText, head, 2) == [];
    assert OwnRaise(id, head, get, 2).None?;
  }

  /** The loop's logs with the mirror URLs and names spelled out: the first p mirrors it
      ran, and a GET for each of them that answered, a prefix of all answering URLs. */
  lemma LogsSpelledOut(id: Value, absPath: Path, head: string -> HeadReply,
                       get: string -> GetReply, files0: map<Path, Bytes>)
    ensures var t := Attempts(id, absPath, head, get, files0, |MirrorTable|);
      var p := MirrorsRun(id, head, get, |MirrorTable|);
      && HeadUrls(t.requests) == ["https://beatconnect.io/b/" + PyStr(id),
                                  "https://api.chimu.moe/v1/download/" + PyStr(id) + "?n=1",
                                  "https://nerinyan.moe/d/" + PyStr(id)][..p]
      && TriedMirrors(t.events) == ["beatconnect.io", "chimu.moe", "nerinyan.moe"][..p]
      && GetUrls(t.requests) == GetsSent(id, head, p)
      && GetsSent(id, head, p) <= AnsweredUrls(PyStr(id), head, |MirrorTable|)
  {
    var idText := PyStr(id);
    var p := MirrorsRun(id, head, get, |MirrorTable|);
    LoopLogs(id, absPath, head, get, files0);
    ProbeUrlsPrefix(idText, p, |MirrorTable|);
    AllProbeUrls(idText);
    MirrorNamesPrefix(p, |MirrorTable|);
    AllMirrorNames();
    AnsweredUrlsPrefix(idText, head, p, |MirrorTable|);
  }

  /** When the loop raises, the pass that raised is that of mirror p - 1, the last one
      run: it answered 200, the exception is its own, and no earlier pass raised. */
  lemma LoopStopsAtRaise(id: Value, absPath: Path, head: string -> HeadReply,
                         get: string -> GetReply, files0: map<Path, Bytes>)
    requires Attempts(id, absPath, head, get, files0, |MirrorTable|).raised.Some?
    ensures var p := MirrorsRun(id, head, get, |MirrorTable|);
      && 0 < p <= |MirrorTable|
      && (var answer := head(MirrorUrl(p - 1, PyStr(id)));
          && Answered(answer)
          && Attempts(id, absPath, head, get, files0, |MirrorTable|).raised
             == (if id.Str? then Fault(answer.url, get(answer.url)) else Some(TypeError)))
      && forall j :: 0 <= j < p - 1 ==> OwnRaise(id, head, get, j).None?
  {
    AttemptsStop(id, absPath, head, get, files0, |MirrorTable|);
  }

  /** With a valid id and an exception escaping: the loop stopped after mirror p - 1, the
      first pass that raised. That mirror answered 200 and the exception is its own
      (TypeError for an id that is not a str, else the fault of its GET); exactly the first
      p mirrors were announced and probed, in table order, and a GET went to each of them
      that answered, a prefix of the answering mirrors' URLs. */
  lemma MirrorsTriedUntilRaise(item: Item, absPath: Path, head: string -> HeadReply,
                               get: string -> GetReply, files0: map<Path, Bytes>, id: Value)
    requires ItemId(item) == Ok(id)
    requires Download(item, absPath, head, get, files0).raised.Some?
    ensures var t := Download(item, absPath, head, get, files0);
      var p := MirrorsRun(id, head, get, |MirrorTable|);
      && 0 < p <= |MirrorTable|
      && (var answer := head(MirrorUrl(p - 1, PyStr(id)));
          && Answered(answer)
          && t.raised == (if id.Str? then Fault(answer.url, get(answer.url)) else Some(TypeError)))
      && (forall j :: 0 <= j < p - 1 ==> OwnRaise(id, head, get, j).None?)
      && HeadUrls(t.requests) == ["https://beatconnect.io/b/" + PyStr(id),
                                  "https://api.chimu.moe/v1/download/" + PyStr(id) + "?n=1",
                                  "https://nerinyan.moe/d/" + PyStr(id)][..p]
      && TriedMirrors(t.events) == ["beatconnect.io", "chimu.moe", "nerinyan.moe"][..p]
      && GetUrls(t.requests) == GetsSent(id, head, p)
      && GetsSent(id, head, p) <= AnsweredUrls(PyStr(id), head, |MirrorTable|)
  {
    DownloadShape(item, absPath, head, get, files0, id);
    LoopStopsAtRaise(id, absPath, head, get, files0);
    LogsSpelledOut(id, absPath, head, get, files0);
  }

  lemma AllProbeUrls(idText: string)
    ensures ProbeUrls(idText, |MirrorTable|) == ["https://beatconnect.io/b/" + idText,
                                                 "https://api.chimu.moe/v1/download/" + idText + "?n=1",
                                                 "https://nerinyan.moe/d/" + idText]
  {
    MirrorUrlsSpelledOut(idText);
    assert ProbeUrls(idText, 1) == [MirrorUrl(0, idText)];
    assert ProbeUrls(idText, 2) == [MirrorUrl(0, idText), MirrorUrl(1, idText)];
  }

  lemma AllMirrorNames()
    ensures MirrorNames(|MirrorTable|) == ["beatconnect.io", "chimu.moe", "nerinyan.moe"]
  {
    assert MirrorNames(1) == [MirrorTable[0].name];
    assert MirrorNames(2) == [MirrorTable[0].name, MirrorTable[1].name];
  }

  /** With a valid id and nothing raised: the target holds what the last mirror to answer
      200 sent, and no other file changes; with no answering mirror nothing changes. */
  lemma LastAnsweringMirrorWins(item: Item, absPath: Path, head: string -> HeadReply,
                                get: string -> GetReply, files0: map<Path, Bytes>, id: Value)
    requires ItemId(item) == Ok(id)
    requires Download(item, absPath, head, get, files0).raised.None?
    ensures var urls := AnsweredUrls(PyStr(id), head, |MirrorTable|);
      Download(item, absPath, head, get, files0).files
        == if urls == [] then files0
           else files0[Target(absPath, PyStr(id)) := Written(get(urls[|urls| - 1]))]
  {
    AttemptsFiles(id, absPath, head, get, files0, |MirrorTable|);
  }

  /** The failure notice is printed exactly when nothing was downloaded, the closing
      notice always ends the output, and `success` agrees with the return value; when an
      exception escapes, neither notice is printed. */
  lemma FailureNoticeIffNothingDownloaded(item: Item, absPath: Path, head: string -> HeadReply,
                                          get: string -> GetReply, files0: map<Path, Bytes>)
    ensures var t := Download(item, absPath, head, get, files0);
      t.raised.None? ==>
        && ItemId(item).Ok?
        && (Failed(PyStr(ItemId(item).value)) in t.events <==> t.downloaded.None?)
        && |t.events| > 0 && t.events[|t.events| - 1] == Finished
        && (t.success <==> t.downloaded.Some?)
    ensures var t := Download(item, absPath, head, get, files0);
      t.raised.Some? ==> forall e :: e in t.events ==> !e.Failed? && !e.Finished?
  {
    if ItemId(item).Ok? {
      var id := ItemId(item).value;
      AttemptsTidy(id, absPath, head, get, files0, |MirrorTable|);
      var t := Attempts(id, absPath, head, get, files0, |MirrorTable|);
      if t.raised.None? {
        AttemptsFiles(id, absPath, head, get, files0, |MirrorTable|);
        assert Failed(PyStr(id)) !in t.events;
      }
    }
  }

  /** No file disappears, a returned path names a file, and no progress counter of the
      batch loop is printed. */
  lemma DownloadKeepsFiles(item: Item, absPath: Path, head: string -> HeadReply,
                           get: string -> GetReply, files0: map<Path, Bytes>)
    ensures var t := Download(item, absPath, head, get, files0);
      && files0.Keys <= t.files.Keys
      && (Returned(t).Ok? && Returned(t).value.Some? ==> Returned(t).value.value in t.files)
      && forall e :: e in t.events ==> !e.Counted?
  {
    if ItemId(item).Ok? {
      AttemptsTidy(ItemId(item).value, absPath, head, get, files0, |MirrorTable|);
    }
  }

  // ---- the method ----

  lemma TruncateThenWrite(m: map<Path, Bytes>, path: Path, data: Bytes)
    ensures m[path := []][path := m[path := []][path] + data] == m[path := data]
  {
    assert m[path := []][path] + data == data;
  }

  /** The `with open(filename, "wb")` block: truncate the target, announce it, send the
      GET and stream the answer in. */
  method FetchInto(fs: FileSystem, con: Console, web: Web, target: Path, idText: string, url: string,
                   downloaded: Option<Path>, success: bool,
                   ghost p: Trace, ghost events0: seq<Event>, ghost log0: seq<Request>)
    returns (downloaded': Option<Path>, success': bool, raised: Option<Exception>)
    requires p.raised.None? && downloaded == p.downloaded && success == p.success
    requires fs.files == p.files && con.events == events0 + p.events && web.log == log0 + p.requests
    modifies fs, con, web
    ensures var reply := web.get(url);
      && fs.files == p.files[target := Written(reply)]
      && con.events == events0 + p.events + [Downloading(target)] + Streamed(reply)
                       + (if Fault(url, reply).None? then [Downloaded(idText)] else [])
      && web.log == log0 + p.requests + [GetRequest(url)]
      && raised == Fault(url, reply)
      && downloaded' == (if Fault(url, reply).None? then Some(target) else downloaded)
      && success' == (Fault(url, reply).None? || success)
  {
    downloaded', success', raised := downloaded, success, None;
    fs.Create(target);
    con.Emit(Downloading(target));
    var answer := web.SendGet(url);
    if answer.GetFailed? {
      raised := Some(ConnectionError(url));
      return;
    }
    ghost var written := BodyTransfer(answer.contentLength, answer.chunks).written;
    TruncateThenWrite(p.files, target, written);
    raised := WriteBody(fs, con, target, answer.contentLength, answer.chunks);
    assert fs.files == p.files[target := Written(answer)];
    if raised.Some? {
      return;
    }
    downloaded' := Some(target);
    var present := fs.Exists(target);
    if present {
      con.Emit(Downloaded(idText));
      success' := true;
    }
  }

  /** One pass of the mirror loop, on the live file system, console and web. */
  method TryMirror(id: Value, absPath: Path, i: nat, fs: FileSystem, con: Console, web: Web,
                   downloaded: Option<Path>, success: bool,
                   ghost t: Trace, ghost events0: seq<Event>, ghost log0: seq<Request>)
    returns (downloaded': Option<Path>, success': bool, raised: Option<Exception>)
    requires i < |MirrorTable| && t.raised.None?
    requires fs.files == t.files && con.events == events0 + t.events && web.log == log0 + t.requests
    requires downloaded == t.downloaded && success == t.success
    modifies fs, con, web
    ensures var a := Attempt(t, id, absPath, web.head, web.get, i);
      && fs.files == a.files && con.events == events0 + a.events && web.log == log0 + a.requests
      && downloaded' == a.downloaded && success' == a.success && raised == a.raised
  {
    downloaded', success', raised := downloaded, success, None;
    var idText := PyStr(id);
    var url := MirrorUrl(i, idText);
    con.Emit(Trying(idText, MirrorTable[i].name));
    var reply := web.SendHead(url);
    ghost var probed := t.(events := t.events + [Trying(idText, MirrorTable[i].name)],
                           requests := t.requests + [HeadRequest(url)]);
    Regroup(events0, t.events, [Trying(idText, MirrorTable[i].name)]);
    Regroup(log0, t.requests, [HeadRequest(url)]);
    var timeout := reply.HeadFailed?;
    if !timeout && reply.status == 200 {
      if !id.Str? {
        assert Attempt(t, id, absPath, web.head, web.get, i) == probed.(raised := Some(TypeError));
        raised := Some(TypeError);
        return;
      }
      var target := Target(absPath, id.s);
      ghost var f := Fetch(probed, target, idText, reply.url, web.get(reply.url));
      assert Attempt(t, id, absPath, web.head, web.get, i) == f;
      downloaded', success', raised :=
        FetchInto(fs, con, web, target, idText, reply.url, downloaded, success, probed, events0, log0);
      FetchShape(probed, target, idText, reply.url, web.get(reply.url));
      var answer := web.get(reply.url);
      var announced := if Fault(reply.url, answer).None? then [Downloaded(idText)] else [];
      RegroupFetch(events0, probed.events, [Downloading(target)], Streamed(answer), announced);
      Regroup(log0, probed.requests, [GetRequest(reply.url)]);
    } else {
      assert Attempt(t, id, absPath, web.head, web.get, i) == probed;
    }
  }

  /** The mirror loop of download_beatmapset for an id that was found. */
  method MirrorLoop(id: Value, absPath: Path, fs: FileSystem, con: Console, web: Web)
    returns (downloaded: Option<Path>, success: bool, raised: Option<Exception>)
    modifies fs, con, web
    ensures var t := Attempts(id, absPath, web.head, web.get, old(fs.files), |MirrorTable|);
      && fs.files == t.files && con.events == old(con.events) + t.events
      && web.log == old(web.log) + t.requests
      && downloaded == t.downloaded && success == t.success && raised == t.raised
  {
    ghost var files0, events0, log0 := fs.files, con.events, web.log;
    downloaded, success, raised := None, false, None;
    ghost var t := Attempts(id, absPath, web.head, web.get, files0, 0);
    var i := 0;
    while i < |MirrorTable|
      invariant 0 <= i <= |MirrorTable|
      invariant t == Attempts(id, absPath, web.head, web.get, files0, i) && t.raised.None?
      invariant fs.files == t.files && con.events == events0 + t.events && web.log == log0 + t.requests
      invariant downloaded == t.downloaded && success == t.success && raised.None?
    {
      downloaded, success, raised := TryMirror(id, absPath, i, fs, con, web, downloaded, success, t, events0, log0);
      t := Attempt(t, id, absPath, web.head, web.get, i);
      i := i + 1;
      if raised.Some? {
        RaisedSticks(id, absPath, web.head, web.get, files0, i, |MirrorTable|);
        return;
      }
    }
  }

  /** download_beatmapset(beatmapset, absolute_path): the files, the output and the
      requests follow the Download trace, and the result is the one Outcome describes. */
  method DownloadBeatmapset(item: Item, absPath: Path, fs: FileSystem, con: Console, web: Web)
    returns (r: Result<Option<Path>>)
    modifies fs, con, web
    ensures var t := Download(item, absPath, web.head, web.get, old(fs.files));
      && fs.files == t.files
      && con.events == old(con.events) + t.events
      && web.log == old(web.log) + t.requests
      && r == Returned(t)
    ensures r == Outcome(item, absPath, web.head, web.get)
    ensures old(fs.files).Keys <= fs.files.Keys
    ensures r.Ok? && r.value.Some? ==> r.value.value in fs.files
  {
    ghost var files0, events0 := fs.files, con.events;
    DownloadReturnsOutcome(item, absPath, web.head, web.get, files0);
    DownloadKeepsFiles(item, absPath, web.head, web.get, files0);
    var found := ItemId(item);
    if found.Raised? {
      return Raised(found.exc);
    }
    var id := found.value;
    DownloadShape(item, absPath, web.head, web.get, files0, id);
    ghost var t := Attempts(id, absPath, web.head, web.get, files0, |MirrorTable|);
    var downloaded, success, raised := MirrorLoop(id, absPath, fs, con, web);
    if raised.Some? {
      return Raised(raised.value);
    }
    ghost var closing := Closing(success, PyStr(id));
    if !success {
      con.Emit(Failed(PyStr(id)));
      con.Emit(Finished);
      Regroup(events0 + t.events, [Failed(PyStr(id))], [Finished]);
    } else {
      con.Emit(Finished);
      assert closing == [Finished];
    }
    Regroup(events0, t.events, closing);
    r := Ok(downloaded);
  }
}
