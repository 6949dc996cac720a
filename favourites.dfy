/** The loop of download_favourites: every stored beatmap set goes through
    download_beatmapset in order; each path returned is appended to `downloaded`, the
    counter goes up and "<counter>/<total> downloaded" is printed. */
module Favourites {
  import opened Builtins
  import opened Host
  import opened Mirrors
  import opened Beatmaps
  import opened Downloader

  /** A BeatmapSet as download_beatmapset sees it: it has an `id`, always a str. */
  function AsItem(b: BeatmapSet): Item {
    Item(Some(Str(b.id)), None)
  }

  /** The state of the batch after some of the stored results: files, output, requests,
      the list `downloaded`, and the exception that escaped, if any. */
  datatype Batch = Batch(
    files: map<Path, Bytes>,
    events: seq<Event>,
    requests: seq<Request>,
    downloaded: seq<Path>,
    raised: Option<Exception>)

  /** One pass of the loop, where download_beatmapset left the trace `t`: when it
      returns a path, append it to `downloaded` and print the new count. */
  function Advance(s: Batch, t: Trace, total: int): Batch
  {
    var after := s.(files := t.files, events := s.events + t.events, requests := s.requests + t.requests);
    match Returned(t)
    case Raised(e) => after.(raised := Some(e))
    case Ok(None) => after
    case Ok(Some(file)) =>
      var downloaded := s.downloaded + [file];
      after.(downloaded := downloaded, events := after.events + [Counted(|downloaded|, total)])
  }

  /** The loop over `items`, out of `total` stored results, from the files `files0`. */
  function RunBatch(items: seq<BeatmapSet>, total: int, absPath: Path, head: string -> HeadReply,
                    get: string -> GetReply, files0: map<Path, Bytes>): Batch
  {
    if items == [] then Batch(files0, [], [], [], None)
    else
      var s := RunBatch(items[..|items| - 1], total, absPath, head, get, files0);
      if s.raised.Some? then s
      else Advance(s, Download(AsItem(items[|items| - 1]), absPath, head, get, s.files), total)
  }

  /** What the loop hands on (to add_to_zip), or the exception that ended it. */
  function Handed(s: Batch): Result<seq<Path>> {
    if s.raised.Some? then Raised(s.raised.value) else Ok(s.downloaded)
  }

  // ---- an independent description of the result ----

  /** The results of the items in order, from their Outcomes alone: the paths of those
      that returned one, or the first exception. */
  function Collected(items: seq<BeatmapSet>, absPath: Path, head: string -> HeadReply,
                     get: string -> GetReply): Result<seq<Path>>
  {
    if items == [] then Ok([])
    else
      match Collected(items[..|items| - 1], absPath, head, get)
      case Raised(e) => Raised(e)
      case Ok(paths) =>
        match Outcome(AsItem(items[|items| - 1]), absPath, head, get)
        case Raised(e) => Raised(e)
        case Ok(None) => Ok(paths)
        case Ok(Some(file)) => Ok(paths + [file])
  }

  /** The items some mirror answered 200 for. */
  predicate Answers(b: BeatmapSet, head: string -> HeadReply) {
    AnsweredUrls(b.id, head, |MirrorTable|) != []
  }

  /** The transfers of an item that all complete. */
  predicate Completes(b: BeatmapSet, head: string -> HeadReply, get: string -> GetReply) {
    FirstFault(get, AnsweredUrls(b.id, head, |MirrorTable|)).None?
  }

  /** `<absolute_path>/<id>.osz` for each answered item, in item order. */
  function AnsweredTargets(items: seq<BeatmapSet>, absPath: Path, head: string -> HeadReply): seq<Path> {
    if items == [] then []
    else
      var b := items[|items| - 1];
      AnsweredTargets(items[..|items| - 1], absPath, head)
        + (if Answers(b, head) then [Target(absPath, b.id)] else [])
  }

  /** The counters printed, in order. */
  function Counts(events: seq<Event>): seq<int> {
    if events == [] then []
    else
      var e := events[|events| - 1];
      Counts(events[..|events| - 1]) + (if e.Counted? then [e.count] else [])
  }

  /** 1, 2, ..., n */
  function CountUp(n: nat): seq<int> {
    if n == 0 then [] else CountUp(n - 1) + [n]
  }

  // ---- lemmas ----

  lemma {:induction false} CountsAppend(a: seq<Event>, b: seq<Event>)
    ensures Counts(a + b) == Counts(a) + Counts(b)
    decreases |b|
  {
    if b == [] {
      assert a + b == a;
    } else {
      assert (a + b)[..|a + b| - 1] == a + b[..|b| - 1];
      CountsAppend(a, b[..|b| - 1]);
    }
  }

  lemma {:induction false} NoCounts(events: seq<Event>)
    requires forall e :: e in events ==> !e.Counted?
    ensures Counts(events) == []
  {
    if events != [] {
      assert forall e :: e in events[..|events| - 1] ==> e in events;
      assert events[|events| - 1] in events;
      NoCounts(events[..|events| - 1]);
    }
  }

  /** The loop's result is the one Collected describes. */
  lemma {:induction false} BatchCollects(items: seq<BeatmapSet>, total: int, absPath: Path,
                                         head: string -> HeadReply, get: string -> GetReply,
                                         files0: map<Path, Bytes>)
    ensures Handed(RunBatch(items, total, absPath, head, get, files0)) == Collected(items, absPath, head, get)
  {
    if items != [] {
      var prefix := items[..|items| - 1];
      BatchCollects(prefix, total, absPath, head, get, files0);
      var s := RunBatch(prefix, total, absPath, head, get, files0);
      if s.raised.None? {
        DownloadReturnsOutcome(AsItem(items[|items| - 1]), absPath, head, get, s.files);
      }
    }
  }

  /** One pass of the loop: the Download trace of the item and its result. */
  lemma BatchStep(items: seq<BeatmapSet>, total: int, absPath: Path, head: string -> HeadReply,
                  get: string -> GetReply, files0: map<Path, Bytes>)
    requires items != []
    requires RunBatch(items[..|items| - 1], total, absPath, head, get, files0).raised.None?
    ensures var s := RunBatch(items[..|items| - 1], total, absPath, head, get, files0);
      var t := Download(AsItem(items[|items| - 1]), absPath, head, get, s.files);
      var s' := RunBatch(items, total, absPath, head, get, files0);
      && (forall e :: e in t.events ==> !e.Counted?)
      && s'.events == s.events + t.events
                      + (if Returned(t).Ok? && Returned(t).value.Some? then [Counted(|s'.downloaded|, total)] else [])
      && s'.downloaded == s.downloaded + (if Returned(t).Ok? && Returned(t).value.Some? then [Returned(t).value.value] else [])
  {
    var s := RunBatch(items[..|items| - 1], total, absPath, head, get, files0);
    DownloadKeepsFiles(AsItem(items[|items| - 1]), absPath, head, get, s.files);
  }

  /** The counter printed for a new path is the new length of `downloaded`. */
  lemma CountStep(before: seq<Event>, call: seq<Event>, downloaded: seq<Path>, added: seq<Path>, total: int)
    requires Counts(before) == CountUp(|downloaded|) && |added| <= 1
    requires forall e :: e in call ==> !e.Counted?
    ensures Counts(before + call + (if added != [] then [Counted(|downloaded + added|, total)] else []))
         == CountUp(|downloaded + added|)
  {
    NoCounts(call);
    CountsAppend(before, call);
    if added != [] {
      CountsAppend(before + call, [Counted(|downloaded + added|, total)]);
    } else {
      assert before + call + [] == before + call;
    }
  }

  /** After every item, `counter == len(downloaded)`: the counters printed are exactly
      1, 2, ..., len(downloaded). */
  lemma {:induction false} CounterMatchesDownloaded(items: seq<BeatmapSet>, total: int, absPath: Path,
                                                    head: string -> HeadReply, get: string -> GetReply,
                                                    files0: map<Path, Bytes>)
    ensures var s := RunBatch(items, total, absPath, head, get, files0);
      Counts(s.events) == CountUp(|s.downloaded|)
  {
    if items != [] {
      var prefix := items[..|items| - 1];
      CounterMatchesDownloaded(prefix, total, absPath, head, get, files0);
      var s := RunBatch(prefix, total, absPath, head, get, files0);
      if s.raised.None? {
        BatchStep(items, total, absPath, head, get, files0);
        var t := Download(AsItem(items[|items| - 1]), absPath, head, get, s.files);
        var r := Returned(t);
        CountStep(s.events, t.events, s.downloaded, if r.Ok? && r.value.Some? then [r.value.value] else [], total);
      }
    }
  }

  /** Every counter is printed out of the number of stored results, and no more paths are
      collected than items were processed. */
  lemma {:induction false} CounterWithinTotal(items: seq<BeatmapSet>, total: int, absPath: Path,
                                              head: string -> HeadReply, get: string -> GetReply,
                                              files0: map<Path, Bytes>)
    ensures var s := RunBatch(items, total, absPath, head, get, files0);
      && (forall e :: e in s.events && e.Counted? ==> e.total == total)
      && |s.downloaded| <= |items|
  {
    if items != [] {
      var prefix := items[..|items| - 1];
      CounterWithinTotal(prefix, total, absPath, head, get, files0);
      var s := RunBatch(prefix, total, absPath, head, get, files0);
      if s.raised.None? {
        BatchStep(items, total, absPath, head, get, files0);
      }
    }
  }

  /** What download_beatmapset returns for a stored result, in terms of Answers and Completes. */
  lemma ItemOutcome(b: BeatmapSet, absPath: Path, head: string -> HeadReply, get: string -> GetReply)
    ensures var o := Outcome(AsItem(b), absPath, head, get);
      && (o.Ok? <==> Completes(b, head, get))
      && (o.Ok? ==> o.value == if Answers(b, head) then Some(Target(absPath, b.id)) else None)
  {
    assert ItemId(AsItem(b)) == Ok(Str(b.id));
  }

  /** Without an exception, `downloaded` is exactly the targets of the items some mirror
      answered for, in item order; the loop finishes exactly when every transfer does. */
  lemma {:induction false} CollectedMeaning(items: seq<BeatmapSet>, absPath: Path,
                                            head: string -> HeadReply, get: string -> GetReply)
    ensures Collected(items, absPath, head, get).Ok? <==> forall i :: 0 <= i < |items| ==> Completes(items[i], head, get)
    ensures Collected(items, absPath, head, get).Ok? ==>
      Collected(items, absPath, head, get).value == AnsweredTargets(items, absPath, head)
  {
    if items != [] {
      var prefix := items[..|items| - 1];
      var b := items[|items| - 1];
      CollectedMeaning(prefix, absPath, head, get);
      ItemOutcome(b, absPath, head, get);
      assert forall i :: 0 <= i < |prefix| ==> prefix[i] == items[i];
    }
  }

  /** What one pass appends to `downloaded`: the path download_beatmapset returned, if any. */
  function Gained(t: Trace): seq<Path> {
    if t.raised.None? && t.downloaded.Some? then [t.downloaded.value] else []
  }

  /** Advance field by field, for a batch that has not raised. */
  lemma AdvanceShape(s: Batch, t: Trace, total: int)
    requires s.raised.None?
    ensures var a := Advance(s, t, total);
      && a.files == t.files && a.requests == s.requests + t.requests && a.raised == t.raised
      && a.downloaded == s.downloaded + Gained(t)
      && a.events == s.events + t.events
                     + (if Gained(t) == [] then [] else [Counted(|a.downloaded|, total)])
  {
  }

  /** One pass of the loop on the live objects, where download_beatmapset leaves the
      trace `t`. */
  method CollectOne(b: BeatmapSet, total: int, absPath: Path, fs: FileSystem, con: Console, web: Web,
                    counter: int, downloaded: seq<Path>,
                    ghost t: Trace, ghost events0: seq<Event>, ghost log0: seq<Request>)
    returns (counter': int, downloaded': seq<Path>, raised: Option<Exception>)
    requires t == Download(AsItem(b), absPath, web.head, web.get, fs.files) && counter == |downloaded|
    modifies fs, con, web
    ensures fs.files == t.files && con.events == old(con.events) + t.events
                                     + (if Gained(t) == [] then [] else [Counted(|downloaded'|, total)])
    ensures web.log == old(web.log) + t.requests && raised == t.raised
    ensures downloaded' == downloaded + Gained(t) && counter' == |downloaded'|
  {
    counter', downloaded', raised := counter, downloaded, None;
    var file := DownloadBeatmapset(AsItem(b), absPath, fs, con, web);
    if file.Raised? {
      raised := Some(file.exc);
      return;
    }
    if file.value.Some? {
      downloaded' := downloaded + [file.value.value];
      counter' := counter + 1;
      con.Emit(Counted(counter', total));
    }
  }

  /** download_favourites(player, download_dir) from the point where the stored results
      are known, up to the call to add_to_zip: the state follows RunBatch, and the list
      handed on is the one Collected describes. */
  method DownloadFavourites(stored: seq<BeatmapSet>, absPath: Path, fs: FileSystem, con: Console, web: Web)
    returns (r: Result<seq<Path>>)
    modifies fs, con, web
    ensures var s := RunBatch(stored, |stored|, absPath, web.head, web.get, old(fs.files));
      && fs.files == s.files && con.events == old(con.events) + s.events
      && web.log == old(web.log) + s.requests && r == Handed(s)
    ensures r == Collected(stored, absPath, web.head, web.get)
  {
    BatchCollects(stored, |stored|, absPath, web.head, web.get, fs.files);
    ghost var files0, events0, log0 := fs.files, con.events, web.log;
    var counter := 0;
    var downloaded: seq<Path> := [];
    ghost var s := RunBatch([], |stored|, absPath, web.head, web.get, files0);
    var k := 0;
    while k < |stored|
      invariant 0 <= k <= |stored|
      invariant s == RunBatch(stored[..k], |stored|, absPath, web.head, web.get, files0) && s.raised.None?
      invariant fs.files == s.files && con.events == events0 + s.events && web.log == log0 + s.requests
      invariant downloaded == s.downloaded && counter == |downloaded|
    {
      assert stored[..k + 1][..k] == stored[..k];
      var raised;
      ghost var t := Download(AsItem(stored[k]), absPath, web.head, web.get, s.files);
      counter, downloaded, raised := CollectOne(stored[k], |stored|, absPath, fs, con, web, counter, downloaded, t, events0, log0);
      AdvanceShape(s, t, |stored|);
      Regroup(events0, s.events, t.events);
      Regroup(log0, s.requests, t.requests);
      s := Advance(s, t, |stored|);
      k := k + 1;
      if raised.Some? {
        BatchSticks(stored, k, |stored|, absPath, web.head, web.get, files0);
        return Raised(raised.value);
      }
    }
    assert stored[..k] == stored;
    r := Ok(downloaded);
  }

  /** Once an exception has escaped, the remaining items change nothing. */
  lemma {:induction false} BatchSticks(items: seq<BeatmapSet>, k: nat, total: int, absPath: Path,
                                       head: string -> HeadReply, get: string -> GetReply,
                                       files0: map<Path, Bytes>)
    requires k <= |items|
    requires RunBatch(items[..k], total, absPath, head, get, files0).raised.Some?
    ensures RunBatch(items, total, absPath, head, get, files0) == RunBatch(items[..k], total, absPath, head, get, files0)
    decreases |items|
  {
    if k < |items| {
      var prefix := items[..|items| - 1];
      assert prefix[..k] == items[..k];
      BatchSticks(prefix, k, total, absPath, head, get, files0);
    } else {
      assert items[..k] == items;
    }
  }
}
