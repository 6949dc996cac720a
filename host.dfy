/** What download.py touches outside itself, made explicit: the file system (files by
    path), standard output (a log of the messages written), and the web (constant
    answers to HEAD and GET requests, plus a log of the requests issued). */
module Host {
  import opened Builtins

  newtype byte = x: int | 0 <= x < 256
  type Bytes = seq<byte>
  type Path = string

  /** Path(base).joinpath(name) as a string: an absolute name replaces the base. */
  function JoinPath(base: Path, name: string): (p: Path)
    ensures |name| <= |p| && p[|p| - |name|..] == name
    ensures base != "" && base[|base| - 1] != '/' && (name == "" || name[0] != '/') ==> p == base + "/" + name
  {
    if |name| > 0 && name[0] == '/' then name
    else if base == "" then name
    else if base[|base| - 1] == '/' then base + name
    else base + "/" + name
  }

  /** One piece of text written to standard output. `ProgressBar.received` is the byte
      counter `dl` at the time the bar was drawn; it is kept for the proofs and is not part
      of the printed text (Render shows only the fill and the percentage). */
  datatype Event =
    | Trying(id: string, mirror: string)
    | Downloading(path: Path)
    | ProgressBar(received: nat, done: int, percent: int)
    | Downloaded(id: string)
    | Failed(id: string)
    | Finished
    | Counted(count: int, total: int)

  /** The exact text of each message; print adds a newline, sys.stdout.write does not. */
  function Render(e: Event): string {
    match e
    case Trying(id, mirror) =>
      "\nTrying to download #" + id + " from " + mirror
      + ". Press Ctrl + C if download gets stuck for too long.\n"
    case Downloading(path) => "Downloading " + path + "\n"
    case ProgressBar(_, done, percent) =>
      "\r[" + Repeat('=', done) + Repeat(' ', 50 - done) + "] " + IntToString(percent) + "%"
    case Downloaded(id) => "\nDownloaded #" + id + "\n"
    case Failed(id) =>
      "Failed to download #" + id + "! It probably does not exist on the mirrors.\n"
      + "Please manually download the beatmap from osu.ppy.sh!\n"
    case Finished => "\nFinished downloading!\n"
    case Counted(count, total) => IntToString(count) + "/" + IntToString(total) + " downloaded\n"
  }

  function RenderAll(events: seq<Event>): string {
    if events == [] then "" else RenderAll(events[..|events| - 1]) + Render(events[|events| - 1])
  }

  class Console {
    var events: seq<Event>

    constructor ()
      ensures events == []
    {
      events := [];
    }

    /** Everything written so far. */
    function Text(): string
      reads this
    {
      RenderAll(events)
    }

    method Emit(e: Event)
      modifies this
      ensures events == old(events) + [e]
      ensures Text() == old(Text()) + Render(e)
    {
      events := events + [e];
      assert events[..|events| - 1] == old(events);
    }
  }

  class FileSystem {
    var files: map<Path, Bytes>

    constructor (initial: map<Path, Bytes>)
      ensures files == initial
    {
      files := initial;
    }

    /** open(path, "wb"): the file exists afterwards and is empty. */
    method Create(path: Path)
      modifies this
      ensures files == old(files)[path := []]
    {
      files := files[path := []];
    }

    /** f.write(data) on a file opened for writing. */
    method Append(path: Path, data: Bytes)
      requires path in files
      modifies this
      ensures files == old(files)[path := old(files)[path] + data]
    {
      files := files[path := files[path] + data];
    }

    /** Path(path).exists() */
    method Exists(path: Path) returns (b: bool)
      ensures b <==> path in files
    {
      b := path in files;
    }
  }

  /** What requests.head(url, allow_redirects=True, timeout=10) gives: any exception
      (time-out, connection failure, ...), or a response with its status code and the URL
      reached after redirects. */
  datatype HeadReply = HeadFailed | HeadResponse(status: int, url: string)

  /** What requests.get(url, stream=True) gives: an exception, or a response with its
      Content-Length header (if any) and the body as the chunks iter_content yields. */
  datatype GetReply = GetFailed | GetResponse(contentLength: Option<string>, chunks: seq<Bytes>)

  datatype Request = HeadRequest(url: string) | GetRequest(url: string)

  /** The web as the downloader sees it: each URL always gets the same answer. */
  class Web {
    const head: string -> HeadReply
    const get: string -> GetReply
    var log: seq<Request>

    constructor (head: string -> HeadReply, get: string -> GetReply)
      ensures this.head == head && this.get == get && log == []
    {
      this.head := head;
      this.get := get;
      log := [];
    }

    method SendHead(url: string) returns (reply: HeadReply)
      modifies this
      ensures reply == head(url) && log == old(log) + [HeadRequest(url)]
    {
      reply := head(url);
      log := log + [HeadRequest(url)];
    }

    method SendGet(url: string) returns (reply: GetReply)
      modifies this
      ensures reply == get(url) && log == old(log) + [GetRequest(url)]
    {
      reply := get(url);
      log := log + [GetRequest(url)];
    }
  }

  /** Concatenation regrouped, for logs that grow by several pieces at once. */
  lemma Regroup<T>(before: seq<T>, a: seq<T>, b: seq<T>)
    ensures before + a + b == before + (a + b)
  {
  }

  lemma RegroupFetch<T>(before: seq<T>, a: seq<T>, b: seq<T>, c: seq<T>, d: seq<T>)
    ensures before + a + b + c + d == before + (a + b + c + d)
  {
  }
}
