/** main(args): the command line is `<player> <download_dir> [<limit>]`; fewer than two
    arguments is an error, a third is parsed with int() and becomes the limit of the
    favourites listing, which otherwise defaults to 100. */
module Cli {
  import opened Builtins

  /** The call main makes: download_favourites(player, download_dir[, limit]). */
  datatype Invocation = Invocation(player: string, downloadDir: string, limit: Option<int>)

  const DefaultLimit: int := 100

  /** main's argument check and dispatch; arguments past the third are ignored. */
  function Dispatch(args: seq<string>): (r: Result<Invocation>)
    ensures r == Raised(ArgumentsException("Please check the arguments.")) <==> |args| < 2
    ensures |args| >= 2 ==> (r.Ok? ==> r.value.player == args[0] && r.value.downloadDir == args[1])
    ensures |args| == 2 ==> r.Ok? && r.value.limit.None?
    ensures |args| > 2 ==> (r.Ok? <==> ParseInt(args[2]).Some?)
    ensures |args| > 2 && r.Ok? ==> r.value.limit == ParseInt(args[2])
    ensures |args| > 2 && r.Raised? ==> r.exc == ValueError
  {
    if |args| < 2 then Raised(ArgumentsException("Please check the arguments."))
    else if |args| > 2 then
      match ParseInt(args[2])
      case None => Raised(ValueError)
      case Some(n) => Ok(Invocation(args[0], args[1], Some(n)))
    else Ok(Invocation(args[0], args[1], None))
  }

  /** The limit read_favourites puts in the listing URL: the one given, else its default. */
  function RequestedLimit(inv: Invocation): (limit: int)
    ensures inv.limit.Some? ==> limit == inv.limit.value
    ensures inv.limit.None? ==> limit == DefaultLimit
  {
    match inv.limit
    case Some(n) => n
    case None => DefaultLimit
  }

  /** A limit written as a decimal integer reaches the listing request unchanged, whatever
      follows it on the command line. */
  lemma DispatchPassesLimit(player: string, downloadDir: string, n: int, rest: seq<string>)
    ensures var r := Dispatch([player, downloadDir, IntToString(n)] + rest);
      r.Ok? && r.value.player == player && r.value.downloadDir == downloadDir
      && RequestedLimit(r.value) == n
  {
    ParseIntOfIntToString(n);
    assert ([player, downloadDir, IntToString(n)] + rest)[2] == IntToString(n);
  }

  /** With exactly two arguments the listing asks for 100 favourites. */
  lemma TwoArgumentsUseDefault(player: string, downloadDir: string)
    ensures Dispatch([player, downloadDir]).Ok?
    ensures RequestedLimit(Dispatch([player, downloadDir]).value) == 100
  {
  }
}
