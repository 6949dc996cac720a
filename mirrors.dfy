/** The mirror table of download_beatmapset and the str.format call that turns a
    mirror's URL template and a beatmap set id into the URL that is probed. */
module Mirrors {
  import opened Builtins

  datatype Mirror = Mirror(name: string, template: string)

  /** The mirrors in declaration order: a dict literal, whose iteration order is the
      order its keys were written in. Each template is written split at its "{}" slot;
      the strings are the ones in the dict. */
  const MirrorTable: seq<Mirror> := [
    Mirror("beatconnect.io", "https://beatconnect.io/b/" + "{}"),
    Mirror("chimu.moe", "https://api.chimu.moe/v1/download/" + "{}" + "?n=1"),
    Mirror("nerinyan.moe", "https://nerinyan.moe/d/" + "{}")
  ]

  predicate NoBraces(s: string) {
    '{' !in s && '}' !in s
  }

  function Prepend(p: string, r: Result<string>): Result<string> {
    match r
    case Ok(s) => Ok(p + s)
    case Raised(e) => Raised(e)
  }

  /** template.format(arg) with one positional argument, read left to right: "{{" and "}}"
      stand for single braces, the first "{}" takes the argument, a second "{}" has no
      argument left (IndexError), and a lone brace is malformed (ValueError). `used` says
      whether the argument has already been taken. */
  function Format(template: string, arg: string, used: bool): Result<string>
    decreases |template|
  {
    if template == [] then Ok([])
    else if template[0] == '{' then
      if |template| > 1 && template[1] == '{' then Prepend("{", Format(template[2..], arg, used))
      else if |template| > 1 && template[1] == '}' then
        if used then Raised(IndexError) else Prepend(arg, Format(template[2..], arg, true))
      else Raised(ValueError)
    else if template[0] == '}' then
      if |template| > 1 && template[1] == '}' then Prepend("}", Format(template[2..], arg, used))
      else Raised(ValueError)
    else Prepend([template[0]], Format(template[1..], arg, used))
  }

  /** Text without braces is copied unchanged. */
  lemma {:induction false} FormatLiteral(s: string, arg: string, used: bool)
    requires NoBraces(s)
    ensures Format(s, arg, used) == Ok(s)
    decreases |s|
  {
    if s != [] {
      assert s[0] in s;
      assert forall c :: c in s[1..] ==> c in s;
      FormatLiteral(s[1..], arg, used);
      assert [s[0]] + s[1..] == s;
    }
  }

  /** A template that starts with its slot: the argument comes first. */
  lemma FormatLeadingSlot(suffix: string, arg: string)
    requires NoBraces(suffix)
    ensures Format("{}" + suffix, arg, false) == Ok(arg + suffix)
  {
    var t := "{}" + suffix;
    assert t[0] == '{' && t[1] == '}' && t[2..] == suffix;
    FormatLiteral(suffix, arg, true);
  }

  /** A template with exactly one "{}" slot and no other brace formats to its text with
      the argument put into the slot. */
  lemma {:induction false} FormatSingleSlot(prefix: string, suffix: string, arg: string)
    requires NoBraces(prefix) && NoBraces(suffix)
    ensures Format(prefix + "{}" + suffix, arg, false) == Ok(prefix + arg + suffix)
    decreases |prefix|
  {
    if prefix == [] {
      assert prefix + "{}" + suffix == "{}" + suffix;
      FormatLeadingSlot(suffix, arg);
      assert prefix + arg + suffix == arg + suffix;
    } else {
      var t := prefix + "{}" + suffix;
      var rest := prefix[1..];
      assert prefix[0] in prefix;
      assert forall c :: c in rest ==> c in prefix;
      assert t[0] == prefix[0] && t[1..] == rest + "{}" + suffix;
      FormatSingleSlot(rest, suffix, arg);
      assert [prefix[0]] + (rest + arg + suffix) == prefix + arg + suffix;
    }
  }

  /** The URL probed on mirror i for an item whose id formats as `id`: the template with
      its one "{}" slot replaced by the id (MirrorUrlIsFormat). */
  function MirrorUrl(i: nat, id: string): (url: string)
    requires i < |MirrorTable|
    ensures |url| == |MirrorTable[i].template| - 2 + |id|
  {
    var prefix := ["https://beatconnect.io/b/", "https://api.chimu.moe/v1/download/", "https://nerinyan.moe/d/"][i];
    var suffix := ["", "?n=1", ""][i];
    prefix + id + suffix
  }

  /** `template.format(id)` succeeds on every mirror's template and yields MirrorUrl. */
  lemma MirrorUrlIsFormat(i: nat, id: string)
    requires i < |MirrorTable|
    ensures Format(MirrorTable[i].template, id, false) == Ok(MirrorUrl(i, id))
  {
    if i == 0 {
      BeatconnectFormat(id);
    } else if i == 1 {
      ChimuFormat(id);
    } else {
      NerinyanFormat(id);
    }
  }

  lemma BeatconnectFormat(id: string)
    ensures Format(MirrorTable[0].template, id, false) == Ok(MirrorUrl(0, id))
  {
    assert MirrorTable[0].template == "https://beatconnect.io/b/" + "{}" + "";
    FormatSingleSlot("https://beatconnect.io/b/", "", id);
  }

  lemma ChimuFormat(id: string)
    ensures Format(MirrorTable[1].template, id, false) == Ok(MirrorUrl(1, id))
  {
    assert MirrorTable[1].template == "https://api.chimu.moe/v1/download/" + "{}" + "?n=1";
    FormatSingleSlot("https://api.chimu.moe/v1/download/", "?n=1", id);
  }

  lemma NerinyanFormat(id: string)
    ensures Format(MirrorTable[2].template, id, false) == Ok(MirrorUrl(2, id))
  {
    assert MirrorTable[2].template == "https://nerinyan.moe/d/" + "{}" + "";
    FormatSingleSlot("https://nerinyan.moe/d/", "", id);
  }

  /** The three URLs, spelled out. */
  lemma MirrorUrlsSpelledOut(id: string)
    ensures MirrorUrl(0, id) == "https://beatconnect.io/b/" + id
    ensures MirrorUrl(1, id) == "https://api.chimu.moe/v1/download/" + id + "?n=1"
    ensures MirrorUrl(2, id) == "https://nerinyan.moe/d/" + id
  {
  }
}
