/** BeatmapSet and read_beatmap_list: one beatmap set object per JSON record of the
    favourites listing, built from five required keys. */
module Beatmaps {
  import opened Builtins

  /** A JSON object as BeatmapSet(**record) receives it: keyword name to value. */
  type Record = map<string, Value>

  /** The five attributes the constructor sets; `id` is always the str() of the record's id. */
  datatype BeatmapSet = BeatmapSet(title: Value, id: string, artist: Value, status: Value, favouriteCount: Value)

  /** The keyword arguments the constructor looks up, in the order it looks them up. */
  const RequiredKeys: seq<string> := ["title", "id", "artist", "status", "favourite_count"]

  /** BeatmapSet(**record): a key "self" clashes with the bound instance and raises
      TypeError before the body runs; otherwise the first required key that is missing
      raises KeyError, and any other keys are accepted and ignored. */
  function FromRecord(rec: Record): (r: Result<BeatmapSet>)
    ensures r.Ok? <==> "self" !in rec && forall k :: k in RequiredKeys ==> k in rec
    ensures r.Ok? ==> r.value == BeatmapSet(rec["title"], PyStr(rec["id"]), rec["artist"],
                                            rec["status"], rec["favourite_count"])
    ensures "self" in rec ==> r == Raised(TypeError)
    ensures r.Raised? && "self" !in rec ==>
      exists j :: 0 <= j < |RequiredKeys| && r.exc == KeyError(RequiredKeys[j])
                  && RequiredKeys[j] !in rec
                  && forall j' :: 0 <= j' < j ==> RequiredKeys[j'] in rec
  {
    if "self" in rec then
      Raised(TypeError)
    else if "title" !in rec then
      assert RequiredKeys[0] == "title";
      Raised(KeyError("title"))
    else if "id" !in rec then
      assert RequiredKeys[1] == "id";
      Raised(KeyError("id"))
    else if "artist" !in rec then
      assert RequiredKeys[2] == "artist";
      Raised(KeyError("artist"))
    else if "status" !in rec then
      assert RequiredKeys[3] == "status";
      Raised(KeyError("status"))
    else if "favourite_count" !in rec then
      assert RequiredKeys[4] == "favourite_count";
      Raised(KeyError("favourite_count"))
    else
      Ok(BeatmapSet(rec["title"], PyStr(rec["id"]), rec["artist"], rec["status"], rec["favourite_count"]))
  }

  /** Some record fails with `e` and every record before it is well formed. */
  predicate FirstFailure(records: seq<Record>, e: Exception) {
    exists i :: 0 <= i < |records| && FromRecord(records[i]) == Raised(e)
                && forall i' :: 0 <= i' < i ==> FromRecord(records[i']).Ok?
  }

  /** read_beatmap_list(json=...): no listing gives the empty list; otherwise one
      BeatmapSet per record, in order, and the first record the constructor rejects
      raises its exception. */
  method ReadBeatmapList(json: Option<seq<Record>>) returns (r: Result<seq<BeatmapSet>>)
    ensures json.None? ==> r == Ok([])
    ensures json.Some? ==> (r.Ok? <==> forall i :: 0 <= i < |json.value| ==> FromRecord(json.value[i]).Ok?)
    ensures json.Some? && r.Ok? ==>
      && |r.value| == |json.value|
      && forall i :: 0 <= i < |r.value| ==> FromRecord(json.value[i]) == Ok(r.value[i])
    ensures r.Raised? ==> json.Some? && FirstFailure(json.value, r.exc)
  {
    var beatmapList: seq<BeatmapSet> := [];
    if json.Some? {
      var records := json.value;
      var k := 0;
      while k < |records|
        invariant 0 <= k <= |records|
        invariant |beatmapList| == k
        invariant forall i :: 0 <= i < k ==> FromRecord(records[i]) == Ok(beatmapList[i])
      {
        var b := FromRecord(records[k]);
        if b.Raised? {
          return Raised(b.exc);
        }
        beatmapList := beatmapList + [b.value];
        k := k + 1;
      }
    }
    return Ok(beatmapList);
  }

  /** Every record of a well-formed listing yields the object the constructor builds, and
      the listing's ids come out as the str() of the records' ids. */
  lemma ListingIds(records: seq<Record>, list: seq<BeatmapSet>)
    requires |list| == |records|
    requires forall i :: 0 <= i < |records| ==> FromRecord(records[i]) == Ok(list[i])
    ensures forall i :: 0 <= i < |list| ==> "id" in records[i] && list[i].id == PyStr(records[i]["id"])
  {
    forall i | 0 <= i < |list|
      ensures "id" in records[i] && list[i].id == PyStr(records[i]["id"])
    {
      assert RequiredKeys[1] == "id";
      assert FromRecord(records[i]).Ok?;
    }
  }

  /** An integer id round-trips through the str() the constructor applies. */
  lemma IntegerIdRoundTrip(rec: Record, n: int)
    requires FromRecord(rec).Ok? && rec["id"] == Int(n)
    ensures ParseInt(FromRecord(rec).value.id) == Some(n)
  {
    ParseIntOfIntToString(n);
  }
}
