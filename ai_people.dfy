/** The OpenAI image script in Python: `generate_image` turns one prompt into image bytes or
    raises, and `main` saves each image or reports the failure and goes on. */
module AiPeopleImages {
  import opened Wrappers
  import opened Seqs
  import opened Files
  import opened Http
  import opened Prompts

  const Model: string := "gpt-image-1"
  const NoB64Message: string := "No b64_json returned by API"
  /** `str()` of the KeyError raised by `data["data"]` when the key is missing. */
  const MissingDataMessage: string := "'data'"
  /** `str()` of the IndexError raised by `[0]` on an empty list. */
  const EmptyDataMessage: string := "list index out of range"

  // The parsed images response, reduced to the fields the script reads.
  datatype Entry = Entry(b64_json: Option<string>)
  datatype Response = Response(data: Option<seq<Entry>>)

  /** What `main` reports for one item: saved at a path, or failed with the exception text. */
  datatype Status = Saved(path: Path) | Failed(file: string, message: string)

  /** The output directory, the network and `base64.b64decode` (which raises on bad padding). */
  datatype Env = Env(
    outDir: string,
    fetch: Json -> Reply<Response>,
    decode: string -> Result<Bytes, string>)

  /** The request payload: model gpt-image-1, the prompt, size 1024x1024. */
  function Payload(prompt: string): (payload: Json)
    ensures Keys(payload) == ["model", "prompt", "size"]
    ensures Get(payload, "model") == Some(JString(Model))
    ensures Get(payload, "prompt") == Some(JString(prompt))
    ensures Get(payload, "size") == Some(JString("1024x1024"))
  {
    var members := [("model", JString(Model)), ("prompt", JString(prompt)), ("size", JString("1024x1024"))];
    var rest, last := members[1..], members[1..][1..];
    assert last[1..] == [];
    assert KeysOf(last) == ["size"];
    assert KeysOf(rest) == ["prompt"] + KeysOf(last);
    assert Lookup(rest, "prompt") == Some(JString(prompt));
    assert Lookup(last, "size") == Some(JString("1024x1024"));
    assert Lookup(rest, "size") == Lookup(last, "size");
    JObject(members)
  }

  /** `str()` of urllib's HTTPError. */
  function HttpErrorString(status: nat, reason: string): string
  {
    "HTTP Error " + Decimal(status) + ": " + reason
  }

  /** The reference definition of `generate_image`: its value, or the text of what it raises. */
  function GenerateImage(env: Env, prompt: string): Result<Bytes, string>
  {
    match env.fetch(Payload(prompt))
    case HttpError(status, reason, _) => Err(HttpErrorString(status, reason))
    case Raised(message) => Err(message)
    case Responded(resp) =>
      if resp.data.None? then Err(MissingDataMessage)
      else if resp.data.value == [] then Err(EmptyDataMessage)
      else
        var b64 := resp.data.value[0].b64_json;
        if !Truthy(b64) then Err(NoB64Message)
        else env.decode(b64.value)
  }

  /** `generate_image` returns exactly when the response's first entry has a non-empty b64_json
      that decodes, and then returns its decoding; a missing or empty b64_json raises "No
      b64_json returned by API". */
  lemma GenerateImageProperties(env: Env, prompt: string)
    ensures GenerateImage(env, prompt).Ok? <==>
      var reply := env.fetch(Payload(prompt));
      reply.Responded? && reply.json.data.Some? && |reply.json.data.value| > 0
      && Truthy(reply.json.data.value[0].b64_json)
      && env.decode(reply.json.data.value[0].b64_json.value).Ok?
    ensures GenerateImage(env, prompt).Ok? ==>
      var reply := env.fetch(Payload(prompt));
      reply.Responded? && reply.json.data.Some? && |reply.json.data.value| > 0
      && reply.json.data.value[0].b64_json.Some?
      && GenerateImage(env, prompt).value == env.decode(reply.json.data.value[0].b64_json.value).value
    ensures var reply := env.fetch(Payload(prompt));
      (reply.Responded? && reply.json.data.Some? && |reply.json.data.value| > 0
       && !Truthy(reply.json.data.value[0].b64_json))
      ==> GenerateImage(env, prompt) == Err(NoB64Message)
  {
  }

  /** The exceptions `generate_image` raises before it reaches `b64_json`: urllib's HTTPError
      text, any other exception's text, the KeyError for a missing `data` and the IndexError for
      an empty one. */
  lemma GenerateImageErrors(env: Env, prompt: string)
    ensures var reply := env.fetch(Payload(prompt));
      reply.HttpError? ==>
        GenerateImage(env, prompt) == Err("HTTP Error " + Decimal(reply.status) + ": " + reply.reason)
    ensures var reply := env.fetch(Payload(prompt));
      reply.Raised? ==> GenerateImage(env, prompt) == Err(reply.message)
    ensures var reply := env.fetch(Payload(prompt));
      reply.Responded? && reply.json.data.None? ==> GenerateImage(env, prompt) == Err("'data'")
    ensures var reply := env.fetch(Payload(prompt));
      reply.Responded? && reply.json.data == Some([]) ==>
        GenerateImage(env, prompt) == Err("list index out of range")
  {
  }

  function OutPath(env: Env, item: PromptItem): Path
  {
    Path(env.outDir, item.file)
  }

  datatype ItemRun = ItemRun(status: Status, writes: seq<FileWrite>)

  /** The reference definition of one iteration of `main`. */
  function Attempt(env: Env, faults: map<Path, string>, item: PromptItem): ItemRun
  {
    match GenerateImage(env, item.prompt)
    case Err(message) => ItemRun(Failed(item.file, message), [])
    case Ok(bytes) =>
      match WriteFault(faults, OutPath(env, item))
      case Some(message) => ItemRun(Failed(item.file, message), [])
      case None => ItemRun(Saved(OutPath(env, item)), [FileWrite(OutPath(env, item), bytes)])
  }

  /** A file is written only when `generate_image` returns, to `OUT_DIR/filename`, with exactly
      the returned bytes; every other outcome is a reported failure that writes nothing. */
  lemma AttemptProperties(env: Env, faults: map<Path, string>, item: PromptItem)
    ensures Attempt(env, faults, item).writes != [] <==> Attempt(env, faults, item).status.Saved?
    ensures Attempt(env, faults, item).status.Saved? ==>
      GenerateImage(env, item.prompt).Ok?
      && Attempt(env, faults, item).writes == [FileWrite(OutPath(env, item), GenerateImage(env, item.prompt).value)]
    ensures GenerateImage(env, item.prompt).Err? ==>
      Attempt(env, faults, item) == ItemRun(Failed(item.file, GenerateImage(env, item.prompt).error), [])
  {
  }

  function BatchWrites(env: Env, faults: map<Path, string>, items: seq<PromptItem>): seq<FileWrite>
  {
    MapConcat(items, (item: PromptItem) => Attempt(env, faults, item).writes)
  }

  function Statuses(env: Env, faults: map<Path, string>, items: seq<PromptItem>): seq<Status>
  {
    MapSeq(items, (item: PromptItem) => Attempt(env, faults, item).status)
  }

  /** One more item: the batch up to item `i` inclusive extends the batch before it by item `i`'s
      status and writes. */
  lemma BatchStep(env: Env, faults: map<Path, string>, items: seq<PromptItem>, i: nat)
    requires i < |items|
    ensures BatchWrites(env, faults, items[..i + 1]) == BatchWrites(env, faults, items[..i]) + Attempt(env, faults, items[i]).writes
    ensures Statuses(env, faults, items[..i + 1]) == Statuses(env, faults, items[..i]) + [Attempt(env, faults, items[i]).status]
  {
    assert items[..i + 1] == items[..i] + [items[i]];
    MapSeqSnoc(items[..i], items[i], (item: PromptItem) => Attempt(env, faults, item).status);
    MapConcatSnoc(items[..i], items[i], (item: PromptItem) => Attempt(env, faults, item).writes);
  }

  /** Every file `main` writes is the output of an item for which `generate_image` returned, and
      holds the returned bytes. */
  lemma BatchWritesOnlyGenerated(env: Env, faults: map<Path, string>, items: seq<PromptItem>, w: FileWrite)
    requires w in BatchWrites(env, faults, items)
    ensures exists i :: (0 <= i < |items| && GenerateImage(env, items[i].prompt).Ok?
      && w == FileWrite(OutPath(env, items[i]), GenerateImage(env, items[i].prompt).value))
  {
    MapConcatMember(items, (item: PromptItem) => Attempt(env, faults, item).writes, w);
    var i :| 0 <= i < |items| && w in Attempt(env, faults, items[i]).writes;
    AttemptProperties(env, faults, items[i]);
  }

  /** The try block of `main` for one item. */
  method GenerateItem(disk: Disk, env: Env, item: PromptItem) returns (status: Status)
    modifies disk
    ensures status == Attempt(env, disk.faults, item).status
    ensures disk.log == old(disk.log) + Attempt(env, disk.faults, item).writes
  {
    var image := GenerateImage(env, item.prompt);
    if image.Err? {
      return Failed(item.file, image.error);
    }
    var writeErr := disk.WriteBytes(OutPath(env, item), image.value);
    if writeErr.Some? {
      return Failed(item.file, writeErr.value);
    }
    return Saved(OutPath(env, item));
  }

  /** `main`: every item in order, each failure caught and reported. */
  method GenerateAll(disk: Disk, env: Env, items: seq<PromptItem>) returns (report: seq<Status>)
    modifies disk
    ensures report == Statuses(env, disk.faults, items)
    ensures disk.log == old(disk.log) + BatchWrites(env, disk.faults, items)
  {
    ghost var faults := disk.faults;
    report := [];
    for i := 0 to |items|
      invariant report == Statuses(env, faults, items[..i])
      invariant disk.log == old(disk.log) + BatchWrites(env, faults, items[..i])
    {
      BatchStep(env, faults, items, i);
      var status := GenerateItem(disk, env, items[i]);
      report := report + [status];
    }
    assert items[..|items|] == items;
  }
}
