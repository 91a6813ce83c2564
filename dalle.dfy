/** The OpenAI image script in JavaScript: one request per prompt, the image taken from the first
    entry of the response's data array, and any failure skipping just that prompt. */
module DalleImages {
  import opened Wrappers
  import opened Seqs
  import opened Files
  import opened Http
  import opened Prompts

  // The parsed images response, reduced to the fields the script reads.
  datatype Entry = Entry(b64_json: Option<string>, b64: Option<string>)
  datatype Response = Response(data: Option<seq<Entry>>)

  /** What the script reports for one prompt. */
  datatype Status =
    | Saved(path: Path)                       // the image was written
    | ApiError(status: nat, text: string)     // a non-2xx response, logged with its status and body
    | NoImageData                             // the response held no base64 payload
    | Failed(message: string)                 // an exception, caught for this prompt only

  /** The output directory, the network and the base64 decoder (`Buffer.from(s, 'base64')`,
      which never throws). */
  datatype Env = Env(outDir: string, fetch: Json -> Reply<Response>, decode: string -> Bytes)

  /** The request body: the prompt, one image, 1024x1024, and no model field. */
  function RequestBody(prompt: string): (body: Json)
    ensures Keys(body) == ["prompt", "n", "size"]
    ensures Get(body, "prompt") == Some(JString(prompt))
    ensures Get(body, "n") == Some(JNumber(1))
    ensures Get(body, "size") == Some(JString("1024x1024"))
    ensures Get(body, "model") == None
  {
    var members := [("prompt", JString(prompt)), ("n", JNumber(1)), ("size", JString("1024x1024"))];
    var rest, last := members[1..], members[1..][1..];
    assert last[1..] == [];
    assert KeysOf(last) == ["size"];
    assert KeysOf(rest) == ["n"] + KeysOf(last);
    assert Lookup(rest, "n") == Some(JNumber(1));
    assert Lookup(last, "size") == Some(JString("1024x1024"));
    assert Lookup(last, "model") == None;
    assert Lookup(rest, "size") == Lookup(last, "size");
    assert Lookup(rest, "model") == Lookup(last, "model");
    JObject(members)
  }

  /** `data.data && data.data[0] && (data.data[0].b64_json || data.data[0].b64)`, with a falsy
      result as None. */
  function SelectPayload(resp: Response): (b64: Option<string>)
    // only a non-empty string is ever selected
    ensures b64.Some? ==> b64.value != ""
    // a missing or empty data array selects nothing
    ensures resp.data.None? || resp.data == Some([]) ==> b64 == None
    // b64_json wins whenever it is non-empty, whatever b64 holds
    ensures resp.data.Some? && |resp.data.value| > 0 && Truthy(resp.data.value[0].b64_json) ==>
      b64 == resp.data.value[0].b64_json
    // otherwise b64 is used, if non-empty
    ensures resp.data.Some? && |resp.data.value| > 0 && !Truthy(resp.data.value[0].b64_json) ==>
      b64 == (if Truthy(resp.data.value[0].b64) then resp.data.value[0].b64 else None)
  {
    if resp.data.None? || |resp.data.value| == 0 then None
    else
      var first := resp.data.value[0];
      if Truthy(first.b64_json) then first.b64_json
      else if Truthy(first.b64) then first.b64
      else None
  }

  function OutPath(env: Env, p: PromptItem): Path
  {
    Path(env.outDir, p.file)
  }

  /** The status of one prompt and the files written for it. */
  datatype ItemRun = ItemRun(status: Status, writes: seq<FileWrite>)

  /** The reference definition of one iteration of the loop. */
  function Attempt(env: Env, faults: map<Path, string>, p: PromptItem): ItemRun
  {
    match env.fetch(RequestBody(p.prompt))
    case HttpError(status, _, text) => ItemRun(ApiError(status, text), [])
    case Raised(message) => ItemRun(Failed(message), [])
    case Responded(resp) =>
      match SelectPayload(resp)
      case None => ItemRun(NoImageData, [])
      case Some(b64) =>
        match WriteFault(faults, OutPath(env, p))
        case Some(message) => ItemRun(Failed(message), [])
        case None => ItemRun(Saved(OutPath(env, p)), [FileWrite(OutPath(env, p), env.decode(b64))])
  }

  /** What one iteration promises: at most one write, to `outDir/p.file`, exactly when the prompt
      is reported saved, holding the decoding of the selected payload; a non-ok response is
      reported with its status and writes nothing. */
  lemma AttemptProperties(env: Env, faults: map<Path, string>, p: PromptItem)
    ensures |Attempt(env, faults, p).writes| <= 1
    ensures Attempt(env, faults, p).writes != [] <==> Attempt(env, faults, p).status.Saved?
    ensures Attempt(env, faults, p).status.Saved? ==>
      var reply := env.fetch(RequestBody(p.prompt));
      reply.Responded? && SelectPayload(reply.json).Some?
      && Attempt(env, faults, p).writes == [FileWrite(OutPath(env, p), env.decode(SelectPayload(reply.json).value))]
    ensures env.fetch(RequestBody(p.prompt)).HttpError? ==>
      Attempt(env, faults, p) == ItemRun(ApiError(env.fetch(RequestBody(p.prompt)).status,
                                                  env.fetch(RequestBody(p.prompt)).text), [])
  {
  }

  function BatchWrites(env: Env, faults: map<Path, string>, prompts: seq<PromptItem>): seq<FileWrite>
  {
    MapConcat(prompts, (p: PromptItem) => Attempt(env, faults, p).writes)
  }

  function Statuses(env: Env, faults: map<Path, string>, prompts: seq<PromptItem>): seq<Status>
  {
    MapSeq(prompts, (p: PromptItem) => Attempt(env, faults, p).status)
  }

  /** One more item: the batch up to item `i` inclusive extends the batch before it by item `i`'s
      status and writes. */
  lemma BatchStep(env: Env, faults: map<Path, string>, prompts: seq<PromptItem>, i: nat)
    requires i < |prompts|
    ensures BatchWrites(env, faults, prompts[..i + 1]) == BatchWrites(env, faults, prompts[..i]) + Attempt(env, faults, prompts[i]).writes
    ensures Statuses(env, faults, prompts[..i + 1]) == Statuses(env, faults, prompts[..i]) + [Attempt(env, faults, prompts[i]).status]
  {
    assert prompts[..i + 1] == prompts[..i] + [prompts[i]];
    MapSeqSnoc(prompts[..i], prompts[i], (p: PromptItem) => Attempt(env, faults, p).status);
    MapConcatSnoc(prompts[..i], prompts[i], (p: PromptItem) => Attempt(env, faults, p).writes);
  }

  /** `w` is the image of `p`: its output path, holding the decoding of the payload selected
      from the reply to its request. */
  predicate DecodedWrite(env: Env, p: PromptItem, w: FileWrite)
  {
    var reply := env.fetch(RequestBody(p.prompt));
    reply.Responded? && SelectPayload(reply.json).Some?
    && w == FileWrite(OutPath(env, p), env.decode(SelectPayload(reply.json).value))
  }

  /** Every file the batch writes belongs to a prompt reported saved, and holds that prompt's
      decoded payload. */
  lemma BatchWritesOnlySaved(env: Env, faults: map<Path, string>, prompts: seq<PromptItem>, w: FileWrite)
    requires w in BatchWrites(env, faults, prompts)
    ensures exists i :: (0 <= i < |prompts| && Attempt(env, faults, prompts[i]).status.Saved?
      && DecodedWrite(env, prompts[i], w))
  {
    MapConcatMember(prompts, (p: PromptItem) => Attempt(env, faults, p).writes, w);
    var i :| 0 <= i < |prompts| && w in Attempt(env, faults, prompts[i]).writes;
    AttemptProperties(env, faults, prompts[i]);
  }

  /** The body of the loop for one prompt, from the request to the write. */
  method GenerateItem(disk: Disk, env: Env, p: PromptItem) returns (status: Status)
    modifies disk
    ensures status == Attempt(env, disk.faults, p).status
    ensures disk.log == old(disk.log) + Attempt(env, disk.faults, p).writes
  {
    var res := env.fetch(RequestBody(p.prompt));
    if res.HttpError? {
      return ApiError(res.status, res.text);
    }
    if res.Raised? {
      return Failed(res.message);
    }
    var b64 := SelectPayload(res.json);
    if b64.None? {
      return NoImageData;
    }
    var buf := env.decode(b64.value);
    var writeErr := disk.WriteBytes(OutPath(env, p), buf);
    if writeErr.Some? {
      return Failed(writeErr.value);
    }
    return Saved(OutPath(env, p));
  }

  /** `generate`: every prompt in order; a bad status, a missing payload or an exception skips
      that prompt only. */
  method Generate(disk: Disk, env: Env, prompts: seq<PromptItem>) returns (report: seq<Status>)
    modifies disk
    ensures report == Statuses(env, disk.faults, prompts)
    ensures disk.log == old(disk.log) + BatchWrites(env, disk.faults, prompts)
  {
    ghost var faults := disk.faults;
    report := [];
    for i := 0 to |prompts|
      invariant report == Statuses(env, faults, prompts[..i])
      invariant disk.log == old(disk.log) + BatchWrites(env, faults, prompts[..i])
    {
      BatchStep(env, faults, prompts, i);
      var status := GenerateItem(disk, env, prompts[i]);
      report := report + [status];
    }
    assert prompts[..|prompts|] == prompts;
  }
}
