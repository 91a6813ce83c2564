/** The Gemini batch script: for each prompt it asks a list of candidate models in order for an
    image, saves the first image obtained and reports one failure when every model fails. */
module GeminiImages {
  import opened Wrappers
  import opened Seqs
  import opened Files
  import opened Http
  import opened Prompts

  const DefaultModel: string := "gemini-3.0-image-generation"
  const FallbackModels: seq<string> :=
    ["gemini-2.0-flash-preview-image-generation", "gemini-2.0-flash-exp-image-generation"]
  const NoImageMessage: string := "No image bytes found in Gemini response"
  /** How many characters of an HTTP error body are kept in the error text. */
  const HttpBodyLimit: nat := 400

  // The parsed generateContent response, reduced to the fields the script reads. A field that
  // the JSON object lacks is None.
  datatype InlineData = InlineData(data: Option<string>)
  datatype Part = Part(inlineData: Option<InlineData>)
  datatype Content = Content(parts: Option<seq<Part>>)
  datatype Candidate = Candidate(content: Option<Content>)
  datatype Response = Response(candidates: Option<seq<Candidate>>)

  /** One generateContent request: the model named in the URL and the JSON body. */
  datatype Request = Request(model: string, payload: Json)

  /** Why one call to a model failed: an HTTP error (status and body) or any other exception. */
  datatype CallError = HttpFailure(code: nat, body: string) | OtherError(message: string)

  /** What the script depends on outside itself: the output directory, the network and the
      base64 decoder (which raises on malformed input). */
  datatype Env = Env(
    outDir: string,
    fetch: Request -> Reply<Response>,
    decode: string -> Result<Bytes, string>)

  /** The candidate list: the GEMINI_MODEL variable, when it is set (even to the empty string),
      replaces only the preferred model; the two fallbacks are fixed. */
  function ModelCandidates(geminiModel: Option<string>): (models: seq<string>)
    ensures |models| == 3
    ensures models[0] == (if geminiModel.Some? then geminiModel.value else DefaultModel)
    ensures models[1..] == FallbackModels
  {
    [if geminiModel.Some? then geminiModel.value else DefaultModel] + FallbackModels
  }

  /** The request body: one user turn holding the prompt, asking for text and image output. */
  function Payload(prompt: string): (body: Json)
    ensures Keys(body) == ["contents", "generationConfig"]
    ensures Get(body, "contents") == Some(JArray([JObject([("parts", JArray([JObject([("text", JString(prompt))])]))])]))
    ensures Get(body, "generationConfig") == Some(JObject([("responseModalities", JArray([JString("TEXT"), JString("IMAGE")]))]))
  {
    var members := [
      ("contents", JArray([JObject([("parts", JArray([JObject([("text", JString(prompt))])]))])])),
      ("generationConfig", JObject([("responseModalities", JArray([JString("TEXT"), JString("IMAGE")]))]))
    ];
    assert members[1..][1..] == [];
    assert KeysOf(members[1..]) == [members[1].0];
    assert Lookup(members[1..], "generationConfig") == Some(members[1].1);
    JObject(members)
  }

  // ---------------------------------------------------------------------------
  // Scanning a response for the first inline image

  /** `data.get("candidates", [])` */
  function CandidatesOf(resp: Response): seq<Candidate>
  {
    if resp.candidates.Some? then resp.candidates.value else []
  }

  /** `cand.get("content", {}).get("parts", [])` */
  function PartsOf(c: Candidate): seq<Part>
  {
    if c.content.Some? && c.content.value.parts.Some? then c.content.value.parts.value else []
  }

  /** `inline and inline.get("data")`: an inlineData object with a non-empty data string. */
  predicate HasImage(p: Part)
  {
    p.inlineData.Some? && Truthy(p.inlineData.value.data)
  }

  function ImageData(p: Part): string
    requires HasImage(p)
  {
    p.inlineData.value.data.value
  }

  /** Every part of every candidate, candidate by candidate, in response order. */
  function AllParts(resp: Response): seq<Part>
  {
    MapConcat(CandidatesOf(resp), PartsOf)
  }

  predicate NoImageIn(parts: seq<Part>)
  {
    forall j :: 0 <= j < |parts| ==> !HasImage(parts[j])
  }

  function Decoded(d: Result<Bytes, string>): Result<Bytes, CallError>
  {
    match d
    case Ok(bytes) => Ok(bytes)
    case Err(message) => Err(OtherError(message))
  }

  /** What scanning a response yields: the decoding of the first inline image data in the order
      of `AllParts`, or the "no image" error. */
  function ScanResult(resp: Response, decode: string -> Result<Bytes, string>): Result<Bytes, CallError>
  {
    var parts := AllParts(resp);
    match FirstIndex(parts, HasImage)
    case None => Err(OtherError(NoImageMessage))
    case Some(k) => Decoded(decode(ImageData(parts[k])))
  }

  /** Candidates without images contribute no image to the flattened parts. */
  lemma NoImageBefore(cs: seq<Candidate>, i: nat)
    requires i <= |cs|
    requires forall i' :: 0 <= i' < i ==> NoImageIn(PartsOf(cs[i']))
    ensures NoImageIn(MapConcat(cs[..i], PartsOf))
  {
    var prefix := cs[..i];
    forall k | 0 <= k < |MapConcat(prefix, PartsOf)|
      ensures !HasImage(MapConcat(prefix, PartsOf)[k])
    {
      var i', j' := MapConcatLocate(prefix, PartsOf, k);
      MapConcatIndex(prefix, PartsOf, i', j');
      assert prefix[i'] == cs[i'];
    }
  }

  /** If part `j` of candidate `i` holds an image, no earlier candidate holds one and no earlier
      part of candidate `i` does, the scan returns the decoding of exactly that part. */
  lemma ScanTakesFirstImage(resp: Response, decode: string -> Result<Bytes, string>, i: nat, j: nat)
    requires i < |CandidatesOf(resp)| && j < |PartsOf(CandidatesOf(resp)[i])|
    requires HasImage(PartsOf(CandidatesOf(resp)[i])[j])
    requires forall i' :: 0 <= i' < i ==> NoImageIn(PartsOf(CandidatesOf(resp)[i']))
    requires forall j' :: 0 <= j' < j ==> !HasImage(PartsOf(CandidatesOf(resp)[i])[j'])
    ensures ScanResult(resp, decode) == Decoded(decode(ImageData(PartsOf(CandidatesOf(resp)[i])[j])))
  {
    var cs := CandidatesOf(resp);
    var before := MapConcat(cs[..i], PartsOf);
    var parts := PartsOf(cs[i]);
    var all := AllParts(resp);
    NoImageBefore(cs, i);
    assert all == before + parts + MapConcat(cs[i + 1..], PartsOf) by {
      assert cs == cs[..i] + [cs[i]] + cs[i + 1..];
      MapConcatAppend(cs[..i] + [cs[i]], cs[i + 1..], PartsOf);
      MapConcatSnoc(cs[..i], cs[i], PartsOf);
    }
    forall k | 0 <= k < |before| + j
      ensures !HasImage(all[k])
    {
      if k < |before| {
        assert all[k] == before[k];
      } else {
        assert all[k] == parts[k - |before|];
      }
    }
    assert all[|before| + j] == parts[j];
    FirstIndexIsUnique(all, HasImage, |before| + j);
  }

  /** The scan finds nothing exactly when no part of any candidate holds an image. */
  lemma ScanFindsNothingIffNoImage(resp: Response)
    ensures FirstIndex(AllParts(resp), HasImage).None?
        <==> forall i :: 0 <= i < |CandidatesOf(resp)| ==> NoImageIn(PartsOf(CandidatesOf(resp)[i]))
  {
    var cs := CandidatesOf(resp);
    var all := AllParts(resp);
    if FirstIndex(all, HasImage).None? {
      forall i, j | 0 <= i < |cs| && 0 <= j < |PartsOf(cs[i])|
        ensures !HasImage(PartsOf(cs[i])[j])
      {
        MapConcatIndex(cs, PartsOf, i, j);
      }
    } else {
      var k := FirstIndex(all, HasImage).value;
      var i, j := MapConcatLocate(cs, PartsOf, k);
      MapConcatIndex(cs, PartsOf, i, j);
      assert HasImage(PartsOf(cs[i])[j]);
    }
  }

  /** The scan of `call_gemini`: candidate by candidate, part by part, the first part with inline
      image data is decoded and returned; with none, the "no image" error is raised. */
  method ScanResponse(resp: Response, decode: string -> Result<Bytes, string>) returns (r: Result<Bytes, CallError>)
    ensures r == ScanResult(resp, decode)
  {
    var candidates := CandidatesOf(resp);
    for i := 0 to |candidates|
      invariant forall i' :: 0 <= i' < i ==> NoImageIn(PartsOf(candidates[i']))
    {
      var parts := PartsOf(candidates[i]);
      for j := 0 to |parts|
        invariant forall j' :: 0 <= j' < j ==> !HasImage(parts[j'])
      {
        var part := parts[j];
        if part.inlineData.Some? && Truthy(part.inlineData.value.data) {
          ScanTakesFirstImage(resp, decode, i, j);
          r := Decoded(decode(part.inlineData.value.data.value));
          return;
        }
      }
    }
    ScanFindsNothingIffNoImage(resp);
    r := Err(OtherError(NoImageMessage));
  }

  // ---------------------------------------------------------------------------
  // One call to one model

  /** What `call_gemini(model, prompt)` returns or raises. */
  function CallResult(env: Env, model: string, prompt: string): Result<Bytes, CallError>
  {
    match env.fetch(Request(model, Payload(prompt)))
    case HttpError(code, _, body) => Err(HttpFailure(code, body))
    case Raised(message) => Err(OtherError(message))
    case Responded(resp) => ScanResult(resp, env.decode)
  }

  /** How `call_gemini` maps the reply: an HTTP error raises with its code and body, any other
      exception keeps its text, and a response is scanned for the first image. */
  lemma CallResultCases(env: Env, model: string, prompt: string)
    ensures var reply := env.fetch(Request(model, Payload(prompt)));
      reply.HttpError? ==> CallResult(env, model, prompt) == Err(HttpFailure(reply.status, reply.text))
    ensures var reply := env.fetch(Request(model, Payload(prompt)));
      reply.Raised? ==> CallResult(env, model, prompt) == Err(OtherError(reply.message))
    ensures var reply := env.fetch(Request(model, Payload(prompt)));
      reply.Responded? ==> CallResult(env, model, prompt) == ScanResult(reply.json, env.decode)
  {
  }

  /** The text kept as `last_err` for a failed call: for an HTTP error, "HTTP <code>: " followed
      by the first min(400, |body|) characters of the body; otherwise the exception's text. */
  function ErrorText(e: CallError): (text: string)
    ensures e.OtherError? ==> text == e.message
    ensures e.HttpFailure? ==>
      var head := "HTTP " + Decimal(e.code) + ": ";
      |text| == |head| + (if |e.body| < HttpBodyLimit then |e.body| else HttpBodyLimit)
      && text[..|head|] == head
      && text[|head|..] == e.body[..|text| - |head|]
  {
    match e
    case HttpFailure(code, body) => "HTTP " + Decimal(code) + ": " + Prefix(body, HttpBodyLimit)
    case OtherError(message) => message
  }

  // ---------------------------------------------------------------------------
  // Fallback over the candidate models

  /** Where the image of `item` is saved. */
  function OutPath(env: Env, item: PromptItem): Path
  {
    Path(env.outDir, item.file)
  }

  /** The error trying `model` for `item` ends with, or None when the call and the write both
      succeed. A failing write counts as a failure of that model. */
  function AttemptError(env: Env, faults: map<Path, string>, item: PromptItem, model: string): Option<string>
  {
    match CallResult(env, model, item.prompt)
    case Err(e) => Some(ErrorText(e))
    case Ok(_) => WriteFault(faults, OutPath(env, item))
  }

  predicate Succeeds(env: Env, faults: map<Path, string>, item: PromptItem, model: string)
  {
    AttemptError(env, faults, item, model).None?
  }

  /** The message raised when every model fails; a missing `last_err` prints as "None". */
  function FailureMessage(file: string, lastErr: Option<string>): string
  {
    "Failed for " + file + ": " + (if lastErr.Some? then lastErr.value else "None")
  }

  /** The observable effect of `generate_one` on one item: the model that saved the image or the
      raised message, the models asked, in order, and the files written. */
  datatype ItemRun = ItemRun(result: Result<string, string>, tried: seq<string>, writes: seq<FileWrite>)

  /** The reference definition of the fallback: the first model that succeeds, if any. */
  function Fallback(env: Env, faults: map<Path, string>, item: PromptItem, models: seq<string>): ItemRun
  {
    match FirstIndex(models, m => Succeeds(env, faults, item, m))
    case Some(k) =>
      ItemRun(Ok(models[k]), models[..k + 1],
              [FileWrite(OutPath(env, item), CallResult(env, models[k], item.prompt).value)])
    case None =>
      ItemRun(Err(FailureMessage(item.file,
                    if models == [] then None else AttemptError(env, faults, item, models[|models| - 1]))),
              models, [])
  }

  /** What the fallback promises. */
  lemma FallbackProperties(env: Env, faults: map<Path, string>, item: PromptItem, models: seq<string>)
    // models are asked in list order, each at most once, and every model asked before the last failed
    ensures var run := Fallback(env, faults, item, models);
      |run.tried| <= |models| && run.tried == models[..|run.tried|]
      && forall k :: 0 <= k < |run.tried| - 1 ==> !Succeeds(env, faults, item, models[k])
    // the image is saved exactly when some model succeeds
    ensures Fallback(env, faults, item, models).result.Ok?
        <==> exists k :: 0 <= k < |models| && Succeeds(env, faults, item, models[k])
    // on success no later model is asked, and exactly one file is written, with that call's bytes
    ensures var run := Fallback(env, faults, item, models);
      run.result.Ok? ==>
        |run.tried| > 0 && run.result.value == run.tried[|run.tried| - 1]
        && Succeeds(env, faults, item, run.result.value)
        && CallResult(env, run.result.value, item.prompt).Ok?
        && run.writes == [FileWrite(OutPath(env, item), CallResult(env, run.result.value, item.prompt).value)]
    // on failure every model was asked, nothing is written, and only the last model's error is reported
    ensures var run := Fallback(env, faults, item, models);
      run.result.Err? ==>
        run.tried == models && run.writes == []
        && run.result.error == FailureMessage(item.file,
             if models == [] then None else AttemptError(env, faults, item, models[|models| - 1]))
    // a first model that succeeds is the only one asked
    ensures |models| > 0 && Succeeds(env, faults, item, models[0]) ==>
      Fallback(env, faults, item, models).tried == models[..1]
  {
  }

  /** The fallback when model `i` is the first that succeeds. */
  lemma FallbackAt(env: Env, faults: map<Path, string>, item: PromptItem, models: seq<string>, i: nat)
    requires i < |models| && Succeeds(env, faults, item, models[i])
    requires forall k :: 0 <= k < i ==> !Succeeds(env, faults, item, models[k])
    ensures Fallback(env, faults, item, models)
         == ItemRun(Ok(models[i]), models[..i + 1],
                    [FileWrite(OutPath(env, item), CallResult(env, models[i], item.prompt).value)])
  {
    FirstIndexIsUnique(models, m => Succeeds(env, faults, item, m), i);
  }

  /** The fallback when no model succeeds. */
  lemma FallbackNone(env: Env, faults: map<Path, string>, item: PromptItem, models: seq<string>)
    requires forall k :: 0 <= k < |models| ==> !Succeeds(env, faults, item, models[k])
    ensures Fallback(env, faults, item, models)
         == ItemRun(Err(FailureMessage(item.file,
                          if models == [] then None else AttemptError(env, faults, item, models[|models| - 1]))),
                    models, [])
  {
  }

  /** The try block of `generate_one` for one model: the call and the write, yielding the error
      that becomes `last_err`, or None when the image was saved. */
  method TryModel(disk: Disk, env: Env, item: PromptItem, model: string) returns (err: Option<string>)
    modifies disk
    ensures err == AttemptError(env, disk.faults, item, model)
    ensures err.None? ==>
      CallResult(env, model, item.prompt).Ok?
      && disk.log == old(disk.log) + [FileWrite(OutPath(env, item), CallResult(env, model, item.prompt).value)]
    ensures err.Some? ==> disk.log == old(disk.log)
  {
    // call_gemini
    var reply := env.fetch(Request(model, Payload(item.prompt)));
    var call: Result<Bytes, CallError>;
    match reply {
      case HttpError(code, _, body) => call := Err(HttpFailure(code, body));
      case Raised(message) => call := Err(OtherError(message));
      case Responded(resp) => call := ScanResponse(resp, env.decode);
    }
    match call
    case Ok(img) =>
      err := disk.WriteBytes(OutPath(env, item), img);
    case Err(e) =>
      err := Some(ErrorText(e));
  }

  /** `generate_one`: tries each model in turn until one call and its write succeed; `tried`
      lists the models asked. */
  method GenerateOne(disk: Disk, env: Env, item: PromptItem, models: seq<string>)
    returns (result: Result<string, string>, tried: seq<string>)
    modifies disk
    ensures result == Fallback(env, disk.faults, item, models).result
    ensures tried == Fallback(env, disk.faults, item, models).tried
    ensures disk.log == old(disk.log) + Fallback(env, disk.faults, item, models).writes
  {
    ghost var faults := disk.faults;
    var lastErr: Option<string> := None;
    tried := [];
    for i := 0 to |models|
      invariant tried == models[..i]
      invariant disk.log == old(disk.log)
      invariant forall k :: 0 <= k < i ==> !Succeeds(env, faults, item, models[k])
      invariant i > 0 ==> lastErr == AttemptError(env, faults, item, models[i - 1])
      invariant i == 0 ==> lastErr == None
    {
      var model := models[i];
      tried := tried + [model];
      assert tried == models[..i + 1];
      var err := TryModel(disk, env, item, model);
      if err.None? {
        FallbackAt(env, faults, item, models, i);
        result := Ok(model);
        return;
      }
      lastErr := err;
    }
    FallbackNone(env, faults, item, models);
    assert tried == models;
    result := Err(FailureMessage(item.file, lastErr));
  }

  // ---------------------------------------------------------------------------
  // The batch

  /** Everything the batch writes: each item's writes, in item order. */
  function BatchWrites(env: Env, faults: map<Path, string>, items: seq<PromptItem>, models: seq<string>): seq<FileWrite>
  {
    MapConcat(items, (item: PromptItem) => Fallback(env, faults, item, models).writes)
  }

  function Results(env: Env, faults: map<Path, string>, items: seq<PromptItem>, models: seq<string>): seq<Result<string, string>>
  {
    MapSeq(items, (item: PromptItem) => Fallback(env, faults, item, models).result)
  }

  /** One more item: the batch up to item `i` inclusive extends the batch before it by item `i`'s
      outcome and writes. */
  lemma BatchStep(env: Env, faults: map<Path, string>, items: seq<PromptItem>, models: seq<string>, i: nat)
    requires i < |items|
    ensures BatchWrites(env, faults, items[..i + 1], models)
         == BatchWrites(env, faults, items[..i], models) + Fallback(env, faults, items[i], models).writes
    ensures Results(env, faults, items[..i + 1], models)
         == Results(env, faults, items[..i], models) + [Fallback(env, faults, items[i], models).result]
  {
    assert items[..i + 1] == items[..i] + [items[i]];
    MapSeqSnoc(items[..i], items[i], (item: PromptItem) => Fallback(env, faults, item, models).result);
    MapConcatSnoc(items[..i], items[i], (item: PromptItem) => Fallback(env, faults, item, models).writes);
  }

  /** Every file the batch writes is the output file of an item some model succeeded for, and
      holds the bytes of that model's call. */
  lemma BatchWritesOnlySuccesses(env: Env, faults: map<Path, string>, items: seq<PromptItem>, models: seq<string>, w: FileWrite)
    requires w in BatchWrites(env, faults, items, models)
    ensures exists i :: (0 <= i < |items| && Fallback(env, faults, items[i], models).result.Ok?
      && w == FileWrite(OutPath(env, items[i]),
                        CallResult(env, Fallback(env, faults, items[i], models).result.value, items[i].prompt).value))
  {
    MapConcatMember(items, (item: PromptItem) => Fallback(env, faults, item, models).writes, w);
  }

  /** `main`: runs `generate_one` for every prompt in order; a failing item is reported and does
      not stop the items after it. `report[i]` is item i's outcome. */
  method GenerateAll(disk: Disk, env: Env, items: seq<PromptItem>, models: seq<string>)
    returns (report: seq<Result<string, string>>)
    modifies disk
    ensures report == Results(env, disk.faults, items, models)
    ensures disk.log == old(disk.log) + BatchWrites(env, disk.faults, items, models)
  {
    ghost var faults := disk.faults;
    report := [];
    for i := 0 to |items|
      invariant report == Results(env, faults, items[..i], models)
      invariant disk.log == old(disk.log) + BatchWrites(env, faults, items[..i], models)
    {
      BatchStep(env, faults, items, models, i);
      var result, _ := GenerateOne(disk, env, items[i], models);
      report := report + [result];
    }
    assert items[..|items|] == items;
  }
}
