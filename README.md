# Image generation and conversion scripts, modelled in Dafny

The repository's `script/` directory holds four small batch scripts that produce the site's
illustrations:

- `generate_gemini_images.py` sends each prompt to a Gemini generateContent endpoint.
  - It tries a list of candidate models in order and saves the first image it gets.
  - When every model fails for a prompt, it raises one failure naming only the last error.
  - `main` prints that failure and goes on to the next prompt.
- `generate_dalle_images.js` posts each prompt to an OpenAI images endpoint.
  - It takes `data[0].b64_json`, or else `data[0].b64`.
  - It writes the decoded image.
  - A bad status, a missing payload or an exception skips that prompt only.
- `generate_ai_people_images.py` does the same in Python with model `gpt-image-1`.
  - `generate_image` returns the decoded `data[0].b64_json`, or raises.
  - `main` reports each failure and continues.
- `convert_svgs.js` lists the images directory and keeps the `.svg` entries.
  - An empty list aborts with exit code 1.
  - Each SVG is rendered with `sharp` to a PNG with the same base name, in the same directory.

The model has eight modules:

- `Wrappers`: Option and Result.
- `Seqs`: the first index satisfying a predicate, and map and flat-map over sequences, with their lemmas.
- `Files`: bytes, paths, and the `Disk` class.
  - `Disk` is the filesystem as a log of completed writes.
  - It has a fixed map from paths to the error a write there raises.
- `Http`: the reply of one request and JSON request bodies.
  - A reply is a parsed body, an HTTP error, or a raised exception.
  - It also has the decimal rendering of a status code and string prefixes.
- `GeminiImages`, `DalleImages`, `AiPeopleImages` and `ConvertSvgs`: one module per script.

Inside each script module:

- Each operation has a reference function:
  - the response scan, the per-model attempt, the fallback over models and the per-item attempt;
  - the batch, as a map or flat-map over the items;
  - the conversion of a file list.
- The script's loops are imperative methods over the `Disk`.
  - Each method is proved to return what its reference function returns.
  - Each is also proved to leave in the disk log exactly the writes that function lists.
- Lemmas state what the scripts promise about the reference functions.

The scripts depend on these outside operations, which the model takes as parameters of each module's `Env`:

- the network: a function from request to reply;
- base64 decoding:
  - Python's `b64decode` can raise, so there it returns a Result;
  - `Buffer.from(s, 'base64')` never throws, so there it returns bytes;
- reading a file;
- the `sharp` renderer.

Console output is modelled by what the methods return instead of printing:

- the per-item status list;
- for one Gemini item, the list of models asked, which matches the "Trying …" lines.
  `GenerateOne` returns it; the batch method `GenerateAll` keeps only each item's result.

Behaviour of the scripts the model keeps:

- The Gemini fallback does not keep a log of every attempt.
  - Only the last error (`last_err`) survives.
  - Each failed attempt overwrites the one before.
  - The final message is `"Failed for <file>: " + last_err`.
- The image is written inside the per-model `try`.
  - So a failing write counts as a failure of that model, and the next model is asked.
- The JavaScript OpenAI request body has `prompt`, `n: 1` and `size`, and no `model` field.
- In `convert_svgs.js`, `readFileSync` runs before the `try`.
  - An unreadable SVG therefore ends the loop: the rejected promise is not caught.
  - Only rendering and writing errors are caught per file.
  - `ConvertFrom` stops after an `Unreadable` status for this reason.

## Model

| member | source | states |
|---|---|---|
| Files.Disk.WriteBytes | script/generate_gemini_images.py:97 | a write either raises the path's fault and changes nothing, or appends exactly one (path, bytes) entry to the log |
| Http.Prefix | script/generate_gemini_images.py:101 | `s[:n]` has length min(\|s\|, n) and is a prefix of `s` |
| Http.Decimal | script/generate_gemini_images.py:101 | the status code renders as a non-empty string of digits without a leading zero |
| Http.DecimalRoundTrip | script/generate_gemini_images.py:101 | the rendered status code reads back as the same number, so different codes give different texts |
| GeminiImages.ModelCandidates | script/generate_gemini_images.py:48-52 | three candidates; GEMINI_MODEL, when set (even to ""), replaces only the first one, the default otherwise; the two fallbacks follow in a fixed order |
| GeminiImages.Payload | script/generate_gemini_images.py:57-68 | the body has exactly the keys `contents` and `generationConfig`; the prompt is the single text part of the single turn, and the response modalities are TEXT and IMAGE |
| GeminiImages.ScanResult | script/generate_gemini_images.py:80-88 | reference definition of the scan: the decoding of the first part with non-empty inline data, over all candidates' parts in order (a missing candidates, content or parts field is empty); a decoding failure is an exception; with no such part, "No image bytes found in Gemini response" |
| GeminiImages.ScanTakesFirstImage | script/generate_gemini_images.py:80-86 | if part j of candidate i is the first part with non-empty inline data, searching candidate by candidate and then part by part, the scan returns the decoding of exactly that data |
| GeminiImages.ScanFindsNothingIffNoImage | script/generate_gemini_images.py:80-88 | the scan finds nothing exactly when no part of any candidate has non-empty inline data; a missing candidates, content or parts field counts as empty |
| GeminiImages.ScanResponse | script/generate_gemini_images.py:80-88 | the nested loops with early return give the first image's decoding; if there is none, the error "No image bytes found in Gemini response" |
| GeminiImages.CallResult | script/generate_gemini_images.py:77-88 | reference definition of `call_gemini`: the reply to the request for this model and prompt, as an HTTP failure (code and body), another exception's text, or the scan of the response |
| GeminiImages.CallResultCases | script/generate_gemini_images.py:77-88 | for every reply: an HTTP error becomes an HTTP failure with its code and body, another exception keeps its text, and a response gives the result of the scan |
| GeminiImages.ErrorText | script/generate_gemini_images.py:100-103 | an HTTP failure's text is "HTTP <code>: " followed by exactly the first min(400, length of the body) characters of the body; any other error keeps its own text |
| GeminiImages.AttemptError | script/generate_gemini_images.py:94-103 | reference definition of one model's try block: the `last_err` it leaves (the error text of the failed call, or the write's error), or none when the call and the write both succeed |
| GeminiImages.Fallback | script/generate_gemini_images.py:91-105 | reference definition of `generate_one`: the first model whose call and write both succeed saves the image, and the models up to it are the ones asked; otherwise every model is asked, nothing is written and "Failed for <file>: " with the last model's error is raised |
| GeminiImages.FallbackProperties | script/generate_gemini_images.py:91-105 | models are asked in list order, each at most once, and every model before the last asked failed; the item succeeds iff some model's call and write succeed; on success exactly one file, `OUT_DIR/file`, is written with that call's bytes, and no later model is asked; on failure every model was asked, nothing was written, and the message is "Failed for <file>: " plus the last model's error only ("None" for an empty list) |
| GeminiImages.FallbackAt | script/generate_gemini_images.py:93-99 | when model i is the first that succeeds, the run stops at model i, reports it and writes its image |
| GeminiImages.FallbackNone | script/generate_gemini_images.py:92-105 | when no model succeeds, every model is asked, nothing is written, and the last model's error is raised |
| GeminiImages.TryModel | script/generate_gemini_images.py:94-103 | one model's try block, with `call_gemini`'s request, reply mapping and scan inlined: the error it ends with (HTTP text, other exception text, or the write error); its single write happens only when the call succeeded |
| GeminiImages.GenerateOne | script/generate_gemini_images.py:91-105 | the loop with `last_err` and early return gives the reference fallback's result, its list of models asked and its writes |
| GeminiImages.BatchWritesOnlySuccesses | script/generate_gemini_images.py:108-113 | every file the batch writes is the output file of an item that some model succeeded for, and holds that model's image bytes |
| GeminiImages.GenerateAll | script/generate_gemini_images.py:108-113 | every prompt is run in order and item i's outcome is report[i]; a failed item does not stop the ones after it; the log gains exactly the items' writes, in item order |
| DalleImages.RequestBody | script/generate_dalle_images.js:58 | the body has exactly the keys prompt, n and size, holding the prompt, 1 and "1024x1024"; there is no model key |
| DalleImages.SelectPayload | script/generate_dalle_images.js:67 | a non-empty `b64_json` of `data[0]` wins; otherwise a non-empty `b64` is used; a missing or empty `data` selects nothing; an empty string is never selected |
| DalleImages.Attempt | script/generate_dalle_images.js:53-74 | reference definition of one iteration: a non-ok reply gives its status and body, an exception its text, no selected payload "no image data", a failed write its error; otherwise the decoded payload is written to `outDir/p.file` and the prompt is saved |
| DalleImages.AttemptProperties | script/generate_dalle_images.js:54-74 | at most one write per prompt, made exactly when the prompt is reported saved, to `outDir/p.file`, with the decoding of the selected payload; a non-ok response is reported with its status and body and writes nothing |
| DalleImages.BatchWritesOnlySaved | script/generate_dalle_images.js:51-76 | every file the loop writes is the output path of a prompt reported saved, and holds the decoding of the payload selected from that prompt's response |
| DalleImages.GenerateItem | script/generate_dalle_images.js:53-74 | one iteration with its `continue`s and catch yields the reference status and writes |
| DalleImages.Generate | script/generate_dalle_images.js:51-76 | every prompt is handled in order, each status is reported, and the log gains exactly the prompts' writes, in order |
| AiPeopleImages.Payload | script/generate_ai_people_images.py:50-55 | the payload has exactly the keys model, prompt and size, holding "gpt-image-1" (the MODEL constant), the prompt and "1024x1024" |
| AiPeopleImages.GenerateImage | script/generate_ai_people_images.py:50-73 | reference definition of `generate_image`: the reply to the payload, raising on an HTTP error, another exception, a missing or empty `data`, or a falsy `b64_json` and otherwise returning the base64 decoding of `data[0].b64_json` (or its decoding error) |
| AiPeopleImages.GenerateImageProperties | script/generate_ai_people_images.py:67-73 | `generate_image` returns iff the response's `data[0].b64_json` is non-empty and decodes, and it then returns that decoding; a missing or empty `b64_json` raises "No b64_json returned by API" |
| AiPeopleImages.GenerateImageErrors | script/generate_ai_people_images.py:67-70 | for every reply: an HTTP error raises "HTTP Error <code>: <reason>", another exception keeps its text, a missing `data` raises the KeyError text "'data'" and an empty `data` the IndexError text "list index out of range" |
| AiPeopleImages.Attempt | script/generate_ai_people_images.py:78-87 | reference definition of one iteration of `main`: a failed `generate_image` or write is reported with its text; otherwise the returned bytes are written to `OUT_DIR/filename` |
| AiPeopleImages.AttemptProperties | script/generate_ai_people_images.py:81-87 | `OUT_DIR/filename` is written only when `generate_image` returns, and with exactly the returned bytes; every other outcome is a reported failure that writes nothing |
| AiPeopleImages.BatchWritesOnlyGenerated | script/generate_ai_people_images.py:76-87 | every file `main` writes belongs to an item for which `generate_image` returned, and holds the returned bytes |
| AiPeopleImages.GenerateItem | script/generate_ai_people_images.py:78-87 | one iteration's try block yields the reference status and writes |
| AiPeopleImages.GenerateAll | script/generate_ai_people_images.py:76-87 | every prompt is attempted in order, each failure is caught and reported, and the log gains exactly the items' writes, in order |
| ConvertSvgs.SvgFiles | script/convert_svgs.js:11 | a name is in the work list iff it is a directory entry ending in ".svg" |
| ConvertSvgs.SvgFilesAppend | script/convert_svgs.js:11 | the filter keeps the order of the listing: filtering a concatenation concatenates the filtered parts |
| ConvertSvgs.OutputName | script/convert_svgs.js:17 | the output name ends in ".png"; a trailing ".svg" is dropped before ".png" is appended, and any other name has ".png" appended |
| ConvertSvgs.OutputNameOfSvg | script/convert_svgs.js:17 | `x.svg` gives `x.png` |
| ConvertSvgs.OutputNamesDistinct | script/convert_svgs.js:17-18 | two different SVG names never give the same PNG name |
| ConvertSvgs.ConvertFile | script/convert_svgs.js:16-29 | reference definition of one iteration: a failed read makes the file unreadable; a render failure with the fixed options or a failed write is a conversion error; otherwise the PNG is written at the derived name in the same directory |
| ConvertSvgs.ConvertFileProperties | script/convert_svgs.js:16-29 | a file is written iff the SVG is converted, and then it is the renderer's PNG, at the derived name in the input's own directory; a file is unreadable iff reading its path fails |
| ConvertSvgs.ConvertFrom | script/convert_svgs.js:14-31 | reference definition of `convert`: the files in order, each one's status and writes, stopping right after the first unreadable file |
| ConvertSvgs.ConvertFromProperties | script/convert_svgs.js:14-31 | files are handled in order, one status each; only an unreadable file stops the run, and it is then the last status; when every file reads, every file gets a status |
| ConvertSvgs.ConvertFromStatuses | script/convert_svgs.js:15-29 | status i of the run is exactly the outcome of converting file i (read, render, write), so an `Unreadable` status, and with it the end of the run, comes from a failed read of that file |
| ConvertSvgs.ConvertWritesOnlyConverted | script/convert_svgs.js:15-25 | every PNG written is the derived output of a converted SVG from the list, in the same directory, and holds the renderer's output for that SVG's contents |
| ConvertSvgs.ConvertOne | script/convert_svgs.js:16-29 | one iteration: read outside the try, then render with the fixed options and write, giving the reference status and writes |
| ConvertSvgs.Convert | script/convert_svgs.js:14-31 | the loop gives the reference conversion's statuses and writes, stopping after an unreadable file |
| ConvertSvgs.RunScript | script/convert_svgs.js:11-33 | no ".svg" entry gives exit code 1 with nothing written; otherwise the SVG files are converted in listing order |

## Left out

- Reading `GEMINI_API_KEY` / `OPENAI_API_KEY` and exiting on a missing key. The model starts after that check.
- Creating the output directory, and the `existsSync` check in `convert_svgs.js`. The model assumes the directory exists.
- The HTTP transport: URL and API key, headers, method, timeouts and JSON text encoding.
  - A request is its JSON body; for Gemini, also the model.
  - Every transport failure (connection, timeout, invalid JSON) is a raised exception with its text.
- JSON values of the wrong type in a response (a `data` that is not an array, a `null` field).
  - A response field is either present with the expected type or missing.
- A failure while reading the body of an HTTP error in `generate_gemini_images.py`.
  - `e.read()` runs inside the `except HTTPError` handler, so what it raises escapes `generate_one`.
  - The script would then skip the remaining models for that item and print that exception.
  - The model takes every HTTP error body as already read, so every HTTP error falls through to the next model.
- Base64 decoding (RFC 4648 section 4). It is a parameter of each script's `Env`, not modelled.
- `sharp` rendering and PNG encoding. These are a parameter that receives the fixed options (1024x768, contain, white, alpha 1, quality 90).
- Write failures are modelled only as a fixed fault per path. A write that fails once and later succeeds is not modelled.
- Console logging, beyond the returned statuses and the Gemini list of models asked. The exact printed text is not modelled.
- The `async`/`await` sequencing of the JavaScript scripts. It is strictly sequential, so the model is a plain loop.
- The process exit code after an unreadable SVG. It is Node's behaviour for an unhandled rejection. The model only records that the run stops there.
- Python `pathlib`'s `/` operator: an absolute file name would replace the directory. The model joins directory and file name as given.
- The prompt texts and output file names. They are constant data, and the batch methods take any list.
