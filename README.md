# Image-to-music transaction service: a Dafny model

Service.py is the worker side of a web service. The service receives an
image, has a vision model describe it, and turns the description into a
generated image. On the remote path it also generates a piece of music. A
transaction's progress lives in a shared dictionary entry,
`transactions[id]`, which clients poll. This project models two parts of the file.

- **Keyword extraction** (Service.py:93-94). The analysis text is scanned
  with `re.findall(r"\): (.*?);", text)`. Each capture is split on `","`,
  each piece is `strip()`ped, and the pieces are flattened in order. Module
  `Keywords` (keywords.dfy) models the regular expression as a
  left-to-right scan (`FindAll`), and `str.split` and `str.strip` as
  recursive functions.
- **The status state machine** (Service.py:47-262), in module `Service`
  (service.dfy). It covers `call_openai_vision`, `call_stable_diffusion`,
  `call_dall_e`, `store_image` and `generate_music`.
  - Each entry is a `Transaction` object. Its fields are the keys these
    functions write: `status`, `musicStatus`, `keywords`, `analysis`,
    `score`, `error` and `generatedMusic`.
  - Ghost logs record every value written to `status` and `musicStatus`.
  - Every external call becomes a parameter holding its result, or `None`
    when the call raises. These are the vision answer, the Stable Diffusion
    image, the DALL-E URL, the HTTP response, whether the music thread
    could be started, and MusicGen's audio.
  - Each function is a method on the shared dictionary. It is proved to
    leave the entry exactly as a step function on values says
    (`StoreImageStep`, `DiffusionStep`, `DallEStep`, `MusicStep`,
    `VisionStep`), and to return or raise what that step says.
  - Module `ServiceProperties` proves the behaviour of these steps.
  - Module `Scenarios` states whole transactions as sequences of verified
    method calls.

The model follows the code, which departs from an idealised pipeline in
these ways:

- `status` is not monotone. It goes RUNNING_ANALYSIS, then IDLING, then
  RUNNING_GENERATION (lines 55, 98, 118/177).
- Only the generator call is inside the `try` (lines 100-108). A failing
  vision call raises out of `call_openai_vision` and leaves `status` at
  RUNNING_ANALYSIS. A missing transaction raises `KeyError` at line 55,
  before anything is written.
- `store_image` does not raise on a non-200 response (lines 229-232). It
  records ERROR_DOWNLOADING_FILE itself. `call_dall_e` then carries on and
  starts the music thread for a transaction whose status is ERROR
  (lines 199-205).
- Nothing catches an exception in `generate_music`. `musicStatus` then stays
  RUNNING_GENERATION and never becomes ERROR (lines 235-262). The only way
  `musicStatus` becomes ERROR is a failed thread start (line 208).

## Model

| member | source | states |
|---|---|---|
| Keywords.IsSpace | Service.py:94 | The characters Python's `str.isspace` accepts, which are the ones `str.strip()` removes: `\t` to `\r`, `\x1c` to space, U+0085, U+00A0, U+1680, U+2000 to U+200A, U+2028, U+2029, U+202F, U+205F and U+3000. |
| Keywords.ScanToSemicolon | Service.py:93 | The lazy `(.*?);` from a position ends at the first `;`, with no `;` or newline before it. It finds nothing exactly when no `;` closes the group before a newline. |
| Keywords.MatchHere | Service.py:93 | One attempt of the pattern at the start of the text succeeds exactly when the text starts with `"): "` and a `;` follows on the same line. The end it reports is that `;`. |
| Keywords.MatchEndUnique | Service.py:93 | A lazy match has exactly one possible closing `;`. |
| Keywords.FindAll | Service.py:93 | `re.findall`: every captured group contains neither `;` nor a newline. |
| Keywords.NoMatchStep | Service.py:93 | No match starts in a text exactly when none starts at its head and none starts in its tail. |
| Keywords.FindAllEmptyIffNoMatch | Service.py:93 | `findall` returns `[]` exactly when the pattern matches at no position. |
| Keywords.FindAllSkipsPrefix | Service.py:93 | A prefix in which no match starts contributes no capture, so `findall` of the whole text is `findall` of what follows the prefix. |
| Keywords.NoParenNoMatch | Service.py:93 | Every match begins with `)`, so no match starts within a prefix that has no `)`. |
| Keywords.FindAllSegment | Service.py:93 | A segment `"): c;"` yields the capture `c` first, and the scan resumes right after its `;`. |
| Keywords.Split | Service.py:94 | `str.split(",")`: a text with k commas gives k+1 pieces, no piece holds a comma, and the pieces of a capture hold no `;` or newline. |
| Keywords.JoinSplit | Service.py:94 | Joining the split pieces with `","` gives back the text, so splitting loses and reorders nothing. |
| Keywords.SplitNoComma | Service.py:94 | A text without a comma splits into itself alone. |
| Keywords.SplitFirstPiece | Service.py:94 | The text before the first comma is the first piece, and the rest splits on its own. |
| Keywords.SplitJoin | Service.py:94 | Splitting a comma-join of comma-free pieces gives back those pieces. |
| Keywords.TrimStart | Service.py:94 | `lstrip` leaves a text that is no longer than the input and does not start with whitespace. |
| Keywords.TrimStartIsSuffix | Service.py:94 | `lstrip` returns a suffix of its input. |
| Keywords.TrimStartDropsSpace | Service.py:94 | Everything `lstrip` removes is whitespace. |
| Keywords.TrimEnd | Service.py:94 | `rstrip` returns a prefix of its input that does not end with whitespace. |
| Keywords.TrimEndDropsSpace | Service.py:94 | Everything `rstrip` removes is whitespace. |
| Keywords.Strip | Service.py:94 | `str.strip()` neither starts nor ends with whitespace, and adds no separator the input lacks. |
| Keywords.StripIsTrimmedSlice | Service.py:94 | `strip` returns a slice of its input with only whitespace cut off on either side. |
| Keywords.StripKeepsTrimmed | Service.py:94 | `strip` leaves text without outer whitespace unchanged. |
| Keywords.StripIdempotent | Service.py:94 | Stripping twice is stripping once. |
| Keywords.StripKeepsClean | Service.py:94 | A stripped piece without separators is a clean keyword. |
| Keywords.StripAll | Service.py:94 | The comprehension over pieces keeps their number. |
| Keywords.StripAllAt | Service.py:94 | The i-th keyword is the i-th piece, stripped. |
| Keywords.StripAllClean | Service.py:94 | Stripping separator-free pieces gives only clean keywords. |
| Keywords.CaptureKeywords | Service.py:94 | A capture with k commas contributes k+1 keywords. |
| Keywords.CaptureKeywordsClean | Service.py:93-94 | Every keyword of a captured group is clean: no `,`, `;`, newline or outer whitespace. |
| Keywords.FlattenCaptures | Service.py:94 | The flattened list has at least one keyword per capture. |
| Keywords.FlattenClean | Service.py:93-94 | Captures without `;` or newline flatten to clean keywords only. |
| Keywords.ExtractKeywords | Service.py:93-94 | No keyword contains `,`, `;` or a newline, and none has leading or trailing whitespace. The list is empty exactly when `findall` finds nothing. |
| Keywords.ExtractKeywordsEmptyIffNoMatch | Service.py:93-95 | The keyword list is `[]`, without error, exactly when no `"): "` is followed by a `;` on the same line. |
| Keywords.ExtractKeywordsSegment | Service.py:93-94 | Keywords come in text order. After any prefix in which no match starts (such as `"Rote Linie (dünn) (links"`), the segment `"): c;"` yields the k+1 keywords of `c` in left-to-right order, followed by the keywords of the rest of the text. |
| Keywords.CaptureOnePiece | Service.py:94 | A capture without a comma yields exactly its stripped self. |
| Keywords.CaptureTwoPieces | Service.py:94 | A capture with one comma yields its two stripped halves, in order. |
| Keywords.StripLeadingBlank | Service.py:94 | `strip` removes a single leading blank before trimmed text. |
| Keywords.ExampleFirstSegment | Service.py:77 | The first segment of the prompt's example yields the keywords of `hoch`, followed by those of the rest. |
| Keywords.ExampleSecondSegment | Service.py:77 | The rest of the example yields the keywords of `abstrakt, geschwungen`. |
| Keywords.ExampleFirstCapture | Service.py:77 | `hoch` yields `["hoch"]`. |
| Keywords.ExampleSecondCapture | Service.py:77 | `abstrakt, geschwungen` yields `["abstrakt", "geschwungen"]`. |
| Keywords.PromptExample | Service.py:77 | The prompt's example answer yields `["hoch", "abstrakt", "geschwungen"]`. |
| Service.StoreImageStep | Service.py:211-232 | `store_image` on the entry: it never starts music. When it raises, the entry is unchanged. When it returns, the entry exists and has had exactly one status write, SUCCESS or ERROR. |
| Service.DiffusionStep | Service.py:111-167 | `call_stable_diffusion` on the entry: it never writes `musicStatus` or `generatedMusic`. It returns exactly when the entry, its `analysis` and the pipeline's image all exist, and a returning call leaves SUCCESS with `score` equal to the pipeline's image. |
| Service.DallEStep | Service.py:170-208 | `call_dall_e` on the entry: the entry exists afterwards exactly when it did before. The music thread is started exactly when the call returns and the thread start succeeds, so every returning `store_image` is followed by a started thread unless `Thread.start` fails. |
| Service.MusicStep | Service.py:235-262 | `generate_music` on the entry: it never writes `status`. It returns exactly when the entry, its `analysis` and MusicGen's audio all exist. |
| Service.Analysed | Service.py:55-98 | Lines 55-98 leave `analysis` equal to the vision answer, `status` IDLING, and `keywords` equal to the keywords of that `analysis`. The status log gains RUNNING_ANALYSIS then IDLING, and the music status, score and error are untouched. |
| Service.GenerateStep | Service.py:101-104 | The dispatch keeps the entry's presence. Only the DALL-E branch can start music. |
| Service.CatchGeneratorFailure | Service.py:100-108 | The `except`: once the entry exists, the call returns normally. A call that returned anyway is left as it was, and whether music was started is kept. |
| Service.VisionStep | Service.py:47-108 | `call_openai_vision` raises exactly when the transaction is missing or the vision call fails. It keeps the entry's presence. |
| Service.Transaction.WriteStatus | Service.py:55 | One write `transactions[id]["status"] = s`, as at lines 55, 98, 107, 118, 165, 177, 228 and 232: the new status is `s`, it is appended to the status log, and no other key changes. |
| Service.Transaction.WriteMusicStatus | Service.py:238 | One write `transactions[id]["musicStatus"] = s`, as at lines 208, 238 and 262: the new music status is `s`, it is appended to the music log, and no other key changes. |
| Service.StoreImageKeepsWellFormed | Service.py:211-232 | `store_image` keeps the entry invariant: SUCCESS comes with a score, ERROR with a message, keywords match the analysis, and the logs end in the current values. |
| Service.DiffusionKeepsWellFormed | Service.py:111-167 | `call_stable_diffusion` keeps the entry invariant. |
| Service.DallEKeepsWellFormed | Service.py:170-208 | `call_dall_e` keeps the entry invariant. |
| Service.MusicKeepsWellFormed | Service.py:235-262 | `generate_music` keeps the entry invariant, including that a SUCCESS music status comes with the music. |
| Service.AnalysedWellFormed | Service.py:55-98 | The analysis keeps the entry invariant: the `keywords` it writes are those extracted from the `analysis` it writes. |
| Service.GenerateKeepsWellFormed | Service.py:100-104 | The dispatched generator keeps the entry invariant. |
| Service.VisionKeepsWellFormed | Service.py:47-108 | `call_openai_vision` keeps the entry invariant on every path, including the `except` of lines 105-108. |
| Service.StoreImage | Service.py:211-232 | Updates the entry in place, key by key, and ends exactly in the state and outcome of `StoreImageStep`. |
| Service.CallStableDiffusion | Service.py:111-167 | Updates the entry in place and ends exactly as `DiffusionStep` says. It raises `KeyError` after writing RUNNING_GENERATION when `analysis` is missing. |
| Service.CallDallE | Service.py:170-208 | Updates the entry in place, calls `StoreImage`, and ends exactly as `DallEStep` says, including whether the music thread was started. |
| Service.GenerateMusic | Service.py:235-262 | Updates the entry in place and ends exactly as `MusicStep` says. |
| Service.GenerateCatching | Service.py:100-108 | The `try`/`except` around the chosen generator ends exactly as `CatchGeneratorFailure` of the generator's step says. |
| Service.CallOpenAiVision | Service.py:47-108 | Writes status, keywords, analysis and status again, then runs `GenerateCatching`. It ends exactly as `VisionStep` says. |
| ServiceProperties.AnalysisBeforeDispatch | Service.py:95-104 | The generator starts from an entry where `keywords` equals the extracted keywords of the answer, `analysis` equals the answer and `status` is IDLING. The status log has gained RUNNING_ANALYSIS and IDLING, and nothing else has changed. |
| ServiceProperties.EarlyFailuresEscape | Service.py:55-98 | A missing transaction raises `KeyError`. A failed vision call raises out of `call_openai_vision` and leaves only `status` changed, to RUNNING_ANALYSIS. |
| ServiceProperties.GenerateRaisesIff | Service.py:100-104 | After the analysis, the generator raises exactly when an external result of its own path failed (`GeneratorRaises`). |
| ServiceProperties.GeneratorFailureCaught | Service.py:100-108 | Once the vision call returns, `call_openai_vision` returns normally. The entry ends in ERROR with OUTPUT_FILE_ERROR exactly when the generator raised. |
| ServiceProperties.VisionStatusSequence | Service.py:55-232 | Every run whose vision call returns writes RUNNING_ANALYSIS, IDLING, RUNNING_GENERATION and then SUCCESS or ERROR to `status`, in that order, so the status is not monotone. |
| ServiceProperties.MusicOnlyOnRemotePath | Service.py:101-104 | The music thread is started only on the DALL-E path and only when the thread start succeeds. |
| ServiceProperties.DiffusionOutcome | Service.py:118-165 | A successful local generation writes RUNNING_GENERATION, then the pipeline's image to `score`, then SUCCESS. It returns normally and starts no music. |
| ServiceProperties.DallEOutcome | Service.py:177-205 | A successful remote generation with a 200 download writes RUNNING_GENERATION, then the downloaded image to `score`, then SUCCESS. It returns normally and starts the music thread. |
| ServiceProperties.DownloadOutcome | Service.py:219-232 | Code 200 with a decodable image sets `score` and SUCCESS. Code 200 with undecodable content raises and changes nothing. Any other code sets ERROR_DOWNLOADING_FILE and ERROR, leaves `score` alone and returns normally. |
| ServiceProperties.StoreImageRaisesIff | Service.py:211-232 | `store_image` raises exactly when `requests.get` raises, when PIL rejects a 200 response, or when the transaction is missing. |
| ServiceProperties.RejectedDownloadStillStartsMusic | Service.py:199-205 | After a rejected download, `call_dall_e` returns normally with status ERROR and ERROR_DOWNLOADING_FILE, and starts the music thread. |
| ServiceProperties.RejectedDownloadNotReported | Service.py:100-108 | From `call_openai_vision`, a rejected download is not a generator failure: the message stays ERROR_DOWNLOADING_FILE, and music is still started. |
| ServiceProperties.MusicTouchesOnlyMusic | Service.py:235-262 | The music task changes only `musicStatus`, its log and `generatedMusic`. It never changes `status`. |
| ServiceProperties.MusicRun | Service.py:238-262 | A successful music task writes RUNNING_GENERATION, then SUCCESS, and stores the music. If MusicGen raises, the task raises and `musicStatus` stays RUNNING_GENERATION. |
| ServiceProperties.LocalPathLeavesMusic | Service.py:111-167 | On the Stable Diffusion path, `call_openai_vision` never writes `musicStatus` or `generatedMusic`. |
| ServiceProperties.ThreadStartFailure | Service.py:203-208 | A failed thread start ends `call_dall_e` as a successful start would, except that `musicStatus` becomes ERROR. `status` is the same either way. |
| Scenarios.RemoteRun | Service.py:47-262 | A fresh transaction on the DALL-E path with every call succeeding ends with SUCCESS, the downloaded score and the extracted keywords. Its music thread ends with SUCCESS and the music. |
| Scenarios.RejectedDownloadRun | Service.py:47-262 | With a rejected download, the transaction ends in ERROR with ERROR_DOWNLOADING_FILE and no score, while its music reaches SUCCESS. |
| Scenarios.MusicCrashRun | Service.py:47-262 | When MusicGen raises, the image still succeeds, and `musicStatus` stays RUNNING_GENERATION. |
| Scenarios.LocalRun | Service.py:47-167 | A fresh transaction on the Stable Diffusion path with every call succeeding returns with SUCCESS, the generated image as `score` and the extracted keywords. No music status is written. |
| Scenarios.LocalFailureRun | Service.py:47-167 | When Stable Diffusion raises, `call_openai_vision` returns with ERROR and OUTPUT_FILE_ERROR. The keywords are kept, and no music status is written. |

## Left out

- The OpenAI client and API-key loading (Service.py:25-36, 60-89, 187-195) are network and file I/O. The vision answer and the DALL-E URL are parameters, and `None` means the call raised.
- A vision answer whose content is `None` makes `re.findall` raise a `TypeError`. The model folds this into the vision call failing.
- The Stable Diffusion, Compel and torch pipeline, including the re-read and decoding of the stored image (Service.py:123-162), is floating-point GPU work. Its base64 JPEG result is a parameter.
- MusicGen and the WAV encoding (Service.py:240-258) are ML inference. Their output is opaque bytes.
- `requests.get`, PIL's decoding and re-encoding, and base64 (Service.py:219-225) are foreign libraries. The response is a status code plus the base64 PNG that PIL would produce, `None` when PIL raises.
- Threads (Service.py:204-205). `generate_music` is a separate method that the caller may run later or not at all. Interleavings and races on the shared dictionary are not modelled.
- Logging, the model paths and the LoRA settings (Service.py:38-44, 130-134) have no effect on the entry.
- Transactions.py is not part of this model. A new entry is assumed to be IDLING with only `image` set and every other key absent, and the `image` key is assumed always present (Service.py:56, 145).
- Service.GenerateMusic: checks the `analysis` key before MusicGen runs. The source loads the MusicGen models (lines 240-241) before reading `analysis` (line 243), so when both fail the source raises the loading error, not `KeyError`. The entry ends the same either way.
- Service.StoreImage: the `url` parameter is not used. The response to `requests.get(url)` is given directly.
- Keywords.PromptExample: the example answer is written as a concatenation of its pieces at the pattern's delimiters and its comma. The string is the same as the prompt's literal.
