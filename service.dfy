/**
 * The per-transaction record and the functions of Service.py that update it:
 * `call_openai_vision` (47-108), `call_stable_diffusion` (111-167),
 * `call_dall_e` (170-208), `store_image` (211-232) and `generate_music` (235-262).
 *
 * Every call into OpenAI, Stable Diffusion, MusicGen, `requests`, PIL or
 * `threading` is replaced by a parameter that holds its result, or `None`
 * when that call raises. Each record entry of the shared `transactions`
 * dictionary is a `Transaction` object. Its fields are the dictionary keys
 * that these functions write, and `None` stands for a key that was never written.
 *
 * Each operation is given twice:
 *  - as a step function on values (`StoreImageStep`, ...), which says what the
 *    record becomes and what the call returns or raises;
 *  - as a method that changes the object field by field in the order of the
 *    source, proved to end in the state its step function gives.
 */
module Service {
  import opened Wrappers
  import opened Keywords

  /** `StatusCodes`: the values of the `status` and `musicStatus` keys. */
  datatype StatusCode = Idling | RunningAnalysis | RunningGeneration | Success | Error

  /** `Messages`: the values of the `error` key. */
  datatype Message = OutputFileError | ErrorDownloadingFile

  newtype byte = x: int | 0 <= x < 256

  type TransactionId = string

  /** The key whose absence makes the generators raise `KeyError` (Service.py:119, 178, 243). */
  const AnalysisKey := "analysis"

  /** The exceptions the modelled functions can raise or let escape. */
  datatype Exception =
    | KeyError(key: string)  // a missing transaction or a missing `analysis` key
    | VisionFailed           // `chat.completions.create` raised
    | DiffusionFailed        // the Stable Diffusion pipeline raised
    | DallEFailed            // `images.generate` raised
    | RequestFailed          // `requests.get` raised
    | ImageDecodeFailed      // PIL could not decode the downloaded content
    | MusicGenFailed         // MusicGen or the WAV encoding raised

  /** How a call ends: it returns, or an exception escapes from it. */
  datatype Outcome = Returned | Raised(exception: Exception)

  /**
   * The result of `requests.get(url)`: the HTTP status code, and the base64
   * text of the PNG that PIL re-encodes from the content (`None` when PIL raises).
   */
  datatype HttpResponse = HttpResponse(statusCode: int, png: Option<string>)

  /** The results of the external calls made after the analysis, for either generator. */
  datatype Generation = Generation(
    diffusion: Option<string>,        // the base64 JPEG from Stable Diffusion
    imageUrl: Option<string>,         // `response.data[0].url` from DALL-E
    download: Option<HttpResponse>,   // `requests.get(image_url)`
    threadStarts: bool)               // `Thread(...).start()` returns

  /**
   * The value of one transaction entry. `statusLog` and `musicLog` list every
   * value written to `status` and `musicStatus`, oldest first.
   */
  datatype Record = Record(
    status: StatusCode,
    musicStatus: Option<StatusCode>,
    keywords: Option<seq<string>>,
    analysis: Option<string>,
    score: Option<string>,
    error: Option<Message>,
    generatedMusic: Option<seq<byte>>,
    statusLog: seq<StatusCode>,
    musicLog: seq<StatusCode>)

  /** The entry of a transaction that has just been created: idle, nothing written yet. */
  const Created := Record(Idling, None, None, None, None, None, None, [], [])

  /** What a call leaves behind: the entry (`None` if the id is absent), how the call ended, and whether it started the music thread. */
  datatype Step = Step(record: Option<Record>, outcome: Outcome, musicStarted: bool)

  /** One write to the `status` key. */
  function WithStatus(r: Record, s: StatusCode): Record {
    r.(status := s, statusLog := r.statusLog + [s])
  }

  /** One write to the `musicStatus` key. */
  function WithMusicStatus(r: Record, s: StatusCode): Record {
    r.(musicStatus := Some(s), musicLog := r.musicLog + [s])
  }

  /** The `keywords` that go with an `analysis`: none without one, its extracted keywords with one. */
  function KeywordsOf(analysis: Option<string>): Option<seq<string>> {
    match analysis
    case None => None
    case Some(text) => Some(ExtractKeywords(text))
  }

  /**
   * The invariant of an entry between calls:
   *  - `keywords` is present exactly when `analysis` is, and holds the keywords of that analysis;
   *  - a SUCCESS status comes with a score, and an ERROR status with an error message;
   *  - a SUCCESS music status comes with the generated music;
   *  - the logs end in the current values.
   */
  ghost predicate WellFormed(r: Record) {
    && r.keywords == KeywordsOf(r.analysis)
    && (r.status == Success ==> r.score.Some?)
    && (r.status == Error ==> r.error.Some?)
    && (r.musicStatus == Some(Success) ==> r.generatedMusic.Some?)
    && (r.statusLog != [] ==> r.statusLog[|r.statusLog| - 1] == r.status)
    && (r.musicLog == [] <==> r.musicStatus.None?)
    && (r.musicLog != [] ==> r.musicStatus == Some(r.musicLog[|r.musicLog| - 1]))
  }

  // ---------------------------------------------------------------------------
  // The operations as steps on values
  // ---------------------------------------------------------------------------

  /** `store_image` (Service.py:211-232). */
  function StoreImageStep(id: TransactionId, r: Option<Record>, response: Option<HttpResponse>): (s: Step)
    ensures !s.musicStarted
    ensures s.outcome.Raised? ==> s.record == r
    ensures s.outcome == Returned ==>
      && r.Some? && s.record.Some?
      && s.record.value.statusLog == r.value.statusLog + [s.record.value.status]
      && (s.record.value.status == Success || s.record.value.status == Error)
  {
    match response
    case None => Step(r, Raised(RequestFailed), false)
    case Some(resp) =>
      if resp.statusCode == 200 then
        match resp.png
        case None => Step(r, Raised(ImageDecodeFailed), false)
        case Some(png) =>
          match r
          case None => Step(r, Raised(KeyError(id)), false)
          case Some(rec) => Step(Some(WithStatus(rec.(score := Some(png)), Success)), Returned, false)
      else
        match r
        case None => Step(r, Raised(KeyError(id)), false)
        case Some(rec) => Step(Some(WithStatus(rec.(error := Some(ErrorDownloadingFile)), Error)), Returned, false)
  }

  /** `call_stable_diffusion` (Service.py:111-167). */
  function DiffusionStep(id: TransactionId, r: Option<Record>, diffusion: Option<string>): (s: Step)
    ensures !s.musicStarted
    ensures s.record.Some? <==> r.Some?
    ensures r.Some? ==>
      && s.record.value.musicStatus == r.value.musicStatus
      && s.record.value.generatedMusic == r.value.generatedMusic
    ensures s.outcome == Returned <==> r.Some? && r.value.analysis.Some? && diffusion.Some?
    ensures s.outcome == Returned ==> s.record.value.status == Success && s.record.value.score == diffusion
  {
    match r
    case None => Step(None, Raised(KeyError(id)), false)
    case Some(rec) =>
      var running := WithStatus(rec, RunningGeneration);
      if running.analysis.None? then Step(Some(running), Raised(KeyError(AnalysisKey)), false)
      else
        match diffusion
        case None => Step(Some(running), Raised(DiffusionFailed), false)
        case Some(image) => Step(Some(WithStatus(running.(score := Some(image)), Success)), Returned, false)
  }

  /** `call_dall_e` (Service.py:170-208), up to the start of the music thread. */
  function DallEStep(id: TransactionId, r: Option<Record>, imageUrl: Option<string>,
                     download: Option<HttpResponse>, threadStarts: bool): (s: Step)
    ensures s.record.Some? <==> r.Some?
    ensures s.musicStarted <==> s.outcome == Returned && threadStarts
  {
    match r
    case None => Step(None, Raised(KeyError(id)), false)
    case Some(rec) =>
      var running := WithStatus(rec, RunningGeneration);
      if running.analysis.None? then Step(Some(running), Raised(KeyError(AnalysisKey)), false)
      else if imageUrl.None? then Step(Some(running), Raised(DallEFailed), false)
      else
        var stored := StoreImageStep(id, Some(running), download);
        if stored.outcome.Raised? then stored
        else if threadStarts then stored.(musicStarted := true)
        else
          match stored.record
          case None => stored
          case Some(after) => Step(Some(WithMusicStatus(after, Error)), Returned, false)
  }

  /** `generate_music` (Service.py:235-262), as run by the thread that `call_dall_e` starts. */
  function MusicStep(id: TransactionId, r: Option<Record>, music: Option<seq<byte>>): (s: Step)
    ensures !s.musicStarted
    ensures s.record.Some? <==> r.Some?
    ensures r.Some? ==> s.record.value.status == r.value.status && s.record.value.statusLog == r.value.statusLog
    ensures s.outcome == Returned <==> r.Some? && r.value.analysis.Some? && music.Some?
  {
    match r
    case None => Step(None, Raised(KeyError(id)), false)
    case Some(rec) =>
      var running := WithMusicStatus(rec, RunningGeneration);
      if running.analysis.None? then Step(Some(running), Raised(KeyError(AnalysisKey)), false)
      else
        match music
        case None => Step(Some(running), Raised(MusicGenFailed), false)
        case Some(audio) => Step(Some(WithMusicStatus(running.(generatedMusic := Some(audio)), Success)), Returned, false)
  }

  /** The entry once lines 55-98 of `call_openai_vision` have run on the vision answer `text`. */
  function Analysed(r: Record, text: string): (a: Record)
    ensures a.analysis == Some(text) && a.status == Idling
    ensures a.keywords == KeywordsOf(a.analysis)
    ensures a.statusLog == r.statusLog + [RunningAnalysis, Idling]
    ensures a.musicStatus == r.musicStatus && a.score == r.score && a.error == r.error
  {
    var written := WithStatus(r, RunningAnalysis).(keywords := KeywordsOf(Some(text)), analysis := Some(text));
    WithStatus(written, Idling)
  }

  /** The generator `call_openai_vision` dispatches to (Service.py:101-104). */
  function GenerateStep(id: TransactionId, r: Option<Record>, useDallE: bool, gen: Generation): (s: Step)
    ensures s.record.Some? <==> r.Some?
    ensures s.musicStarted ==> useDallE
  {
    if useDallE then DallEStep(id, r, gen.imageUrl, gen.download, gen.threadStarts)
    else DiffusionStep(id, r, gen.diffusion)
  }

  /** The `except` of Service.py:105-108: an exception from the generator is logged and recorded. */
  function CatchGeneratorFailure(generated: Step): (s: Step)
    ensures s.musicStarted == generated.musicStarted
    ensures s.record.Some? <==> generated.record.Some?
    ensures generated.record.Some? && generated.outcome == Returned ==> s == generated
    ensures generated.record.Some? ==> s.outcome == Returned
  {
    if generated.outcome.Raised? && generated.record.Some? then
      var failed := WithStatus(generated.record.value, Error);
      Step(Some(failed.(error := Some(OutputFileError))), Returned, generated.musicStarted)
    else generated
  }

  /** `call_openai_vision` (Service.py:47-108): analysis, then generation inside the `try` of line 100. */
  function VisionStep(id: TransactionId, r: Option<Record>, useDallE: bool, vision: Option<string>, gen: Generation): (s: Step)
    ensures s.record.Some? <==> r.Some?
    ensures s.outcome.Raised? <==> r.None? || vision.None?
  {
    match r
    case None => Step(None, Raised(KeyError(id)), false)
    case Some(rec) =>
      match vision
      case None => Step(Some(WithStatus(rec, RunningAnalysis)), Raised(VisionFailed), false)
      case Some(text) => CatchGeneratorFailure(GenerateStep(id, Some(Analysed(rec, text)), useDallE, gen))
  }

  // ---------------------------------------------------------------------------
  // Every step keeps an entry well formed
  // ---------------------------------------------------------------------------

  /** `store_image` keeps the invariant. */
  lemma StoreImageKeepsWellFormed(id: TransactionId, r: Record, response: Option<HttpResponse>)
    requires WellFormed(r)
    ensures StoreImageStep(id, Some(r), response).record.Some?
    ensures WellFormed(StoreImageStep(id, Some(r), response).record.value)
  {
  }

  /** `call_stable_diffusion` keeps the invariant. */
  lemma DiffusionKeepsWellFormed(id: TransactionId, r: Record, diffusion: Option<string>)
    requires WellFormed(r)
    ensures DiffusionStep(id, Some(r), diffusion).record.Some?
    ensures WellFormed(DiffusionStep(id, Some(r), diffusion).record.value)
  {
  }

  /** `call_dall_e` keeps the invariant. */
  lemma DallEKeepsWellFormed(id: TransactionId, r: Record, imageUrl: Option<string>,
                             download: Option<HttpResponse>, threadStarts: bool)
    requires WellFormed(r)
    ensures DallEStep(id, Some(r), imageUrl, download, threadStarts).record.Some?
    ensures WellFormed(DallEStep(id, Some(r), imageUrl, download, threadStarts).record.value)
  {
    var running := WithStatus(r, RunningGeneration);
    if running.analysis.Some? && imageUrl.Some? {
      StoreImageKeepsWellFormed(id, running, download);
    }
  }

  /** `generate_music` keeps the invariant. */
  lemma MusicKeepsWellFormed(id: TransactionId, r: Record, music: Option<seq<byte>>)
    requires WellFormed(r)
    ensures MusicStep(id, Some(r), music).record.Some?
    ensures WellFormed(MusicStep(id, Some(r), music).record.value)
  {
    var running := WithMusicStatus(r, RunningGeneration);
    assert WellFormed(running);
    if running.analysis.Some? && music.Some? {
      var done := WithMusicStatus(running.(generatedMusic := music), Success);
      assert done.musicLog[|done.musicLog| - 1] == Success;
      assert WellFormed(done);
    }
  }

  /** The analysis (Service.py:55-98) keeps the invariant. */
  lemma AnalysedWellFormed(r: Record, text: string)
    requires WellFormed(r)
    ensures WellFormed(Analysed(r, text))
  {
    var a := Analysed(r, text);
    assert a.statusLog[|a.statusLog| - 1] == Idling;
  }

  /** The dispatched generator keeps the invariant. */
  lemma GenerateKeepsWellFormed(id: TransactionId, r: Record, useDallE: bool, gen: Generation)
    requires WellFormed(r)
    ensures GenerateStep(id, Some(r), useDallE, gen).record.Some?
    ensures WellFormed(GenerateStep(id, Some(r), useDallE, gen).record.value)
  {
    if useDallE {
      DallEKeepsWellFormed(id, r, gen.imageUrl, gen.download, gen.threadStarts);
    } else {
      DiffusionKeepsWellFormed(id, r, gen.diffusion);
    }
  }

  /** `call_openai_vision` keeps the invariant. */
  lemma VisionKeepsWellFormed(id: TransactionId, r: Record, useDallE: bool, vision: Option<string>, gen: Generation)
    requires WellFormed(r)
    ensures VisionStep(id, Some(r), useDallE, vision, gen).record.Some?
    ensures WellFormed(VisionStep(id, Some(r), useDallE, vision, gen).record.value)
  {
    match vision
    case None =>
      var analysing := WithStatus(r, RunningAnalysis);
      assert analysing.statusLog[|analysing.statusLog| - 1] == RunningAnalysis;
    case Some(text) =>
      var a := Analysed(r, text);
      AnalysedWellFormed(r, text);
      var generated := GenerateStep(id, Some(a), useDallE, gen);
      GenerateKeepsWellFormed(id, a, useDallE, gen);
      if generated.outcome.Raised? {
        var failed := WithStatus(generated.record.value, Error).(error := Some(OutputFileError));
        assert failed.statusLog[|failed.statusLog| - 1] == Error;
        assert CatchGeneratorFailure(generated).record == Some(failed);
      }
  }

  // ---------------------------------------------------------------------------
  // The shared dictionary and its entries
  // ---------------------------------------------------------------------------

  /** One entry of `transactions`, whose keys the functions below overwrite in place. */
  class Transaction {
    const image: string
    var status: StatusCode
    var musicStatus: Option<StatusCode>
    var keywords: Option<seq<string>>
    var analysis: Option<string>
    var score: Option<string>
    var error: Option<Message>
    var generatedMusic: Option<seq<byte>>
    ghost var statusLog: seq<StatusCode>
    ghost var musicLog: seq<StatusCode>

    /** The entry as a value. */
    ghost function Snapshot(): Record
      reads this
    {
      Record(status, musicStatus, keywords, analysis, score, error, generatedMusic, statusLog, musicLog)
    }

    /** A new entry for an uploaded image (Transactions.py is not part of this model). */
    constructor (image: string)
      ensures this.image == image && Snapshot() == Created && WellFormed(Snapshot())
    {
      this.image := image;
      status, musicStatus, keywords, analysis := Idling, None, None, None;
      score, error, generatedMusic := None, None, None;
      statusLog, musicLog := [], [];
    }

    /** `transactions[id]["status"] = s`. */
    method WriteStatus(s: StatusCode)
      modifies this`status, this`statusLog
      ensures Snapshot() == WithStatus(old(Snapshot()), s)
    {
      status := s;
      statusLog := statusLog + [s];
    }

    /** `transactions[id]["musicStatus"] = s`. */
    method WriteMusicStatus(s: StatusCode)
      modifies this`musicStatus, this`musicLog
      ensures Snapshot() == WithMusicStatus(old(Snapshot()), s)
    {
      musicStatus := Some(s);
      musicLog := musicLog + [s];
    }
  }

  /** The objects a call on `transactions[id]` may change. */
  function Frame(transactions: map<TransactionId, Transaction>, id: TransactionId): set<Transaction> {
    if id in transactions then {transactions[id]} else {}
  }

  /** The entry `transactions[id]` as a value, `None` when the id is absent. */
  ghost function View(transactions: map<TransactionId, Transaction>, id: TransactionId): Option<Record>
    reads Frame(transactions, id)
  {
    if id in transactions then Some(transactions[id].Snapshot()) else None
  }

  // ---------------------------------------------------------------------------
  // The operations as methods on the shared dictionary
  // ---------------------------------------------------------------------------

  /** `store_image(url, id)`, where `response` is what `requests.get(url)` gives. */
  method StoreImage(transactions: map<TransactionId, Transaction>, url: string, id: TransactionId,
                    response: Option<HttpResponse>) returns (outcome: Outcome)
    modifies Frame(transactions, id)
    ensures View(transactions, id) == StoreImageStep(id, old(View(transactions, id)), response).record
    ensures outcome == StoreImageStep(id, old(View(transactions, id)), response).outcome
  {
    if response.None? {
      return Raised(RequestFailed);
    }
    var resp := response.value;
    if resp.statusCode == 200 && resp.png.None? {
      return Raised(ImageDecodeFailed);
    }
    if id !in transactions {
      return Raised(KeyError(id));
    }
    var t := transactions[id];
    if resp.statusCode == 200 {
      t.score := resp.png;
      t.WriteStatus(Success);
    } else {
      t.error := Some(ErrorDownloadingFile);
      t.WriteStatus(Error);
    }
    return Returned;
  }

  /** `call_stable_diffusion(id)`, where `diffusion` is the image the pipeline produces. */
  method CallStableDiffusion(transactions: map<TransactionId, Transaction>, id: TransactionId,
                             diffusion: Option<string>) returns (outcome: Outcome)
    modifies Frame(transactions, id)
    ensures View(transactions, id) == DiffusionStep(id, old(View(transactions, id)), diffusion).record
    ensures outcome == DiffusionStep(id, old(View(transactions, id)), diffusion).outcome
  {
    if id !in transactions {
      return Raised(KeyError(id));
    }
    var t := transactions[id];
    t.WriteStatus(RunningGeneration);
    if t.analysis.None? {
      return Raised(KeyError(AnalysisKey));
    }
    if diffusion.None? {
      return Raised(DiffusionFailed);
    }
    t.score := diffusion;
    t.WriteStatus(Success);
    return Returned;
  }

  /**
   * `call_dall_e(id)`: `imageUrl` is what DALL-E returns, `download` what
   * `requests.get` returns for it, and `threadStarts` whether the music
   * thread could be started; `musicStarted` says whether it was.
   */
  method CallDallE(transactions: map<TransactionId, Transaction>, id: TransactionId, imageUrl: Option<string>,
                   download: Option<HttpResponse>, threadStarts: bool)
    returns (outcome: Outcome, musicStarted: bool)
    modifies Frame(transactions, id)
    ensures View(transactions, id) == DallEStep(id, old(View(transactions, id)), imageUrl, download, threadStarts).record
    ensures outcome == DallEStep(id, old(View(transactions, id)), imageUrl, download, threadStarts).outcome
    ensures musicStarted == DallEStep(id, old(View(transactions, id)), imageUrl, download, threadStarts).musicStarted
  {
    if id !in transactions {
      return Raised(KeyError(id)), false;
    }
    var t := transactions[id];
    t.WriteStatus(RunningGeneration);
    if t.analysis.None? {
      return Raised(KeyError(AnalysisKey)), false;
    }
    if imageUrl.None? {
      return Raised(DallEFailed), false;
    }
    outcome := StoreImage(transactions, imageUrl.value, id, download);
    if outcome.Raised? {
      return outcome, false;
    }
    if threadStarts {
      musicStarted := true;
    } else {
      t.WriteMusicStatus(Error);
      musicStarted := false;
    }
  }

  /** `generate_music(id)` run by the music thread, where `music` is the WAV that MusicGen produces. */
  method GenerateMusic(transactions: map<TransactionId, Transaction>, id: TransactionId,
                       music: Option<seq<byte>>) returns (outcome: Outcome)
    modifies Frame(transactions, id)
    ensures View(transactions, id) == MusicStep(id, old(View(transactions, id)), music).record
    ensures outcome == MusicStep(id, old(View(transactions, id)), music).outcome
  {
    if id !in transactions {
      return Raised(KeyError(id));
    }
    var t := transactions[id];
    t.WriteMusicStatus(RunningGeneration);
    if t.analysis.None? {
      return Raised(KeyError(AnalysisKey));
    }
    if music.None? {
      return Raised(MusicGenFailed);
    }
    t.generatedMusic := music;
    t.WriteMusicStatus(Success);
    return Returned;
  }

  /**
   * `call_openai_vision(id, useDallE)`, where `vision` is the text of the
   * vision model's answer and `gen` holds the generator's external results.
   */
  method CallOpenAiVision(transactions: map<TransactionId, Transaction>, id: TransactionId, useDallE: bool,
                          vision: Option<string>, gen: Generation)
    returns (outcome: Outcome, musicStarted: bool)
    modifies Frame(transactions, id)
    ensures View(transactions, id) == VisionStep(id, old(View(transactions, id)), useDallE, vision, gen).record
    ensures outcome == VisionStep(id, old(View(transactions, id)), useDallE, vision, gen).outcome
    ensures musicStarted == VisionStep(id, old(View(transactions, id)), useDallE, vision, gen).musicStarted
  {
    if id !in transactions {
      return Raised(KeyError(id)), false;
    }
    var t := transactions[id];
    t.WriteStatus(RunningAnalysis);
    if vision.None? {
      return Raised(VisionFailed), false;
    }
    var text := vision.value;
    t.keywords := KeywordsOf(Some(text));
    t.analysis := Some(text);
    t.WriteStatus(Idling);
    assert t.Snapshot() == Analysed(old(t.Snapshot()), text);
    outcome, musicStarted := GenerateCatching(transactions, id, useDallE, gen);
  }

  /**
   * The `try` of Service.py:100-108: the chosen generator runs, and an exception
   * from it becomes an ERROR status with the OUTPUT_FILE_ERROR message.
   */
  method GenerateCatching(transactions: map<TransactionId, Transaction>, id: TransactionId, useDallE: bool,
                          gen: Generation)
    returns (outcome: Outcome, musicStarted: bool)
    modifies Frame(transactions, id)
    ensures View(transactions, id) == CatchGeneratorFailure(GenerateStep(id, old(View(transactions, id)), useDallE, gen)).record
    ensures outcome == CatchGeneratorFailure(GenerateStep(id, old(View(transactions, id)), useDallE, gen)).outcome
    ensures musicStarted == CatchGeneratorFailure(GenerateStep(id, old(View(transactions, id)), useDallE, gen)).musicStarted
  {
    if useDallE {
      outcome, musicStarted := CallDallE(transactions, id, gen.imageUrl, gen.download, gen.threadStarts);
    } else {
      outcome := CallStableDiffusion(transactions, id, gen.diffusion);
      musicStarted := false;
    }
    if outcome.Raised? && id in transactions {
      var t := transactions[id];
      t.WriteStatus(Error);
      t.error := Some(OutputFileError);
      outcome := Returned;
    }
  }
}
