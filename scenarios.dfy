/**
 * Whole runs of a transaction, as the web service drives them: a fresh entry
 * in `transactions`, then `call_openai_vision`, then the music thread when
 * `call_dall_e` started one. Each run returns the keys a client polls.
 */
module Scenarios {
  import opened Wrappers
  import opened Keywords
  import opened Service
  import opened ServiceProperties

  /** The DALL-E path with every external call succeeding: image and music both succeed. */
  method RemoteRun(id: TransactionId, image: string, text: string, url: string, png: string, music: seq<byte>)
    returns (status: StatusCode, musicStatus: Option<StatusCode>, keywords: Option<seq<string>>,
             score: Option<string>, generatedMusic: Option<seq<byte>>)
    ensures status == Success && score == Some(png)
    ensures musicStatus == Some(Success) && generatedMusic == Some(music)
    ensures keywords == Some(ExtractKeywords(text))
  {
    var t := new Transaction(image);
    var transactions := map[id := t];
    var gen := Generation(None, Some(url), Some(HttpResponse(200, Some(png))), true);
    var outcome, started := CallOpenAiVision(transactions, id, true, Some(text), gen);
    assert started;
    outcome := GenerateMusic(transactions, id, Some(music));
    status, musicStatus, keywords, score, generatedMusic := t.status, t.musicStatus, t.keywords, t.score, t.generatedMusic;
  }

  /**
   * The DALL-E path with a download the server rejects: the transaction ends in
   * ERROR with ERROR_DOWNLOADING_FILE, and yet its music is generated.
   */
  method RejectedDownloadRun(id: TransactionId, image: string, text: string, url: string, code: int, music: seq<byte>)
    returns (status: StatusCode, error: Option<Message>, musicStatus: Option<StatusCode>, score: Option<string>)
    requires code != 200
    ensures status == Error && error == Some(ErrorDownloadingFile) && score == None
    ensures musicStatus == Some(Success)
  {
    var t := new Transaction(image);
    var transactions := map[id := t];
    var gen := Generation(None, Some(url), Some(HttpResponse(code, None)), true);
    RejectedDownloadNotReported(id, Created, text, url, code, None);
    var outcome, started := CallOpenAiVision(transactions, id, true, Some(text), gen);
    assert started;
    outcome := GenerateMusic(transactions, id, Some(music));
    status, error, musicStatus, score := t.status, t.error, t.musicStatus, t.score;
  }

  /**
   * The DALL-E path when MusicGen raises: the image succeeds, and the music
   * status stays RUNNING_GENERATION, which a client polling it cannot tell
   * from a task still at work.
   */
  method MusicCrashRun(id: TransactionId, image: string, text: string, url: string, png: string)
    returns (status: StatusCode, musicStatus: Option<StatusCode>, musicOutcome: Outcome)
    ensures status == Success
    ensures musicStatus == Some(RunningGeneration) && musicOutcome == Raised(MusicGenFailed)
  {
    var t := new Transaction(image);
    var transactions := map[id := t];
    var gen := Generation(None, Some(url), Some(HttpResponse(200, Some(png))), true);
    var outcome, started := CallOpenAiVision(transactions, id, true, Some(text), gen);
    assert started;
    musicOutcome := GenerateMusic(transactions, id, None);
    status, musicStatus := t.status, t.musicStatus;
  }

  /**
   * The local path with Stable Diffusion succeeding: the entry ends in SUCCESS
   * with the generated image and the extracted keywords, and no music status
   * is ever written.
   */
  method LocalRun(id: TransactionId, image: string, text: string, img: string)
    returns (outcome: Outcome, status: StatusCode, score: Option<string>, keywords: Option<seq<string>>,
             musicStatus: Option<StatusCode>)
    ensures outcome == Returned && status == Success && score == Some(img)
    ensures keywords == Some(ExtractKeywords(text)) && musicStatus == None
  {
    var t := new Transaction(image);
    var transactions := map[id := t];
    var started;
    outcome, started := CallOpenAiVision(transactions, id, false, Some(text), Generation(Some(img), None, None, false));
    status, score, keywords, musicStatus := t.status, t.score, t.keywords, t.musicStatus;
  }

  /**
   * The local path when Stable Diffusion raises: the call still returns, the
   * keywords are kept, the entry is ERROR with OUTPUT_FILE_ERROR, and no music
   * status is ever written.
   */
  method LocalFailureRun(id: TransactionId, image: string, text: string)
    returns (outcome: Outcome, status: StatusCode, error: Option<Message>, keywords: Option<seq<string>>,
             musicStatus: Option<StatusCode>)
    ensures outcome == Returned && status == Error && error == Some(OutputFileError)
    ensures keywords == Some(ExtractKeywords(text)) && musicStatus == None
  {
    var t := new Transaction(image);
    var transactions := map[id := t];
    var started;
    outcome, started := CallOpenAiVision(transactions, id, false, Some(text), Generation(None, None, None, false));
    status, error, keywords, musicStatus := t.status, t.error, t.keywords, t.musicStatus;
  }
}
