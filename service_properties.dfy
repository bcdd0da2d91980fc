/**
 * What the status state machine of Service.py promises, and where it departs
 * from an idealised pipeline. Each lemma is about the step functions of
 * module Service. Each method there is proved to end in the state its step
 * function gives, so every lemma here also holds of the method.
 */
module ServiceProperties {
  import opened Wrappers
  import opened Keywords
  import opened Service

  // ---------------------------------------------------------------------------
  // call_openai_vision
  // ---------------------------------------------------------------------------

  /**
   * When the vision call returns, `keywords` and `analysis` are written and
   * `status` is IDLING before either generator runs. Only those keys and the
   * status have changed, and the status passed through RUNNING_ANALYSIS.
   */
  lemma AnalysisBeforeDispatch(id: TransactionId, r: Record, useDallE: bool, text: string, gen: Generation)
    ensures VisionStep(id, Some(r), useDallE, Some(text), gen)
         == CatchGeneratorFailure(GenerateStep(id, Some(Analysed(r, text)), useDallE, gen))
    ensures Analysed(r, text).keywords == Some(ExtractKeywords(text))
    ensures Analysed(r, text).analysis == Some(text)
    ensures Analysed(r, text).status == Idling
    ensures Analysed(r, text).statusLog == r.statusLog + [RunningAnalysis, Idling]
    ensures Analysed(r, text).(keywords := r.keywords, analysis := r.analysis, status := r.status, statusLog := r.statusLog) == r
  {
  }

  /**
   * Exceptions raised before the `try` of line 100 escape: a missing
   * transaction raises `KeyError`, and a failed vision call leaves the entry
   * at RUNNING_ANALYSIS with no other key written.
   */
  lemma EarlyFailuresEscape(id: TransactionId, r: Record, useDallE: bool, gen: Generation)
    ensures VisionStep(id, None, useDallE, None, gen).outcome == Raised(KeyError(id))
    ensures VisionStep(id, Some(r), useDallE, None, gen).outcome == Raised(VisionFailed)
    ensures VisionStep(id, Some(r), useDallE, None, gen).record == Some(WithStatus(r, RunningAnalysis))
  {
  }

  /** The generator the analysis dispatches to raises, read off the external results alone. */
  predicate GeneratorRaises(useDallE: bool, gen: Generation) {
    if useDallE then
      || gen.imageUrl.None?
      || gen.download.None?
      || (gen.download.value.statusCode == 200 && gen.download.value.png.None?)
    else gen.diffusion.None?
  }

  /** After the analysis, the generator raises exactly when `GeneratorRaises` says so. */
  lemma GenerateRaisesIff(id: TransactionId, r: Record, useDallE: bool, gen: Generation)
    requires r.analysis.Some?
    ensures GenerateStep(id, Some(r), useDallE, gen).outcome.Raised? <==> GeneratorRaises(useDallE, gen)
    ensures GenerateStep(id, Some(r), useDallE, gen).record.Some?
  {
  }

  /**
   * Once the vision call has returned, `call_openai_vision` itself returns:
   * the generator's exceptions are caught. The entry ends in ERROR with
   * OUTPUT_FILE_ERROR exactly when the generator raised.
   */
  lemma GeneratorFailureCaught(id: TransactionId, r: Record, useDallE: bool, text: string, gen: Generation)
    ensures VisionStep(id, Some(r), useDallE, Some(text), gen).outcome == Returned
    ensures VisionStep(id, Some(r), useDallE, Some(text), gen).record.Some?
    ensures var after := VisionStep(id, Some(r), useDallE, Some(text), gen).record.value;
      GeneratorRaises(useDallE, gen) <==> after.status == Error && after.error == Some(OutputFileError)
  {
    var a := Analysed(r, text);
    GenerateRaisesIff(id, a, useDallE, gen);
    var generated := GenerateStep(id, Some(a), useDallE, gen);
    if !generated.outcome.Raised? {
      var after := generated.record.value;
      assert after.status == Success || after.error == Some(ErrorDownloadingFile);
    }
  }

  /**
   * The status is not monotone. Every run whose vision call returns writes
   * RUNNING_ANALYSIS, IDLING and RUNNING_GENERATION to `status`, in that order,
   * and then one last value, which is SUCCESS or ERROR.
   */
  lemma VisionStatusSequence(id: TransactionId, r: Record, useDallE: bool, text: string, gen: Generation)
    ensures VisionStep(id, Some(r), useDallE, Some(text), gen).record.Some?
    ensures var after := VisionStep(id, Some(r), useDallE, Some(text), gen).record.value;
      && after.statusLog == r.statusLog + [RunningAnalysis, Idling, RunningGeneration, after.status]
      && (after.status == Success || after.status == Error)
  {
    var a := Analysed(r, text);
    var running := WithStatus(a, RunningGeneration);
    assert running.statusLog == r.statusLog + [RunningAnalysis, Idling, RunningGeneration];
    var generated := GenerateStep(id, Some(a), useDallE, gen);
    GenerateRaisesIff(id, a, useDallE, gen);
    if generated.outcome.Raised? {
      assert generated.record == Some(running);
    } else {
      var after := generated.record.value;
      assert after.statusLog == running.statusLog + [after.status];
    }
  }

  /** Only the DALL-E path starts the music thread. */
  lemma MusicOnlyOnRemotePath(id: TransactionId, r: Option<Record>, useDallE: bool, vision: Option<string>, gen: Generation)
    ensures VisionStep(id, r, useDallE, vision, gen).musicStarted ==> useDallE && gen.threadStarts
  {
  }

  // ---------------------------------------------------------------------------
  // call_stable_diffusion
  // ---------------------------------------------------------------------------

  /**
   * A successful local generation writes RUNNING_GENERATION, then the
   * pipeline's image to `score`, then SUCCESS, and starts no music.
   */
  lemma DiffusionOutcome(id: TransactionId, r: Record, image: string)
    requires r.analysis.Some?
    ensures DiffusionStep(id, Some(r), Some(image))
         == Step(Some(WithStatus(WithStatus(r, RunningGeneration).(score := Some(image)), Success)), Returned, false)
  {
  }

  // ---------------------------------------------------------------------------
  // store_image
  // ---------------------------------------------------------------------------

  /**
   * The download outcome, once `requests.get` has returned:
   *  - code 200 with a decodable image sets `score` and SUCCESS;
   *  - code 200 with content PIL cannot decode raises and changes nothing;
   *  - any other code sets ERROR_DOWNLOADING_FILE and ERROR, leaves `score`
   *    alone, and returns normally.
   */
  lemma DownloadOutcome(id: TransactionId, r: Record, code: int, png: Option<string>)
    ensures var s := StoreImageStep(id, Some(r), Some(HttpResponse(code, png)));
      && (code == 200 && png.Some? ==>
            s.outcome == Returned && s.record == Some(WithStatus(r.(score := png), Success)))
      && (code == 200 && png.None? ==>
            s.outcome == Raised(ImageDecodeFailed) && s.record == Some(r))
      && (code != 200 ==>
            && s.outcome == Returned
            && s.record == Some(WithStatus(r.(error := Some(ErrorDownloadingFile)), Error))
            && s.record.value.score == r.score)
  {
  }

  /** `store_image` raises only when `requests.get` or PIL does, or when the transaction is missing. */
  lemma StoreImageRaisesIff(id: TransactionId, r: Option<Record>, response: Option<HttpResponse>)
    ensures StoreImageStep(id, r, response).outcome.Raised? <==>
      || response.None?
      || (response.value.statusCode == 200 && response.value.png.None?)
      || r.None?
  {
  }

  /**
   * A rejected download does not stop `call_dall_e`: the entry ends in ERROR
   * with ERROR_DOWNLOADING_FILE, the call returns normally and the music
   * thread is started all the same.
   */
  lemma RejectedDownloadStillStartsMusic(id: TransactionId, r: Record, url: string, code: int, png: Option<string>)
    requires r.analysis.Some? && code != 200
    ensures var s := DallEStep(id, Some(r), Some(url), Some(HttpResponse(code, png)), true);
      && s.outcome == Returned && s.musicStarted
      && s.record.Some? && s.record.value.status == Error
      && s.record.value.error == Some(ErrorDownloadingFile)
  {
  }

  /**
   * Seen from `call_openai_vision`, a rejected download is not a generator
   * failure: the message stays ERROR_DOWNLOADING_FILE, and the music thread
   * runs for a transaction whose status is ERROR.
   */
  lemma RejectedDownloadNotReported(id: TransactionId, r: Record, text: string, url: string, code: int, png: Option<string>)
    requires code != 200
    ensures var s := VisionStep(id, Some(r), true, Some(text), Generation(None, Some(url), Some(HttpResponse(code, png)), true));
      && s.outcome == Returned && s.musicStarted
      && s.record.Some? && s.record.value.status == Error
      && s.record.value.error == Some(ErrorDownloadingFile)
  {
    RejectedDownloadStillStartsMusic(id, Analysed(r, text), url, code, png);
  }

  /**
   * A successful remote generation writes RUNNING_GENERATION, then the
   * downloaded image to `score`, then SUCCESS, and starts the music thread.
   */
  lemma DallEOutcome(id: TransactionId, r: Record, url: string, png: string)
    requires r.analysis.Some?
    ensures DallEStep(id, Some(r), Some(url), Some(HttpResponse(200, Some(png))), true)
         == Step(Some(WithStatus(WithStatus(r, RunningGeneration).(score := Some(png)), Success)), Returned, true)
  {
  }

  // ---------------------------------------------------------------------------
  // The music stage
  // ---------------------------------------------------------------------------

  /** The music task writes `musicStatus` and `generatedMusic` only, and never `status`. */
  lemma MusicTouchesOnlyMusic(id: TransactionId, r: Record, music: Option<seq<byte>>)
    ensures MusicStep(id, Some(r), music).record.Some?
    ensures var after := MusicStep(id, Some(r), music).record.value;
      after.(musicStatus := r.musicStatus, musicLog := r.musicLog, generatedMusic := r.generatedMusic) == r
  {
  }

  /**
   * The music task writes RUNNING_GENERATION, then SUCCESS with the music. When
   * MusicGen raises, nothing catches it, and `musicStatus` stays RUNNING_GENERATION.
   */
  lemma MusicRun(id: TransactionId, r: Record, music: Option<seq<byte>>)
    requires r.analysis.Some?
    ensures var s := MusicStep(id, Some(r), music);
      && s.record.Some?
      && (music.Some? ==>
            && s.outcome == Returned
            && s.record.value.musicLog == r.musicLog + [RunningGeneration, Success]
            && s.record.value.generatedMusic == music)
      && (music.None? ==>
            && s.outcome == Raised(MusicGenFailed)
            && s.record.value.musicLog == r.musicLog + [RunningGeneration]
            && s.record.value.musicStatus == Some(RunningGeneration))
  {
  }

  /** The local Stable Diffusion path never writes `musicStatus` or `generatedMusic`. */
  lemma LocalPathLeavesMusic(id: TransactionId, r: Record, vision: Option<string>, gen: Generation)
    ensures VisionStep(id, Some(r), false, vision, gen).record.Some?
    ensures var after := VisionStep(id, Some(r), false, vision, gen).record.value;
      && after.musicStatus == r.musicStatus
      && after.musicLog == r.musicLog
      && after.generatedMusic == r.generatedMusic
  {
  }

  /**
   * When the thread cannot be started, `call_dall_e` still returns. It ends as
   * it would have with the thread started, except that `musicStatus` is ERROR:
   * `status` is not affected.
   */
  lemma ThreadStartFailure(id: TransactionId, r: Record, url: string, download: Option<HttpResponse>)
    requires DallEStep(id, Some(r), Some(url), download, true).outcome == Returned
    ensures var started := DallEStep(id, Some(r), Some(url), download, true);
      var failed := DallEStep(id, Some(r), Some(url), download, false);
      && started.record.Some?
      && failed.outcome == Returned && !failed.musicStarted
      && failed.record == Some(WithMusicStatus(started.record.value, Error))
      && failed.record.value.status == started.record.value.status
  {
  }
}
