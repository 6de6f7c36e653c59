/**
 * The video-generation request of the video screen (components/VideoSession.tsx): the
 * state fields `handleGenerate` resets and finalises, the poll-until-done loop, and the
 * classification of the error a failed request ends with.
 *
 * The video service, the key selector, the file reader and the download are inputs: an
 * `Env` says what each of them answers.
 */
module Video {
  import opened Types

  // ---------------------------------------------------------------------------------------
  // Error classification
  // ---------------------------------------------------------------------------------------

  /** "Terjadi kesalahan tak terduga selama pembuatan.", written word by word. */
  const FALLBACK_MESSAGE: string := "Terjadi " + "kesalahan " + "tak terduga " + "selama " + "pembuatan."
  const NOT_FOUND_TEXT: string := "Requested entity was not found"
  const ACCESS_MESSAGE: string := "Akses ditolak. Silakan periksa apakah Kunci API Anda valid dan memiliki akses ke Veo."
  const QUOTA_MESSAGE: string := "Batas kuota terlampaui. Silakan periksa detail penagihan proyek Google Cloud Anda."
  const NO_URI_MESSAGE: string := "No video URI returned from operation"
  const DOWNLOAD_FAILED_MESSAGE: string := "Failed to download video content"

  /** A caught error: its `message` (empty when absent) and its numeric `status` and `code`. */
  datatype GenError = GenError(message: string, status: Option<int>, code: Option<int>)

  /** The error state `catch` leaves: the text shown and whether it is a key error. */
  datatype Classified = Classified(message: string, keyError: bool)

  /** `p` occurs in `s` starting at position `i`. */
  predicate OccursAt(s: string, p: string, i: nat)
  {
    i + |p| <= |s| && s[i..i + |p|] == p
  }

  /** `p` occurs in `s` at some position: the meaning of `s.includes(p)`. */
  ghost predicate Occurs(s: string, p: string)
  {
    exists i: nat :: OccursAt(s, p, i)
  }

  /** `String.prototype.includes`, searching from the front. */
  function Includes(s: string, p: string): bool
    decreases |s|
  {
    if |s| < |p| then false
    else s[..|p|] == p || (s != [] && Includes(s[1..], p))
  }

  lemma {:induction false} IncludesIffOccurs(s: string, p: string)
    ensures Includes(s, p) <==> Occurs(s, p)
    decreases |s|
  {
    if |s| >= |p| {
      if s[..|p|] == p {
        assert OccursAt(s, p, 0);
      } else {
        assert s != [];
        IncludesIffOccurs(s[1..], p);
        if Occurs(s[1..], p) {
          var i: nat :| OccursAt(s[1..], p, i);
          assert s[i + 1..i + 1 + |p|] == s[1..][i..i + |p|];
          assert OccursAt(s, p, i + 1);
        }
        if Occurs(s, p) {
          var i: nat :| OccursAt(s, p, i);
          assert i != 0;
          assert s[1..][i - 1..i - 1 + |p|] == s[i..i + |p|];
          assert OccursAt(s[1..], p, i - 1);
        }
      }
    }
  }

  /** A non-empty text occurs only where its first character does. */
  lemma OccursFirstChar(s: string, p: string)
    requires p != [] && Occurs(s, p)
    ensures p[0] in s
  {
    var i: nat :| OccursAt(s, p, i);
    assert s[i] == s[i..i + |p|][0];
  }

  /** `err.message || fallback`. */
  function RawMessage(e: GenError): string
  {
    if e.message != "" then e.message else FALLBACK_MESSAGE
  }

  /** The `catch` block of `handleGenerate`. */
  function ClassifyError(e: GenError): (c: Classified)
    ensures c.message != ""
  {
    var msg := RawMessage(e);
    if Includes(msg, NOT_FOUND_TEXT) || e.status == Some(404) || e.code == Some(404) then
      Classified(ACCESS_MESSAGE, true)
    else if Includes(msg, "429") || Includes(msg, "quota") || e.status == Some(429) || e.code == Some(429) then
      Classified(QUOTA_MESSAGE, false)
    else
      Classified(msg, false)
  }

  /** A character that none of the words of the fallback text holds is not in it. */
  lemma NotInFallback(c: char)
    requires c !in "Terjadi " && c !in "kesalahan " && c !in "tak terduga "
    requires c !in "selama " && c !in "pembuatan."
    ensures c !in FALLBACK_MESSAGE
  {
  }

  /** `R`, `4` and `q` are not in the fallback text. */
  lemma FallbackLacks(c: char)
    requires c == 'R' || c == '4' || c == 'q'
    ensures c !in FALLBACK_MESSAGE
  {
    if c == 'R' {
      NotInFallback('R');
    } else if c == '4' {
      NotInFallback('4');
    } else {
      NotInFallback('q');
    }
  }

  /** A text without `R`, `4` and `q` mentions none of the texts the classification looks for. */
  lemma UnclassifiedText(s: string)
    requires 'R' !in s && '4' !in s && 'q' !in s
    ensures !Occurs(s, NOT_FOUND_TEXT) && !Occurs(s, "429") && !Occurs(s, "quota")
  {
    if Occurs(s, NOT_FOUND_TEXT) {
      OccursFirstChar(s, NOT_FOUND_TEXT);
    }
    if Occurs(s, "429") {
      OccursFirstChar(s, "429");
    }
    if Occurs(s, "quota") {
      OccursFirstChar(s, "quota");
    }
  }

  /** The fallback text mentions none of the texts the classification looks for. */
  lemma FallbackUnclassified()
    ensures !Occurs(FALLBACK_MESSAGE, NOT_FOUND_TEXT)
    ensures !Occurs(FALLBACK_MESSAGE, "429") && !Occurs(FALLBACK_MESSAGE, "quota")
  {
    FallbackLacks('R');
    FallbackLacks('4');
    FallbackLacks('q');
    UnclassifiedText(FALLBACK_MESSAGE);
  }

  /** The error is a not-found error: by its text, its status or its code. */
  ghost predicate NotFoundError(e: GenError)
  {
    Occurs(e.message, NOT_FOUND_TEXT) || e.status == Some(404) || e.code == Some(404)
  }

  /** The error is a quota error: by its text, its status or its code. */
  ghost predicate QuotaError(e: GenError)
  {
    Occurs(e.message, "429") || Occurs(e.message, "quota") || e.status == Some(429) || e.code == Some(429)
  }

  lemma ClassifyTests(e: GenError)
    ensures (Includes(RawMessage(e), NOT_FOUND_TEXT) || e.status == Some(404) || e.code == Some(404)) <==> NotFoundError(e)
    ensures (Includes(RawMessage(e), "429") || Includes(RawMessage(e), "quota") || e.status == Some(429) || e.code == Some(429)) <==> QuotaError(e)
  {
    IncludesIffOccurs(RawMessage(e), NOT_FOUND_TEXT);
    IncludesIffOccurs(RawMessage(e), "429");
    IncludesIffOccurs(RawMessage(e), "quota");
    if e.message == "" {
      FallbackUnclassified();
      assert !Occurs(e.message, NOT_FOUND_TEXT) && !Occurs(e.message, "429") && !Occurs(e.message, "quota");
    }
  }

  /**
   * A not-found error, by text, status or code, is a key error shown with the
   * access-denied text, and it is the only kind that sets the key-error flag.
   */
  lemma NotFoundIsKeyError(e: GenError)
    ensures ClassifyError(e).keyError <==> NotFoundError(e)
    ensures NotFoundError(e) ==> ClassifyError(e) == Classified(ACCESS_MESSAGE, true)
  {
    ClassifyTests(e);
  }

  /** The not-found test comes first: an error that is both is a key error. */
  lemma NotFoundBeforeQuota(e: GenError)
    requires NotFoundError(e) && QuotaError(e)
    ensures ClassifyError(e) == Classified(ACCESS_MESSAGE, true)
  {
    ClassifyTests(e);
  }

  /** A quota error that is not a not-found error shows the quota text and is no key error. */
  lemma QuotaClassified(e: GenError)
    requires !NotFoundError(e) && QuotaError(e)
    ensures ClassifyError(e) == Classified(QUOTA_MESSAGE, false)
  {
    ClassifyTests(e);
  }

  /** Any other error shows its own message, or the fallback text when it has none. */
  lemma OtherErrorsKeepMessage(e: GenError)
    requires !NotFoundError(e) && !QuotaError(e)
    ensures ClassifyError(e) == Classified(if e.message != "" then e.message else FALLBACK_MESSAGE, false)
  {
    ClassifyTests(e);
  }

  // ---------------------------------------------------------------------------------------
  // The request
  // ---------------------------------------------------------------------------------------

  const CHECKING_KEY_STATUS: string := "Memeriksa izin Kunci API..."
  const INITIALISING_STATUS: string := "Menginisialisasi pembuatan Veo 3.1..."
  const DESIGNING_STATUS: string := "Sedang merancang video Anda... Ini mungkin memakan waktu sejenak."
  const RENDERING_STATUS: string := "Merender frame video..."
  const DOWNLOADING_STATUS: string := "Mengunduh video final..."

  /** A call that returns a value or throws. */
  datatype Attempt<T> = Ok(value: T) | Failed(err: GenError)

  /** A long-running generation: whether it is done, and the URI of its first video. */
  datatype Operation = Operation(done: bool, videoUri: Option<string>)

  /** The download of the finished video: whether the response was ok, and the object URL made from it. */
  datatype Download = Download(ok: bool, objectUrl: string)

  /**
   * What the outside world answers during one `handleGenerate`: the key check (and key
   * selection) failing or not, reading the reference image failing or not, the
   * `generateVideos` call, the successive `getVideosOperation` replies, and the download.
   */
  datatype Env = Env(
    keyCheck: Option<GenError>,
    imageRead: Option<GenError>,
    generate: Attempt<Operation>,
    polls: seq<Attempt<Operation>>,
    download: Attempt<Download>)

  /** How the poll loop ends: with a done operation, with a failed poll, or still waiting. */
  datatype PollResult = Done(op: Operation) | PollFailed(err: GenError) | StillPolling

  /** The poll loop from `op` on, with `polls` the replies still to come. */
  function Poll(op: Operation, polls: seq<Attempt<Operation>>): PollResult
    decreases |polls|
  {
    if op.done then Done(op)
    else if polls == [] then StillPolling
    else match polls[0]
      case Ok(next) => Poll(next, polls[1..])
      case Failed(err) => PollFailed(err)
  }

  /** The loop ends only once it has seen a done operation. */
  lemma {:induction false} PollEndsDone(op: Operation, polls: seq<Attempt<Operation>>)
    ensures Poll(op, polls).Done? ==> Poll(op, polls).op.done
    decreases |polls|
  {
    if !op.done && polls != [] && polls[0].Ok? {
      PollEndsDone(polls[0].value, polls[1..]);
    }
  }

  /** Once the loop has ended, replies that were never asked for change nothing. */
  lemma {:induction false} PollIgnoresLaterReplies(op: Operation, polls: seq<Attempt<Operation>>, more: seq<Attempt<Operation>>)
    requires !Poll(op, polls).StillPolling?
    ensures Poll(op, polls + more) == Poll(op, polls)
    decreases |polls|
  {
    if !op.done {
      assert polls != [];
      assert (polls + more)[0] == polls[0];
      if polls[0].Ok? {
        assert (polls + more)[1..] == polls[1..] + more;
        PollIgnoresLaterReplies(polls[0].value, polls[1..], more);
      }
    }
  }

  /** The outcome of `handleGenerate`: still awaiting a poll, a video, or an error. */
  datatype Outcome = Pending | Succeeded(url: string) | Threw(err: GenError)

  /** `operation.response?.generatedVideos?.[0]?.video?.uri` is truthy. */
  predicate HasUri(op: Operation)
  {
    op.videoUri.Some? && op.videoUri.value != ""
  }

  /** What happens after the loop: no usable URI is an error; a failed download is one too. */
  function Fetch(op: Operation, download: Attempt<Download>): Outcome
  {
    if !HasUri(op) then Threw(GenError(NO_URI_MESSAGE, None, None))
    else match download
      case Failed(err) => Threw(err)
      case Ok(d) => if d.ok then Succeeded(d.objectUrl) else Threw(GenError(DOWNLOAD_FAILED_MESSAGE, None, None))
  }

  /** The `try` block of `handleGenerate`, given whether a reference image is selected. */
  function Generate(hasImage: bool, env: Env): Outcome
  {
    if env.keyCheck.Some? then Threw(env.keyCheck.value)
    else if hasImage && env.imageRead.Some? then Threw(env.imageRead.value)
    else match env.generate
      case Failed(err) => Threw(err)
      case Ok(op) =>
        match Poll(op, env.polls)
        case StillPolling => Pending
        case PollFailed(err) => Threw(err)
        case Done(last) => Fetch(last, env.download)
  }

  /**
   * A video is only ever produced from an operation seen done whose URI is present, and
   * a finished operation without a URI always ends in the no-URI error.
   */
  lemma SuccessNeedsUri(hasImage: bool, env: Env)
    ensures Generate(hasImage, env).Succeeded? ==>
      env.generate.Ok? && Poll(env.generate.value, env.polls).Done? &&
      Poll(env.generate.value, env.polls).op.done && HasUri(Poll(env.generate.value, env.polls).op) &&
      env.download == Ok(Download(true, Generate(hasImage, env).url))
    ensures env.keyCheck.None? && !(hasImage && env.imageRead.Some?) && env.generate.Ok? &&
      Poll(env.generate.value, env.polls).Done? && !HasUri(Poll(env.generate.value, env.polls).op)
      ==> Generate(hasImage, env) == Threw(GenError(NO_URI_MESSAGE, None, None))
  {
    if env.generate.Ok? {
      PollEndsDone(env.generate.value, env.polls);
    }
  }

  /** Without a reference image, a failure to read one cannot occur. */
  lemma ImageReadOnlyWithImage(env: Env, failure: Option<GenError>)
    ensures Generate(false, env) == Generate(false, env.(imageRead := failure))
  {
  }

  // ---------------------------------------------------------------------------------------
  // The screen state
  // ---------------------------------------------------------------------------------------

  /** The state of the video screen that the handlers change. */
  class VideoSession {
    var error: Option<string>
    var isKeyError: bool
    var videoUri: Option<string>
    var isGenerating: bool
    var statusMessage: string
    var hasImage: bool              // `selectedImage !== null`

    constructor ()
      ensures error.None? && !isKeyError && videoUri.None? && !isGenerating && statusMessage == "" && !hasImage
    {
      error := None;
      isKeyError := false;
      videoUri := None;
      isGenerating := false;
      statusMessage := "";
      hasImage := false;
    }

    /** `handleImageSelect` with a chosen file: the previous video is dropped. */
    method HandleImageSelect()
      modifies this`hasImage, this`videoUri
      ensures hasImage && videoUri.None?
    {
      hasImage := true;
      videoUri := None;
    }

    /**
     * `handleChangeKey`: when the key selector exists and opens without throwing, the
     * error and the key-error flag are cleared; otherwise nothing changes.
     */
    method HandleChangeKey(hasSelector: bool, selectorThrows: bool)
      modifies this`error, this`isKeyError
      ensures hasSelector && !selectorThrows ==> error.None? && !isKeyError
      ensures !(hasSelector && !selectorThrows) ==> error == old(error) && isKeyError == old(isKeyError)
    {
      if hasSelector && !selectorThrows {
        error := None;
        isKeyError := false;
      }
    }

    /**
     * `handleGenerate` against the answers in `env`. When it finishes, generation is off
     * and the status is cleared on every path; a success shows the video with no error,
     * a failure shows the classified error with no video. When the poll replies run out
     * first, the request is still waiting for the next poll.
     */
    method HandleGenerate(env: Env) returns (finished: bool)
      modifies this`error, this`isKeyError, this`videoUri, this`isGenerating, this`statusMessage
      ensures finished == !Generate(hasImage, env).Pending?
      ensures finished ==> !isGenerating && statusMessage == ""
      ensures Generate(hasImage, env).Succeeded? ==>
        videoUri == Some(Generate(hasImage, env).url) && error.None? && !isKeyError
      ensures Generate(hasImage, env).Threw? ==>
        var c := ClassifyError(Generate(hasImage, env).err);
        videoUri.None? && error == Some(c.message) && isKeyError == c.keyError
      ensures !finished ==>
        isGenerating && statusMessage == RENDERING_STATUS && error.None? && !isKeyError && videoUri.None?
    {
      error := None;
      isKeyError := false;
      videoUri := None;
      isGenerating := true;
      statusMessage := CHECKING_KEY_STATUS;

      var outcome := Attempted(env);
      finished := !outcome.Pending?;
      if outcome.Pending? {
        return;
      }
      if outcome.Succeeded? {
        videoUri := Some(outcome.url);
      } else {
        var c := ClassifyError(outcome.err);
        error := Some(c.message);
        if c.keyError {
          isKeyError := true;
        }
      }
      isGenerating := false;
      statusMessage := "";
    }

    /** The `try` block: the calls in order, and the poll loop. */
    method Attempted(env: Env) returns (outcome: Outcome)
      modifies this`statusMessage
      ensures outcome == Generate(hasImage, env)
      ensures outcome.Pending? ==> statusMessage == RENDERING_STATUS
    {
      if env.keyCheck.Some? {
        return Threw(env.keyCheck.value);
      }
      statusMessage := INITIALISING_STATUS;
      if hasImage && env.imageRead.Some? {
        return Threw(env.imageRead.value);
      }
      if env.generate.Failed? {
        return Threw(env.generate.err);
      }
      var operation := env.generate.value;
      statusMessage := DESIGNING_STATUS;
      ghost var first := operation;
      var k := 0;
      var isDone := false;
      while !isDone
        invariant 0 <= k <= |env.polls|
        invariant Poll(first, env.polls) == Poll(operation, env.polls[k..])
        invariant isDone ==> operation.done
        invariant k > 0 ==> statusMessage == RENDERING_STATUS
        decreases |env.polls| - k, if isDone then 0 else 1
      {
        if operation.done {
          isDone := true;
          break;
        }
        statusMessage := RENDERING_STATUS;
        if k == |env.polls| {
          // the next reply has not arrived: the request is still running
          return Pending;
        }
        var reply := env.polls[k];
        if reply.Failed? {
          return Threw(reply.err);
        }
        assert env.polls[k..][1..] == env.polls[k + 1..];
        operation := reply.value;
        k := k + 1;
      }
      if HasUri(operation) {
        statusMessage := DOWNLOADING_STATUS;
        if env.download.Failed? {
          return Threw(env.download.err);
        }
        if !env.download.value.ok {
          return Threw(GenError(DOWNLOAD_FAILED_MESSAGE, None, None));
        }
        return Succeeded(env.download.value.objectUrl);
      } else {
        return Threw(GenError(NO_URI_MESSAGE, None, None));
      }
    }
  }
}
