/** The attachment upload route: validates the form, then tries the storage network up to three
    times, stopping early on success or on a maintenance error and backing off linearly after
    other failures, and finally classifies the outcome as 200, 400, 503 or 500. */
module Upload {
  import opened Wrappers
  import opened Text
  import opened Http
  import opened Hedera

  const MaxAttempts: nat := 3
  const TokenVar := "WEB3_STORAGE_TOKEN"
  const DefaultError := "Failed to upload to IPFS"
  const FileRequired := "file is required as multipart/form-data"
  const MaintenanceError := "Web3.Storage is undergoing maintenance. Please try again later or proceed without attaching a file."
  const MaintenanceCode := "WEB3_STORAGE_MAINTENANCE"

  /** The `file` entry of the multipart form: absent, a text value, or a file (a Blob). */
  datatype FormEntry = Missing | TextValue(text: string) | FileBlob(name: string)

  /** One `client.put` call: it stores the file and returns its CID, or throws an error whose
      `message` may be absent. */
  datatype PutReply = Stored(cid: string) | PutThrew(message: Option<string>)

  datatype UploadBody =
    | CidBody(cid: string)
    | ErrorBody(error: string)
    | MaintenanceBody(error: string, code: string)

  /** The lower-cased error message mentions "maintenance". */
  predicate IsMaintenance(message: Option<string>)
  {
    Contains(Lower(MessageOr(message, "")), "maintenance")
  }

  /** The loop stops after this reply: a success returns, a maintenance error breaks. */
  predicate Stops(reply: PutReply)
  {
    reply.Stored? || IsMaintenance(reply.message)
  }

  /** The first attempt at or after `from` (and before the third) after which the loop stops. */
  function StopFrom(put: nat -> PutReply, from: nat): (k: Option<nat>)
    requires from <= MaxAttempts
    ensures k.Some? ==> from <= k.value < MaxAttempts && Stops(put(k.value))
    ensures forall j :: from <= j < MaxAttempts && (k.None? || j < k.value) ==> !Stops(put(j))
    decreases MaxAttempts - from
  {
    if from == MaxAttempts then None
    else if Stops(put(from)) then Some(from)
    else StopFrom(put, from + 1)
  }

  function StopIndex(put: nat -> PutReply): Option<nat>
  {
    StopFrom(put, 0)
  }

  /** How many times `client.put` is called: up to and including the stopping attempt, or all three. */
  function AttemptCount(put: nat -> PutReply): (n: nat)
    ensures 1 <= n <= MaxAttempts
  {
    match StopIndex(put)
    case Some(k) => k + 1
    case None => MaxAttempts
  }

  /** The reference outcome of the retry policy once the form and the token are in order. */
  function RetryResponse(put: nat -> PutReply): Response<UploadBody>
  {
    match StopIndex(put)
    case Some(k) =>
      if put(k).Stored? then Response(StatusOk, CidBody(put(k).cid))
      else Response(StatusUnavailable, MaintenanceBody(MaintenanceError, MaintenanceCode))
    case None =>
      Response(StatusServerError, ErrorBody(MessageOr(put(MaxAttempts - 1).message, DefaultError)))
  }

  /** The default error message does not mention maintenance. */
  lemma DefaultIsNotMaintenance()
    ensures !Contains(Lower(DefaultError), "maintenance")
  {
    var lowered := Lower(DefaultError);
    assert forall i :: 0 <= i < |lowered| ==> lowered[i] != 'm';
    if Contains(lowered, "maintenance") {
      ContainsFirstChar(lowered, "maintenance");
    }
  }

  /** `POST /api/storage/upload`. `put(i)` is the storage network's reply to the `i`-th attempt.
      Besides the response it reports how many attempts were made and the backoff waits, in
      milliseconds, in the order they happened. */
  method Post(file: FormEntry, env: Env, put: nat -> PutReply) returns (resp: Response<UploadBody>, attempts: nat, waits: seq<nat>)
    ensures !file.FileBlob? ==> resp == Response(StatusBadRequest, ErrorBody(FileRequired)) && attempts == 0 && waits == []
    ensures file.FileBlob? && GetRequiredEnv(env, TokenVar).Err? ==>
      resp == Response(StatusServerError, ErrorBody(GetRequiredEnv(env, TokenVar).error)) && attempts == 0 && waits == []
    ensures file.FileBlob? && GetRequiredEnv(env, TokenVar).Ok? ==>
      && resp == RetryResponse(put)
      && attempts == AttemptCount(put)
      && |waits| == (if StopIndex(put).Some? then StopIndex(put).value else MaxAttempts)
      && forall j :: 0 <= j < |waits| ==> waits[j] == 500 * (j + 1)
    ensures attempts <= MaxAttempts
  {
    attempts, waits := 0, [];
    if !file.FileBlob? {
      resp := Response(StatusBadRequest, ErrorBody(FileRequired));
      return;
    }
    var token := GetRequiredEnv(env, TokenVar);
    if token.Err? {
      resp := Response(StatusServerError, ErrorBody(token.error));
      return;
    }

    var lastError: Option<Option<string>> := None;
    var i := 0;
    while i < MaxAttempts
      invariant 0 <= i <= MaxAttempts && attempts == i
      invariant forall j :: 0 <= j < i ==> !Stops(put(j))
      invariant StopIndex(put) == StopFrom(put, i)
      invariant |waits| == i && forall j :: 0 <= j < i ==> waits[j] == 500 * (j + 1)
      invariant if i == 0 then lastError == None else lastError == Some(put(i - 1).message)
    {
      attempts := attempts + 1;
      var reply := put(i);
      if reply.Stored? {
        resp := Response(StatusOk, CidBody(reply.cid));
        return;
      }
      lastError := Some(reply.message);
      var msg := Lower(MessageOr(reply.message, ""));
      if Contains(msg, "maintenance") {
        break;
      }
      waits := waits + [500 * (i + 1)];
      i := i + 1;
    }

    var message := MessageOr(if lastError.Some? then lastError.value else None, DefaultError);
    var isMaintenance := Contains(Lower(message), "maintenance");
    DefaultIsNotMaintenance();
    if isMaintenance {
      resp := Response(StatusUnavailable, MaintenanceBody(MaintenanceError, MaintenanceCode));
    } else {
      resp := Response(StatusServerError, ErrorBody(message));
    }
  }

  /** The first successful attempt, with no maintenance error before it, returns 200 with its CID,
      and no attempt follows it. */
  lemma FirstSuccessWins(put: nat -> PutReply, k: nat)
    requires k < MaxAttempts && put(k).Stored?
    requires forall j :: 0 <= j < k ==> !Stops(put(j))
    ensures RetryResponse(put) == Response(StatusOk, CidBody(put(k).cid))
    ensures AttemptCount(put) == k + 1
  {
    StopAt(put, k);
  }

  /** A maintenance error stops the retries at once and gives 503 with the maintenance code. */
  lemma MaintenanceStopsRetrying(put: nat -> PutReply, k: nat)
    requires k < MaxAttempts && put(k).PutThrew? && IsMaintenance(put(k).message)
    requires forall j :: 0 <= j < k ==> !Stops(put(j))
    ensures RetryResponse(put) == Response(StatusUnavailable, MaintenanceBody(MaintenanceError, MaintenanceCode))
    ensures AttemptCount(put) == k + 1
  {
    StopAt(put, k);
  }

  /** The loop stops at the first attempt whose reply stops it. */
  lemma StopAt(put: nat -> PutReply, k: nat)
    requires k < MaxAttempts && Stops(put(k))
    requires forall j :: 0 <= j < k ==> !Stops(put(j))
    ensures StopIndex(put) == Some(k)
  {
  }

  /** Without success the response is 503 iff the last error mentions maintenance; otherwise it
      is 500 with the last error's message, or the default message when that is empty. */
  lemma FailureClassification(put: nat -> PutReply)
    requires forall j :: 0 <= j < AttemptCount(put) ==> put(j).PutThrew?
    ensures var last := put(AttemptCount(put) - 1).message;
            && (RetryResponse(put).status == StatusUnavailable <==> IsMaintenance(last))
            && (!IsMaintenance(last) ==>
                 RetryResponse(put) == Response(StatusServerError, ErrorBody(MessageOr(last, DefaultError))))
  {
  }

  /** Three failures without maintenance: three attempts, each followed by a wait (the last one
      too), and a 500 carrying the third error's message. */
  lemma AllAttemptsFail(put: nat -> PutReply)
    requires forall j :: 0 <= j < MaxAttempts ==> !Stops(put(j))
    ensures AttemptCount(put) == MaxAttempts
    ensures StopIndex(put).None?
    ensures RetryResponse(put) == Response(StatusServerError, ErrorBody(MessageOr(put(2).message, DefaultError)))
  {
  }

  /** The route answers with one of four statuses. */
  method PostStatuses(file: FormEntry, env: Env, put: nat -> PutReply) returns (status: int)
    ensures status in {StatusOk, StatusBadRequest, StatusUnavailable, StatusServerError}
  {
    var resp, _, _ := Post(file, env, put);
    status := resp.status;
  }
}
