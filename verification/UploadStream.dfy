/**
 Receiving an upload (filesystem/atomic_upload.go): the request body is read in pieces, hashed, and written
 piece by piece to a staging file; `Close` publishes the file only when everything adds up. The environment of
 one upload is a script: what each read of the request returns, what each write of the file does, and when
 the request is cancelled.
 */
module UploadStream {
  import opened Content

  /** The error of one read: none, the end of the body, or a failure (a size limit has its own status). */
  datatype ReadError = NoError | Eof | Broken | LimitExceeded

  datatype ReadResult = ReadResult(data: seq<byte>, error: ReadError)

  /** One write of the staging file: how many bytes it took, and whether it reported an error. */
  datatype WriteResult = WriteResult(taken: nat, failed: bool)

  /** The body a script delivers up to its end, None when the script breaks off first. */
  function WholeBody(source: seq<ReadResult>): (body: Option<seq<byte>>) {
    if source == [] then None
    else
      match source[0].error
      case Eof => Some(source[0].data)
      case NoError =>
        (match WholeBody(source[1..])
         case None => None
         case Some(rest) => Some(source[0].data + rest))
      case _ => None
  }

  function Concat(source: seq<ReadResult>): (data: seq<byte>) {
    if source == [] then [] else Concat(source[..|source| - 1]) + source[|source| - 1].data
  }

  /** The first `k` reads went well and did not end the body. */
  predicate Flowing(source: seq<ReadResult>, k: nat)
    requires k <= |source|
  {
    forall i :: 0 <= i < k ==> source[i].error == NoError
  }

  lemma {:induction false} ConcatFront(source: seq<ReadResult>)
    requires source != []
    ensures Concat(source) == source[0].data + Concat(source[1..])
  {
    if |source| == 1 {
      assert source[..0] == [] && source[1..] == [];
    } else {
      var init, last := source[..|source| - 1], source[|source| - 1];
      ConcatFront(init);
      assert init[1..] == source[1..][..|source| - 2];
      assert source[1..][|source| - 2] == last;
    }
  }

  /** The whole body is what the reads up to its end deliver, however it is split into reads. */
  lemma {:induction false} WholeBodyIsConcat(source: seq<ReadResult>, k: nat)
    requires k < |source| && Flowing(source, k)
    ensures source[k].error == Eof ==> WholeBody(source) == Some(Concat(source[..k + 1]))
    ensures source[k].error == Broken || source[k].error == LimitExceeded ==> WholeBody(source) == None
  {
    if k == 0 {
      assert [source[0]][..0] == [];
      assert source[..k + 1] == [source[0]] && [] + source[0].data == source[0].data;
    } else {
      assert source[0].error == NoError;
      WholeBodyIsConcat(source[1..], k - 1);
      ConcatFront(source[..k + 1]);
      assert source[..k + 1][1..] == source[1..][..k];
    }
  }

  lemma {:induction false} NoWholeBody(source: seq<ReadResult>)
    requires Flowing(source, |source|)
    ensures WholeBody(source) == None
  {
    if source != [] {
      assert source[0].error == NoError;
      NoWholeBody(source[1..]);
    }
  }

  /** uploadBody: the request body with its running hash and size. The hash state is the bytes hashed so far. */
  class UploadBody {
    const expectedHash: Option<Digest>
    const expectedSize: int
    var hashed: seq<byte>
    var size: int
    var complete: bool
    var error: ReadError
    var status: int

    constructor (expectedHash: Option<Digest>, expectedSize: int)
      ensures this.expectedHash == expectedHash && this.expectedSize == expectedSize
      ensures hashed == [] && size == 0 && !complete && error == NoError && status == 0
    {
      this.expectedHash, this.expectedSize := expectedHash, expectedSize;
      hashed, size, complete, error, status := [], 0, false, NoError, 0;
    }

    predicate Valid() reads this {
      size == |hashed|
    }

    /** Read: whatever the connection returns is counted and hashed, also together with an error. */
    method Read(cancelled: bool, result: ReadResult) returns (data: seq<byte>, err: ReadError)
      requires Valid()
      modifies this
      ensures Valid() && status == old(status)
      ensures cancelled ==>
                data == [] && err == Broken && hashed == old(hashed) && complete == old(complete) && error == Broken
      ensures !cancelled ==>
                && data == result.data && err == result.error
                && hashed == old(hashed) + result.data
                && complete == (old(complete) || result.error == Eof)
                && error == if result.error == NoError || result.error == Eof then old(error) else result.error
    {
      if cancelled {
        error := Broken;
        return [], Broken;
      }
      data, err := result.data, result.error;
      size := size + |data|;
      hashed := hashed + data;
      if err == Eof {
        complete := true;
      } else if err != NoError {
        error := err;
      }
    }

    /** The body arrived in full and is the announced one. */
    predicate Acceptable() reads this {
      && error == NoError && complete
      && (expectedSize >= 0 ==> |hashed| == expectedSize)
      && (expectedHash.Some? ==> Sha256(hashed) == expectedHash.value)
    }

    method Validate(cancelled: bool) returns (ok: bool)
      requires Valid()
      modifies this`status
      ensures ok <==> !cancelled && Acceptable()
      ensures status == if cancelled then 408
                        else if error == LimitExceeded then 413
                        else if error != NoError then 400
                        else if !complete || (expectedSize >= 0 && |hashed| != expectedSize) then 400
                        else if !Acceptable() then 422
                        else old(status)
    {
      if cancelled {
        status := 408;
        return false;
      }
      if error != NoError {
        status := 400;
        if error == LimitExceeded {
          status := 413;
        }
        return false;
      }
      if !complete || (expectedSize >= 0 && size != expectedSize) {
        status := 400;
        return false;
      }
      if expectedHash.Some? && Sha256(hashed) != expectedHash.value {
        status := 422;
        return false;
      }
      ok := true;
    }
  }

  /** atomicUpload: the staging file while it is open. */
  class AtomicUpload {
    var staged: seq<byte>
    var writeError: bool
    var closed: bool

    constructor ()
      ensures staged == [] && !writeError && !closed
    {
      staged, writeError, closed := [], false, false;
    }

    /** Write: a short write counts as a failed one, whatever the file system reports. */
    method Write(p: seq<byte>, result: WriteResult) returns (n: nat, failed: bool)
      modifies this`staged, this`writeError
      ensures n <= |p| && staged == old(staged) + p[..n]
      ensures failed == result.failed
      ensures writeError == (old(writeError) || failed || n != |p|)
      ensures result.taken >= |p| ==> n == |p|
    {
      n := if result.taken < |p| then result.taken else |p|;
      failed := result.failed;
      staged := staged + p[..n];
      if failed {
        writeError := true;
      } else if n != |p| {
        writeError := true;
      }
    }

    /** The checks of Close that come before anything is published. */
    method CloseChecks(body: UploadBody, cancelled: bool) returns (ok: bool)
      requires body.Valid()
      modifies this`closed, body`status
      ensures closed
      ensures ok <==> !old(closed) && !writeError && !cancelled && body.Acceptable()
      ensures !ok && !old(closed) ==> 400 <= body.status <= 500
      ensures ok ==> body.status == old(body.status)
    {
      if closed {
        return false;
      }
      closed := true;
      if writeError {
        body.status := 500;
        return false;
      }
      ok := body.Validate(cancelled);
    }
  }

  /** When reads and writes stop being answered by the script, the connection is broken and writes succeed. */
  function ReadAt(source: seq<ReadResult>, k: nat): (r: ReadResult) {
    if k < |source| then source[k] else ReadResult([], Broken)
  }

  predicate Cancelled(cancelledAt: Option<nat>, step: nat) {
    cancelledAt.Some? && cancelledAt.value <= step
  }

  /** The copy loop of ReadFrom, which io.Copy runs with the body as source and the staging file as sink.
      `taken` counts the reads it made. */
  method CopyBody(body: UploadBody, upload: AtomicUpload, source: seq<ReadResult>, writes: seq<WriteResult>,
                  cancelledAt: Option<nat>)
    returns (taken: nat)
    requires body.Valid() && body.hashed == [] && !body.complete && body.error == NoError
    requires upload.staged == [] && !upload.writeError && !upload.closed
    modifies body, upload`staged, upload`writeError
    ensures body.Valid() && body.status == old(body.status)
    ensures !upload.writeError ==> upload.staged == body.hashed
    ensures body.complete && body.error == NoError ==> WholeBody(source) == Some(body.hashed)
    ensures cancelledAt.None? && WholeBody(source).Some? && !upload.writeError ==>
              body.complete && body.error == NoError
    ensures (forall w :: w in writes ==> !w.failed && w.taken >= MaxPiece(source)) ==> !upload.writeError
  {
    taken := 0;
    var pieces := 0;
    while true
      invariant body.Valid() && body.status == old(body.status)
      invariant taken <= |source| && Flowing(source, taken)
      invariant !body.complete && body.error == NoError && !upload.writeError
      invariant body.hashed == Concat(source[..taken]) && upload.staged == body.hashed
      invariant pieces <= taken
      decreases |source| - taken
    {
      ghost var k := taken;
      var piece := ReadAt(source, taken);
      var data, err := body.Read(Cancelled(cancelledAt, taken), piece);
      if k < |source| {
        assert source[..k + 1][..k] == source[..k];
        WholeBodyIsConcat(source, k);
        PieceBounded(source, k);
      } else {
        NoWholeBody(source);
      }
      if |data| > 0 {
        var result := if pieces < |writes| then writes[pieces] else WriteResult(|data|, false);
        pieces := pieces + 1;
        var n, failed := upload.Write(data, result);
        assert data[..|data|] == data;
        if failed || n != |data| {
          return;
        }
      } else {
        assert data == [];
      }
      if err != NoError {
        return;
      }
      taken := taken + 1;
    }
  }

  /** The longest piece a script delivers. */
  function MaxPiece(source: seq<ReadResult>): (n: nat) {
    if source == [] then 0
    else if |source[0].data| > MaxPiece(source[1..]) then |source[0].data| else MaxPiece(source[1..])
  }

  lemma {:induction false} PieceBounded(source: seq<ReadResult>, k: nat)
    requires k < |source|
    ensures |source[k].data| <= MaxPiece(source)
  {
    if k > 0 {
      PieceBounded(source[1..], k - 1);
    }
  }

  /** Receiving one upload up to the point where it may be published. It is accepted only with the whole body
      of the request in the staging file, of the announced length and digest; without a cancellation or a
      failing write, such a body is accepted. */
  method Receive(expectedHash: Option<Digest>, expectedSize: int, source: seq<ReadResult>, writes: seq<WriteResult>,
                 cancelledAt: Option<nat>)
    returns (staged: seq<byte>, ok: bool, status: int)
    ensures ok ==> WholeBody(source) == Some(staged)
    ensures ok ==>
              && (expectedSize >= 0 ==> |staged| == expectedSize)
              && (expectedHash.Some? ==> Sha256(staged) == expectedHash.value)
    ensures ok ==> status == 0
    ensures !ok ==> 400 <= status <= 500
    ensures cancelledAt.None? && (forall w :: w in writes ==> !w.failed && w.taken >= MaxPiece(source)) ==>
              (ok <==> WholeBody(source).Some? && var body := WholeBody(source).value;
                       (expectedSize >= 0 ==> |body| == expectedSize) &&
                       (expectedHash.Some? ==> Sha256(body) == expectedHash.value))
  {
    var body := new UploadBody(expectedHash, expectedSize);
    var upload := new AtomicUpload();
    var taken := CopyBody(body, upload, source, writes, cancelledAt);
    ok := upload.CloseChecks(body, Cancelled(cancelledAt, taken + 1));
    staged, status := upload.staged, body.status;
  }
}
