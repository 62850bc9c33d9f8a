/** The request executor (`processRequest`): requests are taken from the front
    of the list in waves of at most `AWS_PURGE_PARALLEL_REQUESTS`, each wave is
    executed, and every request is classified once, the first time a
    classification pass finds its transfer handle still attached. The network
    is an oracle: the transfer outcome of the request at position i is given. */
module Executor {
  import opened Base
  import opened RequestBuilder

  /** AWS_PURGE_PARALLEL_REQUESTS */
  const ParallelRequests: nat := 6
  /** CURLE_OK */
  const CurleOk: int := 0
  const HttpNotFound: int := 404

  /** What a transfer reports: cURL's error code and the HTTP status. */
  datatype Transfer = Transfer(curlCode: int, httpCode: int)

  /** The fields `processRequest` records on a classified request. */
  datatype Verdict = Verdict(result: bool, errorCurl: int, errorHttp: int)

  /** A request in `results`; `attached` is the `curl` property, present from
      the moment the request is taken until it has been classified. */
  datatype Slot = Slot(request: Request, attached: bool, verdict: Option<Verdict>)

  /** Classification of one finished transfer: the transport result decides,
      except that an HTTP 404 turns a failure into a success. */
  function Classify(t: Transfer): (v: Verdict)
    ensures v.result <==> t.curlCode == CurleOk || t.httpCode == HttpNotFound
    ensures v.errorCurl == t.curlCode && v.errorHttp == t.httpCode
  {
    var first := Verdict(t.curlCode == CurleOk, t.curlCode, t.httpCode);
    if !first.result && first.errorHttp == HttpNotFound then first.(result := true) else first
  }

  /** The final state of a request once it has been classified. */
  function Settled(r: Request, t: Transfer): Slot {
    Slot(r, false, Some(Classify(t)))
  }

  /** The reference split of `s` into consecutive waves of `k`, the last one
      possibly shorter. */
  function Waves<T>(s: seq<T>, k: nat): seq<seq<T>>
    requires k > 0
    decreases |s|
  {
    if |s| == 0 then []
    else if |s| <= k then [s]
    else [s[..k]] + Waves(s[k..], k)
  }

  /** Waves partition the input in order: concatenated they give it back,
      none is empty, none exceeds k, and all but the last are full. */
  lemma {:induction false} WavesPartition<T>(s: seq<T>, k: nat)
    requires k > 0
    ensures Flatten(Waves(s, k)) == s
    ensures forall w :: 0 <= w < |Waves(s, k)| ==> 0 < |Waves(s, k)[w]| <= k
    ensures forall w :: 0 <= w < |Waves(s, k)| - 1 ==> |Waves(s, k)[w]| == k
    decreases |s|
  {
    if |s| == 0 {
    } else if |s| <= k {
      assert Flatten([s]) == s + Flatten([]);
    } else {
      WavesPartition(s[k..], k);
      var rest := Waves(s[k..], k);
      assert Waves(s, k) == [s[..k]] + rest;
      assert ([s[..k]] + rest)[1..] == rest;
      assert Flatten(Waves(s, k)) == s[..k] + Flatten(rest);
      assert s[..k] + s[k..] == s;
    }
  }

  /** The requests of one wave leave `pending`; they are `pending`'s first
      wave in the reference split. */
  lemma FirstWave<T>(pending: seq<T>, k: nat)
    requires k > 0 && |pending| > 0
    ensures Waves(pending, k) == [pending[..Min(k, |pending|)]] + Waves(pending[Min(k, |pending|)..], k)
  {
    if |pending| <= k {
      assert pending[..|pending|] == pending;
      assert pending[|pending|..] == [];
    }
  }

  /** One wave of `processRequest`'s outer loop: shift up to
      `ParallelRequests` requests off the front of `pending`, attach a
      handle to each and append it to `results`. */
  method TakeWave(pending: seq<Request>, results: seq<Slot>, ghost handled: seq<nat>)
    returns (rest: seq<Request>, results': seq<Slot>, wave: seq<Request>, ghost handled': seq<nat>)
    requires |handled| == |results|
    ensures wave == pending[..Min(ParallelRequests, |pending|)]
    ensures rest == pending[Min(ParallelRequests, |pending|)..]
    ensures |results'| == |results| + |wave| && results'[..|results|] == results
    ensures forall m :: 0 <= m < |wave| ==> results'[|results| + m] == Slot(wave[m], true, None)
    ensures |handled'| == |results'| && handled'[..|handled|] == handled
    ensures forall m :: |handled| <= m < |handled'| ==> handled'[m] == 0
  {
    rest := pending;
    results' := results;
    handled' := handled;
    wave := [];
    var i := 0;
    while i < ParallelRequests
      invariant 0 <= i <= ParallelRequests
      invariant |wave| == Min(i, |pending|)
      invariant wave == pending[..|wave|] && rest == pending[|wave|..]
      invariant |results'| == |results| + |wave| && results'[..|results|] == results
      invariant forall m :: 0 <= m < |wave| ==> results'[|results| + m] == Slot(wave[m], true, None)
      invariant |handled'| == |results'| && handled'[..|handled|] == handled
      invariant forall m :: |handled| <= m < |handled'| ==> handled'[m] == 0
    {
      if |rest| > 0 {
        var rqst := rest[0];
        rest := rest[1..];
        results' := results' + [Slot(rqst, true, None)];
        handled' := handled' + [0];
        wave := wave + [rqst];
      }
      i := i + 1;
    }
  }

  /** The classification pass after a wave: every request whose handle is
      still attached is classified by its own outcome and detached; requests
      classified in earlier waves are skipped. */
  method ClassifyAttached(results: seq<Slot>, outcomes: seq<Transfer>, ghost handled: seq<nat>)
    returns (results': seq<Slot>, ghost handled': seq<nat>)
    requires |handled| == |results| <= |outcomes|
    ensures |results'| == |results| && |handled'| == |handled|
    ensures forall m :: 0 <= m < |results| && results[m].attached ==>
      results'[m] == Slot(results[m].request, false, Some(Classify(outcomes[m]))) && handled'[m] == handled[m] + 1
    ensures forall m :: 0 <= m < |results| && !results[m].attached ==>
      results'[m] == results[m] && handled'[m] == handled[m]
  {
    results' := results;
    handled' := handled;
    var j := 0;
    while j < |results|
      invariant 0 <= j <= |results|
      invariant |results'| == |results| && |handled'| == |handled|
      invariant forall m :: 0 <= m < j && results[m].attached ==>
        results'[m] == Slot(results[m].request, false, Some(Classify(outcomes[m]))) && handled'[m] == handled[m] + 1
      invariant forall m :: 0 <= m < j && !results[m].attached ==> results'[m] == results[m] && handled'[m] == handled[m]
      invariant forall m :: j <= m < |results| ==> results'[m] == results[m] && handled'[m] == handled[m]
    {
      if results'[j].attached {
        var info := outcomes[j];
        results' := results'[j := Slot(results'[j].request, false, Some(Classify(info)))];
        handled' := handled'[j := handled'[j] + 1];
      }
      j := j + 1;
    }
  }

  /** `processRequest`: returns every request classified by its own transfer
      outcome, in input order. The ghost `waves` records the waves it ran
      them in, and the ghost `handled` counts
      how many times each position was classified. */
  method ProcessRequest(requests: seq<Request>, outcomes: seq<Transfer>)
    returns (results: seq<Slot>, ghost waves: seq<seq<Request>>, ghost handled: seq<nat>)
    requires |outcomes| == |requests|
    ensures |results| == |requests|
    ensures forall i :: 0 <= i < |results| ==> results[i] == Settled(requests[i], outcomes[i])
    ensures forall i :: 0 <= i < |results| ==> results[i].verdict.Some? && (results[i].verdict.value.result <==> outcomes[i].curlCode == CurleOk || outcomes[i].httpCode == HttpNotFound)
    ensures waves == Waves(requests, ParallelRequests)
    ensures Flatten(waves) == requests
    ensures forall w :: 0 <= w < |waves| ==> 0 < |waves[w]| <= ParallelRequests
    ensures |handled| == |requests| && forall i :: 0 <= i < |handled| ==> handled[i] == 1
  {
    var pending := requests;
    var unprocessed := |requests|;
    results := [];
    waves := [];
    handled := [];
    while unprocessed > 0
      invariant |results| <= |requests|
      invariant pending == requests[|results|..]
      invariant unprocessed == |pending|
      invariant |handled| == |results|
      invariant forall m :: 0 <= m < |results| ==> results[m] == Settled(requests[m], outcomes[m]) && handled[m] == 1
      invariant waves + Waves(pending, ParallelRequests) == Waves(requests, ParallelRequests)
      decreases unprocessed
    {
      var start := |results|;
      var wave;
      ghost var before := pending;
      pending, results, wave, handled := TakeWave(pending, results, handled);
      unprocessed := unprocessed - |wave|;
      FirstWave(before, ParallelRequests);
      assert forall m :: start <= m < |results| ==> results[m] == Slot(requests[m], true, None) by {
        forall m | start <= m < |results| ensures results[m] == Slot(requests[m], true, None) {
          assert results[m] == Slot(wave[m - start], true, None);
          assert wave[m - start] == before[m - start];
        }
      }
      waves := waves + [wave];
      results, handled := ClassifyAttached(results, outcomes, handled);
    }
    WavesPartition(requests, ParallelRequests);
  }
}
