/** The session of one request: the log of its provider attempts, finished in place. */
module Cascade {
  import opened Options

  datatype Status = Streaming | FailingOver | Truncated | Complete | ShutDown

  datatype ProviderAttempt = ProviderAttempt(
    provider: string, startedAt: int, endedAt: Option<int>, outcome: string, tokensDeliveredBeforeFailure: int)

  function Started(provider: string, now: int): ProviderAttempt {
    ProviderAttempt(provider, now, None, "", 0)
  }

  class Session {
    var status: Status
    var providerAttempts: seq<ProviderAttempt>
    var finalAttemptTokens: int
    var finalProvider: string

    constructor ()
      ensures status == Streaming && providerAttempts == [] && finalAttemptTokens == 0 && finalProvider == ""
    {
      status, providerAttempts, finalAttemptTokens, finalProvider := Streaming, [], 0, "";
    }

    method StartAttempt(provider: string, now: int) returns (index: int)
      modifies this`providerAttempts
      ensures providerAttempts == old(providerAttempts) + [Started(provider, now)]
      ensures index == |old(providerAttempts)|
    {
      providerAttempts := providerAttempts + [Started(provider, now)];
      return |providerAttempts| - 1;
    }

    /** Only the attempt `index` changes, and only if there is one. */
    method FinishAttempt(index: int, outcome: string, tokensBeforeFailure: int, endedAt: int)
      modifies this`providerAttempts
      ensures |providerAttempts| == |old(providerAttempts)|
      ensures forall i :: 0 <= i < |providerAttempts| ==> var a := old(providerAttempts)[i];
        providerAttempts[i] ==
          if i == index
          then ProviderAttempt(a.provider, a.startedAt, Some(endedAt), outcome, tokensBeforeFailure) else a
    {
      if index < 0 || index >= |providerAttempts| {
        return;
      }
      var a := providerAttempts[index];
      a := a.(outcome := outcome);
      a := a.(endedAt := Some(endedAt));
      a := a.(tokensDeliveredBeforeFailure := tokensBeforeFailure);
      providerAttempts := providerAttempts[index := a];
    }
  }
}
