/** The analyses of a whole run of the queue: the worker names its request by job and attempt, and
    handles each claim at most once. */
module GroundingRuns {
  import opened Execution
  import Queue
  import QueueRuns
  import opened Grounding

  /** Each request is that of a claim of its own. */
  predicate AskedOnce(requests: seq<Request>, claims: seq<(JobId, nat)>, at: seq<nat>) {
    && |at| == |requests|
    && (forall i :: 0 <= i < |at| ==> at[i] < |claims| && requests[i].key == RequestKey(claims[at[i]].0, claims[at[i]].1))
    && (forall i, j :: 0 <= i < j < |at| ==> at[i] != at[j])
  }

  lemma ClaimsNameRequests(c: Config, q: Queue.Tables, steps: seq<Queue.Step>, requests: seq<Request>, at: seq<nat>)
    requires Queue.ValidRun(c, q, steps) && AskedOnce(requests, QueueRuns.ClaimKeys(c, q, steps), at)
    ensures KeysDistinct(requests)
  {
    var claims := QueueRuns.ClaimKeys(c, q, steps);
    QueueRuns.ClaimKeysDistinct(c, q, steps);
    forall i, j | 0 <= i < j < |requests| ensures requests[i].key != requests[j].key {
      assert claims[at[i]] != claims[at[j]];
    }
  }

  /** Main result: whatever the queue does, in which order claims are handled and what is answered, the
      verified proposals of a document stay grounded in the texts they were made for. */
  method AnalyseClaims(analysis: Analysis, ghost c: Config, ghost steps: seq<Queue.Step>,
                       requests: seq<Request>, ghost at: seq<nat>)
    requires analysis.Valid() && analysis.KnowledgeGrounded() && analysis.runs == []
    requires Queue.ValidRun(c, Queue.Empty(), steps)
    requires AskedOnce(requests, QueueRuns.ClaimKeys(c, Queue.Empty(), steps), at)
    requires forall i :: 0 <= i < |requests| ==> requests[i].Fits(|analysis.extractions|)
    modifies analysis
    ensures analysis.Valid() && analysis.KnowledgeGrounded()
  {
    ClaimsNameRequests(c, Queue.Empty(), steps, requests, at);
    analysis.AnalyseAll(requests);
  }
}
