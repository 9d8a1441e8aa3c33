/** BatchRequest: the id of a ServiceNow batch and the list of operations it carries. */
module BatchRequestDto {
  import opened Wrappers
  import opened BatchOperationDto

  class BatchRequest {
    var batchRequestId: Option<string>
    /** The operations, in the order they were appended. */
    var requests: seq<Operation>

    constructor(batchRequestId: Option<string>)
      ensures this.batchRequestId == batchRequestId && requests == []
    {
      this.batchRequestId := batchRequestId;
      requests := [];
    }

    method SetBatchRequestId(batchRequestId: Option<string>)
      modifies this
      ensures this.batchRequestId == batchRequestId && requests == old(requests)
    {
      this.batchRequestId := batchRequestId;
    }

    /** getRequests().add(op): the live list grows at its end. */
    method Add(op: BatchOperation)
      modifies this
      ensures requests == old(requests) + [op.Snapshot()]
      ensures batchRequestId == old(batchRequestId)
    {
      requests := requests + [op.Snapshot()];
    }
  }
}
