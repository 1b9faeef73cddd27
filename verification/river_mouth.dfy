/**
 * The river mouth of the 'simple' strategy: it receives structured objects through
 * create, index and delete and hands one request per object to the bulk processor.
 * Every method is proved to have exactly the effect `MouthState.Step` gives the
 * matching call, so the lemmas of `MouthState` hold of any sequence of method calls.
 */
module RiverMouth {
  import opened Wrappers
  import opened Requests
  import M = MouthState

  class SimpleRiverMouth {
    // Sticky defaults for the target of the next request.
    var index: Option<string>
    var docType: Option<string>
    var id: Option<string>
    // Settings.
    var maxBulkActions: int
    var maxConcurrentBulkRequests: int
    var versioning: bool
    var acknowledge: bool
    // What the bulk listener maintains.
    var outstanding: int
    var error: bool
    // The bulk processor: its settings once a client is given, and every request added to it.
    var bulk: Option<M.BulkConfig>
    var pending: seq<Request>

    /** The whole state of this mouth as a value. */
    function Snapshot(): M.State
      reads this
    {
      M.State(index, docType, id, maxBulkActions, maxConcurrentBulkRequests, versioning,
              acknowledge, outstanding, error, bulk, pending)
    }

    constructor ()
      ensures Snapshot() == M.Initial()
    {
      index, docType, id := None, None, None;
      maxBulkActions, maxConcurrentBulkRequests := 100, 30;
      versioning, acknowledge := false, false;
      outstanding, error := 0, false;
      bulk, pending := None, [];
    }

    // -------------------------------------------------------------------------
    // Bulk listener
    // -------------------------------------------------------------------------

    method BeforeBulk()
      modifies this
      ensures Snapshot() == M.Step(old(Snapshot()), M.BeforeBulk)
      ensures outstanding == old(outstanding) + 1 && error == old(error)
    {
      outstanding := outstanding + 1;
    }

    /** Success: the request is no longer outstanding; item failures do not latch. */
    method AfterBulk()
      modifies this
      ensures Snapshot() == M.Step(old(Snapshot()), M.AfterBulk)
      ensures outstanding == old(outstanding) - 1 && error == old(error)
    {
      outstanding := outstanding - 1;
    }

    /** Whole-request failure: the request is no longer outstanding and the latch is set. */
    method AfterBulkFailure()
      modifies this
      ensures Snapshot() == M.Step(old(Snapshot()), M.AfterBulkFailure)
      ensures outstanding == old(outstanding) - 1 && error
    {
      outstanding := outstanding - 1;
      error := true;
    }

    // -------------------------------------------------------------------------
    // Client, setters and getters
    // -------------------------------------------------------------------------

    /**
     * Builds the bulk processor from the current settings; `healthTimedOut` is the outcome
     * of waiting for the cluster, which sets the latch when it timed out.
     */
    method Client(healthTimedOut: bool)
      modifies this
      ensures Snapshot() == M.Step(old(Snapshot()), M.Client(healthTimedOut))
      ensures bulk == Some(M.BulkConfig(old(maxBulkActions) - 1, old(maxConcurrentBulkRequests), M.FlushIntervalSeconds))
      ensures error == (old(error) || healthTimedOut)
    {
      bulk := Some(M.BulkConfig(maxBulkActions - 1, maxConcurrentBulkRequests, M.FlushIntervalSeconds));
      if healthTimedOut {
        error := true;
      }
    }

    method SetIndex(v: Option<string>)
      modifies this
      ensures Snapshot() == M.Step(old(Snapshot()), M.SetIndex(v))
    {
      index := v;
    }

    method GetIndex() returns (v: Option<string>)
      ensures v == index
    {
      v := index;
    }

    method SetType(v: Option<string>)
      modifies this
      ensures Snapshot() == M.Step(old(Snapshot()), M.SetType(v))
    {
      docType := v;
    }

    method GetType() returns (v: Option<string>)
      ensures v == docType
    {
      v := docType;
    }

    method SetId(v: Option<string>)
      modifies this
      ensures Snapshot() == M.Step(old(Snapshot()), M.SetId(v))
    {
      id := v;
    }

    method GetId() returns (v: Option<string>)
      ensures v == id
    {
      v := id;
    }

    method SetMaxBulkActions(n: int)
      modifies this
      ensures Snapshot() == M.Step(old(Snapshot()), M.SetMaxBulkActions(n))
    {
      maxBulkActions := n;
    }

    method GetMaxBulkActions() returns (n: int)
      ensures n == maxBulkActions
    {
      n := maxBulkActions;
    }

    method SetMaxConcurrentBulkRequests(n: int)
      modifies this
      ensures Snapshot() == M.Step(old(Snapshot()), M.SetMaxConcurrentBulkRequests(n))
    {
      maxConcurrentBulkRequests := n;
    }

    method GetMaxConcurrentBulkRequests() returns (n: int)
      ensures n == maxConcurrentBulkRequests
    {
      n := maxConcurrentBulkRequests;
    }

    method SetVersioning(enable: bool)
      modifies this
      ensures Snapshot() == M.Step(old(Snapshot()), M.SetVersioning(enable))
    {
      versioning := enable;
    }

    method GetVersioning() returns (enabled: bool)
      ensures enabled == versioning
    {
      enabled := versioning;
    }

    method SetAcknowledge(enable: bool)
      modifies this
      ensures Snapshot() == M.Step(old(Snapshot()), M.SetAcknowledge(enable))
    {
      acknowledge := enable;
    }

    method GetAcknowledge() returns (enabled: bool)
      ensures enabled == acknowledge
    {
      enabled := acknowledge;
    }

    // -------------------------------------------------------------------------
    // Ingestion
    // -------------------------------------------------------------------------

    /**
     * Unless latched, resolves the defaults and adds one index request; the processor
     * must exist whenever a request is added.
     */
    method IndexAs(obj: StructuredObject, create: bool)
      requires bulk.Some? || !M.AddsRequest(Snapshot(), M.IndexAs(obj, create))
      modifies this
      ensures Snapshot() == M.Step(old(Snapshot()), M.IndexAs(obj, create))
    {
      if error {
        return;
      }
      if HasLength(obj.index) {
        SetIndex(obj.index);
      }
      if HasLength(obj.docType) {
        SetType(obj.docType);
      }
      if HasLength(obj.id) {
        SetId(obj.id);
      }
      var request := BuildIndexRequest(index, docType, id, obj, create, versioning);
      pending := pending + [request];  // bulk.add
    }

    method Create(obj: StructuredObject)
      requires bulk.Some? || !M.AddsRequest(Snapshot(), M.Create(obj))
      modifies this
      ensures Snapshot() == M.Step(old(Snapshot()), M.Create(obj))
    {
      IndexAs(obj, true);
    }

    method Index(obj: StructuredObject)
      requires bulk.Some? || !M.AddsRequest(Snapshot(), M.Index(obj))
      modifies this
      ensures Snapshot() == M.Step(old(Snapshot()), M.Index(obj))
    {
      IndexAs(obj, false);
    }

    /**
     * Unless latched, resolves the defaults and, when an id is known, adds one delete
     * request; without an id the delete is skipped.
     */
    method Delete(obj: StructuredObject)
      requires bulk.Some? || !M.AddsRequest(Snapshot(), M.Delete(obj))
      modifies this
      ensures Snapshot() == M.Step(old(Snapshot()), M.Delete(obj))
    {
      if error {
        return;
      }
      if HasLength(obj.index) {
        SetIndex(obj.index);
      }
      if HasLength(obj.docType) {
        SetType(obj.docType);
      }
      if HasLength(obj.id) {
        SetId(obj.id);
      }
      if id == None {
        return;
      }
      var request := BuildDeleteRequest(index, docType, id, obj, versioning);
      pending := pending + [request];  // bulk.add
    }

    /** Checks the latch; the processor itself is not flushed, so nothing changes. */
    method Flush()
      ensures Snapshot() == M.Step(old(Snapshot()), M.Flush)
    {
      if error {
        return;
      }
    }
  }
}
