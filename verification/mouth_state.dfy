/**
 * The state of one river-mouth session as a value, and the effect of every call on it.
 * `Step` is the reference semantics the class `SimpleRiverMouth` is proved against;
 * `Run` replays a sequence of calls, so that properties spanning many calls
 * (the latch is permanent, sticky defaults, the outstanding-request count) can be stated.
 */
module MouthState {
  import opened Wrappers
  import opened Requests

  /** The settings the bulk processor was built with. */
  datatype BulkConfig = BulkConfig(bulkActions: int, concurrentRequests: int, flushIntervalSeconds: int)

  /**
   * Everything the mouth keeps: the sticky defaults, the settings, the outstanding-request
   * counter, the error latch, the bulk processor (None until a client is given) and every
   * request handed to the bulk processor, in order.
   */
  datatype State = State(
    index: Option<string>,
    docType: Option<string>,
    id: Option<string>,
    maxBulkActions: int,
    maxConcurrentBulkRequests: int,
    versioning: bool,
    acknowledge: bool,
    outstanding: int,
    error: bool,
    bulk: Option<BulkConfig>,
    pending: seq<Request>)

  /** The default bulk size, concurrency bound and flush interval. */
  const DefaultMaxBulkActions := 100
  const DefaultMaxConcurrentBulkRequests := 30
  const FlushIntervalSeconds := 1

  /** A freshly constructed mouth. */
  function Initial(): State {
    State(None, None, None, DefaultMaxBulkActions, DefaultMaxConcurrentBulkRequests,
          false, false, 0, false, None, [])
  }

  /** The calls the mouth accepts: setters, `client`, the ingestion calls and the listener callbacks. */
  datatype Call =
    | SetIndex(index: Option<string>)
    | SetType(docType: Option<string>)
    | SetId(id: Option<string>)
    | SetMaxBulkActions(n: int)
    | SetMaxConcurrentBulkRequests(n: int)
    | SetVersioning(enable: bool)
    | SetAcknowledge(enable: bool)
    | Client(healthTimedOut: bool)
    | Create(obj: StructuredObject)
    | Index(obj: StructuredObject)
    | IndexAs(obj: StructuredObject, create: bool)
    | Delete(obj: StructuredObject)
    | Flush
    | BeforeBulk
    | AfterBulk
    | AfterBulkFailure

  /** Calls that first check the error latch. */
  predicate IsIngestion(c: Call) {
    c.Create? || c.Index? || c.IndexAs? || c.Delete? || c.Flush?
  }

  /** Calls that set the error latch. */
  predicate SetsLatch(c: Call) {
    c.AfterBulkFailure? || (c.Client? && c.healthTimedOut)
  }

  /** Calls that build an index request, and the `create` flag they build it with. */
  predicate Indexes(c: Call) {
    c.Create? || c.Index? || c.IndexAs?
  }

  function CreateFlag(c: Call): bool
    requires Indexes(c)
  {
    c.Create? || (c.IndexAs? && c.create)
  }

  /** The defaults after the object's own index, type and id have been applied. */
  function WithDefaults(s: State, obj: StructuredObject): State {
    s.(index := Resolve(s.index, obj.index),
       docType := Resolve(s.docType, obj.docType),
       id := Resolve(s.id, obj.id))
  }

  /** `client(...)`: builds the bulk processor; a timed-out health check sets the latch. */
  function AfterClient(s: State, healthTimedOut: bool): State {
    s.(bulk := Some(BulkConfig(s.maxBulkActions - 1, s.maxConcurrentBulkRequests, FlushIntervalSeconds)),
       error := s.error || healthTimedOut)
  }

  /** `index(object, create)`. */
  function AfterIndex(s: State, obj: StructuredObject, create: bool): State {
    if s.error then s
    else
      var t := WithDefaults(s, obj);
      t.(pending := t.pending + [BuildIndexRequest(t.index, t.docType, t.id, obj, create, t.versioning)])
  }

  /** `delete(object)`. */
  function AfterDelete(s: State, obj: StructuredObject): State {
    if s.error then s
    else
      var t := WithDefaults(s, obj);
      if t.id.None? then t
      else t.(pending := t.pending + [BuildDeleteRequest(t.index, t.docType, t.id, obj, t.versioning)])
  }

  /** The effect of one call. */
  function Step(s: State, c: Call): State {
    match c
    case SetIndex(v) => s.(index := v)
    case SetType(v) => s.(docType := v)
    case SetId(v) => s.(id := v)
    case SetMaxBulkActions(n) => s.(maxBulkActions := n)
    case SetMaxConcurrentBulkRequests(n) => s.(maxConcurrentBulkRequests := n)
    case SetVersioning(b) => s.(versioning := b)
    case SetAcknowledge(b) => s.(acknowledge := b)
    case Client(timedOut) => AfterClient(s, timedOut)
    case Create(obj) => AfterIndex(s, obj, true)
    case Index(obj) => AfterIndex(s, obj, false)
    case IndexAs(obj, create) => AfterIndex(s, obj, create)
    case Delete(obj) => AfterDelete(s, obj)
    case Flush => s  // the processor flush behind the latch check is not performed
    case BeforeBulk => s.(outstanding := s.outstanding + 1)
    case AfterBulk => s.(outstanding := s.outstanding - 1)
    case AfterBulkFailure => s.(outstanding := s.outstanding - 1, error := true)
  }

  /** True when the call reaches `bulk.add`: not latched, and for a delete an id was resolved. */
  predicate AddsRequest(s: State, c: Call) {
    !s.error && (Indexes(c) || (c.Delete? && Resolve(s.id, c.obj.id).Some?))
  }

  /** The effect of a sequence of calls, in order. */
  function Run(s: State, calls: seq<Call>): State
    decreases |calls|
  {
    if calls == [] then s else Run(Step(s, calls[0]), calls[1..])
  }

  // ---------------------------------------------------------------------------
  // One call
  // ---------------------------------------------------------------------------

  /** While latched, create, index, delete and flush change nothing at all. */
  lemma LatchedIngestionIsNoOp(s: State, c: Call)
    requires s.error && IsIngestion(c)
    ensures Step(s, c) == s
  {
  }

  /**
   * Unlatched, an index call applies the object's non-empty index, type and id as new
   * defaults, appends exactly one index request addressed with those defaults, carrying the
   * object's source and metadata, flagged `create` exactly when reached through `create`,
   * and changes nothing else.
   */
  lemma IndexAppendsOneRequest(s: State, c: Call)
    requires !s.error && Indexes(c)
    ensures var t := Step(s, c);
      && t.index == (if HasLength(c.obj.index) then c.obj.index else s.index)
      && t.docType == (if HasLength(c.obj.docType) then c.obj.docType else s.docType)
      && t.id == (if HasLength(c.obj.id) then c.obj.id else s.id)
      && t.(index := s.index, docType := s.docType, id := s.id, pending := s.pending) == s
      && |t.pending| == |s.pending| + 1
      && t.pending[..|s.pending|] == s.pending
      && var r := t.pending[|s.pending|];
      && r.IndexReq?
      && r.index == t.index && r.docType == t.docType && r.id == t.id
      && r.source == c.obj.source
      && r.create == CreateFlag(c)
      && WellVersioned(r)
      && CarriedMeta(r) == Kept(c.obj.meta, {}, s.versioning)
  {
    var t := WithDefaults(s, c.obj);
    IndexRequestKeepsMeta(t.index, t.docType, t.id, c.obj, CreateFlag(c), t.versioning);
  }

  /**
   * Unlatched, a delete whose id resolves to null appends nothing, although the object's
   * index and type still become the new defaults.
   */
  lemma DeleteWithoutIdAddsNothing(s: State, obj: StructuredObject)
    requires !s.error && Resolve(s.id, obj.id).None?
    ensures Step(s, Delete(obj)).pending == s.pending
    ensures Step(s, Delete(obj)) == WithDefaults(s, obj)
  {
  }

  /**
   * Unlatched, a delete whose id resolves appends exactly one delete request addressed with
   * the new defaults, carrying routing, parent and (with versioning) version, never a
   * percolate query or a ttl, and changes nothing else.
   */
  lemma DeleteAppendsOneRequest(s: State, obj: StructuredObject)
    requires !s.error && Resolve(s.id, obj.id).Some?
    ensures var t := Step(s, Delete(obj));
      && t.(index := s.index, docType := s.docType, id := s.id, pending := s.pending) == s
      && t.index == Resolve(s.index, obj.index)
      && t.docType == Resolve(s.docType, obj.docType)
      && t.id == Resolve(s.id, obj.id)
      && |t.pending| == |s.pending| + 1
      && t.pending[..|s.pending|] == s.pending
      && var r := t.pending[|s.pending|];
      && r.DeleteReq?
      && r.index == t.index && r.docType == t.docType && r.id == t.id
      && WellVersioned(r)
      && CarriedMeta(r) == Kept(obj.meta, {Percolate, Ttl}, s.versioning)
  {
    var t := WithDefaults(s, obj);
    DeleteRequestKeepsMeta(t.index, t.docType, t.id, obj, t.versioning);
  }

  /** `bulk.add` is reached exactly when `AddsRequest` holds, and then once. */
  lemma PendingGrowsIffAdds(s: State, c: Call)
    ensures |Step(s, c).pending| == |s.pending| + (if AddsRequest(s, c) then 1 else 0)
    ensures s.pending <= Step(s, c).pending
  {
  }

  /** `flush` changes nothing, latched or not. */
  lemma FlushChangesNothing(s: State)
    ensures Step(s, Flush) == s
  {
  }

  /**
   * `client` builds the bulk processor one below the configured bulk size, with the
   * configured concurrency and a one-second flush interval, and latches exactly when the
   * health check timed out (never clearing an earlier latch).
   */
  lemma ClientConfiguresBulk(s: State, healthTimedOut: bool)
    ensures var t := Step(s, Client(healthTimedOut));
      && t.bulk == Some(BulkConfig(s.maxBulkActions - 1, s.maxConcurrentBulkRequests, FlushIntervalSeconds))
      && t.error == (s.error || healthTimedOut)
      && t.(bulk := s.bulk, error := s.error) == s
  {
  }

  /**
   * `beforeBulk` counts one more outstanding request, both `afterBulk` variants one fewer,
   * and only the failure variant sets the latch.
   */
  lemma ListenerKeepsCount(s: State)
    ensures Step(s, BeforeBulk) == s.(outstanding := s.outstanding + 1)
    ensures Step(s, AfterBulk) == s.(outstanding := s.outstanding - 1)
    ensures Step(s, AfterBulkFailure) == s.(outstanding := s.outstanding - 1, error := true)
  {
  }

  /** After one call the latch is set exactly when it was set before or the call sets it. */
  lemma StepLatch(s: State, c: Call)
    ensures Step(s, c).error == (s.error || SetsLatch(c))
  {
  }

  // ---------------------------------------------------------------------------
  // Sequences of calls
  // ---------------------------------------------------------------------------

  lemma {:induction false} RunAppend(s: State, a: seq<Call>, b: seq<Call>)
    ensures Run(s, a + b) == Run(Run(s, a), b)
    decreases |a|
  {
    if a == [] {
      assert a + b == b;
    } else {
      assert (a + b)[0] == a[0];
      assert (a + b)[1..] == a[1..] + b;
      RunAppend(Step(s, a[0]), a[1..], b);
    }
  }

  /** The latch is set after a run exactly when it was set before or some call set it: nothing resets it. */
  lemma {:induction false} LatchOnlyFromFailures(s: State, calls: seq<Call>)
    ensures Run(s, calls).error <==> s.error || exists i :: 0 <= i < |calls| && SetsLatch(calls[i])
    decreases |calls|
  {
    if calls != [] {
      StepLatch(s, calls[0]);
      LatchOnlyFromFailures(Step(s, calls[0]), calls[1..]);
      if exists i :: 0 <= i < |calls| && SetsLatch(calls[i]) {
        var i :| 0 <= i < |calls| && SetsLatch(calls[i]);
        if i > 0 {
          assert SetsLatch(calls[1..][i - 1]);
        }
      }
      if exists j :: 0 <= j < |calls[1..]| && SetsLatch(calls[1..][j]) {
        var j :| 0 <= j < |calls[1..]| && SetsLatch(calls[1..][j]);
        assert SetsLatch(calls[j + 1]);
      }
    }
  }

  /** Once latched, no sequence of calls adds a request. */
  lemma {:induction false} LatchedRunAddsNothing(s: State, calls: seq<Call>)
    requires s.error
    ensures Run(s, calls).pending == s.pending
    ensures (forall i :: 0 <= i < |calls| ==> IsIngestion(calls[i])) ==> Run(s, calls) == s
    decreases |calls|
  {
    if calls != [] {
      StepLatch(s, calls[0]);
      LatchedRunAddsNothing(Step(s, calls[0]), calls[1..]);
      if forall i :: 0 <= i < |calls| ==> IsIngestion(calls[i]) {
        assert IsIngestion(calls[0]);
        assert forall i :: 0 <= i < |calls[1..]| ==> IsIngestion(calls[1..][i]) by {
          forall i | 0 <= i < |calls[1..]| ensures IsIngestion(calls[1..][i]) {
            assert calls[1..][i] == calls[i + 1];
          }
        }
      }
    }
  }

  /** After a whole-request failure, nothing that follows adds a request. */
  lemma NoRequestsAfterFailure(s: State, before: seq<Call>, after: seq<Call>)
    ensures Run(s, before + [AfterBulkFailure] + after).pending == Run(s, before).pending
  {
    RunAppend(s, before + [AfterBulkFailure], after);
    RunAppend(s, before, [AfterBulkFailure]);
    var u := Run(s, before);
    assert Run(u, [AfterBulkFailure]) == Step(u, AfterBulkFailure);
    LatchedRunAddsNothing(Step(u, AfterBulkFailure), after);
  }

  /** Requests are only ever appended: what was pending stays a prefix, one request per call at most. */
  lemma {:induction false} PendingOnlyGrows(s: State, calls: seq<Call>)
    ensures s.pending <= Run(s, calls).pending
    ensures |Run(s, calls).pending| <= |s.pending| + |calls|
    decreases |calls|
  {
    if calls != [] {
      PendingGrowsIffAdds(s, calls[0]);
      PendingOnlyGrows(Step(s, calls[0]), calls[1..]);
    }
  }

  /** The number of `beforeBulk` callbacks in a sequence of calls. */
  function Started(calls: seq<Call>): nat {
    if calls == [] then 0 else (if calls[0].BeforeBulk? then 1 else 0) + Started(calls[1..])
  }

  /** The number of `afterBulk` callbacks, success or failure, in a sequence of calls. */
  function Finished(calls: seq<Call>): nat {
    if calls == [] then 0
    else (if calls[0].AfterBulk? || calls[0].AfterBulkFailure? then 1 else 0) + Finished(calls[1..])
  }

  /** The outstanding counter moves by the started bulks minus the finished ones. */
  lemma {:induction false} OutstandingBalance(s: State, calls: seq<Call>)
    ensures Run(s, calls).outstanding == s.outstanding + Started(calls) - Finished(calls)
    decreases |calls|
  {
    if calls != [] {
      OutstandingBalance(Step(s, calls[0]), calls[1..]);
    }
  }

  /**
   * When every completion follows its start (no prefix finishes more bulks than it started),
   * the outstanding counter never goes negative.
   */
  lemma OutstandingNeverNegative(s: State, calls: seq<Call>)
    requires s.outstanding >= 0
    requires forall k :: 0 <= k <= |calls| ==> Finished(calls[..k]) <= Started(calls[..k])
    ensures forall k :: 0 <= k <= |calls| ==> Run(s, calls[..k]).outstanding >= 0
  {
    forall k | 0 <= k <= |calls|
      ensures Run(s, calls[..k]).outstanding >= 0
    {
      OutstandingBalance(s, calls[..k]);
    }
  }

  // ---------------------------------------------------------------------------
  // Sticky defaults: the last value specified wins
  // ---------------------------------------------------------------------------

  datatype Coordinate = IndexName | TypeName | DocId

  function Default(s: State, f: Coordinate): Option<string> {
    match f
    case IndexName => s.index
    case TypeName => s.docType
    case DocId => s.id
  }

  /** The value an ingestion call's object gives for a coordinate (null for `flush`). */
  function Given(c: Call, f: Coordinate): Option<string> {
    if Indexes(c) || c.Delete? then
      match f
      case IndexName => c.obj.index
      case TypeName => c.obj.docType
      case DocId => c.obj.id
    else None
  }

  function GivenAll(calls: seq<Call>, f: Coordinate): seq<Option<string>> {
    seq(|calls|, i requires 0 <= i < |calls| => Given(calls[i], f))
  }

  /** The last value with length in `given`, or `d` when there is none. */
  function LastSpecified(d: Option<string>, given: seq<Option<string>>): Option<string> {
    if given == [] then d
    else if HasLength(given[|given| - 1]) then given[|given| - 1]
    else LastSpecified(d, given[..|given| - 1])
  }

  /**
   * Calls that neither set a default directly nor set the latch: the ingestion calls,
   * the listener callbacks other than the failure, `client` with a healthy cluster and
   * the other setters.
   */
  predicate KeepsDefaults(c: Call) {
    !c.SetIndex? && !c.SetType? && !c.SetId? && !SetsLatch(c)
  }

  /**
   * On an unlatched mouth such a call keeps the latch clear and resolves each default
   * against the value its object gives (a call without an object gives none).
   */
  lemma StepResolvesDefaults(s: State, c: Call, f: Coordinate)
    requires !s.error && KeepsDefaults(c)
    ensures !Step(s, c).error
    ensures Default(Step(s, c), f) == Resolve(Default(s, f), Given(c, f))
  {
  }

  /**
   * Over any run on an unlatched mouth that calls no default setter and meets no failure
   * (ingestion calls interleaved with listener callbacks, healthy `client` calls and the
   * other setters), each of index, type and id ends as the last non-empty value an object
   * gave, or the earlier default when none did.
   */
  lemma {:induction false} LastSpecifiedWins(s: State, calls: seq<Call>, f: Coordinate)
    requires !s.error
    requires forall i :: 0 <= i < |calls| ==> KeepsDefaults(calls[i])
    ensures !Run(s, calls).error
    ensures Default(Run(s, calls), f) == LastSpecified(Default(s, f), GivenAll(calls, f))
    decreases |calls|
  {
    if calls != [] {
      var init, c := calls[..|calls| - 1], calls[|calls| - 1];
      assert calls == init + [c];
      LastSpecifiedWins(s, init, f);
      RunAppend(s, init, [c]);
      var u := Run(s, init);
      assert Run(u, [c]) == Step(u, c);
      StepResolvesDefaults(u, c, f);
      var given := GivenAll(calls, f);
      assert given[..|given| - 1] == GivenAll(init, f);
    }
  }
}
