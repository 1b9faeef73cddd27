/**
 * The records the river mouth receives and the bulk requests it builds from them.
 */
module Requests {
  import opened Wrappers

  /** The metadata keys the mouth looks up on a structured object. */
  datatype MetaKey = Percolate | Routing | Parent | Ttl | Version

  /** Every metadata key the mouth knows. */
  function AllKeys(): set<MetaKey> {
    {Percolate, Routing, Parent, Ttl, Version}
  }

  lemma KeyIsKnown(k: MetaKey)
    ensures k in AllKeys()
  {
  }

  /**
   * A record produced by the source side: its own (possibly null) index, type and id,
   * its metadata, and its serialised JSON source, kept opaque.
   */
  datatype StructuredObject = StructuredObject(
    index: Option<string>,
    docType: Option<string>,
    id: Option<string>,
    meta: map<MetaKey, string>,
    source: string)

  datatype VersionType = Internal | External

  /**
   * One write handed to the bulk processor. Metadata values (ttl, version) are carried
   * as the text found on the object.
   */
  datatype Request =
    | IndexReq(index: Option<string>, docType: Option<string>, id: Option<string>,
               source: string, create: bool,
               percolate: Option<string>, routing: Option<string>, parent: Option<string>,
               ttl: Option<string>, versionType: VersionType, version: Option<string>)
    | DeleteReq(index: Option<string>, docType: Option<string>, id: Option<string>,
                routing: Option<string>, parent: Option<string>,
                versionType: VersionType, version: Option<string>)

  /** `Strings.hasLength`: not null and not empty. */
  predicate HasLength(s: Option<string>) {
    s.Some? && |s.value| > 0
  }

  /** The sticky-default rule: a value with length replaces the current default. */
  function Resolve(current: Option<string>, given: Option<string>): Option<string> {
    if HasLength(given) then given else current
  }

  /** `object.meta(key)`: null when the object has no such key. */
  function Meta(obj: StructuredObject, key: MetaKey): Option<string> {
    if key in obj.meta then Some(obj.meta[key]) else None
  }

  /** The index request built for `obj` against the resolved index, type and id. */
  function BuildIndexRequest(index: Option<string>, docType: Option<string>, id: Option<string>,
                             obj: StructuredObject, create: bool, versioning: bool): (r: Request)
    ensures r.IndexReq? && WellVersioned(r)
  {
    var version := if versioning then Meta(obj, Version) else None;
    IndexReq(index, docType, id, obj.source, create,
             Meta(obj, Percolate), Meta(obj, Routing), Meta(obj, Parent), Meta(obj, Ttl),
             if version.Some? then External else Internal, version)
  }

  /** The delete request built for `obj` against the resolved index, type and id. */
  function BuildDeleteRequest(index: Option<string>, docType: Option<string>, id: Option<string>,
                              obj: StructuredObject, versioning: bool): (r: Request)
    ensures r.DeleteReq? && WellVersioned(r)
  {
    var version := if versioning then Meta(obj, Version) else None;
    DeleteReq(index, docType, id, Meta(obj, Routing), Meta(obj, Parent),
              if version.Some? then External else Internal, version)
  }

  /** A version, when present, is always external; without one the type stays internal. */
  predicate WellVersioned(r: Request) {
    r.versionType == External <==> r.version.Some?
  }

  /** The value a request carries for a metadata key; delete requests have no percolate or ttl. */
  function Carried(r: Request, key: MetaKey): Option<string> {
    match key
    case Percolate => if r.IndexReq? then r.percolate else None
    case Routing => r.routing
    case Parent => r.parent
    case Ttl => if r.IndexReq? then r.ttl else None
    case Version => r.version
  }

  /** All metadata a request carries, read back as a map. */
  function CarriedMeta(r: Request): map<MetaKey, string> {
    map k | k in AllKeys() && Carried(r, k).Some? :: Carried(r, k).value
  }

  /** The metadata that a request built with versioning on or off keeps from the object. */
  function Kept(meta: map<MetaKey, string>, dropped: set<MetaKey>, versioning: bool): map<MetaKey, string> {
    if versioning then meta - dropped else meta - dropped - {Version}
  }

  /**
   * An index request carries exactly the object's percolate, routing, parent and ttl metadata,
   * and its version exactly when versioning is on.
   */
  lemma IndexRequestKeepsMeta(index: Option<string>, docType: Option<string>, id: Option<string>,
                              obj: StructuredObject, create: bool, versioning: bool)
    ensures CarriedMeta(BuildIndexRequest(index, docType, id, obj, create, versioning))
            == Kept(obj.meta, {}, versioning)
  {
    var r := BuildIndexRequest(index, docType, id, obj, create, versioning);
    var kept := Kept(obj.meta, {}, versioning);
    forall k: MetaKey
      ensures k in CarriedMeta(r) <==> k in kept
      ensures k in kept ==> CarriedMeta(r)[k] == kept[k]
    {
      KeyIsKnown(k);
    }
  }

  /**
   * A delete request carries the object's routing and parent metadata, its version exactly
   * when versioning is on, and never a percolate query or a ttl.
   */
  lemma DeleteRequestKeepsMeta(index: Option<string>, docType: Option<string>, id: Option<string>,
                               obj: StructuredObject, versioning: bool)
    ensures CarriedMeta(BuildDeleteRequest(index, docType, id, obj, versioning))
            == Kept(obj.meta, {Percolate, Ttl}, versioning)
  {
    var r := BuildDeleteRequest(index, docType, id, obj, versioning);
    var kept := Kept(obj.meta, {Percolate, Ttl}, versioning);
    forall k: MetaKey
      ensures k in CarriedMeta(r) <==> k in kept
      ensures k in kept ==> CarriedMeta(r)[k] == kept[k]
    {
      KeyIsKnown(k);
    }
  }
}
