/**
 * The session registry of the streaming server: the map from session id to
 * the transport of an open event stream, filled when a client opens a
 * stream, emptied by each stream's close hook and by the shutdown sweep, and
 * consulted to route every POSTed message to its stream.
 *
 * The transport itself (its id generation, `start`, `handlePostMessage`,
 * `close`) belongs to the protocol library and is opaque here.
 */
module Sessions {
  import opened Options

  /** An open server-push transport: its session id and the response stream it owns. */
  datatype Transport = Transport(sessionId: string, stream: nat)

  /** What the message endpoint does with a POST. */
  datatype Route =
    | BadRequest                      // 400: no session id in the query
    | NotFound                        // 404: no stream under that id
    | Dispatch(transport: Transport)  // handed to the stream's transport
    | InternalError                   // 500: the hand-over itself threw

  /**
   * The names a plain JavaScript object inherits from `Object.prototype`;
   * looking one of them up in the registry yields an inherited member, not
   * `undefined`.
   */
  const ObjectPrototypeMembers: set<string> := {
    "constructor", "hasOwnProperty", "isPrototypeOf", "propertyIsEnumerable",
    "toString", "toLocaleString", "valueOf", "__proto__",
    "__defineGetter__", "__defineSetter__", "__lookupGetter__", "__lookupSetter__"
  }

  /**
   * The message endpoint's routing as written: `transports[sessionId]` also
   * finds inherited members, which are truthy, so such a name passes the
   * not-found check and the hand-over then throws (the member has no
   * `handlePostMessage`), which the endpoint answers with 500.
   */
  function RouteAsWritten(transports: map<string, Transport>, sessionId: Option<string>): (r: Route)
    ensures r == BadRequest <==> sessionId.None? || sessionId.value == ""
  {
    if sessionId.None? || sessionId.value == "" then BadRequest
    else if sessionId.value in transports then Dispatch(transports[sessionId.value])
    else if sessionId.value in ObjectPrototypeMembers then InternalError
    else NotFound
  }

  /**
   * A POST naming an inherited member that is not a session, such as
   * `?sessionId=toString` on an empty registry, is answered with 500 rather
   * than 404.
   */
  lemma PrototypeNameIsNotNotFound(transports: map<string, Transport>, name: string)
    requires name in ObjectPrototypeMembers && name !in transports
    ensures RouteAsWritten(transports, Some(name)) == InternalError
    ensures RouteAsWritten(map[], Some("toString")) == InternalError
  {
  }

  class Registry {
    /** The open streams, by session id. */
    var transports: map<string, Transport>

    /** Every session id whose transport the sweep has asked to close, in order. */
    ghost var closeCalls: seq<string>

    /** Every entry is filed under its own transport's session id. */
    ghost predicate Valid()
      reads this
    {
      forall id :: id in transports ==> transports[id].sessionId == id
    }

    constructor ()
      ensures Valid() && transports == map[] && closeCalls == []
    {
      transports := map[];
      closeCalls := [];
    }

    /**
     * A client opened a stream: its transport is filed under its session id,
     * replacing any entry already there, and every other entry stays.
     */
    method Open(t: Transport)
      requires Valid()
      modifies this
      ensures Valid() && closeCalls == old(closeCalls)
      ensures t.sessionId in transports && transports[t.sessionId] == t
      ensures transports.Keys == old(transports).Keys + {t.sessionId}
      ensures forall id :: id in old(transports) && id != t.sessionId ==> transports[id] == old(transports)[id]
    {
      transports := transports[t.sessionId := t];
    }

    /**
     * The close hook of the stream opened under `sessionId`: removes exactly
     * that entry, and does nothing when it is already gone.
     */
    method OnClose(sessionId: string)
      requires Valid()
      modifies this
      ensures Valid() && closeCalls == old(closeCalls)
      ensures transports.Keys == old(transports).Keys - {sessionId}
      ensures forall id :: id in transports ==> transports[id] == old(transports)[id]
      ensures sessionId !in old(transports) ==> transports == old(transports)
    {
      transports := transports - {sessionId};
    }

    /**
     * Routes a POST by its `sessionId` query value: missing or empty gives
     * 400, an id with no stream gives 404 (inherited object members
     * included), and otherwise the message goes to that stream's transport.
     * Routing changes nothing in the registry, and it answers as the code
     * as written does for every id that is not an inherited member name
     * missing from the registry.
     */
    method RoutePost(sessionId: Option<string>) returns (r: Route)
      ensures r == BadRequest <==> sessionId.None? || sessionId.value == ""
      ensures r == NotFound <==> sessionId.Some? && sessionId.value != "" && sessionId.value !in transports
      ensures r.Dispatch? <==> sessionId.Some? && sessionId.value != "" && sessionId.value in transports
      ensures r.Dispatch? ==> r.transport == transports[sessionId.value]
      ensures Valid() && r.Dispatch? ==> r.transport.sessionId == sessionId.value
      ensures sessionId.None? || sessionId.value !in ObjectPrototypeMembers || sessionId.value in transports
              ==> r == RouteAsWritten(transports, sessionId)
    {
      if sessionId.None? || sessionId.value == "" {
        return BadRequest;
      }
      var id := sessionId.value;
      if id !in transports {
        return NotFound;
      }
      return Dispatch(transports[id]);
    }

    /**
     * The shutdown sweep: asks every open stream's transport to close, one
     * at a time over the ids present when it starts. `closeOk` says whether
     * the library's `close` of a transport succeeds. A close that succeeds is
     * followed by the removal of its entry; a close that fails is logged and
     * the sweep goes on, leaving that entry in place. Each id is asked
     * exactly once, and what remains is exactly the entries whose close
     * failed.
     */
    method CloseAll(closeOk: Transport -> bool) returns (failed: set<string>)
      requires Valid()
      modifies this
      ensures Valid()
      ensures transports == map id | id in old(transports) && !closeOk(old(transports)[id]) :: old(transports)[id]
      ensures failed == set id | id in old(transports) && !closeOk(old(transports)[id])
      ensures |closeCalls| >= |old(closeCalls)| && closeCalls[..|old(closeCalls)|] == old(closeCalls)
      ensures forall id :: id in closeCalls[|old(closeCalls)|..] <==> id in old(transports)
      ensures forall i, j :: |old(closeCalls)| <= i < j < |closeCalls| ==> closeCalls[i] != closeCalls[j]
    {
      ghost var start := transports;
      ghost var calls0 := closeCalls;
      ghost var asked: seq<string> := [];
      var pending := transports.Keys;
      failed := {};
      while pending != {}
        invariant pending <= start.Keys
        invariant transports == map id | id in start && (id in pending || !closeOk(start[id])) :: start[id]
        invariant failed == set id | id in start && id !in pending && !closeOk(start[id])
        invariant closeCalls == calls0 + asked
        invariant forall id :: id in asked <==> id in start && id !in pending
        invariant forall i, j :: 0 <= i < j < |asked| ==> asked[i] != asked[j]
        decreases pending
      {
        var id :| id in pending;
        pending := pending - {id};
        asked := asked + [id];
        closeCalls := closeCalls + [id];
        if closeOk(transports[id]) {
          transports := transports - {id};
        } else {
          failed := failed + {id};
        }
      }
      assert closeCalls[|calls0|..] == asked;
    }
  }

  /**
   * A session whose stream has closed can no longer be reached: in any
   * registry, after its stream is opened and its close hook has run, a POST
   * naming it gets 404, while a POST naming another open stream still
   * reaches that stream.
   */
  method ClosedSessionIsNotFound(registry: Registry, t: Transport, other: Transport) returns (closed: Route, open: Route)
    requires registry.Valid()
    requires t.sessionId != "" && other.sessionId != "" && other.sessionId != t.sessionId
    requires other.sessionId in registry.transports && registry.transports[other.sessionId] == other
    modifies registry
    ensures registry.Valid()
    ensures closed == NotFound
    ensures open == Dispatch(other)
  {
    registry.Open(t);
    registry.OnClose(t.sessionId);
    closed := registry.RoutePost(Some(t.sessionId));
    open := registry.RoutePost(Some(other.sessionId));
  }
}
