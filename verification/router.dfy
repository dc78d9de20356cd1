/**
  The actor router of the counter example's manager driver: `queryActor`
  resolves a request against a key/value tag index and returns the endpoint of
  an actor, creating one when asked.

  The platform pieces are abstract: the `ACTOR_KV` namespace is the map `index`
  from a tag key to an actor id, and the Durable Object namespace is the map
  `actors` from an actor id to the tags it was initialised with. The id that
  `ACTOR_DO.newUniqueId` would mint is passed in as `newId`; the platform
  promises it is fresh (see `FreshId`).
*/
module Router {
  import opened Wrappers
  import opened TagJson

  // ---------------------------------------------------------------------------
  // Endpoints

  /** The host every endpoint is built on. */
  const EndpointPrefix: string := "http://localhost:8787/actors/"

  /** The endpoint through which an actor is reached. */
  function BuildActorEndpoint(actorId: string): (endpoint: string)
    ensures ActorIdOf(endpoint) == Some(actorId)
    ensures |endpoint| == |EndpointPrefix| + |actorId|
  {
    EndpointPrefix + actorId
  }

  /** The actor id named by an endpoint, if it is one. */
  function ActorIdOf(endpoint: string): Option<string>
  {
    if EndpointPrefix <= endpoint then Some(endpoint[|EndpointPrefix|..]) else None
  }

  // ---------------------------------------------------------------------------
  // Tag keys

  const KeyPrefix: string := "actor:tags:"
  const KeySuffix: string := ":id"

  /** Recovers the tags from a key of the index, if it is one. */
  function ParseTagKey(key: string): Option<Tags>
  {
    if |key| >= |KeyPrefix| + |KeySuffix| && KeyPrefix <= key && key[|key| - |KeySuffix|..] == KeySuffix
    then ParseObject(key[|KeyPrefix|..|key| - |KeySuffix|])
    else None
  }

  lemma KeyRoundTrip(tags: Tags)
    ensures ParseTagKey(KeyPrefix + Stringify(tags) + KeySuffix) == Some(tags)
  {
    var key := KeyPrefix + Stringify(tags) + KeySuffix;
    assert key[|KeyPrefix|..|key| - |KeySuffix|] == Stringify(tags);
    assert key[|key| - |KeySuffix|..] == KeySuffix;
    StringifyRoundTrip(tags);
  }

  /** The index key under which an actor with these tags is stored and looked up. */
  function TagKey(tags: Tags): (key: string)
    ensures ParseTagKey(key) == Some(tags)
  {
    KeyRoundTrip(tags);
    KeyPrefix + Stringify(tags) + KeySuffix
  }

  /** Two tag sequences share an index key exactly when they are equal as ordered sequences. */
  lemma TagKeyInjective(a: Tags, b: Tags)
    ensures TagKey(a) == TagKey(b) <==> a == b
  {
    if TagKey(a) == TagKey(b) {
      assert ParseTagKey(TagKey(a)) == ParseTagKey(TagKey(b));
    }
  }

  // ---------------------------------------------------------------------------
  // State and requests

  /** What a Durable Object actor is initialised with. */
  datatype Actor = Actor(tags: Tags)

  /** The tag index (`ACTOR_KV`) and the actors that exist (`ACTOR_DO`). */
  datatype State = State(index: map<string, string>, actors: map<string, Actor>)

  /** A request to create an actor. The region only picks a jurisdiction for the id. */
  datatype CreateRequest = CreateRequest(tags: Tags, region: Option<string>)

  /** The three kinds of `queryActor` request; absent fields are `None`. */
  datatype Query =
    | GetForId(actorId: string)
    | GetOrCreateForTags(tags: Option<Tags>, create: Option<CreateRequest>)
    | Create(request: CreateRequest)

  datatype Response = Response(endpoint: string)

  /** The errors `queryActor` throws. */
  datatype Error = MissingTags | NotFoundWithTags {
    function Message(): string {
      match this
      case MissingTags => "Must define tags in getOrCreateForTags"
      case NotFoundWithTags => "Actor not found with tags or is private."
    }
  }

  /** The outcome of one request and the state after it. */
  datatype Step = Step(result: Result<Response, Error>, state: State)

  const Empty: State := State(map[], map[])

  /**
    What the platform promises of `newUniqueId`: the id names no existing actor,
    and its string form (64 hex digits) is never empty.
  */
  predicate FreshId(s: State, id: string)
  {
    id != "" && id !in s.actors
  }

  /**
    The states the router can reach: every actor id is non-empty, every index
    entry names an existing actor stored under that actor's own tag key, and
    every actor's tag key is present in the index.
  */
  ghost predicate Valid(s: State)
  {
    && (forall id :: id in s.actors ==> id != "")
    && (forall key :: key in s.index ==>
          s.index[key] in s.actors && key == TagKey(s.actors[s.index[key]].tags))
    && (forall id :: id in s.actors ==> TagKey(s.actors[id].tags) in s.index)
  }

  /** The actors that only differ from `s`'s by additions. */
  ghost predicate Extends(s: State, s': State)
  {
    forall id :: id in s.actors ==> id in s'.actors && s'.actors[id] == s.actors[id]
  }

  // ---------------------------------------------------------------------------
  // Operations

  /**
    `getWithTags` without the endpoint: the id stored under the tag key, unless
    there is none. A stored empty string counts as none, as it is falsy.
  */
  function LookupId(s: State, tags: Tags): (id: Option<string>)
    ensures id.Some? <==> TagKey(tags) in s.index && s.index[TagKey(tags)] != ""
    ensures id.Some? ==> id.value == s.index[TagKey(tags)]
  {
    var key := TagKey(tags);
    if key in s.index && s.index[key] != "" then Some(s.index[key]) else None
  }

  /** `getWithTags`: the endpoint of the actor indexed under these tags, if any. */
  function GetWithTags(s: State, tags: Tags): (r: Option<Response>)
    ensures r.Some? <==> LookupId(s, tags).Some?
    ensures r.Some? ==> ActorIdOf(r.value.endpoint) == LookupId(s, tags)
  {
    match LookupId(s, tags)
    case None => None
    case Some(id) => Some(Response(BuildActorEndpoint(id)))
  }

  /**
    `createActor`: initialise a new actor with the request's tags, then write
    its id to the index under the tag key, replacing any earlier entry.
  */
  function CreateActor(s: State, request: CreateRequest, newId: string): (r: Step)
    requires FreshId(s, newId)
    ensures r.result.Success? && ActorIdOf(r.result.value.endpoint) == Some(newId)
    ensures r.state.actors.Keys == s.actors.Keys + {newId}
    ensures |r.state.actors| == |s.actors| + 1
    ensures Extends(s, r.state) && r.state.actors[newId].tags == request.tags
    ensures LookupId(r.state, request.tags) == Some(newId)
    ensures forall key :: key != TagKey(request.tags) ==>
              (key in r.state.index <==> key in s.index) &&
              (key in s.index ==> r.state.index[key] == s.index[key])
  {
    var actors := s.actors[newId := Actor(request.tags)];
    var index := s.index[TagKey(request.tags) := newId];
    Step(Success(Response(BuildActorEndpoint(newId))), State(index, actors))
  }

  /** Creating an actor keeps the index consistent with the actors. */
  lemma CreatePreservesValid(s: State, request: CreateRequest, newId: string)
    requires Valid(s) && FreshId(s, newId)
    ensures Valid(CreateActor(s, request, newId).state)
  {
    var s' := CreateActor(s, request, newId).state;
    var newKey := TagKey(request.tags);
    forall key | key in s'.index
      ensures s'.index[key] in s'.actors && key == TagKey(s'.actors[s'.index[key]].tags)
    {
      if key != newKey {
        assert s'.index[key] == s.index[key] && s.index[key] in s.actors;
        assert s.index[key] != newId;
      }
    }
    forall id | id in s'.actors
      ensures TagKey(s'.actors[id].tags) in s'.index
    {
      if id != newId {
        assert TagKey(s.actors[id].tags) in s.index;
      }
    }
  }

  /** `queryActor`: dispatch on the kind of request. */
  function QueryActor(s: State, q: Query, newId: string): (r: Step)
    requires FreshId(s, newId)
    ensures Extends(s, r.state)
    ensures r.state.actors.Keys <= s.actors.Keys + {newId}
    ensures r.result.Failure? ==> r.state == s
    ensures Valid(s) && r.result.Success? && !q.GetForId? ==>
              exists id :: id in r.state.actors && ActorIdOf(r.result.value.endpoint) == Some(id)
  {
    match q
    case GetForId(actorId) =>
      Step(Success(Response(BuildActorEndpoint(actorId))), s)
    case GetOrCreateForTags(tags, create) =>
      if tags.None? then Step(Failure(MissingTags), s)
      else
        (match GetWithTags(s, tags.value)
         case Some(response) => Step(Success(response), s)
         case None =>
           if create.Some? then CreateActor(s, create.value, newId)
           else Step(Failure(NotFoundWithTags), s))
    case Create(request) =>
      CreateActor(s, request, newId)
  }
}
