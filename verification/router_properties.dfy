/**
  Properties of the actor router: what each outcome of `queryActor` does to
  the tag index and the actors, the invariant every request keeps, when a
  repeated request is idempotent, and how the ordered tag key decides matches.
*/
module RouterProperties {
  import opened Wrappers
  import opened TagJson
  import opened Router

  /** No two actors were initialised with the same tags. */
  ghost predicate UniqueTags(s: State)
  {
    forall a, b :: a in s.actors && b in s.actors && s.actors[a].tags == s.actors[b].tags ==> a == b
  }

  // ---------------------------------------------------------------------------
  // The invariant

  lemma EmptyIsValid()
    ensures Valid(Empty)
  {
  }

  /** Every request keeps the index consistent with the actors. */
  lemma QueryPreservesValid(s: State, q: Query, newId: string)
    requires Valid(s) && FreshId(s, newId)
    ensures Valid(QueryActor(s, q, newId).state)
  {
    var r := QueryActor(s, q, newId);
    match q
    case GetForId(_) =>
      assert r.state == s;
    case GetOrCreateForTags(tags, create) =>
      if tags.Some? && LookupId(s, tags.value).None? && create.Some? {
        assert r == CreateActor(s, create.value, newId);
        CreatePreservesValid(s, create.value, newId);
      } else {
        assert r.state == s;
      }
    case Create(request) =>
      assert r == CreateActor(s, request, newId);
      CreatePreservesValid(s, request, newId);
  }

  /**
    In a reachable state the index answers exactly: a lookup finds an actor iff
    some actor has exactly these tags, in this order, and the actor it finds has them.
  */
  lemma LookupIsExact(s: State, tags: Tags)
    requires Valid(s)
    ensures LookupId(s, tags).Some? <==> exists id :: id in s.actors && s.actors[id].tags == tags
    ensures LookupId(s, tags).Some? ==>
              LookupId(s, tags).value in s.actors && s.actors[LookupId(s, tags).value].tags == tags
  {
    var key := TagKey(tags);
    if LookupId(s, tags).Some? {
      var id := s.index[key];
      TagKeyInjective(s.actors[id].tags, tags);
    }
    if id :| id in s.actors && s.actors[id].tags == tags {
      assert key in s.index;
      assert s.index[key] in s.actors;
    }
  }

  // ---------------------------------------------------------------------------
  // The outcomes of one request

  /** `getForId` answers for any id, existing or not, and touches nothing. */
  lemma GetForIdIsPure(s: State, actorId: string, newId: string)
    requires FreshId(s, newId)
    ensures QueryActor(s, GetForId(actorId), newId) == Step(Success(Response(BuildActorEndpoint(actorId))), s)
  {
  }

  /** Absent tags fail with "Must define tags" and change nothing, even with `create`. */
  lemma MissingTagsFail(s: State, create: Option<CreateRequest>, newId: string)
    requires FreshId(s, newId)
    ensures QueryActor(s, GetOrCreateForTags(None, create), newId) == Step(Failure(MissingTags), s)
    ensures MissingTags.Message() == "Must define tags in getOrCreateForTags"
  {
  }

  /**
    An indexed actor is reused: its endpoint is returned, nothing is created or
    written, and that actor has exactly the query's tags.
  */
  lemma ExistingEntryReused(s: State, tags: Tags, create: Option<CreateRequest>, newId: string)
    requires Valid(s) && FreshId(s, newId)
    requires LookupId(s, tags).Some?
    ensures var r := QueryActor(s, GetOrCreateForTags(Some(tags), create), newId);
      && r.state == s
      && r.result == Success(Response(BuildActorEndpoint(LookupId(s, tags).value)))
      && s.actors[LookupId(s, tags).value].tags == tags
  {
    LookupIsExact(s, tags);
  }

  /**
    No indexed actor and a `create` request: exactly one actor is added, under the
    fresh id, initialised with the create request's tags; the index entry is
    written under the key of those tags (not necessarily the query's).
  */
  lemma AbsentEntryCreated(s: State, tags: Tags, create: CreateRequest, newId: string)
    requires FreshId(s, newId)
    requires LookupId(s, tags).None?
    ensures var r := QueryActor(s, GetOrCreateForTags(Some(tags), Some(create)), newId);
      && newId !in s.actors
      && r.state.actors == s.actors[newId := Actor(create.tags)]
      && |r.state.actors| == |s.actors| + 1
      && r.state.index == s.index[TagKey(create.tags) := newId]
      && r.result == Success(Response(BuildActorEndpoint(newId)))
  {
  }

  /** No indexed actor and no `create` request: the request fails and changes nothing. */
  lemma AbsentEntryNotCreated(s: State, tags: Tags, newId: string)
    requires FreshId(s, newId)
    requires LookupId(s, tags).None?
    ensures QueryActor(s, GetOrCreateForTags(Some(tags), None), newId) == Step(Failure(NotFoundWithTags), s)
    ensures NotFoundWithTags.Message() == "Actor not found with tags or is private."
  {
  }

  /**
    `create` always adds a fresh actor and overwrites the index entry for its
    tags, so a later lookup on those tags finds the newest actor.
  */
  lemma CreateOverwrites(s: State, request: CreateRequest, newId: string)
    requires FreshId(s, newId)
    ensures var r := QueryActor(s, Create(request), newId);
      && r.state.actors == s.actors[newId := Actor(request.tags)]
      && r.state.index == s.index[TagKey(request.tags) := newId]
      && LookupId(r.state, request.tags) == Some(newId)
      && GetWithTags(r.state, request.tags) == Some(r.result.value)
  {
  }

  // ---------------------------------------------------------------------------
  // Repeating a request

  /**
    Repeating a `getOrCreateForTags` whose create request (if any) carries the
    query's own tags gives the same result and changes nothing more.
  */
  lemma GetOrCreateIdempotent(s: State, tags: Option<Tags>, create: Option<CreateRequest>, id1: string, id2: string)
    requires tags.Some? && create.Some? ==> create.value.tags == tags.value
    requires FreshId(s, id1)
    requires FreshId(QueryActor(s, GetOrCreateForTags(tags, create), id1).state, id2)
    ensures var first := QueryActor(s, GetOrCreateForTags(tags, create), id1);
      QueryActor(first.state, GetOrCreateForTags(tags, create), id2) == first
  {
  }

  /**
    Without that proviso idempotence fails: when the create request's tags
    differ from the query's, every repeat creates another actor.
  */
  lemma MismatchedCreateRepeats(s: State, tags: Tags, create: CreateRequest, id1: string, id2: string)
    requires create.tags != tags
    requires LookupId(s, tags).None?
    requires FreshId(s, id1) && FreshId(s, id2) && id1 != id2
    ensures var first := QueryActor(s, GetOrCreateForTags(Some(tags), Some(create)), id1);
      var second := QueryActor(first.state, GetOrCreateForTags(Some(tags), Some(create)), id2);
      && |second.state.actors| == |s.actors| + 2
      && second.result != first.result
  {
    var first := QueryActor(s, GetOrCreateForTags(Some(tags), Some(create)), id1);
    assert FreshId(first.state, id2);
    TagKeyInjective(create.tags, tags);
    assert LookupId(first.state, tags).None?;
    var second := QueryActor(first.state, GetOrCreateForTags(Some(tags), Some(create)), id2);
    assert ActorIdOf(second.result.value.endpoint) == Some(id2);
    assert ActorIdOf(first.result.value.endpoint) == Some(id1);
  }

  // ---------------------------------------------------------------------------
  // At most one actor per tag set

  /** `getOrCreateForTags` with matching create tags never makes a second actor with the same tags. */
  lemma GetOrCreateKeepsTagsUnique(s: State, tags: Tags, create: CreateRequest, newId: string)
    requires Valid(s) && UniqueTags(s) && FreshId(s, newId)
    requires create.tags == tags
    ensures UniqueTags(QueryActor(s, GetOrCreateForTags(Some(tags), Some(create)), newId).state)
  {
    LookupIsExact(s, tags);
  }

  /** `create` with tags an existing actor already has leaves two actors with those tags. */
  lemma CreateDuplicatesTags(s: State, request: CreateRequest, existing: string, newId: string)
    requires FreshId(s, newId)
    requires existing in s.actors && s.actors[existing].tags == request.tags
    ensures !UniqueTags(QueryActor(s, Create(request), newId).state)
  {
    var s' := QueryActor(s, Create(request), newId).state;
    assert existing in s'.actors && newId in s'.actors && existing != newId;
    assert s'.actors[existing].tags == s'.actors[newId].tags;
  }

  // ---------------------------------------------------------------------------
  // Key agreement

  /**
    The same two properties in another order make a different key. Keys that are
    distinct and not array indices are enumerated in insertion order, so both
    orders are objects JavaScript can build.
  */
  lemma ReorderedTagsDiffer(p: Tag, q: Tag)
    requires p.0 != q.0 && !IsArrayIndex(p.0) && !IsArrayIndex(q.0)
    ensures TagKey([p, q]) != TagKey([q, p])
  {
    TagKeyInjective([p, q], [q, p]);
  }

  /**
    An actor created with tags `[p, q]` is not found by a query for `[q, p]`,
    for two distinct keys that are not array indices.
  */
  lemma ReorderedQueryMisses(p: Tag, q: Tag, region: Option<string>, id1: string, id2: string)
    requires p.0 != q.0 && !IsArrayIndex(p.0) && !IsArrayIndex(q.0)
    requires id1 != "" && id2 != "" && id1 != id2
    ensures var first := QueryActor(Empty, Create(CreateRequest([p, q], region)), id1);
      QueryActor(first.state, GetOrCreateForTags(Some([q, p]), None), id2).result == Failure(NotFoundWithTags)
  {
    var first := QueryActor(Empty, Create(CreateRequest([p, q], region)), id1);
    assert first.state.index == map[TagKey([p, q]) := id1];
    ReorderedTagsDiffer(p, q);
    assert LookupId(first.state, [q, p]).None?;
    AbsentEntryNotCreated(first.state, [q, p], id2);
  }
}
