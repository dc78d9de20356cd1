# Actor router of the counter example

This project models the actor router of the counter example's manager driver
(`examples/counter/src/manager.ts`) and proves its properties in Dafny.
`queryActor` takes one of three requests and answers with an actor's endpoint:

- `getForId` builds the endpoint for the given actor id.
- `getOrCreateForTags` looks the tags up in a key/value tag index. It returns the
  indexed actor if there is one. Otherwise it creates an actor when the request
  carries a `create` request, and fails when it does not.
- `create` always creates an actor.

To create an actor, the router mints a Durable Object id and initialises the
actor with its tags. It then writes the id to the index under the key
`actor:tags:<JSON.stringify(tags)>:id`.

Files:

- `wrappers.dfy`: `Option` and `Result`.
- `tag_json.dfy`: `JSON.stringify` of a tag object (an object whose property
  values are all strings), plus a decoder. The decoder is used to prove that the
  encoding is injective.
- `router.dfy`: the state, the three operations and the state invariant `Valid`.
- `router_properties.dfy`: the properties of each outcome, idempotence, tag
  uniqueness and key agreement.

Modelling choices:

- **The tag index.** The `ACTOR_KV` namespace is `State.index`, a
  `map<string, string>` from tag key to actor id.
- **The actors.** The Durable Object namespace is `State.actors`, a map from
  actor id to the tags the actor was initialised with.
- **Fresh ids.** `newUniqueId` becomes a parameter `newId`. The platform's
  promise about it is the hypothesis `FreshId`: the id is non-empty and names no
  existing actor.
- **Tags.** A tag object is a `seq<(string, string)>`, holding its properties
  in the order `JSON.stringify` enumerates them. The source has no canonical
  form, so the model has none. The same pairs in another order give a different
  key and do not match.
- **Empty stored ids.** `getWithTags` treats a stored empty string as absent,
  because the empty string is falsy. `LookupId` does the same. In reachable
  states this never happens, because every actor id is non-empty.
- **What the code does not do, as its own TODO comments note.**
  - There is no canonical tag encoding. The key is the `JSON.stringify` text, so
    property order matters (the TODO at `manager.ts:69` asks for a proper tag
    lookup structure).
  - `getForId` never fails. It returns an endpoint for any id, existing or not
    (the TODOs at `manager.ts:23` and `manager.ts:27` leave error handling and
    a not-found answer for later).
  - At most one actor per tag set holds only for `getOrCreateForTags` whose
    create request carries the query's own tags (`GetOrCreateKeepsTagsUnique`).
    `create` with tags an existing actor already has leaves two actors with
    those tags (`CreateDuplicatesTags`). `getOrCreateForTags` whose create tags
    differ from the query tags creates a new actor on every repeat
    (`MismatchedCreateRepeats`).

## Model

| member | source | states |
|---|---|---|
| `Router.BuildActorEndpoint` | examples/counter/src/manager.ts:13-16 | the endpoint parses back to exactly the actor id it was built from, so distinct ids give distinct endpoints |
| `TagJson.StringifyRoundTrip` | examples/counter/src/manager.ts:72 | decoding the `JSON.stringify` text of a tag object gives back the same properties in the same order |
| `TagJson.StringifyInjective` | examples/counter/src/manager.ts:123 | two tag sequences have the same JSON text if and only if they are equal, order included |
| `Router.TagKey` | examples/counter/src/manager.ts:71-73 | the index key of a tag object can be parsed back to those tags |
| `Router.TagKeyInjective` | examples/counter/src/manager.ts:122-124 | the read key and the write key come from one format, and two tag sequences share a key iff they are equal as ordered sequences |
| `Router.LookupId` | examples/counter/src/manager.ts:71-77 | an id is found exactly when the index holds a non-empty id under the key of these tags, and the found id is that entry; any other entry is never read |
| `Router.GetWithTags` | examples/counter/src/manager.ts:65-78 | an endpoint is returned iff the index holds a non-empty id under the tag key, and it names that id |
| `Router.CreateActor` | examples/counter/src/manager.ts:105-128 | exactly one actor is added under the fresh id with the request's tags; earlier actors are unchanged; only the index entry for the request's tags changes; a lookup on those tags then finds the new id; the endpoint names it |
| `Router.CreatePreservesValid` | examples/counter/src/manager.ts:115-125 | creating an actor keeps every index entry pointing at an existing actor stored under that actor's own tag key, and keeps every actor's key in the index |
| `Router.QueryActor` | examples/counter/src/manager.ts:20-61 | every request leaves existing actors unchanged and adds at most the fresh one; a failure changes nothing; in a valid state a successful tag request names an existing actor |
| `RouterProperties.QueryPreservesValid` | examples/counter/src/manager.ts:20-61 | every request keeps the index consistent with the actors |
| `RouterProperties.LookupIsExact` | examples/counter/src/manager.ts:65-77 | in a valid state a lookup finds an actor iff some actor has exactly the query's tags in the query's order, and the actor it finds has them |
| `RouterProperties.GetForIdIsPure` | examples/counter/src/manager.ts:22-39 | `getForId` answers with the endpoint for any id, existing or not, and changes nothing |
| `RouterProperties.MissingTagsFail` | examples/counter/src/manager.ts:41-42 | absent tags fail with "Must define tags in getOrCreateForTags", even when a create request is present, and change nothing |
| `RouterProperties.ExistingEntryReused` | examples/counter/src/manager.ts:44-48 | an indexed actor's endpoint is returned, nothing is created or written, and that actor has exactly the query's tags |
| `RouterProperties.AbsentEntryCreated` | examples/counter/src/manager.ts:50-52 | with no indexed actor and a create request, exactly one actor is added under an id not present before, initialised with the create request's tags; the index entry is written under the create tags' key; the endpoint names the new id |
| `RouterProperties.AbsentEntryNotCreated` | examples/counter/src/manager.ts:50-55 | with no indexed actor and no create request, the call fails with "Actor not found with tags or is private." and changes nothing |
| `RouterProperties.CreateOverwrites` | examples/counter/src/manager.ts:57-59 | `create` always adds a fresh actor and overwrites the index entry for its tags, so a later lookup returns the newest actor's endpoint |
| `RouterProperties.GetOrCreateIdempotent` | examples/counter/src/manager.ts:40-56 | repeating a `getOrCreateForTags` whose create request has no other tags than the query gives the same result and changes nothing more |
| `RouterProperties.MismatchedCreateRepeats` | examples/counter/src/manager.ts:50-52 | when the create tags differ from the query tags, a repeat of a call that created an actor creates another one with a different endpoint |
| `RouterProperties.GetOrCreateKeepsTagsUnique` | examples/counter/src/manager.ts:44-52 | starting from a valid state with no two actors sharing tags, `getOrCreateForTags` with matching create tags keeps it that way |
| `RouterProperties.CreateDuplicatesTags` | examples/counter/src/manager.ts:57-59 | `create` with tags that an existing actor already has leaves two actors with the same tags |
| `RouterProperties.ReorderedTagsDiffer` | examples/counter/src/manager.ts:69-73 | two properties with distinct keys that are not array indices give a different index key in the other order |
| `RouterProperties.ReorderedQueryMisses` | examples/counter/src/manager.ts:122-124 | for distinct keys that are not array indices, an actor created with tags `[p, q]` is not found by a query for `[q, p]` without a create request |

## Left out

- Concurrency: `getWithTags` and `createActor` are separate awaits with no
  atomicity. The model applies requests one at a time and makes no race-freedom
  claim.
- Platform consistency: Workers KV reads may be stale. The model's reads always
  see the latest write.
- Platform failures: a failing `initialize` or `put` is not modelled.
- The Durable Object jurisdiction argument and the string form of ids: these
  are abstracted by the `FreshId` hypothesis. The region field is carried in
  `CreateRequest` but has no effect.
- Lone UTF-16 surrogates: `JSON.stringify` escapes them, but Dafny characters
  are Unicode scalar values, so they cannot occur in the model.
- Property enumeration order: JavaScript enumerates array-index keys
  (`IsArrayIndex`) first, in ascending order, and cannot hold a key twice. The
  tag sequence is the enumeration order itself, so objects that differ only in
  the insertion order of such keys are the same sequence. The operations accept
  any sequence; the lemmas about reordering are stated only for keys that are
  distinct and not array indices.
- Commented-out code (access and destroyed checks, sorting) and the unused
  `destroyedAt` field of the actor state: never executed or read.
- Logging calls.
- The HTTP layer: the Hono routers, CORS, schema parsing, Cloudflare request
  forwarding and URL rewriting. These are I/O glue around `queryActor`.
- CLI and dev-server tooling, and the lobby-manager test harness.
- The lobby-manager state: only its type declarations exist, and no code acts
  on them. The lobby-manager state machine is not part of this model.
