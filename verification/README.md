# GraphQL `where` arguments to Elasticsearch bool queries, in Dafny

This project models the core of GraphQLToElasticSearchTranslator: the
`QueryGenerator` class (`src/generator.ts`), its helper functions
(`src/helper.ts`) and the utilities `getDepth` and `Stack`
(`src/util/index.ts`). Given a `where` object from a GraphQL request and a
filter configuration, the generator adds one bool clause per top-level key
to a query under construction:
- each field argument becomes a `term`, `match`, `terms`, `range`, `prefix`,
  `multi_match`, `match_phrase` or `exists` clause on its configured db
  field;
- `and`, `or` and `not` arrays become `must`, `should` and `must_not` bools;
- fields of db type "nested" are wrapped in `nested` clauses on their path.

To decide where a `nested` clause goes, the generator keeps instance
state while it walks the tree: a stack of open nested paths, a per-path
counter dictionary, a combinator level and a "non-nested field seen"
flag. The model keeps that state explicitly.

The project has two layers:
- Module `Translation` is the reference. It holds pure functions over an
  explicit `EngineState`, and each returns either the clauses built plus
  the new state, or the error thrown.
- Module `Generator` holds the class `QueryGenerator`. It has the
  source's fields: a `Util.Stack<string>` for `nestedPath`, a map for
  `nestedDict`, and integers and a flag for the rest. Its methods update
  those fields step by step, with the source's loops. Each method is
  proved to produce exactly what the `Translation` function produces.

The remaining modules state and prove the properties:
- `Scope`: the stack and counter invariant, and what `buildSubQuery` wraps.
- `Clauses`: clause shapes, bounds, the one-key rule, the depth bound, the
  mixed-scope refusal and the sort object.
- `Siblings`: how nested leaves are wrapped alone, together, or across
  two paths.
- `Scenarios`: the repository's own test configuration and examples.

JavaScript values are a small datatype (`Json.Value`), and objects keep
their keys in `Object.keys` order. Requests are assumed to be well typed
as GraphQL would deliver them (`Types.IsWhere`):
- keys are distinct;
- `and`/`or`/`not` hold arrays of objects;
- the null checks hold strings;
- `...IsIn`/`...IsNotIn` hold arrays.

Everything else is handled on its error path, with the status the source
uses:
- 400 for an `ApolloError` BAD REQUEST;
- 500 for an unknown `validateField` operation;
- a plain `Error` for an argument without a descriptor;
- a `TypeError` for the property read on the missing first key of an
  empty object.

`LeafShape` also answers `TypeError` for a `MultiMatch` or `Prefix`
argument without a descriptor, as the property read at those lines would
throw. `buildMetaQueries` never gets that far with such an argument: it
refuses it first, with the camelCase error or the plain `Error` of the
lookup (`Clauses.UndescribedRefusedFirst`). Likewise the `TypeError` that
`LeafShape` gives for an `isNotNull` whose `validateField` answers false
stands for a branch that cannot be reached (`Helper.ValidateFieldOutcomes`);
the source would push nothing there.

Behaviours of the code that its method names and comments do not
announce. The model follows the code in each case, and a lemma
states each one:
- A top-level key that is no operator passes the whole `where` object to
  `buildBoolANDQuery`, and `buildMetaQueries` reads only the object's
  first key. So `{id: "1", email: "x"}` yields two `must` bools, both on
  `id` (`Scenarios.TwoFieldKeys`), not one bool with a clause per key.
- The depth bound is checked only in `buildMetaQueries`. With a negative
  bound a field is refused, but a top-level `isNull` still succeeds
  (`Scenarios.NegativeBound`).
- A top-level `and`/`or`/`not` key is built with `nestedLevel` still 0,
  so each of its nested elements is closed on its own. So
  `{or: [{tagName: "a"}, {tagName: "b"}]}` on path `tags` gives two
  separate `nested` clauses inside the `should` bool, one per leaf
  (`Siblings.LeavesAtTop`). Siblings share one `nested` clause only when
  the combinator is itself an element of such an array
  (`Siblings.CombinatorOnOnePath`).
- An `or` over nested fields on two different paths is wrapped in a
  `nested` clause for the last path only. The first path stays on the
  stack (`Siblings.TwoPathsUnderOr`).
- The same path across two combinator levels is wrapped twice. In
  `{or: [{and: [{tagName: "a"}]}, {tagName: "b"}]}` the inner `and` pops
  the only open copy of `tags` and wraps at once; `b` then reopens
  `tags`, and the `or` is wrapped on it again. The result is a `nested`
  clause on `tags` inside another on `tags`
  (`Siblings.NestedTwiceOnOnePath`).
- A `match_phrase` db type builds `{match_phrase: {}}`, a phrase clause
  holding no field, because the expression object is still empty at that
  point (`Types.QueryNode.BareMatchPhrase`).
- The counter dictionary is a plain object, so a nested path named like
  an `Object.prototype` member (such as "constructor") starts from an
  inherited value, not from `undefined`; its first leaf is left
  unwrapped. The model does not reproduce this (see "## Left out").
- The `nestedPath` stack signals an empty pop with the string
  "underflow". A nested path spelled "underflow" is therefore
  indistinguishable from an empty stack. The model keeps this. The scope
  invariant lemmas assume no configured nested field has that path
  (`Scope.NoSentinelPaths`).

## Model

| member | source | states |
|---|---|---|
| Generator.QueryGenerator.constructor | src/generator.ts:31-42 | The new generator has an empty path stack, an empty counter dictionary, filter depth 0, level 0 and the flag off. The two bounds are as given, 3 and 150 by default, and the stack object is fresh. |
| Translation.Fresh | src/__tests__/generator.test.ts:60-68 | The initial state: depth 0, an empty stack and dictionary, level 0, the flag off and the given bounds. |
| Generator.QueryGenerator.GetSortObject | src/generator.ts:50-59 | The `forEach` loop builds exactly `SortOf` of the sort entries. Its contents are characterised by `Clauses.SortOfKeys` and `Clauses.SortOfLastWins`. |
| Clauses.SortOfKeys | src/generator.ts:50-59 | The sort object has one property per db field that some sort entry maps onto. Unmapped entries are dropped and "_score" is kept. Its keys are distinct. |
| Clauses.SortOfLastWins | src/generator.ts:52-57 | Each property of the sort object holds the direction of the last sort entry that maps onto that db field. |
| Clauses.PutGet | src/generator.ts:55 | After `o[k] = v`, `k` holds `v`, every other property is unchanged, and the keys stay distinct. |
| Clauses.IndexOfDistinct | src/generator.ts:55 | In an object with distinct keys, a property lookup finds each key at its own position. |
| Generator.QueryGenerator.GetFilterQuery | src/generator.ts:67-92 | The result and the new state are those of `FilterQuery`: the depth is set from `getDepth`, and the `forEach` over the keys dispatches each key to the right builder. |
| Generator.QueryGenerator.AddKeyClause | src/generator.ts:69-90 | One turn of the `forEach` over the top-level keys. The builder that the key selects adds exactly `KeyClause` of that key, or throws its error. |
| Clauses.FilterQueryShape | src/generator.ts:67-92 | On success, `getFilterQuery` adds exactly one bool clause per top-level key, in key order, after the clauses already present. Each clause has the occurrence kind its key calls for. |
| Clauses.OperatorsShape | src/generator.ts:71-91 | From key `i` on, the walk adds one bool per key, of kind `KeyOccur` of that key. |
| Clauses.KeyClauseShape | src/generator.ts:71-91 | The clause a single top-level key adds is a bool of that key's kind, and the bounds are unchanged. |
| Clauses.FilterQueryBeyondDepth | src/generator.ts:286-290 | A `where` object deeper than the bound allows is refused whenever it has a combinator level at all. |
| Clauses.OperatorsFailPastDepth | src/generator.ts:286-290 | Past the bound, a key holding a non-empty `and`/`or` array makes the rest of the walk fail. |
| Clauses.UndescribedRefusedFirst | src/generator.ts:233-242 | An argument the configuration does not describe is refused before any clause is built: the camelCase error when the name fails that check, otherwise the plain `Error` of the lookup. |
| Clauses.MetaBeyondDepth | src/generator.ts:233-290 | Past the bound, `buildMetaQueries` always throws. The error is the depth error unless the name check, the lookup or the scope check refused the argument first. |
| Generator.QueryGenerator.BuildBoolQuery | src/generator.ts:95-143 | The common body of the three bool builders equals `BoolQuery` with the given occurrence kind, pushed onto the query. |
| Generator.QueryGenerator.BuildBoolAndQuery | src/generator.ts:95-109 | Equals `BoolQuery` with `must`, pushed onto the query. |
| Generator.QueryGenerator.BuildBoolOrQuery | src/generator.ts:112-126 | Equals `BoolQuery` with `should`, pushed onto the query. |
| Generator.QueryGenerator.BuildBoolNotQuery | src/generator.ts:129-143 | Equals `BoolQuery` with `must_not`, pushed onto the query. |
| Clauses.OneKeyPerElementRule | src/generator.ts:95-143 | An element with more than one key refuses the whole array with a 400 naming the combinator. On success the result is one bool of the combinator's kind with one clause per element. |
| Clauses.FilterListLength | src/generator.ts:216-228 | The `forEach` of `buildFilterQueries` adds exactly one clause per element, after those already collected. |
| Generator.QueryGenerator.BuildBoolIsNullQuery | src/generator.ts:146-155 | Succeeds exactly when the field is in the `isNull` allow-list. It then adds `must_not` around `exists` on the db field; otherwise it refuses with a 400 naming the field. It agrees with the top-level key dispatch. |
| Generator.QueryGenerator.BuildBoolIsNotNullQuery | src/generator.ts:158-167 | The same for `isNotNull` and a `must` bool. |
| Clauses.NullChecks | src/generator.ts:146-167 | Both directions of "accepted iff allow-listed", the exact clause, and the exact error, for both null checks. |
| Translation.NestedQuery | src/generator.ts:170-177 | The clause is a `nested` clause on the path holding just the given clause. |
| Generator.QueryGenerator.BuildSubQuery | src/generator.ts:179-214 | The pop, the level decrement, the counter update and the drain loop together equal `SubQuery` on the old state. |
| Generator.QueryGenerator.DrainPaths | src/generator.ts:199-210 | The `while` loop equals `DrainFrom`: it pops until a path's counter goes negative, then wraps for that path. |
| Scope.FreshInv | src/generator.ts:31-42 | A fresh generator satisfies the invariant: no sentinel on the stack, and each path's counter plus one equals its occurrences on the stack. |
| Scope.TrackKeepsInv | src/generator.ts:246-285 | Tracking an argument keeps the invariant and leaves the level and bounds alone. A nested argument's path goes on top, and its counter becomes the number of its earlier occurrences. |
| Scope.PopStep | src/generator.ts:182-189 | Popping the top path and decrementing its counter keeps the invariant. The counter goes negative exactly when no other occurrence of the path is left. |
| Scope.DrainFinds | src/generator.ts:199-210 | The drain keeps the counters in step with the stack. It finds a path exactly when the stack is not empty, at the highest position holding the lowest occurrence of its path, and cuts the stack just below it. |
| Scope.SubQueryOutcome | src/generator.ts:179-214 | With the invariant, `buildSubQuery` keeps it and lowers a positive level. An empty stack leaves the clause as is. A popped path with no other occurrence wraps the clause. With another occurrence, the clause stays unwrapped while a combinator is open; otherwise the drain wraps it for the path where it stops. |
| Scope.DrainTail | src/generator.ts:199-210 | The drain branch keeps the invariant and changes only stack and counters. It wraps for the stopping path and leaves the stack below it. |
| Scope.SubQueryWrapsExactly | src/generator.ts:179-214 | The clause is wrapped iff the stack is non-empty and either the popped path has no other occurrence or no combinator is left open. When wrapped, it is for a path that was on the stack. |
| Scope.SubQuerySettles | src/generator.ts:179-214 | `buildSubQuery` changes only stack, counters and level, lowers a positive level by one, and keeps the invariant. |
| Scope.LeafSettles | src/generator.ts:460-478 | Only a scoped leaf clause at level 0 goes through `buildSubQuery`, and that call settles the state. |
| Scope.MetaSettles | src/generator.ts:230-487 | A successful `buildMetaQueries` leaves the bounds and depth alone and restores a non-negative level. With no sentinel path configured, it keeps the invariant. |
| Scope.DispatchSettles | src/generator.ts:293-484 | The same for the dispatch on the argument kind. |
| Scope.FilterQueriesSettles | src/generator.ts:216-228 | The same for `buildFilterQueries`. |
| Scope.FilterListSettles | src/generator.ts:219-226 | The same for its `forEach` over the elements. |
| Generator.QueryGenerator.BuildFilterQueries | src/generator.ts:216-228 | Resets the flag, builds each element's clauses in order, and equals `FilterQueries`. |
| Generator.QueryGenerator.CollectClauses | src/generator.ts:220-223 | The `forEach` over an array pushes each element's `buildMetaQueries` clause in turn. It equals `FilterList` from an empty list, and stops at the first error. |
| Generator.CollectStep | src/generator.ts:221-223 | One turn of that loop. An error from an element is the error of the whole list. Otherwise the rest of the list continues from the new state and the longer list. |
| Generator.QueryGenerator.BuildMetaQueries | src/generator.ts:230-487 | The name check, lookup, nested tracking, depth check and dispatch equal `Meta`, pushed onto `basefilter`. |
| Generator.QueryGenerator.DispatchArgument | src/generator.ts:293-484 | The `if` chain over the argument name equals `Dispatch`, pushed onto `basefilter`. |
| Clauses.PathOfShape | src/generator.ts:261-262 | The nested path is the text before the first dot and holds no dot. The field starts with path plus dot. A field without a dot has the empty path. |
| Translation.IndexOfChar | src/generator.ts:261 | `indexOf` is -1 exactly when the character is absent. Otherwise it is the position of its first occurrence. |
| Clauses.OnlyNestedIsScoped | src/generator.ts:293-484 | Only an argument of db type "nested" yields a clause routed through the scope machinery. |
| Clauses.IsInBounds | src/generator.ts:383-416 | `...IsIn` accepts arrays of 1 up to the limit items, both ends included. A longer array is refused as over the limit and an empty one as empty. A text field matches any item. |
| Clauses.IsNotInBounds | src/generator.ts:352-382 | `...IsNotIn` accepts any array up to the limit, the empty one included, and refuses a longer one. |
| Clauses.IsNotInExcludes | src/generator.ts:352-382 | A successful `...IsNotIn` adds a `must_not` bool around exactly one clause, whatever its db type. |
| Clauses.PrefixReversal | src/generator.ts:431-443 | An argument without a descriptor gives a TypeError; `buildMetaQueries` never reaches that case, because it refuses such an argument first (`Clauses.UndescribedRefusedFirst`). Otherwise the result is a prefix clause on the field whose text has the value's length. The text is the value itself, or the value reversed for `prefix_type` "reverse". |
| Clauses.LeafLeavesState | src/generator.ts:293-484 | A leaf leaves the state unchanged unless it is a nested clause outside every combinator. |
| Clauses.NestedLeafInScope | src/generator.ts:247-266 | Inside a combinator, a nested leaf is refused once a non-nested field was seen. When accepted, it pushes its path and bumps that path's counter, and changes nothing else: bounds, depth, level and flag are as before. |
| Clauses.PlainLeafInScope | src/generator.ts:267-285 | Inside a combinator, a non-nested leaf is refused while a nested path is open. When accepted, it only sets the non-nested flag. |
| Clauses.MixedScopeRefused | src/generator.ts:246-285 | A nested and a non-nested field cannot be siblings in a combinator, in either order. Once the first is accepted, the second is refused for the conflict. |
| Siblings.LeafInCombinator | src/generator.ts:246-266 | Inside a combinator, an accepted nested leaf pushes its clause unwrapped and pushes its path onto the stack. |
| Siblings.LeafAtTop | src/generator.ts:460-478 | Outside every combinator, a nested leaf on a path that is not yet open gets a `nested` clause of its own. The stack ends as it started. |
| Siblings.LeavesInCombinator | src/generator.ts:216-228 | Inside a combinator, nested leaves all on one path push their clauses unwrapped and leave that path once per leaf on the stack. |
| Siblings.LeavesAtTop | src/generator.ts:216-228 | Outside every combinator, scoped nested leaves on paths not yet open are each wrapped on their own. The invariant holds and the stack ends as it started. |
| Siblings.BumpNPending | src/generator.ts:264-265 | Tracking `n` leaves on a path raises that path's pending count by `n` and no other path's. |
| Siblings.PushedInv | src/generator.ts:264-265 | Pushing `n` copies of a path and tracking them keeps the invariant. |
| Siblings.EnterCombinator | src/generator.ts:313-335 | A combinator outside every combinator builds its children one level down, and its bool goes through `buildSubQuery`. |
| Siblings.CombinatorOnOnePath | src/generator.ts:179-214 | A combinator that is an element of an array built at level 0 (not a top-level key of the `where` object), whose elements are nested leaves all on one path, gets one `nested` clause around its bool. The stack is as before, the level is back at 0, and the invariant holds. |
| Siblings.CloseShared | src/generator.ts:199-210 | Closing such a combinator, the drain stops at the first copy of the path. The bool is wrapped once and the stack is restored. |
| Siblings.SharedStop | src/generator.ts:199-210 | In a stack of earlier paths followed by copies of a new path, the drain can stop only at the first copy. |
| Siblings.TwoPathsUnderOr | src/generator.ts:179-214 | An `or` over nested leaves on two different paths is wrapped for the second path only, with both clauses inside. The first path stays on the stack. |
| Siblings.CloseLast | src/generator.ts:187-194 | Closing a combinator whose leaves pushed two different paths wraps on the last path alone and leaves the first on the stack. |
| Siblings.NestedTwiceOnOnePath | src/generator.ts:179-214 | In `{or: [{and: [a]}, b]}` at level 0, with `a` and `b` nested leaves on one path not yet open, the result is a `nested` clause on that path around the `should` bool, whose first clause is another `nested` clause on the same path around the inner `must` bool. The stack is as before. |
| Siblings.OrChildren | src/generator.ts:216-228 | The elements of that `or`, walked at level 1, give the inner `and`'s own `nested` clause and then `b`'s bare clause, and leave the path open once with its counter at 0. |
| Siblings.InnerFirst | src/generator.ts:216-228 | The first step of that walk: the inner `and` contributes its `nested` clause and leaves the path's counter at -1. |
| Siblings.LastLeaf | src/generator.ts:216-228 | A nested leaf as the last element inside a combinator appends its bare clause, pushes its path and bumps its counter. |
| Siblings.InnerAndClosesAtOnce | src/generator.ts:320-326 | An `and` over one nested leaf at level 1, with the leaf's path not open, is wrapped in its own `nested` clause; the stack is as before and the path's counter ends at -1. |
| Siblings.EnterUntyped | src/generator.ts:313-335 | A combinator declared with db type "None" passes the scope checks at any level; its children are built one level down and its bool goes through `buildSubQuery`. |
| Siblings.CloseFresh | src/generator.ts:179-194 | Closing at level 2 a scope whose only push was a path not open before: the bool is wrapped on that path, the level drops to 1, the stack is as before and the counter ends at -1. |
| Helper.LookupsAgree | src/helper.ts:8-31 | "_score" always maps to itself, even when it also has a descriptor. A described argument maps to its db field, db type and nested type. An undescribed one maps to nothing. Name and type lookups agree on every other argument. |
| Helper.MatchClauses | src/helper.ts:34-40 | One `match` on the key per item, in order. |
| Helper.GetMatchItemsQuery | src/helper.ts:33-44 | A `should` bool with exactly one `match` clause per item, in item order. |
| Helper.ValidateFieldOutcomes | src/helper.ts:46-71 | Each null-check operation accepts exactly its allow-listed fields and refuses the rest with a 400. Any other operation gives a 500. It never answers false. |
| Helper.CamelCaseCharacterised | src/helper.ts:73-83 | The character scan accepts exactly names that start with a lower-case ASCII letter followed only by ASCII letters and digits, as the anchored regular expression does. `validateGraphQLStandard` agrees. |
| Helper.ScoreIsNotCamelCase | src/helper.ts:73-75 | "_score", the one name the lookup passes through, is never accepted as an argument name. |
| Types.ReservedKeys | src/generator.ts:313-351 | `or`, `and`, `not`, `isNotNull` and `isNull` are recognised by equality, whatever the db type. |
| Types.PlainName | src/generator.ts:429-484 | A name containing none of the suffixes selects `match_phrase` for that db type and the plain equality clause otherwise. |
| Types.ClassifyIgnoresDbType | src/generator.ts:293-460 | Only the `match_phrase` branch depends on the db type. |
| Json.Reverse | src/generator.ts:437 | The reversed string has the value's length. |
| Json.ReverseAt | src/generator.ts:437 | Character `k` of the reversal is character `len-1-k` of the value. |
| Json.ReverseInvolutive | src/generator.ts:433-440 | Reversing twice gives the value back. |
| Util.ItemDepth | src/util/index.ts:7-19 | The depth of an array element is at least 1. |
| Util.DepthAtLeastOne | src/util/index.ts:3-23 | Every depth is at least 1, and exactly 1 without a truthy `and`/`or`. |
| Util.MaxDepthIsMaximum | src/util/index.ts:7-19 | The `forEach` maximum bounds every element's depth and is attained by one. It is 0 exactly for an empty array. |
| Util.DepthOfCombinators | src/util/index.ts:6-22 | With an `and` array the depth is one more than its deepest child, and `or` is ignored. Otherwise an `or` array plays that part. Each child is strictly shallower. |
| Util.DepthOnlyReadsAndOr | src/util/index.ts:3-23 | Objects that agree on `and` and `or` have the same depth; `not` and every other key are ignored. |
| Util.Stack.constructor | src/util/index.ts:28-30 | A new stack is empty. |
| Util.Stack.Push | src/util/index.ts:43-45 | The item goes on top and nothing else changes. |
| Util.Stack.Pop | src/util/index.ts:32-41 | An empty stack answers `Underflow` and stays empty. Otherwise the top item is returned and removed. |
| Util.Stack.IsEmpty | src/util/index.ts:47-49 | True exactly when the stack has no items. |
| Util.PushThenPop | src/util/index.ts:32-45 | A push followed by a pop returns the pushed item and leaves the stack as it was. |
| Scenarios.Names | src/__tests__/generator.test.ts:7-57 | The test configuration's field names are camel case and classify as plain equality arguments. |
| Scenarios.FieldClause | src/generator.ts:479-480 | A keyword field of the test configuration yields a `term` on its db field and leaves the state alone. |
| Scenarios.FlatDepth | src/util/index.ts:3-23 | A one-key object other than `and`/`or` has depth 1. |
| Scenarios.OneKeyQuery | src/generator.ts:67-92 | For a one-key object, `getFilterQuery` adds exactly that key's clause. |
| Scenarios.OneKeyRefused | src/generator.ts:67-92 | For a one-key object, `getFilterQuery` throws that key's error. |
| Scenarios.EmailExample | src/__tests__/generator.test.ts:70-81 | `{email: "test@test.com"}` gives one `must` bool holding a `term` on "email.raw". |
| Scenarios.PairShape | src/__tests__/generator.test.ts:83-107 | The two example elements are `where` objects of depth 1. |
| Scenarios.PairTail | src/generator.ts:221-223 | After the first element's `term`, the second element adds its own `term` on "email.raw". |
| Scenarios.PairFacts | src/generator.ts:221-223 | Outside every combinator, the two example elements yield their two `term` clauses in order, and the state is unchanged. |
| Scenarios.PairDepth | src/util/index.ts:3-23 | A combinator over the pair has depth 2. |
| Scenarios.PairUnder | src/generator.ts:71-91 | Under a combinator key, the key's clause is the bool over the pair. |
| Scenarios.PairBool | src/generator.ts:95-143 | The bool over the pair, outside every combinator, holds the two `term` clauses in order. |
| Scenarios.CombinatorExample | src/generator.ts:313-335 | A combinator over the pair at the top yields one bool of its kind with the two terms in order. The state records only the depth. |
| Scenarios.AndExample | src/__tests__/generator.test.ts:83-94 | `{and: [{id: "123"}, {email: "test@test.com"}]}` gives a `must` bool holding both `term` clauses in order. |
| Scenarios.OrExample | src/__tests__/generator.test.ts:96-107 | The same elements under `or` give a `should` bool. |
| Scenarios.NullCheckAtTop | src/generator.ts:80-85 | A top-level `isNull`/`isNotNull` key adds its builder's clause or throws its builder's error. |
| Scenarios.NullKeyClause | src/generator.ts:80-85 | The clause a top-level null-check key adds is its builder's clause on an unchanged state, or its builder's error. |
| Scenarios.IsNullExample | src/__tests__/generator.test.ts:109-120 | `{isNull: "id"}` gives `must_not` around `exists` on "id". |
| Scenarios.IsNotNullExample | src/__tests__/generator.test.ts:122-133 | `{isNotNull: "email"}` gives `must` around `exists` on "email.raw". |
| Scenarios.IsNullOutsideAllowList | src/helper.ts:49-56 | `{isNull: "email"}` is refused with a 400 naming "email". |
| Scenarios.FieldKeyAtTop | src/generator.ts:86-88 | A top-level key that is no operator adds a `must` bool around the clause built from the whole object, or throws its error. |
| Scenarios.UnmappedExample | src/generator.ts:239-242 | An argument without a descriptor fails the lookup with the plain error. |
| Scenarios.NotCamelCaseExample | src/generator.ts:233-237 | "Id" is refused as not camel case before any lookup. |
| Scenarios.TwoKeysInElement | src/generator.ts:95-103 | An `and` element with two keys is refused before any clause is built. |
| Scenarios.TwoFieldsKeyClause | src/generator.ts:86-88 | Each key of `{id: "1", email: "x"}` sends the whole object, and only its first key is read. |
| Scenarios.TwoFieldKeys | src/generator.ts:71-91 | `{id: "1", email: "x"}` yields two `must` bools, both on `id`. |
| Scenarios.TwoFieldsMeta | src/generator.ts:230-245 | Built as a single expression, `{id: "1", email: "x"}` yields only the clause of its first key, `id`. |
| Scenarios.NegativeBound | src/generator.ts:286-290 | With bound -1, `{id: "1"}` is refused for depth while `{isNull: "id"}` succeeds. |

## Left out

- `getAggregationsQuery` (src/generator.ts:490-539): aggregations are a separate feature from the `where` translation and are not part of this model.
- The Bodybuilder query object is modelled as the list of bool clauses added to it, in order. Its JSON rendering by `build()` is not modelled.
- `ApolloError` messages and extension objects are reduced to the status code and the reason together with the name it carries.
- Reuse of one generator across requests is modelled only through the state: every lemma takes the state as a parameter.
- Leaf values, such as strings, numbers and `boostRelevance`, are opaque text. JavaScript coercions of them are not modelled.
- `Json.Reverse` reverses code points, while `split("").reverse().join("")` reverses UTF-16 code units. The two differ on surrogate pairs.
- Ill-typed requests, which GraphQL's schema rejects before the generator runs, are excluded by `Types.IsWhere`. Examples are a string where `and` expects an array, or a non-array truthy `and` in `getDepth`.
- `Generator.QueryGenerator.GetSortObject`: objects keep keys in insertion order. JavaScript lists integer-like keys first, so key order can differ for such db field names.
- Generator methods: on an error the state reached before the throw is not stated; only the error is.
- `Util.Stack.Pop`: the branch where `Array.pop` returns `undefined` from a non-empty array, whose items are themselves `undefined`, is not modelled. Path strings are never `undefined`.
- `Scope.MetaSettles`, `Scope.DispatchSettles`, `Scope.FilterQueriesSettles`, `Scope.FilterListSettles`: the invariant is proved only for configurations in which no nested field's path is spelled "underflow".
- `Translation.Track`, `Translation.SubQuery`, `Scope.TrackKeepsInv`, `Scope.MetaSettles`, `Scope.DispatchSettles`, `Scope.FilterQueriesSettles`, `Scope.FilterListSettles`: the counter dictionary is modelled as a map with no inherited entries.
  - In the source, `nestedDict` is a plain `{}` (src/generator.ts:37). A nested path spelled like a member of `Object.prototype` therefore reads an inherited value the first time it is tracked: "constructor", "toString", "valueOf", "hasOwnProperty", "isPrototypeOf", "propertyIsEnumerable", "toLocaleString", "__proto__", "__defineGetter__", "__defineSetter__", "__lookupGetter__", "__lookupSetter__".
  - The bump at src/generator.ts:266 then stores a string. For "__proto__" the write is ignored.
  - The decrement at src/generator.ts:189 gives `NaN`, so `buildSubQuery` does not wrap the clause. For example, a lone leaf on path "constructor" comes back with no `nested` wrapper.
  - The model sets the counter to 0 and wraps the clause. For such paths, `Siblings.LeafAtTop`, `Scope.SubQueryOutcome`, `Scope.SubQueryWrapsExactly` and the counter invariant describe the model, not the source.
- A `NaN` counter in the dictionary is modelled as an absent key. Both read as "no pending occurrence": `NaN - 1 < 0` is false, and `NaN + 1 || 0` and `undefined + 1 || 0` are both 0.
