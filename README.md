# Server list endpoint (djchat) in Dafny

This project models the server list endpoint of the djchat backend,
`ServerListViewSet.list`. The endpoint starts from every stored server
(`Server.objects.all()`) and narrows that queryset one step at a time,
driven by five optional query parameters and the caller's identity:

1. `category`: if it is non-empty, keep the servers whose category name equals it exactly.
2. `by_user=true`: an anonymous caller gets `AuthenticationFailed`. Otherwise keep the servers the caller is a member of.
3. `with_num_members=true`: annotate each row with `num_members`, which is `Count("member")`.
4. `by_serverid`: if it is non-empty, an anonymous caller gets `AuthenticationFailed`. Otherwise the id lookup runs. A value that does not convert to an integer is `ValidationError("Server value error")`. An empty result is `ValidationError("Server with id <raw> not found")`.
5. `qty`: if it is non-empty, keep only the first `int(qty)` rows.

Files and modules:

- `wrappers.dfy` (`Wrappers`): the `Option` type.
- `query_params.dfy` (`QueryParams`):
  - how raw values are read: Python truthiness, and flags that are on only for the exact literal `"true"`;
  - decimal integer conversion (`ParseInt`), with a canonical spelling `ShowInt` that `ParseInt` reads back (a right inverse only: `"007"` and `"+7"` both read as 7).
- `querysets.dfy` (`Querysets`):
  - the `Server` record and the queryset row `ServerView`;
  - the keyword lookups (`category__name=`, `member=`, `id=`) as a `Lookup` datatype;
  - `Filter`, `Annotate` and `Limit` (the prefix slice) as functions on sequences in store order;
  - the subsequence relation, and lemmas that chained filters are one filter with the AND of their lookups and that the order of chaining does not matter.
- `views.dfy` (`ServerViews`):
  - the request, the outcome (`Ok`, `AuthenticationFailed`, `ValidationError(detail)`, `UncaughtException`) and `ListResult`, a declarative definition of the outcome: the errors in the order the view raises them, then ONE filter with every lookup the request asks for, the optional annotation and the optional slice;
  - the class `ServerListViewSet`, whose `queryset` field the `List` method reassigns step by step as the source does. `List` is proved to return exactly `ListResult`.
- `properties.dfy` (`ListProperties`): what the endpoint promises, proved about `ListResult`, and examples in the shape of the docstring's queries, stated on a two-server store (A in Gaming with members 1 and 2, then B in Education with member 1).

Points where the model spells out behaviour the code leaves implicit:

- The not-found message contains the raw parameter as the client wrote it (`"007"` stays `"007"`), not the parsed number.
- The not-found `ValidationError` is raised inside the `try` block that catches `ValueError`. It is not a `ValueError`, so it is not turned into the value error.
- Django computes an annotation over the joins the queryset already holds. So after `member=<caller>`, `Count("member")` counts only the caller's own membership row, which gives 1. `MemberCount` models this with a join scope. The full member count `|members|` is claimed only when `by_user` is off.
- A negative `qty`, or one that does not convert, makes `int()` or the queryset slice raise an exception the view never catches. The model returns the separate outcome `UncaughtException` for it and invents no message.

## Model

| member | source | states |
|---|---|---|
| `ServerViews.ServerListViewSet.constructor` | djchat/server/views.py:19 | a fresh viewset's queryset is every stored server, in store order, unannotated |
| `ServerViews.ServerListViewSet.List` | djchat/server/views.py:89-123 | the step-by-step reassignment of `queryset` yields exactly `ListResult`; on success the queryset is the returned rows; on every exit the queryset holds stored servers in store order |
| `ServerViews.ListResult` | djchat/server/views.py:89-123 | the declarative outcome: authentication failure exactly when `by_user` or `by_serverid` is in effect for an anonymous caller; a validation error only for a signed-in `by_serverid`, with one of the two details; an uncaught exception only for an invalid `qty`; otherwise one ANDed filter, the optional annotation and the optional slice |
| `ServerViews.ByUserNeedsAuthentication` | djchat/server/views.py:98-103 | `by_user=true` from an anonymous caller is `AuthenticationFailed` whatever the other parameters are |
| `ServerViews.ByServerIdNeedsAuthentication` | djchat/server/views.py:108-110 | a non-empty `by_serverid` from an anonymous caller is `AuthenticationFailed`, even when the value is not an integer |
| `ServerViews.ServerIdValueError` | djchat/server/views.py:112-117 | a `by_serverid` that does not convert, from a signed-in caller, is `ValidationError("Server value error")` |
| `ServerViews.ListSubsequence` | djchat/server/views.py:95-120 | on success the returned servers are a subsequence of the store, in store order |
| `ServerViews.NarrowedFromStore` | djchat/server/views.py:96-113 | a filtered queryset, annotated or not, holds stored servers in store order |
| `ListProperties.LookupsHold` | djchat/server/views.py:95-113 | a server passes the request's chained lookups iff it meets every given parameter: category name, caller membership, id |
| `ListProperties.ListRowsMatch` | djchat/server/views.py:95-122 | every returned row is a stored server with the requested category, the caller among its members when `by_user` is on, and the requested id; it carries `num_members` iff `with_num_members` is on |
| `ListProperties.ListComplete` | djchat/server/views.py:95-120 | when no authentication, conversion or `qty` error applies, a stored server meeting every given parameter makes the outcome a list (so it rules out the not-found error), and without `qty` that server is in it |
| `ListProperties.UnknownCategoryIsEmpty` | djchat/server/views.py:95-96 | a category no stored server has gives `Ok([])`, not an error |
| `ListProperties.NoParametersListsAll` | djchat/server/views.py:95-120 | with empty or absent parameters and flags off, the whole store is returned in store order |
| `ListProperties.FlagsAreExactLiterals` | djchat/server/views.py:91-93 | any `by_user` or `with_num_members` value other than `"true"` behaves exactly like an absent one |
| `ListProperties.ServerIdNotFound` | djchat/server/views.py:112-115 | an id that converts, but that no server surviving the category and `by_user` filters carries, is `ValidationError("Server with id " + raw + " not found")` |
| `ListProperties.UnknownIdMessage` | djchat/server/views.py:115 | an id written canonically that no stored server has is reported with that spelling |
| `ListProperties.ServerIdSelectsOne` | djchat/server/views.py:113-114 | with unique ids, a successful `by_serverid` lookup returns at most one row, with that id; exactly one unless `qty` is 0 |
| `ListProperties.ServerIdFound` | djchat/server/views.py:112-115 | with unique ids, a `by_serverid` naming a stored server that meets the category and `by_user` conditions returns exactly that server (no `qty`), the converse of the not-found case |
| `ListProperties.QtyIsPrefix` | djchat/server/views.py:119-120 | a valid `qty` n gives the first min(n, count) rows of the result without it, and changes no error; `qty=0` gives `[]` |
| `ListProperties.BadQtyIsUnhandled` | djchat/server/views.py:120 | a `qty` that is negative or does not convert raises an uncaught exception once the earlier steps succeed |
| `ListProperties.MemberCountWhenRequested` | djchat/server/views.py:105-106 | `num_members` is the number of all members when `by_user` is off, and 1 (the caller's own join row) when it is on |
| `ListProperties.ExampleCategory` | djchat/server/views.py:73-74 | `?category=Gaming` (line 74) on the two-server store lists only the Gaming server |
| `ListProperties.ExampleQtyWithCount` | djchat/server/views.py:76-77 | a query shaped like line 77, `?qty=1&with_num_members=true`, gives the first server with its member count 2 |
| `ListProperties.ExampleByUser` | djchat/server/views.py:79-80 | `?by_user=true` (line 80) as a member of both servers lists both in store order |
| `ListProperties.ExampleUnknownId` | djchat/server/views.py:82-83 | a query shaped like line 83, `?by_serverid=999` for an id not in the store, gives `ValidationError("Server with id 999 not found")` |
| `ListProperties.ExampleKnownId` | djchat/server/views.py:82-83 | a query shaped like line 83 for a stored id, `?by_serverid=2` as user 1, lists server B alone |
| `Querysets.Filter` | djchat/server/views.py:96-113 | `filter` with keyword lookups: never more rows than it was given; which rows it keeps, and their order, are stated by `Querysets.FilterMembers` and `Querysets.FilterSubsequence` |
| `Querysets.FilterSubsequence` | djchat/server/views.py:96 | `filter` keeps rows in their original order |
| `Querysets.FilterMembers` | djchat/server/views.py:96 | `filter` keeps exactly the rows whose server passes every lookup |
| `Querysets.FilterNothing` | djchat/server/views.py:19 | a filter with no lookups leaves the queryset unchanged |
| `Querysets.FilterChain` | djchat/server/views.py:96-113 | chained `filter` calls equal one filter with the lookups of both, ANDed |
| `Querysets.FiltersCommute` | djchat/server/views.py:96-113 | the order of two chained filters does not change the result |
| `Querysets.FilterAnnotate` | djchat/server/views.py:106-113 | filtering an annotated queryset equals annotating the filtered one |
| `Querysets.Annotate` | djchat/server/views.py:106 | `annotate` gives exactly one row per input row; the servers and counts are stated by `Querysets.AnnotateServers` and `Querysets.AnnotateCounts` |
| `Querysets.MemberCount` | djchat/server/views.py:106 | `Count("member")` over the join rows left: all members without a membership filter, and 1 or 0 after `member=user` as the user is or is not a member |
| `Querysets.AnnotateServers` | djchat/server/views.py:106 | `annotate` keeps the servers and their order |
| `Querysets.AnnotateCounts` | djchat/server/views.py:106 | every annotated row is a row of the queryset with its server's member count |
| `Querysets.Limit` | djchat/server/views.py:120 | the slice `[:n]` is a prefix of length min(n, count) |
| `Querysets.AtMostOneWithId` | djchat/server/views.py:113 | with unique primary keys, a filter that fixes the id keeps at most one stored row |
| `Querysets.ServersOfRows` | djchat/server/views.py:19 | the base queryset holds exactly the stored servers, in store order |
| `QueryParams.ParseInt` | djchat/server/views.py:113-120 | `int()` of the raw value: a string converts exactly when it is a non-empty run of digits after an optional sign, with the sign deciding the sign of the result |
| `QueryParams.ParseIntLenient` | djchat/server/views.py:113 | `"007"` and `"+7"` both convert to 7 |
| `QueryParams.Present` | djchat/server/views.py:95 | Python truthiness of `get(name)`: an absent parameter and `""` are both false (also at lines 108 and 119) |
| `QueryParams.IsTrue` | djchat/server/views.py:91-93 | a flag is on only for the exact lowercase literal `"true"` |
| `QueryParams.ParseShowInt` | djchat/server/views.py:113 | every integer written in canonical decimal converts back to itself |
| `QueryParams.ParseIntRejects` | djchat/server/views.py:116-117 | a string with any character other than a leading sign and digits does not convert |

## Left out

- The Django ORM itself is left out: SQL generation, lazy evaluation, and `exists()` as a database query. Querysets are sequences in the store's natural order.
- `djchat/server/models.py` is not part of this model. `Server` keeps only the three fields the endpoint reads: the id, the category's name and the member ids.
- `ServerSerializer`'s field mapping and the `Response`/HTTP status mapping are left out. These live in files that are not part of this model. The outcome is the rows to serialize, or the exception raised.
- The `@server_list_docs` schema decorator is left out. It only documents the endpoint.
- `QueryParams.ParseInt` follows only the decimal core of Python's `int()`: an optional sign, then ASCII digits. It rejects surrounding whitespace, `_` separators and non-ASCII digits, which Python accepts.
- Ids are unbounded integers. A database's handling of ids outside its integer column range is not modelled.
- Sharing of the class-level `queryset` object across requests is left out. A fresh viewset starts from that one shared `Server.objects.all()` object, whose result cache an unfiltered request can fill, so a later unfiltered or `qty`-only request may read a stale list. `List` requires a queryset that holds the current store and models one call with fresh data; it does not model that caching.
- `ServerViews.ServerListViewSet.List`: on an error exit, it states only that the partly narrowed queryset is a store subsequence. The framework discards that queryset.
- The commented-out alternative viewset at the end of `views.py` is left out. It is dead code.
- Concurrency, authentication internals and repeated query keys are left out. The caller is given as `Option<int>` (None means anonymous), and each parameter as one optional string.
