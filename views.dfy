/**
 * The server list endpoint (`ServerListViewSet.list`): five optional query
 * parameters and the caller's identity narrow the store's servers step by
 * step, with two authentication guards, two validation errors on the
 * `by_serverid` lookup, and a final prefix slice.
 */
module ServerViews {
  import opened Wrappers
  import opened QueryParams
  import opened Querysets

  /** The raw query-string values; None when the parameter is absent. */
  datatype Request = Request(
    category: Option<string>,
    qty: Option<string>,
    byUser: Option<string>,
    byServerId: Option<string>,
    withNumMembers: Option<string>)

  /** What the endpoint produces: the rows to serialize, or the exception it raises. */
  datatype Outcome =
    | Ok(views: seq<ServerView>)
    | AuthenticationFailed
    | ValidationError(detail: string)
    | UncaughtException  // `int(qty)` or the slice raise an error the view does not handle

  const ValueErrorDetail := "Server value error"

  function NotFoundDetail(raw: string): string
  {
    "Server with id " + raw + " not found"
  }

  /** The id the `by_serverid` lookup asks for, when it is given and converts. */
  function RequestedId(req: Request): Option<int>
  {
    if Present(req.byServerId) then ParseInt(req.byServerId.value) else None
  }

  /** Every lookup the request applies, in the order the view applies them. */
  function Lookups(req: Request, caller: Option<int>): seq<Lookup>
  {
    (if Present(req.category) then [CategoryName(req.category.value)] else [])
    + (if IsTrue(req.byUser) && caller.Some? then [Member(caller.value)] else [])
    + (if RequestedId(req).Some? then [Id(RequestedId(req).value)] else [])
  }

  /** The membership rows left for `Count("member")`: narrowed by `by_user` when it is on. */
  function CountScope(req: Request, caller: Option<int>): Option<int>
  {
    if IsTrue(req.byUser) then caller else None
  }

  /** A `qty` that slices without raising: absent, empty, or a non-negative integer. */
  predicate QtyValid(qty: Option<string>)
  {
    !Present(qty) || (ParseInt(qty.value).Some? && ParseInt(qty.value).value >= 0)
  }

  function QtyValue(qty: Option<string>): nat
    requires Present(qty) && QtyValid(qty)
  {
    ParseInt(qty.value).value
  }

  /** The rows every lookup of the request keeps, in store order. */
  function Matched(store: seq<Server>, req: Request, caller: Option<int>): seq<ServerView>
  {
    Filter(Rows(store), Lookups(req, caller))
  }

  /** The optional annotation, then the optional slice. */
  function Shaped(matched: seq<ServerView>, req: Request, caller: Option<int>): seq<ServerView>
    requires QtyValid(req.qty)
  {
    var annotated := if IsTrue(req.withNumMembers) then Annotate(matched, CountScope(req, caller)) else matched;
    if Present(req.qty) then Limit(annotated, QtyValue(req.qty)) else annotated
  }

  /**
   * The endpoint's outcome, stated declaratively: the errors in the order the
   * view raises them, then ONE filter with the AND of every lookup the
   * request asks for, the optional annotation, and the optional slice.
   */
  function ListResult(store: seq<Server>, req: Request, caller: Option<int>): (r: Outcome)
    ensures r.AuthenticationFailed? <==> (IsTrue(req.byUser) || Present(req.byServerId)) && caller.None?
    ensures r.ValidationError? ==>
      Present(req.byServerId) && caller.Some?
      && (r.detail == ValueErrorDetail || r.detail == NotFoundDetail(req.byServerId.value))
    ensures r.UncaughtException? ==> !QtyValid(req.qty)
    ensures r.Ok? ==> QtyValid(req.qty) && (Present(req.byServerId) ==> RequestedId(req).Some?)
  {
    if (IsTrue(req.byUser) || Present(req.byServerId)) && caller.None? then
      AuthenticationFailed
    else if Present(req.byServerId) && ParseInt(req.byServerId.value).None? then
      ValidationError(ValueErrorDetail)
    else
      var matched := Matched(store, req, caller);
      if Present(req.byServerId) && matched == [] then
        ValidationError(NotFoundDetail(req.byServerId.value))
      else if !QtyValid(req.qty) then
        UncaughtException
      else
        Ok(Shaped(matched, req, caller))
  }

  /** `by_user=true` from an anonymous caller fails authentication, whatever else is asked. */
  lemma ByUserNeedsAuthentication(store: seq<Server>, req: Request, caller: Option<int>)
    requires IsTrue(req.byUser) && caller.None?
    ensures ListResult(store, req, caller) == AuthenticationFailed
  {
  }

  /** A non-empty `by_serverid` from an anonymous caller fails authentication before the value is looked at. */
  lemma ByServerIdNeedsAuthentication(store: seq<Server>, req: Request, caller: Option<int>)
    requires Present(req.byServerId) && caller.None?
    ensures ListResult(store, req, caller) == AuthenticationFailed
  {
  }

  /** A `by_serverid` that is not an integer, from a signed-in caller, is the value error. */
  lemma ServerIdValueError(store: seq<Server>, req: Request, user: int)
    requires Present(req.byServerId) && ParseInt(req.byServerId.value).None?
    ensures ListResult(store, req, Some(user)) == ValidationError("Server value error")
  {
  }

  /** A filtered, possibly annotated, queryset holds stored servers in store order. */
  lemma NarrowedFromStore(store: seq<Server>, ls: seq<Lookup>, scope: Option<int>)
    ensures IsSubsequence(Servers(Filter(Rows(store), ls)), store)
    ensures IsSubsequence(Servers(Annotate(Filter(Rows(store), ls), scope)), store)
  {
    FilterSubsequence(Rows(store), ls);
    ServersOfSubsequence(Filter(Rows(store), ls), Rows(store));
    ServersOfRows(store);
    AnnotateServers(Filter(Rows(store), ls), scope);
  }

  /** On success the rows are stored servers, in store order: every step filters or slices. */
  lemma ListSubsequence(store: seq<Server>, req: Request, caller: Option<int>)
    requires ListResult(store, req, caller).Ok?
    ensures IsSubsequence(Servers(ListResult(store, req, caller).views), store)
  {
    var matched := Matched(store, req, caller);
    FilterSubsequence(Rows(store), Lookups(req, caller));
    ServersOfSubsequence(matched, Rows(store));
    ServersOfRows(store);
    var annotated := if IsTrue(req.withNumMembers) then Annotate(matched, CountScope(req, caller)) else matched;
    AnnotateServers(matched, CountScope(req, caller));
    if Present(req.qty) {
      var limited := Limit(annotated, QtyValue(req.qty));
      PrefixIsSubsequence(limited, annotated);
      ServersOfSubsequence(limited, annotated);
      SubsequenceTransitive(Servers(limited), Servers(annotated), store);
    }
  }

  /**
   * The viewset. `queryset` is the handle `list` narrows in place; a fresh
   * instance starts from every stored server.
   */
  class ServerListViewSet {
    const store: seq<Server>
    var queryset: seq<ServerView>

    constructor (store: seq<Server>)
      ensures this.store == store && queryset == Rows(store)
    {
      this.store := store;
      queryset := Rows(store);
    }

    /**
     * `list(request)`: each step reassigns `queryset`; a raised exception
     * leaves it partly narrowed, and it always holds store servers in store order.
     */
    method List(req: Request, caller: Option<int>) returns (o: Outcome)
      requires queryset == Rows(store)
      modifies this
      ensures o == ListResult(store, req, caller)
      ensures o.Ok? ==> queryset == o.views
      ensures IsSubsequence(Servers(queryset), store)
    {
      var category := req.category;
      var qty := req.qty;
      var byUser := IsTrue(req.byUser);
      var byServerId := req.byServerId;
      var withNumMembers := IsTrue(req.withNumMembers);

      // The lookups applied so far; until the annotation, queryset == Filter(Rows(store), applied).
      ghost var all := Rows(store);
      ghost var applied: seq<Lookup> := [];
      // The membership join a `member=` lookup leaves on the queryset, which
      // a later Count("member") counts over.
      var memberJoin: Option<int> := None;
      FilterNothing(all);

      if Present(category) {
        FilterChain(all, applied, [CategoryName(category.value)]);
        queryset := Filter(queryset, [CategoryName(category.value)]);
        applied := applied + [CategoryName(category.value)];
      }

      if byUser {
        if byUser && caller.Some? {
          var userId := caller.value;
          FilterChain(all, applied, [Member(userId)]);
          queryset := Filter(queryset, [Member(userId)]);
          applied := applied + [Member(userId)];
          memberJoin := Some(userId);
        } else {
          ByUserNeedsAuthentication(store, req, caller);
          NarrowedFromStore(store, applied, memberJoin);
          return AuthenticationFailed;
        }
      }

      assert memberJoin == CountScope(req, caller);
      if withNumMembers {
        queryset := Annotate(queryset, memberJoin);
      }
      assert queryset == if withNumMembers then Annotate(Filter(all, applied), memberJoin) else Filter(all, applied);

      if Present(byServerId) {
        if caller.None? {
          ByServerIdNeedsAuthentication(store, req, caller);
          NarrowedFromStore(store, applied, memberJoin);
          return AuthenticationFailed;
        }
        // Converting the value for the id lookup raises ValueError; the not-found
        // ValidationError is raised inside the same try but is not a ValueError.
        var id := ParseInt(byServerId.value);
        if id.None? {
          ServerIdValueError(store, req, caller.value);
          NarrowedFromStore(store, applied, memberJoin);
          return ValidationError(ValueErrorDetail);
        }
        FilterChain(all, applied, [Id(id.value)]);
        if withNumMembers {
          FilterAnnotate(Filter(all, applied), memberJoin, [Id(id.value)]);
        }
        queryset := Filter(queryset, [Id(id.value)]);
        applied := applied + [Id(id.value)];
        assert applied == Lookups(req, caller);
        if queryset == [] {
          assert Matched(store, req, caller) == [];
          return ValidationError(NotFoundDetail(byServerId.value));
        }
      }
      assert applied == Lookups(req, caller);
      ghost var matched := Matched(store, req, caller);
      assert queryset == if withNumMembers then Annotate(matched, memberJoin) else matched;

      if Present(qty) {
        var n := ParseInt(qty.value);
        if n.None? || n.value < 0 {
          assert !QtyValid(qty);
          NarrowedFromStore(store, applied, memberJoin);
          return UncaughtException;
        }
        queryset := Limit(queryset, n.value);
      }
      ListSubsequence(store, req, caller);
      return Ok(queryset);
    }
  }
}
