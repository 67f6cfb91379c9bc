/**
 * What the server list endpoint promises, proved about its declarative
 * outcome `ListResult` (which `ServerListViewSet.List` is proved to compute).
 */
module ListProperties {
  import opened Wrappers
  import opened QueryParams
  import opened Querysets
  import opened ServerViews

  lemma HoldsAllSingle(l: Lookup, s: Server)
    ensures HoldsAll([l], s) <==> Holds(l, s)
  {
    if Holds(l, s) {
      assert forall i :: 0 <= i < 1 ==> [l][i] == l;
    }
    assert [l][0] == l;
  }

  /** A server passes the request's lookups exactly when it meets every parameter given. */
  lemma LookupsHold(req: Request, caller: Option<int>, s: Server)
    ensures HoldsAll(Lookups(req, caller), s) <==>
      (Present(req.category) ==> s.categoryName == req.category.value)
      && (IsTrue(req.byUser) && caller.Some? ==> caller.value in s.members)
      && (RequestedId(req).Some? ==> s.id == RequestedId(req).value)
  {
    var a := if Present(req.category) then [CategoryName(req.category.value)] else [];
    var b := if IsTrue(req.byUser) && caller.Some? then [Member(caller.value)] else [];
    var c := if RequestedId(req).Some? then [Id(RequestedId(req).value)] else [];
    HoldsAllConcat(a + b, c, s);
    HoldsAllConcat(a, b, s);
    if Present(req.category) { HoldsAllSingle(CategoryName(req.category.value), s); }
    if IsTrue(req.byUser) && caller.Some? { HoldsAllSingle(Member(caller.value), s); }
    if RequestedId(req).Some? { HoldsAllSingle(Id(RequestedId(req).value), s); }
  }

  /**
   * Every returned row is a stored server that meets every parameter given,
   * and it carries `num_members` exactly when `with_num_members` is on.
   */
  lemma ListRowsMatch(store: seq<Server>, req: Request, caller: Option<int>)
    requires ListResult(store, req, caller).Ok?
    ensures forall v :: v in ListResult(store, req, caller).views ==>
      && v.server in store
      && (Present(req.category) ==> v.server.categoryName == req.category.value)
      && (IsTrue(req.byUser) ==> caller.Some? && caller.value in v.server.members)
      && (RequestedId(req).Some? ==> v.server.id == RequestedId(req).value)
      && v.numMembers == if IsTrue(req.withNumMembers) then Some(MemberCount(v.server, CountScope(req, caller))) else None
  {
    var ls := Lookups(req, caller);
    var matched := Matched(store, req, caller);
    var vs := ListResult(store, req, caller).views;
    RowMembers(store);
    FilterMembers(Rows(store), ls);
    AnnotateCounts(matched, CountScope(req, caller));
    var annotated := if IsTrue(req.withNumMembers) then Annotate(matched, CountScope(req, caller)) else matched;
    assert vs <= annotated;
    forall v | v in vs
      ensures v.server in store && HoldsAll(ls, v.server)
      ensures v.numMembers == if IsTrue(req.withNumMembers) then Some(MemberCount(v.server, CountScope(req, caller))) else None
    {
      assert v in annotated;
      if IsTrue(req.withNumMembers) {
        var w :| w in matched && w.server == v.server;
      }
    }
    forall v | v in vs
      ensures (Present(req.category) ==> v.server.categoryName == req.category.value)
      ensures (IsTrue(req.byUser) ==> caller.Some? && caller.value in v.server.members)
      ensures (RequestedId(req).Some? ==> v.server.id == RequestedId(req).value)
    {
      LookupsHold(req, caller, v.server);
    }
  }

  /**
   * A stored server that meets every parameter given rules out every error
   * but the two authentication and conversion ones: the outcome is a list,
   * and without `qty` that server is in it.
   */
  lemma ListComplete(store: seq<Server>, req: Request, caller: Option<int>, s: Server)
    requires (IsTrue(req.byUser) || Present(req.byServerId)) ==> caller.Some?
    requires Present(req.byServerId) ==> ParseInt(req.byServerId.value).Some?
    requires QtyValid(req.qty)
    requires s in store
    requires Present(req.category) ==> s.categoryName == req.category.value
    requires IsTrue(req.byUser) ==> caller.value in s.members
    requires RequestedId(req).Some? ==> s.id == RequestedId(req).value
    ensures ListResult(store, req, caller).Ok?
    ensures !Present(req.qty) ==> s in Servers(ListResult(store, req, caller).views)
  {
    var matched := Matched(store, req, caller);
    LookupsHold(req, caller, s);
    RowOfStored(store, s);
    FilterMembers(Rows(store), Lookups(req, caller));
    ServerOfRow(matched, ServerView(s, None));
    AnnotateServers(matched, CountScope(req, caller));
  }

  /**
   * With unique ids, a `by_serverid` naming a stored server that meets the
   * other parameters returns exactly that server, when `qty` does not cut it off.
   */
  lemma ServerIdFound(store: seq<Server>, req: Request, user: int, s: Server)
    requires UniqueIds(store)
    requires s in store && RequestedId(req) == Some(s.id)
    requires Present(req.category) ==> s.categoryName == req.category.value
    requires IsTrue(req.byUser) ==> user in s.members
    requires !Present(req.qty)
    ensures ListResult(store, req, Some(user)).Ok?
    ensures Servers(ListResult(store, req, Some(user)).views) == [s]
  {
    ListComplete(store, req, Some(user), s);
    ServerIdSelectsOne(store, req, Some(user), s.id);
    var vs := ListResult(store, req, Some(user)).views;
    assert Servers(vs) == [vs[0].server];
  }

  /** A category nothing in the store belongs to gives an empty list, not an error. */
  lemma UnknownCategoryIsEmpty(store: seq<Server>, req: Request, caller: Option<int>)
    requires Present(req.category)
    requires forall s :: s in store ==> s.categoryName != req.category.value
    requires !Present(req.byServerId) && !(IsTrue(req.byUser) && caller.None?)
    requires QtyValid(req.qty)
    ensures ListResult(store, req, caller) == Ok([])
  {
    RowMembers(store);
    forall v | v in Rows(store) ensures !HoldsAll(Lookups(req, caller), v.server) {
      LookupsHold(req, caller, v.server);
    }
    FilterNone(Rows(store), Lookups(req, caller));
  }

  /** With no parameter in effect, the endpoint lists the whole store in store order. */
  lemma NoParametersListsAll(store: seq<Server>, req: Request, caller: Option<int>)
    requires !Present(req.category) && !Present(req.qty) && !Present(req.byServerId)
    requires !IsTrue(req.byUser) && !IsTrue(req.withNumMembers)
    ensures ListResult(store, req, caller) == Ok(Rows(store))
  {
  }

  /** Only the exact literal "true" turns on `by_user` or `with_num_members`. */
  lemma FlagsAreExactLiterals(store: seq<Server>, req: Request, caller: Option<int>)
    ensures req.byUser != Some("true") ==>
      ListResult(store, req, caller) == ListResult(store, req.(byUser := None), caller)
    ensures req.withNumMembers != Some("true") ==>
      ListResult(store, req, caller) == ListResult(store, req.(withNumMembers := None), caller)
  {
  }

  /**
   * An id that converts but that no server left by the category and `by_user`
   * filters carries is the not-found error, with the raw value in its message.
   */
  lemma ServerIdNotFound(store: seq<Server>, req: Request, user: int, id: int)
    requires Present(req.byServerId) && ParseInt(req.byServerId.value) == Some(id)
    requires forall s :: s in store && s.id == id ==>
      (Present(req.category) && s.categoryName != req.category.value)
      || (IsTrue(req.byUser) && user !in s.members)
    ensures ListResult(store, req, Some(user))
      == ValidationError("Server with id " + req.byServerId.value + " not found")
  {
    RowMembers(store);
    forall v | v in Rows(store) ensures !HoldsAll(Lookups(req, Some(user)), v.server) {
      LookupsHold(req, Some(user), v.server);
    }
    FilterNone(Rows(store), Lookups(req, Some(user)));
  }

  /** An id written in decimal that is not in the store is reported with that spelling. */
  lemma UnknownIdMessage(store: seq<Server>, req: Request, user: int, id: int)
    requires req.byServerId == Some(ShowInt(id))
    requires forall s :: s in store ==> s.id != id
    ensures ListResult(store, req, Some(user))
      == ValidationError("Server with id " + ShowInt(id) + " not found")
  {
    ParseShowInt(id);
    assert Present(req.byServerId) by {
      if id < 0 { ShowNatDigits(-id); } else { ShowNatDigits(id); }
    }
    ServerIdNotFound(store, req, user, id);
  }

  /**
   * With unique ids, a successful `by_serverid` lookup returns at most the one
   * server with that id, and exactly it unless `qty` cuts it off.
   */
  lemma ServerIdSelectsOne(store: seq<Server>, req: Request, caller: Option<int>, id: int)
    requires UniqueIds(store)
    requires RequestedId(req) == Some(id)
    requires ListResult(store, req, caller).Ok?
    ensures |ListResult(store, req, caller).views| <= 1
    ensures forall v :: v in ListResult(store, req, caller).views ==> v.server.id == id
    ensures !Present(req.qty) || QtyValue(req.qty) > 0 ==> |ListResult(store, req, caller).views| == 1
  {
    forall s: Server | HoldsAll(Lookups(req, caller), s) ensures s.id == id {
      LookupsHold(req, caller, s);
    }
    AtMostOneWithId(store, Lookups(req, caller), id);
    ListRowsMatch(store, req, caller);
  }

  /**
   * A valid `qty` n keeps the first min(n, count) rows of what the request
   * gives without it, and changes no error.
   */
  lemma QtyIsPrefix(store: seq<Server>, req: Request, caller: Option<int>, n: int)
    requires Present(req.qty) && ParseInt(req.qty.value) == Some(n) && n >= 0
    ensures var all := ListResult(store, req.(qty := None), caller);
      ListResult(store, req, caller)
        == if all.Ok? then Ok(if n < |all.views| then all.views[..n] else all.views) else all
    ensures n == 0 && ListResult(store, req, caller).Ok? ==> ListResult(store, req, caller).views == []
  {
  }

  /** A `qty` that is not a non-negative integer raises once every earlier step succeeds. */
  lemma BadQtyIsUnhandled(store: seq<Server>, req: Request, caller: Option<int>)
    requires !QtyValid(req.qty)
    requires ListResult(store, req.(qty := None), caller).Ok?
    ensures ListResult(store, req, caller) == UncaughtException
  {
  }

  /**
   * `num_members` is every member of the server when `by_user` is off; after
   * the `member=` filter only the caller's own membership row is left to count.
   */
  lemma MemberCountWhenRequested(store: seq<Server>, req: Request, caller: Option<int>)
    requires ListResult(store, req, caller).Ok? && IsTrue(req.withNumMembers)
    ensures forall v :: v in ListResult(store, req, caller).views ==>
      v.numMembers == Some(if IsTrue(req.byUser) then 1 else |v.server.members|)
  {
    ListRowsMatch(store, req, caller);
    forall v | v in ListResult(store, req, caller).views && IsTrue(req.byUser)
      ensures MemberCount(v.server, CountScope(req, caller)) == 1
    {
      assert v.server.members * {caller.value} == {caller.value};
    }
  }

  // A worked example: two stored servers, A in Gaming with members 1 and 2,
  // then B in Education with member 1.
  const ServerA := Server(1, "Gaming", {1, 2})
  const ServerB := Server(2, "Education", {1})
  const NoParameters := Request(None, None, None, None, None)

  lemma ExampleRows()
    ensures Rows([ServerA, ServerB]) == [ServerView(ServerA, None), ServerView(ServerB, None)]
  {
  }

  /** `?category=Gaming` lists A alone. */
  lemma ExampleCategory()
    ensures ListResult([ServerA, ServerB], NoParameters.(category := Some("Gaming")), None)
      == Ok([ServerView(ServerA, None)])
  {
    var req := NoParameters.(category := Some("Gaming"));
    assert Lookups(req, None) == [CategoryName("Gaming")];
    HoldsAllSingle(CategoryName("Gaming"), ServerA);
    HoldsAllSingle(CategoryName("Gaming"), ServerB);
    ExampleRows();
    var rows := [ServerView(ServerA, None), ServerView(ServerB, None)];
    assert rows[1..] == [ServerView(ServerB, None)];
    assert Filter(rows[1..], [CategoryName("Gaming")]) == [];
  }

  /** `?qty=1&with_num_members=true`, anonymously, gives the first server with its member count. */
  lemma ExampleQtyWithCount()
    ensures ListResult([ServerA, ServerB], NoParameters.(qty := Some("1"), withNumMembers := Some("true")), None)
      == Ok([ServerView(ServerA, Some(2))])
  {
  }

  /** `?by_user=true` as user 1 lists both servers. */
  lemma ExampleByUser()
    ensures ListResult([ServerA, ServerB], NoParameters.(byUser := Some("true")), Some(1))
      == Ok([ServerView(ServerA, None), ServerView(ServerB, None)])
  {
    var req := NoParameters.(byUser := Some("true"));
    assert Lookups(req, Some(1)) == [Member(1)];
    HoldsAllSingle(Member(1), ServerA);
    HoldsAllSingle(Member(1), ServerB);
    ExampleRows();
    var rows := [ServerView(ServerA, None), ServerView(ServerB, None)];
    assert rows[1..] == [ServerView(ServerB, None)];
    assert Filter(rows[1..], [Member(1)]) == [ServerView(ServerB, None)];
  }

  /** `999` is spelled canonically and is no stored server's id. */
  lemma Id999Unknown()
    ensures ShowInt(999) == "999"
    ensures forall s :: s in [ServerA, ServerB] ==> s.id != 999
  {
    assert ShowNat(999) == ShowNat(99) + [DigitChar(9)];
    assert ShowNat(99) == ShowNat(9) + [DigitChar(9)];
  }

  /** `?by_serverid=999` as user 1 is the not-found error. */
  lemma ExampleUnknownId()
    ensures ListResult([ServerA, ServerB], NoParameters.(byServerId := Some("999")), Some(1))
      == ValidationError("Server with id 999 not found")
  {
    Id999Unknown();
    UnknownIdMessage([ServerA, ServerB], NoParameters.(byServerId := Some("999")), 1, 999);
  }

  /** `?by_serverid=2` as user 1 lists B alone. */
  lemma ExampleKnownId()
    ensures ListResult([ServerA, ServerB], NoParameters.(byServerId := Some("2")), Some(1))
      == Ok([ServerView(ServerB, None)])
  {
    var req := NoParameters.(byServerId := Some("2"));
    assert ParseInt("2") == Some(2) by {
      assert ShowInt(2) == "2";
      ParseShowInt(2);
    }
    assert Lookups(req, Some(1)) == [Id(2)];
    HoldsAllSingle(Id(2), ServerA);
    HoldsAllSingle(Id(2), ServerB);
    ExampleRows();
    var rows := [ServerView(ServerA, None), ServerView(ServerB, None)];
    assert rows[1..] == [ServerView(ServerB, None)];
    assert Filter(rows[1..], [Id(2)]) == [ServerView(ServerB, None)];
  }
}
