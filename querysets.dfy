/**
 * The Server records the list endpoint reads, and the queryset operations it
 * applies to them: `filter` with keyword lookups, `annotate` with a member
 * count, and a prefix slice. A queryset is a sequence in the store's order.
 */
module Querysets {
  import opened Wrappers

  /** A stored server: its primary key, its category's name and its members' user ids. */
  datatype Server = Server(id: int, categoryName: string, members: set<int>)

  /** A queryset row: a server, with `num_members` once the queryset is annotated. */
  datatype ServerView = ServerView(server: Server, numMembers: Option<nat>)

  /** The keyword lookups the endpoint passes to `filter`. */
  datatype Lookup =
    | CategoryName(name: string)  // category__name=name
    | Member(user: int)           // member=user
    | Id(id: int)                 // id=id

  predicate Holds(l: Lookup, s: Server)
  {
    match l
    case CategoryName(name) => s.categoryName == name
    case Member(user) => user in s.members
    case Id(id) => s.id == id
  }

  /** A server passes a chain of lookups when it passes every one of them. */
  predicate HoldsAll(ls: seq<Lookup>, s: Server)
  {
    forall i :: 0 <= i < |ls| ==> Holds(ls[i], s)
  }

  lemma HoldsAllConcat(a: seq<Lookup>, b: seq<Lookup>, s: Server)
    ensures HoldsAll(a + b, s) <==> HoldsAll(a, s) && HoldsAll(b, s)
  {
    if HoldsAll(a + b, s) {
      forall i | 0 <= i < |a| ensures Holds(a[i], s) {
        assert (a + b)[i] == a[i];
      }
      forall i | 0 <= i < |b| ensures Holds(b[i], s) {
        assert (a + b)[|a| + i] == b[i];
      }
    }
  }

  /** The primary key is unique in the store. */
  predicate UniqueIds(ss: seq<Server>)
  {
    forall i, j :: 0 <= i < j < |ss| ==> ss[i].id != ss[j].id
  }

  /** The servers of a queryset, row by row. */
  function Servers(qs: seq<ServerView>): (r: seq<Server>)
    ensures |r| == |qs|
  {
    if qs == [] then [] else [qs[0].server] + Servers(qs[1..])
  }

  /** `Server.objects.all()`: every stored server, in store order, unannotated. */
  function Rows(ss: seq<Server>): (r: seq<ServerView>)
    ensures |r| == |ss|
  {
    if ss == [] then [] else [ServerView(ss[0], None)] + Rows(ss[1..])
  }

  /** The store's rows hold exactly the stored servers, in store order. */
  lemma {:induction false} ServersOfRows(ss: seq<Server>)
    ensures Servers(Rows(ss)) == ss
  {
    if ss != [] {
      ServersOfRows(ss[1..]);
      assert Rows(ss)[1..] == Rows(ss[1..]);
    }
  }

  /** Every row of the store is a stored server, unannotated. */
  lemma {:induction false} RowMembers(ss: seq<Server>)
    ensures forall v :: v in Rows(ss) ==> v.server in ss && v.numMembers == None
  {
    if ss != [] {
      RowMembers(ss[1..]);
      assert Rows(ss)[1..] == Rows(ss[1..]);
    }
  }

  /** `a` is `b` with some elements dropped and the rest kept in order. */
  predicate IsSubsequence<T(==)>(a: seq<T>, b: seq<T>)
  {
    a == [] || (b != [] && ((a[0] == b[0] && IsSubsequence(a[1..], b[1..])) || IsSubsequence(a, b[1..])))
  }

  lemma {:induction false} SubsequenceTransitive<T>(a: seq<T>, b: seq<T>, c: seq<T>)
    requires IsSubsequence(a, b) && IsSubsequence(b, c)
    ensures IsSubsequence(a, c)
    decreases |c|
  {
    if a != [] {
      if b[0] == c[0] && IsSubsequence(b[1..], c[1..]) {
        if a[0] == b[0] && IsSubsequence(a[1..], b[1..]) {
          SubsequenceTransitive(a[1..], b[1..], c[1..]);
        } else {
          SubsequenceTransitive(a, b[1..], c[1..]);
        }
      } else {
        SubsequenceTransitive(a, b, c[1..]);
      }
    }
  }

  lemma {:induction false} PrefixIsSubsequence<T>(a: seq<T>, b: seq<T>)
    requires a <= b
    ensures IsSubsequence(a, b)
  {
    if a != [] {
      assert a[1..] <= b[1..];
      PrefixIsSubsequence(a[1..], b[1..]);
    }
  }

  lemma {:induction false} RowOfStored(ss: seq<Server>, s: Server)
    requires s in ss
    ensures ServerView(s, None) in Rows(ss)
  {
    if ss[0] != s {
      RowOfStored(ss[1..], s);
    }
  }

  lemma {:induction false} ServerOfRow(qs: seq<ServerView>, v: ServerView)
    requires v in qs
    ensures v.server in Servers(qs)
  {
    if qs[0] != v {
      ServerOfRow(qs[1..], v);
    }
  }

  /** Dropping rows drops the same servers. */
  lemma {:induction false} ServersOfSubsequence(a: seq<ServerView>, b: seq<ServerView>)
    requires IsSubsequence(a, b)
    ensures IsSubsequence(Servers(a), Servers(b))
    decreases |b|
  {
    if a != [] {
      assert Servers(a)[1..] == Servers(a[1..]);
      assert Servers(b)[1..] == Servers(b[1..]);
      if a[0] == b[0] && IsSubsequence(a[1..], b[1..]) {
        ServersOfSubsequence(a[1..], b[1..]);
      } else {
        ServersOfSubsequence(a, b[1..]);
      }
    }
  }

  /** `qs.filter(...)`: the rows whose server passes every lookup, in their original order. */
  function Filter(qs: seq<ServerView>, ls: seq<Lookup>): (r: seq<ServerView>)
    ensures |r| <= |qs|
  {
    if qs == [] then []
    else if HoldsAll(ls, qs[0].server) then [qs[0]] + Filter(qs[1..], ls)
    else Filter(qs[1..], ls)
  }

  /** A filter keeps rows of the queryset in their original order. */
  lemma {:induction false} FilterSubsequence(qs: seq<ServerView>, ls: seq<Lookup>)
    ensures IsSubsequence(Filter(qs, ls), qs)
  {
    if qs != [] {
      FilterSubsequence(qs[1..], ls);
      var r := Filter(qs, ls);
      if HoldsAll(ls, qs[0].server) {
        assert r[0] == qs[0] && r[1..] == Filter(qs[1..], ls);
      }
    }
  }

  /** A filter keeps exactly the rows whose server passes every lookup. */
  lemma {:induction false} FilterMembers(qs: seq<ServerView>, ls: seq<Lookup>)
    ensures forall v :: v in Filter(qs, ls) <==> v in qs && HoldsAll(ls, v.server)
  {
    if qs != [] {
      FilterMembers(qs[1..], ls);
      assert qs == [qs[0]] + qs[1..];
    }
  }

  /** A filter with no lookups keeps the queryset as it is. */
  lemma {:induction false} FilterNothing(qs: seq<ServerView>)
    ensures Filter(qs, []) == qs
  {
    if qs != [] {
      FilterNothing(qs[1..]);
    }
  }

  /** Chained filters are one filter with the lookups of both: the lookups are ANDed. */
  lemma {:induction false} FilterChain(qs: seq<ServerView>, a: seq<Lookup>, b: seq<Lookup>)
    ensures Filter(Filter(qs, a), b) == Filter(qs, a + b)
  {
    if qs != [] {
      HoldsAllConcat(a, b, qs[0].server);
      FilterChain(qs[1..], a, b);
      if HoldsAll(a, qs[0].server) {
        assert Filter(qs, a)[0] == qs[0];
        assert Filter(qs, a)[1..] == Filter(qs[1..], a);
      }
    }
  }

  /** The order in which two filters are chained does not change the result. */
  lemma FiltersCommute(qs: seq<ServerView>, a: seq<Lookup>, b: seq<Lookup>)
    ensures Filter(Filter(qs, a), b) == Filter(Filter(qs, b), a)
  {
  }

  /**
   * `Count("member")` over the membership join rows the queryset still
   * holds: all of a server's members, or, after a `member=user` filter, only
   * the join rows that filter kept.
   */
  function MemberCount(s: Server, scope: Option<int>): (r: nat)
    ensures scope.None? ==> r == |s.members|
    ensures scope.Some? ==> r == if scope.value in s.members then 1 else 0
  {
    match scope
    case None => |s.members|
    case Some(user) =>
      assert s.members * {user} == if user in s.members then {user} else {};
      |s.members * {user}|
  }

  /** `qs.annotate(num_members=Count("member"))`: same servers, same order, each counted. */
  function Annotate(qs: seq<ServerView>, scope: Option<int>): (r: seq<ServerView>)
    ensures |r| == |qs|
  {
    if qs == [] then []
    else [ServerView(qs[0].server, Some(MemberCount(qs[0].server, scope)))] + Annotate(qs[1..], scope)
  }

  /** Annotating keeps the servers and their order. */
  lemma {:induction false} AnnotateServers(qs: seq<ServerView>, scope: Option<int>)
    ensures Servers(Annotate(qs, scope)) == Servers(qs)
  {
    if qs != [] {
      AnnotateServers(qs[1..], scope);
      assert Annotate(qs, scope)[1..] == Annotate(qs[1..], scope);
    }
  }

  /** Every annotated row is a row of the queryset carrying its server's member count. */
  lemma {:induction false} AnnotateCounts(qs: seq<ServerView>, scope: Option<int>)
    ensures forall v :: v in Annotate(qs, scope) ==>
      v.numMembers == Some(MemberCount(v.server, scope)) && exists w :: w in qs && w.server == v.server
  {
    if qs != [] {
      AnnotateCounts(qs[1..], scope);
      assert Annotate(qs, scope)[1..] == Annotate(qs[1..], scope);
    }
  }

  /** Filtering an annotated queryset is annotating the filtered one. */
  lemma {:induction false} FilterAnnotate(qs: seq<ServerView>, scope: Option<int>, ls: seq<Lookup>)
    ensures Filter(Annotate(qs, scope), ls) == Annotate(Filter(qs, ls), scope)
  {
    if qs != [] {
      var a := Annotate(qs, scope);
      assert a[0].server == qs[0].server;
      assert a[1..] == Annotate(qs[1..], scope);
      FilterAnnotate(qs[1..], scope, ls);
    }
  }

  /** `qs[:n]`: the first n rows, or all of them when there are fewer. */
  function Limit(qs: seq<ServerView>, n: nat): (r: seq<ServerView>)
    ensures r <= qs
    ensures |r| == if n < |qs| then n else |qs|
  {
    if n < |qs| then qs[..n] else qs
  }

  /** A filter keeps nothing when no row passes it. */
  lemma FilterNone(qs: seq<ServerView>, ls: seq<Lookup>)
    requires forall v :: v in qs ==> !HoldsAll(ls, v.server)
    ensures Filter(qs, ls) == []
  {
  }

  /** With unique ids, a filter that pins the id keeps at most one row of the store. */
  lemma {:induction false} AtMostOneWithId(ss: seq<Server>, ls: seq<Lookup>, id: int)
    requires UniqueIds(ss)
    requires forall s: Server :: HoldsAll(ls, s) ==> s.id == id
    ensures |Filter(Rows(ss), ls)| <= 1
  {
    if ss != [] {
      var rest := ss[1..];
      assert Rows(ss)[1..] == Rows(rest);
      if HoldsAll(ls, ss[0]) {
        RowMembers(rest);
        FilterMembers(Rows(rest), ls);
        forall v | v in Rows(rest) ensures !HoldsAll(ls, v.server) {
          OtherIds(ss, v.server);
        }
        FilterNone(Rows(rest), ls);
      } else {
        assert UniqueIds(rest) by {
          forall i, j | 0 <= i < j < |rest| ensures rest[i].id != rest[j].id {
            assert rest[i] == ss[i + 1] && rest[j] == ss[j + 1];
          }
        }
        AtMostOneWithId(rest, ls, id);
      }
    }
  }

  lemma OtherIds(ss: seq<Server>, s: Server)
    requires UniqueIds(ss) && |ss| > 0 && s in ss[1..]
    ensures s.id != ss[0].id
  {
  }
}
