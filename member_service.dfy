/** The member service: the member directory and profile (with their display
    defaults), and connections between users (request, accept, list, and the
    "are these two connected" check). */
module MemberService {
  import opened Common
  import opened Ordering

  const UnknownName := "Unknown"
  const DefaultAvatar := "https://picsum.photos/200"
  const MemberNotFound := "Member not found"

  // ---------------------------------------------------------------- members

  /** A row of the members table. */
  datatype Member = Member(
    id: Id, userId: Id, position: string, company: string, categoryId: Id, verified: bool, createdAt: Timestamp)

  /** The profile columns joined into a member row. */
  datatype ProfileCols = ProfileCols(
    fullName: Option<string>, avatarUrl: Option<string>, email: Option<string>, phone: Option<string>,
    bio: Option<string>)

  /** One row of the member query: the member and its user's profile, if any. */
  datatype MemberRow = MemberRow(member: Member, profile: Option<ProfileCols>)

  /** A member as the directory shows it. */
  datatype MemberView = MemberView(
    id: Id, userId: Id, fullName: string, position: string, company: string, categoryId: Id,
    bio: string, verified: bool, imageUrl: string, isFriend: bool)

  datatype Stats = Stats(friends: nat, posts: nat, businesses: nat)

  /** A member as the profile page shows it; absent profile columns stay absent. */
  datatype ProfileView = ProfileView(
    id: Id, name: Option<string>, email: Option<string>, phone: Option<string>, role: string,
    bio: Option<string>, avatar: Option<string>, isFriend: bool, stats: Stats)

  function Col(p: Option<ProfileCols>, field: ProfileCols -> Option<string>): Option<string> {
    if p.Some? then field(p.value) else None
  }

  /** The directory transform of one member row. */
  function MemberViewOf(row: MemberRow): (v: MemberView)
    ensures v.id == row.member.id && v.userId == row.member.userId && v.verified == row.member.verified
    ensures !v.isFriend
    ensures v.position == row.member.position && v.company == row.member.company
    ensures v.categoryId == row.member.categoryId
    ensures v.fullName == if row.profile.Some? && Truthy(row.profile.value.fullName)
                          then row.profile.value.fullName.value else UnknownName
    ensures v.bio == if row.profile.Some? && Truthy(row.profile.value.bio) then row.profile.value.bio.value else ""
    ensures v.imageUrl == if row.profile.Some? && Truthy(row.profile.value.avatarUrl)
                          then row.profile.value.avatarUrl.value else DefaultAvatar
  {
    var m := row.member;
    MemberView(m.id, m.userId, OrDefault(Col(row.profile, (p: ProfileCols) => p.fullName), UnknownName),
               m.position, m.company, m.categoryId,
               OrDefault(Col(row.profile, (p: ProfileCols) => p.bio), ""), m.verified,
               OrDefault(Col(row.profile, (p: ProfileCols) => p.avatarUrl), DefaultAvatar), false)
  }

  function MemberCreated(row: MemberRow): int {
    row.member.createdAt
  }

  function MemberViews(rows: seq<MemberRow>): (r: seq<MemberView>)
    ensures |r| == |rows|
    ensures forall i :: 0 <= i < |rows| ==> r[i] == MemberViewOf(rows[i])
  {
    if rows == [] then [] else [MemberViewOf(rows[0])] + MemberViews(rows[1..])
  }

  /** The directory shows a view of every row, and only views of rows. */
  lemma MemberViewsComplete(rows: seq<MemberRow>)
    ensures var r := MemberViews(rows);
      (forall row :: row in rows ==> MemberViewOf(row) in r)
      && (forall v :: v in r ==> exists row :: row in rows && v == MemberViewOf(row))
  {
    var r := MemberViews(rows);
    forall row | row in rows ensures MemberViewOf(row) in r {
      var i :| 0 <= i < |rows| && rows[i] == row;
      assert r[i] == MemberViewOf(row);
    }
    forall v | v in r ensures exists row :: row in rows && v == MemberViewOf(row) {
      var i :| 0 <= i < |r| && r[i] == v;
      assert rows[i] in rows;
    }
  }

  /** `getMembers()`: every member, newest first, reshaped; an empty list with
      the error when the query fails. The list is the views, in order, of a
      rearrangement of the rows in which creation times never increase. */
  function GetMembers(rows: seq<MemberRow>, query: Step): (r: Result<seq<MemberView>>)
    ensures query.FailsWith? ==> r == Err(query.message)
    ensures r.Ok? <==> query.Succeeds?
    ensures r.Ok? ==> exists sorted :: SortedDesc(sorted, MemberCreated) && multiset(sorted) == multiset(rows)
                                        && r.value == MemberViews(sorted)
    ensures r.Ok? ==>
      |r.value| == |rows|
      && (forall v :: v in r.value ==> exists row :: row in rows && v == MemberViewOf(row))
      && (forall row :: row in rows ==> MemberViewOf(row) in r.value)
  {
    if query.FailsWith? then Err(query.message)
    else
      var sorted := SortDesc(rows, MemberCreated);
      MemberViewsComplete(sorted);
      Ok(MemberViews(sorted))
  }

  /** `getMember(id)`: the member row when exactly one has the id. */
  function GetMember(rows: seq<MemberRow>, id: Id, query: Step): (r: Option<MemberRow>)
    ensures r.Some? ==> query.Succeeds? && r.value in rows && r.value.member.id == id
    ensures query.Succeeds? && |Filter(rows, (row: MemberRow) => row.member.id == id)| == 1 ==> r.Some?
    ensures r.Some? ==> |Filter(rows, (row: MemberRow) => row.member.id == id)| == 1
  {
    if query.FailsWith? then None else Single(Filter(rows, (row: MemberRow) => row.member.id == id))
  }

  /** `getMemberProfile(id)`: the profile page's view of the member, or
      'Member not found'; the friend flag and every count are fixed at false and 0. */
  function GetMemberProfile(rows: seq<MemberRow>, id: Id, query: Step): (r: Result<ProfileView>)
    ensures r.Err? <==> GetMember(rows, id, query).None?
    ensures r.Err? ==> r.message == MemberNotFound
    ensures r.Ok? ==>
      var row := GetMember(rows, id, query).value;
      r.value.id == id && !r.value.isFriend && r.value.stats == Stats(0, 0, 0) && r.value.role == "Member"
      && r.value.name == Col(row.profile, (p: ProfileCols) => p.fullName)
      && r.value.email == Col(row.profile, (p: ProfileCols) => p.email)
      && r.value.phone == Col(row.profile, (p: ProfileCols) => p.phone)
      && r.value.bio == Col(row.profile, (p: ProfileCols) => p.bio)
      && r.value.avatar == Col(row.profile, (p: ProfileCols) => p.avatarUrl)
  {
    var found := GetMember(rows, id, query);
    if found.None? then Err(MemberNotFound)
    else
      var p := found.value.profile;
      Ok(ProfileView(found.value.member.id, if p.Some? then p.value.fullName else None,
                     if p.Some? then p.value.email else None, if p.Some? then p.value.phone else None,
                     "Member", if p.Some? then p.value.bio else None, if p.Some? then p.value.avatarUrl else None,
                     false, Stats(0, 0, 0)))
  }

  // ---------------------------------------------------------------- connections

  datatype ConnectionStatus = Pending | Accepted

  /** A row of the connections table: `userId` asked `friendId`. */
  datatype Connection = Connection(id: Id, userId: Id, friendId: Id, status: ConnectionStatus)

  datatype Requested = Requested(after: seq<Connection>, result: Result<Connection>)

  /** `sendConnectionRequest(friendId)`: a pending row from the signed-in user. */
  function Request(cs: seq<Connection>, user: Option<Id>, friendId: Id, newId: Id, insert: Step): (r: Requested)
    ensures user.None? ==> r == Requested(cs, Err(NotAuthenticated))
    ensures insert.FailsWith? ==> r.after == cs && r.result.Err?
    ensures r.result.Ok? <==> user.Some? && insert.Succeeds?
    ensures r.result.Ok? ==>
      r.after == cs + [r.result.value] && r.result.value == Connection(newId, user.value, friendId, Pending)
  {
    if user.None? then Requested(cs, Err(NotAuthenticated))
    else if insert.FailsWith? then Requested(cs, Err(insert.message))
    else
      var c := Connection(newId, user.value, friendId, Pending);
      Requested(cs + [c], Ok(c))
  }


  function RowsWithId(cs: seq<Connection>, id: Id): seq<Connection> {
    Filter(cs, (c: Connection) => c.id == id)
  }

  /** `acceptConnection(connectionId)`: the update asks for exactly one row
      back; when exactly one row has the id it becomes accepted, and otherwise
      the request fails and the table is as before. */
  function Accept(cs: seq<Connection>, connectionId: Id, update: Step): (r: Requested)
    ensures r.result.Ok? <==> update.Succeeds? && |RowsWithId(cs, connectionId)| == 1
    ensures r.result.Err? ==> r.after == cs
    ensures |r.after| == |cs|
    ensures forall i :: 0 <= i < |cs| ==>
      r.after[i] == if r.result.Ok? && cs[i].id == connectionId then cs[i].(status := Accepted) else cs[i]
    ensures r.result.Ok? ==> r.result.value.id == connectionId && r.result.value.status == Accepted
  {
    if update.FailsWith? then Requested(cs, Err(update.message))
    else
      var rows := RowsWithId(cs, connectionId);
      if |rows| != 1 then Requested(cs, Err(NotSingleRow))
      else
        assert rows[0] in rows;
        Requested(MarkAccepted(cs, connectionId), Ok(rows[0].(status := Accepted)))
  }

  /** The table after `update({ status: 'accepted' }).eq('id', connectionId)`. */
  function MarkAccepted(cs: seq<Connection>, connectionId: Id): (r: seq<Connection>)
    ensures |r| == |cs|
    ensures forall i :: 0 <= i < |cs| ==>
      r[i] == if cs[i].id == connectionId then cs[i].(status := Accepted) else cs[i]
  {
    seq(|cs|, i requires 0 <= i < |cs| => if cs[i].id == connectionId then cs[i].(status := Accepted) else cs[i])
  }

  /** `getConnections(userId)`: only the accepted rows the user sent; a row in
      which the user is the friend is not listed. */
  function GetConnections(cs: seq<Connection>, userId: Id, query: Step): (r: Result<seq<Connection>>)
    ensures query.FailsWith? ==> r == Err(query.message)
    ensures r.Ok? <==> query.Succeeds?
    ensures r.Ok? ==> forall c :: c in r.value <==> c in cs && c.userId == userId && c.status == Accepted
    ensures r.Ok? ==> IsSubsequence(r.value, cs)
  {
    if query.FailsWith? then Err(query.message)
    else
      var keep := (c: Connection) => c.userId == userId && c.status == Accepted;
      FilterIsSubsequence(cs, keep);
      Ok(Filter(cs, keep))
  }

  /** The row joins the two users, in either direction. */
  predicate Links(c: Connection, a: Id, b: Id) {
    (c.userId == a && c.friendId == b) || (c.userId == b && c.friendId == a)
  }

  /** The rows the `areConnected` query selects. */
  function AcceptedLinks(cs: seq<Connection>, a: Id, b: Id): (r: seq<Connection>)
    ensures forall c :: c in r <==> c in cs && Links(c, a, b) && c.status == Accepted
  {
    Filter(cs, (c: Connection) => Links(c, a, b) && c.status == Accepted)
  }

  /** The selected rows do not depend on the order of the two users. */
  lemma {:induction false} AcceptedLinksSymmetric(cs: seq<Connection>, a: Id, b: Id)
    ensures AcceptedLinks(cs, a, b) == AcceptedLinks(cs, b, a)
  {
    if cs != [] {
      AcceptedLinksSymmetric(cs[1..], a, b);
    }
  }

  /** `areConnected(userId, friendId)` as written: the query asks for exactly
      one row, so the answer is true only when exactly one accepted row joins them. */
  function AreConnected(cs: seq<Connection>, a: Id, b: Id, lookup: Step): (r: bool)
    ensures r <==> lookup.Succeeds? && |AcceptedLinks(cs, a, b)| == 1
    ensures r ==> exists c :: c in cs && Links(c, a, b) && c.status == Accepted
  {
    var found := if lookup.Succeeds? then Single(AcceptedLinks(cs, a, b)) else None;
    assert found.Some? ==> found.value in AcceptedLinks(cs, a, b);
    found.Some?
  }

  /** The check is symmetric in the two users. */
  lemma AreConnectedSymmetric(cs: seq<Connection>, a: Id, b: Id, lookup: Step)
    ensures AreConnected(cs, a, b, lookup) == AreConnected(cs, b, a, lookup)
  {
    AcceptedLinksSymmetric(cs, a, b);
  }

  /** Unfolds the id filter on a two-row table; it only supports `MutualRequestsNotConnected`. */
  lemma RowsWithIdOfTwo(x: Connection, y: Connection, id: Id)
    ensures RowsWithId([x, y], id) == (if x.id == id then [x] else []) + (if y.id == id then [y] else [])
  {
    assert [x, y][1..] == [y];
    assert [y][1..] == [];
    assert RowsWithId([y], id) == (if y.id == id then [y] else []) + RowsWithId([], id);
    assert RowsWithId([x, y], id) == (if x.id == id then [x] else []) + RowsWithId([y], id);
  }

  /** Unfolds the accepted-link filter on a two-row table; it only supports `MutualRequestsNotConnected`. */
  lemma AcceptedLinksOfTwo(x: Connection, y: Connection, a: Id, b: Id)
    requires Links(x, a, b) && x.status == Accepted && Links(y, a, b) && y.status == Accepted
    ensures AcceptedLinks([x, y], a, b) == [x, y]
  {
    assert [x, y][1..] == [y];
    assert [y][1..] == [];
    assert AcceptedLinks([y], a, b) == [y] + AcceptedLinks([], a, b);
    assert AcceptedLinks([x, y], a, b) == [x] + AcceptedLinks([y], a, b);
  }

  /** The table after "a" asks "b" (row "c1") and "b" asks "a" (row "c2"); it only
      supports `MutualRequestsNotConnected`. */
  lemma MutualRequestsTable()
    ensures var s1 := Request([], Some("a"), "b", "c1", Succeeds).after;
      Request(s1, Some("b"), "a", "c2", Succeeds).after
        == [Connection("c1", "a", "b", Pending), Connection("c2", "b", "a", Pending)]
  {
  }

  /** Accepting both rows of that table; it only supports `MutualRequestsNotConnected`. */
  lemma AcceptBothTable()
    ensures var s2 := [Connection("c1", "a", "b", Pending), Connection("c2", "b", "a", Pending)];
      Accept(Accept(s2, "c1", Succeeds).after, "c2", Succeeds).after
        == [Connection("c1", "a", "b", Accepted), Connection("c2", "b", "a", Accepted)]
  {
    var s2 := [Connection("c1", "a", "b", Pending), Connection("c2", "b", "a", Pending)];
    RowsWithIdOfTwo(s2[0], s2[1], "c1");
    var s3 := Accept(s2, "c1", Succeeds).after;
    assert s3 == [Connection("c1", "a", "b", Accepted), Connection("c2", "b", "a", Pending)];
    RowsWithIdOfTwo(s3[0], s3[1], "c2");
  }

  /** Two users who each sent the other a request, both accepted, are reported
      as not connected. */
  lemma MutualRequestsNotConnected()
    ensures var s1 := Request([], Some("a"), "b", "c1", Succeeds).after;
      var s2 := Request(s1, Some("b"), "a", "c2", Succeeds).after;
      var s3 := Accept(s2, "c1", Succeeds).after;
      var s4 := Accept(s3, "c2", Succeeds).after;
      !AreConnected(s4, "a", "b", Succeeds) && AreConnectedIntended(s4, "a", "b", Succeeds)
  {
    MutualRequestsTable();
    AcceptBothTable();
    var s4 := [Connection("c1", "a", "b", Accepted), Connection("c2", "b", "a", Accepted)];
    AcceptedLinksOfTwo(s4[0], s4[1], "a", "b");
  }

  /** The evidently intended check: some accepted row joins the two users. */
  function AreConnectedIntended(cs: seq<Connection>, a: Id, b: Id, lookup: Step): (r: bool)
    ensures r <==> lookup.Succeeds? && exists c :: c in cs && Links(c, a, b) && c.status == Accepted
  {
    var rows := AcceptedLinks(cs, a, b);
    assert rows != [] ==> rows[0] in rows;
    lookup.Succeeds? && rows != []
  }

  /** The intended check is symmetric, and agrees with the check as written
      whenever at most one accepted row joins the two users. */
  lemma AreConnectedIntendedProperties(cs: seq<Connection>, a: Id, b: Id, lookup: Step)
    ensures AreConnectedIntended(cs, a, b, lookup) == AreConnectedIntended(cs, b, a, lookup)
    ensures |AcceptedLinks(cs, a, b)| <= 1 ==> AreConnected(cs, a, b, lookup) == AreConnectedIntended(cs, a, b, lookup)
    ensures AreConnected(cs, a, b, lookup) ==> AreConnectedIntended(cs, a, b, lookup)
  {
    AcceptedLinksSymmetric(cs, a, b);
  }

  /** The connections table. */
  class ConnectionTable {
    var connections: seq<Connection>

    constructor (connections: seq<Connection>)
      ensures this.connections == connections
    {
      this.connections := connections;
    }

    /** `sendConnectionRequest(friendId)`. */
    method SendConnectionRequest(user: Option<Id>, friendId: Id, newId: Id, insert: Step)
      returns (r: Result<Connection>)
      modifies this
      ensures connections == Request(old(connections), user, friendId, newId, insert).after
      ensures r == Request(old(connections), user, friendId, newId, insert).result
    {
      if user.None? {
        return Err(NotAuthenticated);
      }
      if insert.FailsWith? {
        return Err(insert.message);
      }
      var c := Connection(newId, user.value, friendId, Pending);
      connections := connections + [c];
      r := Ok(c);
    }

    /** `acceptConnection(connectionId)`: mark the row accepted, row by row. */
    method AcceptConnection(connectionId: Id, update: Step) returns (r: Result<Connection>)
      modifies this
      ensures connections == Accept(old(connections), connectionId, update).after
      ensures r == Accept(old(connections), connectionId, update).result
    {
      if update.FailsWith? {
        return Err(update.message);
      }
      var rows := RowsWithId(connections, connectionId);
      if |rows| != 1 {
        return Err(NotSingleRow);
      }
      connections := MarkAccepted(connections, connectionId);
      r := Ok(rows[0].(status := Accepted));
    }
  }
}
