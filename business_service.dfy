/** The business service: the listing (optional category filter, newest
    first, display defaults), one business by id, and creating (stamped with the
    signed-in owner), updating, deleting and listing a user's businesses. */
module BusinessService {
  import opened Common
  import opened Ordering

  const AllCategories := "All"

  /** The columns a business row carries besides its id, owner and creation time. */
  datatype BusinessFields = BusinessFields(
    name: string, description: string, address: string, logoUrl: Option<string>, coverImageUrl: Option<string>,
    category: string, rating: Option<real>, isVerified: bool, email: Option<string>, phone: Option<string>,
    website: Option<string>, operatingHours: Option<string>, productsServices: Option<seq<string>>)

  /** A row of the businesses table. */
  datatype Business = Business(id: Id, ownerId: Id, fields: BusinessFields, createdAt: Timestamp)

  /** The object handed to `createBusiness`: the columns, and an owner id that may or may not be present. */
  datatype Draft = Draft(ownerId: Option<Id>, fields: BusinessFields)

  /** The owner's profile columns joined into a listing row. */
  datatype OwnerCols = OwnerCols(fullName: Option<string>, avatarUrl: Option<string>)

  datatype BusinessRow = BusinessRow(business: Business, owner: Option<OwnerCols>)

  /** A business as the listing and the detail screen show it; `isOwned` is
      false in the listing and absent on the detail screen. */
  datatype BusinessView = BusinessView(
    id: Id, fields: BusinessFields, rating: real, ownerName: Option<string>, ownerAvatar: Option<string>,
    isOwned: Option<bool>)

  datatype Written = Written(after: seq<Business>, result: Result<Business>)

  // ---------------------------------------------------------------- queries

  /** `category && category !== 'All'`: whether the listing is filtered at all. */
  predicate FiltersCategory(category: Option<string>) {
    Truthy(category) && category.value != AllCategories
  }

  function RowCreated(row: BusinessRow): int {
    row.business.createdAt
  }

  /** The row passes the listing's category filter. */
  predicate Selected(row: BusinessRow, category: Option<string>) {
    !FiltersCategory(category) || row.business.fields.category == category.value
  }

  /** The rows `.eq('category', category)` keeps, applied only when the listing is filtered. */
  function SelectedRows(rows: seq<BusinessRow>, category: Option<string>): (r: seq<BusinessRow>)
    ensures !FiltersCategory(category) ==> r == rows
    ensures forall row :: row in r <==> row in rows && Selected(row, category)
  {
    if FiltersCategory(category) then
      Filter(rows, (row: BusinessRow) => row.business.fields.category == category.value)
    else rows
  }

  /** The rows of the listing query, newest first. */
  function ListingRows(rows: seq<BusinessRow>, category: Option<string>): (r: seq<BusinessRow>)
    ensures SortedDesc(r, RowCreated)
    ensures multiset(r) == multiset(SelectedRows(rows, category))
    ensures !FiltersCategory(category) ==> multiset(r) == multiset(rows) && |r| == |rows|
    ensures forall row :: row in r <==> row in rows && Selected(row, category)
  {
    SortDesc(SelectedRows(rows, category), RowCreated)
  }

  /** The view of one row; `rating || 0` turns a missing or zero rating into 0. */
  function ViewOf(row: BusinessRow, isOwned: Option<bool>): (v: BusinessView)
    ensures v.id == row.business.id && v.fields == row.business.fields && v.isOwned == isOwned
    ensures v.rating == row.business.fields.rating.GetOr(0.0)
    ensures v.ownerName == (if row.owner.Some? then row.owner.value.fullName else None)
    ensures v.ownerAvatar == (if row.owner.Some? then row.owner.value.avatarUrl else None)
  {
    BusinessView(row.business.id, row.business.fields, row.business.fields.rating.GetOr(0.0),
                 if row.owner.Some? then row.owner.value.fullName else None,
                 if row.owner.Some? then row.owner.value.avatarUrl else None, isOwned)
  }

  function ListingViews(rows: seq<BusinessRow>): (r: seq<BusinessView>)
    ensures |r| == |rows|
    ensures forall i :: 0 <= i < |rows| ==> r[i] == ViewOf(rows[i], Some(false))
  {
    if rows == [] then [] else [ViewOf(rows[0], Some(false))] + ListingViews(rows[1..])
  }

  /** The listing shows a view of every selected row, and only views of selected rows. */
  lemma ListingViewsComplete(rows: seq<BusinessRow>, category: Option<string>)
    ensures var r := ListingViews(ListingRows(rows, category));
      (forall v :: v in r ==> exists row :: row in rows && Selected(row, category) && v == ViewOf(row, Some(false)))
      && (forall row :: row in rows && Selected(row, category) ==> ViewOf(row, Some(false)) in r)
  {
    var sorted := ListingRows(rows, category);
    var r := ListingViews(sorted);
    forall row | row in rows && Selected(row, category) ensures ViewOf(row, Some(false)) in r {
      var i :| 0 <= i < |sorted| && sorted[i] == row;
      assert r[i] == ViewOf(row, Some(false));
    }
    forall v | v in r ensures exists row :: row in rows && Selected(row, category) && v == ViewOf(row, Some(false)) {
      var i :| 0 <= i < |r| && r[i] == v;
      assert sorted[i] in sorted;
    }
  }

  /** `getBusinesses(category)`: the listing, filtered by category unless it is
      absent, empty or 'All'. The list is the views, in order, of a
      rearrangement of the selected rows in which creation times never
      increase; each selected row is shown, and none is marked as owned. */
  function GetBusinesses(rows: seq<BusinessRow>, category: Option<string>, query: Step): (r: Result<seq<BusinessView>>)
    ensures query.FailsWith? ==> r == Err(query.message)
    ensures r.Ok? <==> query.Succeeds?
    ensures r.Ok? ==> exists sorted ::
      SortedDesc(sorted, RowCreated) && multiset(sorted) == multiset(SelectedRows(rows, category))
      && r.value == ListingViews(sorted)
    ensures r.Ok? ==> forall v :: v in r.value ==>
      exists row :: row in rows && Selected(row, category) && v == ViewOf(row, Some(false))
    ensures r.Ok? ==> forall row :: row in rows && Selected(row, category) ==> ViewOf(row, Some(false)) in r.value
    ensures r.Ok? && !FiltersCategory(category) ==> |r.value| == |rows|
  {
    if query.FailsWith? then Err(query.message)
    else
      ListingViewsComplete(rows, category);
      Ok(ListingViews(ListingRows(rows, category)))
  }

  /** In a filtered listing every business has the requested category, and no
      listing marks a business as owned. */
  lemma ListingCategoryAndOwnership(rows: seq<BusinessRow>, category: Option<string>, query: Step)
    requires GetBusinesses(rows, category, query).Ok?
    ensures forall v :: v in GetBusinesses(rows, category, query).value ==>
      v.isOwned == Some(false) && (FiltersCategory(category) ==> v.fields.category == category.value)
  {
    var r := GetBusinesses(rows, category, query).value;
    forall v | v in r
      ensures v.isOwned == Some(false) && (FiltersCategory(category) ==> v.fields.category == category.value)
    {
      var row :| row in rows && Selected(row, category) && v == ViewOf(row, Some(false));
    }
  }

  /** Absent, empty and 'All' are the same listing. */
  lemma NoFilterCategories(rows: seq<BusinessRow>, query: Step)
    ensures GetBusinesses(rows, None, query) == GetBusinesses(rows, Some(""), query)
      == GetBusinesses(rows, Some(AllCategories), query)
  {
  }

  function RowsWithId(rows: seq<BusinessRow>, id: Id): (r: seq<BusinessRow>)
    ensures forall row :: row in r <==> row in rows && row.business.id == id
  {
    Filter(rows, (row: BusinessRow) => row.business.id == id)
  }

  /** `getBusiness(id)`: the view of the one row with the id, without an ownership flag. */
  function GetBusiness(rows: seq<BusinessRow>, id: Id, query: Step): (r: Result<BusinessView>)
    ensures query.FailsWith? ==> r == Err(query.message)
    ensures query.Succeeds? && |RowsWithId(rows, id)| != 1 ==> r == Err(NotSingleRow)
    ensures r.Ok? <==> query.Succeeds? && |RowsWithId(rows, id)| == 1
    ensures r.Ok? ==> exists row :: row in rows && row.business.id == id && RowsWithId(rows, id) == [row]
                                    && r.value == ViewOf(row, None)
  {
    if query.FailsWith? then Err(query.message)
    else
      var found := Single(RowsWithId(rows, id));
      if found.None? then Err(NotSingleRow)
      else
        assert found.value in RowsWithId(rows, id);
        Ok(ViewOf(found.value, None))
  }

  /** The rows the user owns, in table order: what `eq('owner_id', userId)` selects. */
  function UserBusinesses(bs: seq<Business>, userId: Id): (r: seq<Business>)
    ensures forall b :: b in r <==> b in bs && b.ownerId == userId
    ensures IsSubsequence(r, bs)
  {
    var keep := (b: Business) => b.ownerId == userId;
    FilterIsSubsequence(bs, keep);
    Filter(bs, keep)
  }

  /** `getUserBusinesses(userId)`: exactly the rows the user owns, in table
      order, or the query's error. */
  function GetUserBusinesses(bs: seq<Business>, userId: Id, query: Step): (r: Result<seq<Business>>)
    ensures query.FailsWith? ==> r == Err(query.message)
    ensures r.Ok? <==> query.Succeeds?
    ensures r.Ok? ==> forall b :: b in r.value <==> b in bs && b.ownerId == userId
    ensures r.Ok? ==> IsSubsequence(r.value, bs)
  {
    if query.FailsWith? then Err(query.message) else Ok(UserBusinesses(bs, userId))
  }

  // ---------------------------------------------------------------- writes

  /** `createBusiness(businessData)`: the row is owned by the signed-in user,
      whatever owner the data named. */
  function Create(bs: seq<Business>, user: Option<Id>, draft: Draft, newId: Id, now: Timestamp, insert: Step): (r: Written)
    ensures user.None? ==> r == Written(bs, Err(NotAuthenticated))
    ensures insert.FailsWith? ==> r.after == bs && r.result.Err?
    ensures r.result.Ok? <==> user.Some? && insert.Succeeds?
    ensures r.result.Ok? ==>
      r.after == bs + [r.result.value] && r.result.value.ownerId == user.value
      && r.result.value.fields == draft.fields
  {
    if user.None? then Written(bs, Err(NotAuthenticated))
    else if insert.FailsWith? then Written(bs, Err(insert.message))
    else
      var b := Business(newId, user.value, draft.fields, now);
      Written(bs + [b], Ok(b))
  }

  /** A created business is among its creator's businesses, and no one else's. */
  lemma CreatedIsOwned(bs: seq<Business>, me: Id, draft: Draft, newId: Id, now: Timestamp, other: Id)
    requires other != me
    ensures var r := Create(bs, Some(me), draft, newId, now, Succeeds);
      r.result.value in UserBusinesses(r.after, me) && r.result.value !in UserBusinesses(r.after, other)
      && UserBusinesses(r.after, other) == UserBusinesses(bs, other)
  {
    var r := Create(bs, Some(me), draft, newId, now, Succeeds);
    UserBusinessesAppend(bs, r.result.value, other);
  }

  lemma {:induction false} UserBusinessesAppend(bs: seq<Business>, b: Business, userId: Id)
    requires b.ownerId != userId
    ensures UserBusinesses(bs + [b], userId) == UserBusinesses(bs, userId)
  {
    if bs == [] {
      assert [b][1..] == [];
    } else {
      assert (bs + [b])[1..] == bs[1..] + [b];
      UserBusinessesAppend(bs[1..], b, userId);
    }
  }

  function BusinessesWithId(bs: seq<Business>, id: Id): seq<Business> {
    Filter(bs, (b: Business) => b.id == id)
  }

  /** The columns of the rows with the id after `update(updates)`. */
  function Patched(bs: seq<Business>, id: Id, patch: BusinessFields -> BusinessFields): (r: seq<Business>)
    ensures |r| == |bs|
    ensures forall i :: 0 <= i < |bs| ==>
      r[i] == if bs[i].id == id then bs[i].(fields := patch(bs[i].fields)) else bs[i]
  {
    seq(|bs|, i requires 0 <= i < |bs| => if bs[i].id == id then bs[i].(fields := patch(bs[i].fields)) else bs[i])
  }

  /** `updateBusiness(id, updates)`: when exactly one row has the id, its columns
      are patched; otherwise the request fails and the table is as before. */
  function Update(bs: seq<Business>, id: Id, patch: BusinessFields -> BusinessFields, update: Step): (r: Written)
    ensures r.result.Ok? <==> update.Succeeds? && |BusinessesWithId(bs, id)| == 1
    ensures r.result.Err? ==> r.after == bs
    ensures |r.after| == |bs|
    ensures forall i :: 0 <= i < |bs| ==>
      r.after[i] == if r.result.Ok? && bs[i].id == id then bs[i].(fields := patch(bs[i].fields)) else bs[i]
    ensures r.result.Ok? ==> r.result.value.id == id
  {
    if update.FailsWith? then Written(bs, Err(update.message))
    else
      var rows := BusinessesWithId(bs, id);
      if |rows| != 1 then Written(bs, Err(NotSingleRow))
      else
        assert rows[0] in rows;
        Written(Patched(bs, id, patch), Ok(rows[0].(fields := patch(rows[0].fields))))
  }

  /** A patch of the modelled columns never moves a business to another owner:
      every row keeps its id, its owner and its creation time. */
  lemma UpdateKeepsOwners(bs: seq<Business>, id: Id, patch: BusinessFields -> BusinessFields, update: Step)
    ensures var after := Update(bs, id, patch, update).after;
      forall i :: 0 <= i < |bs| ==>
        after[i].id == bs[i].id && after[i].ownerId == bs[i].ownerId && after[i].createdAt == bs[i].createdAt
  {
  }

  /** The table after `delete().eq('id', id)`. */
  function Without(bs: seq<Business>, id: Id): (r: seq<Business>)
    ensures forall b :: b in r <==> b in bs && b.id != id
    ensures IsSubsequence(r, bs)
  {
    var keep := (b: Business) => b.id != id;
    FilterIsSubsequence(bs, keep);
    Filter(bs, keep)
  }

  /** `deleteBusiness(id)`: the error of the delete, if any. */
  function Delete(bs: seq<Business>, id: Id, delete: Step): (r: (seq<Business>, Option<string>))
    ensures delete.FailsWith? ==> r == (bs, Some(delete.message))
    ensures delete.Succeeds? ==> r == (Without(bs, id), None)
  {
    if delete.FailsWith? then (bs, Some(delete.message)) else (Without(bs, id), None)
  }

  /** After a delete no row has the id, and every other row is still there, in order. */
  lemma DeleteRemovesOnlyId(bs: seq<Business>, id: Id)
    ensures var after := Delete(bs, id, Succeeds).0;
      (forall b :: b in after ==> b.id != id)
      && (forall b :: b in bs && b.id != id ==> b in after)
      && IsSubsequence(after, bs)
  {
  }

  /** The businesses table. */
  class BusinessTable {
    var businesses: seq<Business>

    constructor (businesses: seq<Business>)
      ensures this.businesses == businesses
    {
      this.businesses := businesses;
    }

    /** `createBusiness(businessData)`. */
    method CreateBusiness(user: Option<Id>, draft: Draft, newId: Id, now: Timestamp, insert: Step)
      returns (r: Result<Business>)
      modifies this
      ensures businesses == Create(old(businesses), user, draft, newId, now, insert).after
      ensures r == Create(old(businesses), user, draft, newId, now, insert).result
    {
      if user.None? {
        return Err(NotAuthenticated);
      }
      if insert.FailsWith? {
        return Err(insert.message);
      }
      var b := Business(newId, user.value, draft.fields, now);
      businesses := businesses + [b];
      r := Ok(b);
    }

    /** `updateBusiness(id, updates)`. */
    method UpdateBusiness(id: Id, patch: BusinessFields -> BusinessFields, update: Step) returns (r: Result<Business>)
      modifies this
      ensures businesses == Update(old(businesses), id, patch, update).after
      ensures r == Update(old(businesses), id, patch, update).result
    {
      if update.FailsWith? {
        return Err(update.message);
      }
      var rows := BusinessesWithId(businesses, id);
      if |rows| != 1 {
        return Err(NotSingleRow);
      }
      businesses := Patched(businesses, id, patch);
      r := Ok(rows[0].(fields := patch(rows[0].fields)));
    }

    /** `deleteBusiness(id)`. */
    method DeleteBusiness(id: Id, delete: Step) returns (error: Option<string>)
      modifies this
      ensures (businesses, error) == Delete(old(businesses), id, delete)
    {
      if delete.FailsWith? {
        return Some(delete.message);
      }
      businesses := Without(businesses, id);
      error := None;
    }
  }
}
