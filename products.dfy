/**
 * The product repository: the `products` table as a list of rows, the
 * supplier identity read from the browser's storage, and the listing,
 * create, update, delete, lookup and image-path rules of the service.
 */
module Products {
  import opened Wrappers
  import opened Seqs
  import opened Text

  /** A product's approval state; the service only ever writes `Approved`. */
  datatype ApprovalStatus = PendingApproval | Approved

  /** A row of the `products` table. `createdAt` is the insertion instant, used only for ordering. */
  datatype ProductRow = ProductRow(
    id: string,
    title: string,
    description: Option<string>,
    price: int,
    images: Option<seq<string>>,
    supplierId: string,
    supplierName: string,
    status: ApprovalStatus,
    createdAt: nat)

  /** The fields a supplier fills in for a new product. */
  datatype NewProduct = NewProduct(title: string, description: Option<string>, price: int, images: Option<seq<string>>)

  /** A partial update: each field that is `Some` is written, the others are left alone. */
  datatype ProductChanges = ProductChanges(
    title: Option<string>,
    description: Option<string>,
    price: Option<int>,
    images: Option<seq<string>>,
    status: Option<ApprovalStatus>)

  const UnknownSupplier: string := "Unknown Supplier"
  const UnknownUploader: string := "unknown"

  /** `localStorage.getItem('supplierName') || fallback`: a missing or empty stored name reads as `fallback`. */
  function NameOr(stored: Option<string>, fallback: string): (name: string)
    ensures stored.Some? && stored.value != "" ==> name == stored.value
    ensures stored.None? || stored.value == "" ==> name == fallback
  {
    if stored.Some? && stored.value != "" then stored.value else fallback
  }

  /** The supplier identity the service stamps and checks: the stored name itself. */
  function SupplierIdentity(stored: Option<string>): string {
    NameOr(stored, UnknownSupplier)
  }

  /** Newest first: no row is older than the one after it. */
  ghost predicate NewestFirst(rows: seq<ProductRow>) {
    forall i :: 0 < i < |rows| ==> rows[i - 1].createdAt >= rows[i].createdAt
  }

  /** Newest first, stated over every pair of positions. */
  lemma {:induction false} NewestFirstPairwise(rows: seq<ProductRow>, i: nat, j: nat)
    requires NewestFirst(rows) && i <= j < |rows|
    ensures rows[i].createdAt >= rows[j].createdAt
    decreases j - i
  {
    if i < j {
      NewestFirstPairwise(rows, i + 1, j);
    }
  }

  /** Inserting one row into a newest-first list at its place. */
  function InsertByDate(row: ProductRow, sorted: seq<ProductRow>): (r: seq<ProductRow>)
    requires NewestFirst(sorted)
    ensures NewestFirst(r)
    ensures multiset(r) == multiset(sorted) + multiset{row}
    ensures r[0] == row || (sorted != [] && r[0] == sorted[0])
  {
    if sorted == [] || row.createdAt >= sorted[0].createdAt then
      ConsNewestFirst(row, sorted);
      [row] + sorted
    else
      var rest := InsertByDate(row, sorted[1..]);
      assert sorted == [sorted[0]] + sorted[1..];
      ConsNewestFirst(sorted[0], rest);
      [sorted[0]] + rest
  }

  /** A row at least as new as the head of a newest-first list can go in front of it. */
  lemma ConsNewestFirst(row: ProductRow, rows: seq<ProductRow>)
    requires NewestFirst(rows)
    requires rows == [] || row.createdAt >= rows[0].createdAt
    ensures NewestFirst([row] + rows)
  {
    var r := [row] + rows;
    assert forall i :: 0 < i < |r| ==> r[i] == rows[i - 1];
  }

  /** `.order('created_at', { ascending: false })`: the same rows, newest first. */
  function SortNewestFirst(rows: seq<ProductRow>): (r: seq<ProductRow>)
    ensures NewestFirst(r)
    ensures multiset(r) == multiset(rows)
  {
    if rows == [] then []
    else
      assert rows == [rows[0]] + rows[1..];
      InsertByDate(rows[0], SortNewestFirst(rows[1..]))
  }

  /** The filter test "is approved". */
  function IsApproved(): ProductRow -> bool {
    (r: ProductRow) => r.status == Approved
  }

  /** The filter test "belongs to `supplierId`". */
  function OwnedBy(supplierId: string): ProductRow -> bool {
    (r: ProductRow) => r.supplierId == supplierId
  }

  /** The seller's catalogue: the approved rows, newest first. */
  function ApprovedListing(rows: seq<ProductRow>): seq<ProductRow> {
    SortNewestFirst(Filter(rows, IsApproved()))
  }

  /** One supplier's rows, newest first. */
  function SupplierListing(rows: seq<ProductRow>, supplierId: string): seq<ProductRow> {
    SortNewestFirst(Filter(rows, OwnedBy(supplierId)))
  }

  /** A row is in a sorted filtered listing exactly when it is in the table and passes the filter. */
  lemma ListingMembership(rows: seq<ProductRow>, p: ProductRow -> bool, x: ProductRow)
    ensures x in SortNewestFirst(Filter(rows, p)) <==> x in rows && p(x)
  {
    var f := Filter(rows, p);
    assert x in SortNewestFirst(f) <==> x in multiset(SortNewestFirst(f));
    assert x in f <==> x in multiset(f);
    FilterMembership(rows, p, x);
  }

  /** The listing of approved rows holds exactly the approved rows, newest first. */
  lemma ApprovedListingSpec(rows: seq<ProductRow>)
    ensures NewestFirst(ApprovedListing(rows))
    ensures multiset(ApprovedListing(rows)) == multiset(Filter(rows, IsApproved()))
    ensures forall x :: x in ApprovedListing(rows) <==> x in rows && x.status == Approved
  {
    forall x ensures x in ApprovedListing(rows) <==> x in rows && x.status == Approved {
      ListingMembership(rows, IsApproved(), x);
    }
  }

  /** A supplier's listing holds exactly that supplier's rows, newest first. */
  lemma SupplierListingSpec(rows: seq<ProductRow>, supplierId: string)
    ensures NewestFirst(SupplierListing(rows, supplierId))
    ensures multiset(SupplierListing(rows, supplierId)) == multiset(Filter(rows, OwnedBy(supplierId)))
    ensures forall x :: x in SupplierListing(rows, supplierId) <==> x in rows && x.supplierId == supplierId
  {
    forall x ensures x in SupplierListing(rows, supplierId) <==> x in rows && x.supplierId == supplierId {
      ListingMembership(rows, OwnedBy(supplierId), x);
    }
  }

  /** The row `createProduct` inserts: the caller's fields, stamped with the supplier and `Approved`. */
  function StampNew(data: NewProduct, supplier: string, id: string, now: nat): (row: ProductRow)
    ensures row.supplierId == supplier && row.supplierName == supplier
    ensures row.status == Approved
    ensures row.images == Some(data.images.GetOr([]))
    ensures row.title == data.title && row.description == data.description && row.price == data.price
  {
    ProductRow(id, data.title, data.description, data.price, Some(data.images.GetOr([])), supplier, supplier, Approved, now)
  }

  /** Some row has this id. */
  predicate HasId(rows: seq<ProductRow>, id: string) {
    exists i :: 0 <= i < |rows| && rows[i].id == id
  }

  /** Ids are a primary key: no two rows share one. */
  ghost predicate UniqueIds(rows: seq<ProductRow>) {
    forall i, j :: 0 <= i < j < |rows| ==> rows[i].id != rows[j].id
  }

  /** A partial update applied to one row; the id, owner and creation instant never change. */
  function ApplyChanges(row: ProductRow, c: ProductChanges): (r: ProductRow)
    ensures r.id == row.id && r.supplierId == row.supplierId && r.supplierName == row.supplierName
    ensures r.createdAt == row.createdAt
    ensures c.title.Some? ==> r.title == c.title.value
    ensures c.title.None? ==> r.title == row.title
    ensures r.description == (if c.description.Some? then c.description else row.description)
    ensures r.price == (if c.price.Some? then c.price.value else row.price)
    ensures r.images == (if c.images.Some? then c.images else row.images)
    ensures r.status == (if c.status.Some? then c.status.value else row.status)
  {
    row.(
      title := c.title.GetOr(row.title),
      description := if c.description.Some? then c.description else row.description,
      price := c.price.GetOr(row.price),
      images := if c.images.Some? then c.images else row.images,
      status := c.status.GetOr(row.status))
  }

  /** The filter test "is the row with this id and this owner". */
  function IdAndOwner(id: string, owner: string): ProductRow -> bool {
    (r: ProductRow) => r.id == id && r.supplierId == owner
  }

  /** The table after `.update(c).eq('id', id).eq('supplier_id', owner)`. */
  function UpdateWhere(rows: seq<ProductRow>, id: string, owner: string, c: ProductChanges): (r: seq<ProductRow>)
    ensures |r| == |rows|
    ensures forall i :: 0 <= i < |r| && IdAndOwner(id, owner)(rows[i]) ==> r[i] == ApplyChanges(rows[i], c)
    ensures forall i :: 0 <= i < |r| && !IdAndOwner(id, owner)(rows[i]) ==> r[i] == rows[i]
  {
    Map(rows, (row: ProductRow) => if IdAndOwner(id, owner)(row) then ApplyChanges(row, c) else row)
  }

  /** The filter test "is not the row with this id and this owner". */
  function NotIdAndOwner(id: string, owner: string): ProductRow -> bool {
    (r: ProductRow) => !(r.id == id && r.supplierId == owner)
  }

  /** The filter test "has this id". */
  function IdIs(id: string): ProductRow -> bool {
    (r: ProductRow) => r.id == id
  }

  /** The table after `.delete().eq('id', id).eq('supplier_id', owner)`. */
  function DeleteWhere(rows: seq<ProductRow>, id: string, owner: string): (r: seq<ProductRow>)
    ensures |r| <= |rows|
    ensures forall x :: x in r ==> x in rows && !(x.id == id && x.supplierId == owner)
  {
    Filter(rows, NotIdAndOwner(id, owner))
  }

  /** A delete removes the matching row and keeps every other row, in order. */
  lemma DeleteWhereSpec(rows: seq<ProductRow>, id: string, owner: string)
    ensures IsSubseq(DeleteWhere(rows, id, owner), rows)
    ensures forall x :: x in DeleteWhere(rows, id, owner) <==> x in rows && !(x.id == id && x.supplierId == owner)
  {
    FilterIsSubseq(rows, NotIdAndOwner(id, owner));
    forall x ensures x in DeleteWhere(rows, id, owner) <==> x in rows && !(x.id == id && x.supplierId == owner) {
      FilterMembership(rows, NotIdAndOwner(id, owner), x);
    }
  }

  /** A delete by one supplier leaves another supplier's listing exactly as it was. */
  lemma {:induction false} DeleteSparesOtherSuppliers(rows: seq<ProductRow>, id: string, owner: string, other: string)
    requires other != owner
    ensures Filter(DeleteWhere(rows, id, owner), OwnedBy(other)) == Filter(rows, OwnedBy(other))
  {
    if rows != [] {
      DeleteSparesOtherSuppliers(rows[1..], id, owner, other);
    }
  }

  /** An update by one supplier leaves another supplier's rows exactly as they were. */
  lemma {:induction false} UpdateSparesOtherSuppliers(rows: seq<ProductRow>, id: string, owner: string, other: string, c: ProductChanges)
    requires other != owner
    ensures Filter(UpdateWhere(rows, id, owner, c), OwnedBy(other)) == Filter(rows, OwnedBy(other))
  {
    if rows != [] {
      var u := UpdateWhere(rows, id, owner, c);
      assert u[1..] == UpdateWhere(rows[1..], id, owner, c);
      UpdateSparesOtherSuppliers(rows[1..], id, owner, other, c);
    }
  }

  /** A new row is in the approved listing and in its supplier's listing, and in no other supplier's. */
  lemma CreatedRowIsListed(rows: seq<ProductRow>, data: NewProduct, supplier: string, id: string, now: nat, other: string)
    requires other != supplier
    ensures var row := StampNew(data, supplier, id, now);
      && row in ApprovedListing(rows + [row])
      && row in SupplierListing(rows + [row], supplier)
      && Filter(rows + [row], OwnedBy(other)) == Filter(rows, OwnedBy(other))
  {
    var row := StampNew(data, supplier, id, now);
    ListingMembership(rows + [row], IsApproved(), row);
    ListingMembership(rows + [row], OwnedBy(supplier), row);
    FilterAppend(rows, row, OwnedBy(other));
  }

  /** The storage path of an uploaded image: `<supplier>/<timestamp>.<extension of the file name>`. */
  function ImagePath(stored: Option<string>, timestamp: nat, fileName: string): (path: string)
    ensures ImageFolder(stored) <= path
    ensures LastSegment(path) == LastSegment(fileName)
  {
    PathOfParts(ImageFolder(stored), NatToString(timestamp), LastSegment(fileName));
    ImageFolder(stored) + NatToString(timestamp) + ("." + LastSegment(fileName))
  }

  /** `<supplier>/`, the folder of a supplier's images. */
  function ImageFolder(stored: Option<string>): string {
    NameOr(stored, UnknownUploader) + "/"
  }

  /** A path joined from a folder, a stem and an extension without '.' starts with the folder and ends with the extension. */
  lemma PathOfParts(folder: string, stem: string, ext: string)
    requires '.' !in ext
    ensures folder <= folder + stem + ("." + ext)
    ensures LastSegment(folder + stem + ("." + ext)) == ext
  {
    assert (folder + stem + ("." + ext))[..|folder|] == folder;
    LastSegmentOfJoin(folder + stem, ext);
  }

  /** The segment after the last '.' of `prefix + ("." + ext)`, for an `ext` without '.', is `ext`. */
  lemma LastSegmentOfJoin(prefix: string, ext: string)
    requires '.' !in ext
    ensures LastSegment(prefix + ("." + ext)) == ext
  {
    var s := prefix + ("." + ext);
    var r := LastSegment(s);
    // The '.' just before `ext` bounds the segment from the left ...
    assert s[|prefix|] == '.';
    assert forall k :: |s| - |r| <= k < |s| ==> s[k] == r[k - (|s| - |r|)];
    // ... and `ext` holds no '.', so the segment cannot stop inside it.
    assert s[|prefix| + 1..] == ext;
    assert forall k :: |prefix| < k < |s| ==> s[k] == ext[k - |prefix| - 1];
    assert |r| == |ext|;
  }

  /** Two uploads by the same supplier of files with the same extension collide only at the same timestamp. */
  lemma ImagePathDistinctTimestamps(stored: Option<string>, t1: nat, t2: nat, fileName: string)
    requires t1 != t2
    ensures ImagePath(stored, t1, fileName) != ImagePath(stored, t2, fileName)
  {
    var folder := ImageFolder(stored);
    var tail := "." + LastSegment(fileName);
    var d1, d2 := NatToString(t1), NatToString(t2);
    if folder + d1 + tail == folder + d2 + tail {
      MiddleDetermined(folder, d1, d2, tail);
      NatToStringInjective(t1, t2);
    }
  }

  /** Equal joins with equal ends have equal middles. */
  lemma MiddleDetermined(a: string, b1: string, b2: string, c: string)
    requires a + b1 + c == a + b2 + c
    ensures b1 == b2
  {
    assert |b1| == |b2|;
    assert b1 == (a + b1 + c)[|a|..|a| + |b1|];
    assert b2 == (a + b2 + c)[|a|..|a| + |b2|];
  }

  /** The `products` table and the service's operations on it. */
  class ProductService {
    var rows: seq<ProductRow>

    /** The table's primary key. */
    ghost predicate Valid()
      reads this
    {
      UniqueIds(rows)
    }

    constructor (initial: seq<ProductRow>)
      requires UniqueIds(initial)
      ensures Valid() && rows == initial
    {
      rows := initial;
    }

    /** `getApprovedProducts`: the approved rows newest first, or `[]` when the query fails. */
    function GetApprovedProducts(fault: bool): (r: seq<ProductRow>)
      reads this
      ensures fault ==> r == []
      ensures !fault ==> NewestFirst(r) && forall x :: x in r <==> x in rows && x.status == Approved
      ensures !fault ==> multiset(r) == multiset(Filter(rows, IsApproved()))
    {
      ApprovedListingSpec(rows);
      if fault then [] else ApprovedListing(rows)
    }

    /** `getSupplierProducts`: the rows of the stored supplier newest first, or `[]` when the query fails. */
    function GetSupplierProducts(stored: Option<string>, fault: bool): (r: seq<ProductRow>)
      reads this
      ensures fault ==> r == []
      ensures !fault ==> NewestFirst(r) && forall x :: x in r <==> x in rows && x.supplierId == SupplierIdentity(stored)
      ensures !fault ==> multiset(r) == multiset(Filter(rows, OwnedBy(SupplierIdentity(stored))))
    {
      SupplierListingSpec(rows, SupplierIdentity(stored));
      if fault then [] else SupplierListing(rows, SupplierIdentity(stored))
    }

    /** `getProductById`: `.single()` answers only when exactly one row has the id. */
    function GetProductById(id: string, fault: bool): (r: Option<ProductRow>)
      reads this
      requires Valid()
      ensures r.Some? ==> r.value in rows && r.value.id == id
      ensures r.None? <==> fault || !HasId(rows, id)
    {
      var matching := Filter(rows, IdIs(id));
      if !HasId(rows, id) then
        NoMatch(rows, IdIs(id), id);
        None
      else
        OneMatchAtMost(rows, IdIs(id), id);
        FilterMembership(rows, IdIs(id), matching[0]);
        if fault || |matching| != 1 then None else Some(matching[0])
    }

    /**
     * `createProduct`: inserts the caller's fields stamped with the stored
     * supplier and `Approved`. The database assigns the id and the creation
     * instant; an id already in use, like any other database error, makes the
     * insert fail and the result `None`.
     */
    method CreateProduct(data: NewProduct, stored: Option<string>, newId: string, now: nat, fault: bool)
      returns (r: Option<ProductRow>)
      requires Valid()
      modifies this
      ensures Valid()
      ensures r.None? <==> fault || HasId(old(rows), newId)
      ensures r.None? ==> rows == old(rows)
      ensures r.Some? ==> r.value == StampNew(data, SupplierIdentity(stored), newId, now) && rows == old(rows) + [r.value]
    {
      if fault || HasId(rows, newId) {
        r := None;
      } else {
        var row := StampNew(data, SupplierIdentity(stored), newId, now);
        rows := rows + [row];
        r := Some(row);
      }
    }

    /**
     * `deleteProduct`: removes the row with this id only if the stored
     * supplier owns it. A delete that matches nothing still succeeds.
     */
    method DeleteProduct(id: string, stored: Option<string>, fault: bool) returns (ok: bool)
      requires Valid()
      modifies this
      ensures Valid()
      ensures ok == !fault
      ensures rows == if fault then old(rows) else DeleteWhere(old(rows), id, SupplierIdentity(stored))
    {
      if fault {
        ok := false;
      } else {
        DeleteKeepsUniqueIds(rows, id, SupplierIdentity(stored));
        rows := DeleteWhere(rows, id, SupplierIdentity(stored));
        ok := true;
      }
    }

    /**
     * `updateProduct` as written: the owner compared with the row's supplier
     * is the signed-in user's id. Without a signed-in user nothing happens.
     */
    method UpdateProduct(id: string, c: ProductChanges, authUserId: Option<string>, fault: bool)
      returns (r: Option<ProductRow>)
      requires Valid()
      modifies this
      ensures Valid()
      ensures authUserId.None? || fault ==> r == None && rows == old(rows)
      ensures authUserId.Some? && !fault ==> rows == UpdateWhere(old(rows), id, authUserId.value, c)
      ensures authUserId.Some? && !fault ==> (r.Some? <==> exists i :: 0 <= i < |old(rows)| && IdAndOwner(id, authUserId.value)(old(rows)[i]))
      ensures r.Some? ==> authUserId.Some? && exists k :: 0 <= k < |old(rows)| && IdAndOwner(id, authUserId.value)(old(rows)[k]) && r.value == ApplyChanges(old(rows)[k], c)
    {
      if authUserId.None? || fault {
        r := None;
      } else {
        r := UpdateOwned(id, authUserId.value, c);
      }
    }

    /**
     * The update with the ownership test `deleteProduct` uses: the owner is
     * the stored supplier name, the identity `createProduct` stamps.
     */
    method UpdateOwnProduct(id: string, c: ProductChanges, stored: Option<string>, fault: bool)
      returns (r: Option<ProductRow>)
      requires Valid()
      modifies this
      ensures Valid()
      ensures fault ==> r == None && rows == old(rows)
      ensures !fault ==> rows == UpdateWhere(old(rows), id, SupplierIdentity(stored), c)
      ensures !fault ==> (r.Some? <==> exists i :: 0 <= i < |old(rows)| && IdAndOwner(id, SupplierIdentity(stored))(old(rows)[i]))
      ensures r.Some? ==> exists k :: 0 <= k < |old(rows)| && IdAndOwner(id, SupplierIdentity(stored))(old(rows)[k]) && r.value == ApplyChanges(old(rows)[k], c)
    {
      if fault {
        r := None;
      } else {
        r := UpdateOwned(id, SupplierIdentity(stored), c);
      }
    }

    /** The update statement followed by `.select().single()`: the updated row when exactly one matched. */
    method UpdateOwned(id: string, owner: string, c: ProductChanges) returns (r: Option<ProductRow>)
      requires Valid()
      modifies this
      ensures Valid()
      ensures rows == UpdateWhere(old(rows), id, owner, c)
      ensures r.Some? ==> exists k :: 0 <= k < |old(rows)| && IdAndOwner(id, owner)(old(rows)[k]) && r.value == ApplyChanges(old(rows)[k], c)
      ensures (exists i :: 0 <= i < |old(rows)| && IdAndOwner(id, owner)(old(rows)[i])) <==> r.Some?
    {
      var before := rows;
      var matching := Filter(before, IdAndOwner(id, owner));
      SingleMatch(before, IdAndOwner(id, owner), id);
      UpdateKeepsUniqueIds(before, id, owner, c);
      rows := UpdateWhere(before, id, owner, c);
      if |matching| == 1 {
        var k :| 0 <= k < |before| && IdAndOwner(id, owner)(before[k]);
        r := Some(rows[k]);
      } else {
        r := None;
      }
    }

    /**
     * `uploadImage`: the path is built from the stored name, the upload
     * instant and the file's extension; the result is the public URL the
     * storage gives for that path, or `None` when the upload fails.
     */
    function UploadImage(stored: Option<string>, timestamp: nat, fileName: string, fault: bool, publicUrl: string -> string)
      : (r: Option<string>)
      ensures fault ==> r == None
      ensures !fault ==> r == Some(publicUrl(ImagePath(stored, timestamp, fileName)))
    {
      if fault then None else Some(publicUrl(ImagePath(stored, timestamp, fileName)))
    }
  }

  /** A match exists exactly when one row matches a test that fixes the id. */
  lemma SingleMatch(rows: seq<ProductRow>, p: ProductRow -> bool, id: string)
    requires UniqueIds(rows)
    requires forall r :: p(r) ==> r.id == id
    ensures (exists i :: 0 <= i < |rows| && p(rows[i])) <==> |Filter(rows, p)| == 1
  {
    if exists i :: 0 <= i < |rows| && p(rows[i]) {
      OneMatchAtMost(rows, p, id);
    }
    if |Filter(rows, p)| == 1 {
      var m := Filter(rows, p)[0];
      FilterMembership(rows, p, m);
      var i :| 0 <= i < |rows| && rows[i] == m;
    }
  }

  /** Updating rows keeps the ids unique, since ids never change. */
  lemma UpdateKeepsUniqueIds(rows: seq<ProductRow>, id: string, owner: string, c: ProductChanges)
    requires UniqueIds(rows)
    ensures UniqueIds(UpdateWhere(rows, id, owner, c))
  {
    var u := UpdateWhere(rows, id, owner, c);
    assert forall i :: 0 <= i < |u| ==> u[i].id == rows[i].id;
  }

  /**
   * As written, `updateProduct` never reaches a row `createProduct` made: the
   * row is stamped with the supplier name, the update filters on the signed-in
   * user's id, and with unique ids no other row has that id either.
   */
  lemma UpdateByUserIdMissesCreatedRow(rows: seq<ProductRow>, data: NewProduct, name: string, id: string, now: nat, userId: string, c: ProductChanges)
    requires userId != name
    requires UniqueIds(rows + [StampNew(data, name, id, now)])
    ensures !exists i :: 0 <= i < |rows| + 1 && IdAndOwner(id, userId)((rows + [StampNew(data, name, id, now)])[i])
    ensures UpdateWhere(rows + [StampNew(data, name, id, now)], id, userId, c) == rows + [StampNew(data, name, id, now)]
  {
    var all := rows + [StampNew(data, name, id, now)];
    forall i | 0 <= i < |all| ensures !IdAndOwner(id, userId)(all[i]) {
      if i < |rows| {
        assert all[i].id != all[|rows|].id;
      }
    }
    var u := UpdateWhere(all, id, userId, c);
    assert forall i :: 0 <= i < |u| ==> u[i] == all[i];
  }

  /** With the ownership test `deleteProduct` uses, the creator's update reaches the row it created. */
  lemma OwnUpdateReachesCreatedRow(rows: seq<ProductRow>, data: NewProduct, stored: Option<string>, id: string, now: nat, c: ProductChanges)
    ensures var row := StampNew(data, SupplierIdentity(stored), id, now);
      && IdAndOwner(id, SupplierIdentity(stored))((rows + [row])[|rows|])
      && UpdateWhere(rows + [row], id, SupplierIdentity(stored), c)[|rows|] == ApplyChanges(row, c)
  {
  }

  /** Deleting rows keeps the ids unique. */
  lemma DeleteKeepsUniqueIds(rows: seq<ProductRow>, id: string, owner: string)
    requires UniqueIds(rows)
    ensures UniqueIds(DeleteWhere(rows, id, owner))
  {
    DeleteWhereSpec(rows, id, owner);
    SubseqKeepsUnique(DeleteWhere(rows, id, owner), rows);
    DeleteWhereSpec(rows, id, owner);
  }

  /** A sub-list of a list with unique ids has unique ids. */
  lemma {:induction false} SubseqKeepsUnique(a: seq<ProductRow>, b: seq<ProductRow>)
    requires IsSubseq(a, b) && UniqueIds(b)
    ensures UniqueIds(a)
    decreases |b|
  {
    if a != [] && b != [] {
      assert UniqueIds(b[1..]) by {
        forall i, j | 0 <= i < j < |b[1..]| ensures b[1..][i].id != b[1..][j].id {
          assert b[1..][i] == b[i + 1] && b[1..][j] == b[j + 1];
        }
      }
      if a[0] == b[0] && IsSubseq(a[1..], b[1..]) {
        SubseqKeepsUnique(a[1..], b[1..]);
        SubseqMembers(a[1..], b[1..]);
        forall j | 0 < j < |a| ensures a[0].id != a[j].id {
          assert a[j] == a[1..][j - 1];
          assert a[j] in b[1..];
          var k :| 0 <= k < |b[1..]| && b[1..][k] == a[j];
          assert b[k + 1] == a[j];
        }
      } else {
        SubseqKeepsUnique(a, b[1..]);
      }
    }
  }

  /** Everything in a sub-list is in the list. */
  lemma {:induction false} SubseqMembers<T>(a: seq<T>, b: seq<T>)
    requires IsSubseq(a, b)
    ensures forall x :: x in a ==> x in b
    decreases |b|
  {
    if a != [] && b != [] {
      if a[0] == b[0] && IsSubseq(a[1..], b[1..]) {
        SubseqMembers(a[1..], b[1..]);
        assert forall x :: x in a ==> x == a[0] || x in a[1..];
      } else {
        SubseqMembers(a, b[1..]);
      }
    }
  }

  /** With unique ids at most one row passes a test that fixes the id, so a match makes the match list a singleton. */
  lemma {:induction false} OneMatchAtMost(rows: seq<ProductRow>, p: ProductRow -> bool, id: string)
    requires UniqueIds(rows)
    requires forall r :: p(r) ==> r.id == id
    requires exists i :: 0 <= i < |rows| && p(rows[i])
    ensures |Filter(rows, p)| == 1
  {
    var i :| 0 <= i < |rows| && p(rows[i]);
    assert UniqueIds(rows[1..]) by {
      forall a, b | 0 <= a < b < |rows[1..]| ensures rows[1..][a].id != rows[1..][b].id {
        assert rows[1..][a] == rows[a + 1] && rows[1..][b] == rows[b + 1];
      }
    }
    if i == 0 {
      assert forall k :: 0 <= k < |rows[1..]| ==> rows[1..][k].id != id by {
        forall k | 0 <= k < |rows[1..]| ensures rows[1..][k].id != id {
          assert rows[1..][k] == rows[k + 1];
        }
      }
      NoMatch(rows[1..], p, id);
    } else {
      assert p(rows[1..][i - 1]);
      OneMatchAtMost(rows[1..], p, id);
      assert rows[0].id != rows[i].id;
    }
  }

  /** Rows none of which has the id pass no test that fixes the id. */
  lemma {:induction false} NoMatch(rows: seq<ProductRow>, p: ProductRow -> bool, id: string)
    requires forall r :: p(r) ==> r.id == id
    requires forall k :: 0 <= k < |rows| ==> rows[k].id != id
    ensures Filter(rows, p) == []
  {
    if rows != [] {
      assert forall k :: 0 <= k < |rows[1..]| ==> rows[1..][k] == rows[k + 1];
      NoMatch(rows[1..], p, id);
    }
  }
}
