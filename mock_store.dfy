/** The in-memory auction store: three tables (users, products, bids), the queries
    over them, and the class whose methods change them in place. */
module MockStore {
  import opened Wrappers
  import opened Types
  import opened Seqs
  import opened BidHistory

  /** The errors the store throws. */
  datatype StoreError = UsernameExists | ProductNotFound | BidNotHigher

  /** The text of the error thrown; each message names one error. */
  function Message(e: StoreError): (m: string)
    ensures m == "Username already exists" <==> e == UsernameExists
    ensures m == "Product not found" <==> e == ProductNotFound
    ensures m == "Bid must be higher than current bid" <==> e == BidNotHigher
  {
    match e
    case UsernameExists => "Username already exists"
    case ProductNotFound => "Product not found"
    case BidNotHigher => "Bid must be higher than current bid"
  }

  /** What `register` receives: a user without id, status and creation time. */
  datatype Registration = Registration(
    fullName: string,
    username: string,
    password: Option<string>,
    mobile: string,
    role: UserRole)

  /** What `addProduct` receives: a product without id, current bid and status. */
  datatype Listing = Listing(
    title: string,
    description: string,
    basePrice: int,
    imageUrl: string,
    endTime: int)

  // ---------------------------------------------------------------------------
  // Seed data, written when the store starts; `now` is the clock reading then.

  const HourMs := 3600000
  const DayMs := 86400000

  function InitialUsers(now: int): seq<User>
  {
    [ User("admin1", "Temple Admin", "admin", Some("password"), "9999999999", Admin, Approved, now),
      User("buyer1", "Rohan Sharma", "rohan", Some("password"), "8888888888", Buyer, Approved, now) ]
  }

  // The seed listings' descriptions, named so that proofs need not spell them out.
  const DiyaDescription: string := "A 19th-century handcrafted brass oil lamp with intricate carvings of peacocks."
  const MalaDescription: string := "Authentic Mysore sandalwood beads, hand-knotted with silver caps."
  const PaintingDescription: string := "Traditional Odisha Pattachitra painting depicting the Dashavatar on pure silk cloth."

  function InitialProducts(now: int): seq<Product>
  {
    [ Product("p1", "Antique Brass Diya", DiyaDescription,
        5000, 5500, "https://picsum.photos/400/300", now + DayMs, Active),
      Product("p2", "Sandalwood Mala", MalaDescription,
        12000, 12000, "https://picsum.photos/400/301", now + 2 * DayMs, Active),
      Product("p3", "Silk Pattachitra Painting", PaintingDescription,
        25000, 28000, "https://picsum.photos/400/302", now + 12 * HourMs, Active) ]
  }

  function InitialBids(now: int): seq<Bid>
  {
    [ Bid("b1", "p1", "buyer1", "rohan", 5500, now - HourMs),
      Bid("b2", "p3", "buyer1", "rohan", 26000, now - 2 * HourMs),
      Bid("b3", "p3", "buyer2_mock", "priya_art", 28000, now - 1000000) ]
  }

  // ---------------------------------------------------------------------------
  // The selectors the store's `find`, `findIndex` and `filter` calls use.

  function WithUsername(username: string): User -> bool
  {
    (u: User) => u.username == username
  }

  function WithUsernameAndRole(username: string, role: UserRole): User -> bool
  {
    (u: User) => u.username == username && u.role == role
  }

  function WithUserId(id: string): User -> bool
  {
    (u: User) => u.id == id
  }

  function WithProductId(id: string): Product -> bool
  {
    (p: Product) => p.id == id
  }

  function ForProduct(productId: string): Bid -> bool
  {
    (b: Bid) => b.productId == productId
  }

  predicate IsPendingBuyer(u: User)
  {
    u.status == Pending && u.role == Buyer
  }

  // ---------------------------------------------------------------------------
  // Queries: they read one table and change nothing.

  /** The lookup `login` does: the first user with this username AND role; neither the password
      nor the status is looked at. */
  function FindAccount(users: seq<User>, username: string, role: UserRole): (r: Option<User>)
    ensures r.None? <==>
      forall k :: 0 <= k < |users| ==> !(users[k].username == username && users[k].role == role)
    ensures r.Some? ==>
      r.value.username == username && r.value.role == role &&
      exists k :: 0 <= k < |users| && users[k] == r.value &&
        forall j :: 0 <= j < k ==> !(users[j].username == username && users[j].role == role)
  {
    match IndexWhere(users, WithUsernameAndRole(username, role))
    case None => None
    case Some(k) => Some(users[k])
  }

  /** `getPendingUsers`: the buyers awaiting review, in stored order. */
  function PendingUsers(users: seq<User>): (r: seq<User>)
    ensures forall k :: 0 <= k < |r| ==> r[k].role == Buyer && r[k].status == Pending
    ensures forall u :: multiset(r)[u] == if IsPendingBuyer(u) then multiset(users)[u] else 0
  {
    var r := Filter(users, IsPendingBuyer);
    assert forall k :: 0 <= k < |r| ==> multiset(r)[r[k]] > 0;
    r
  }

  /** `getProductById`: the first product with this id, if any. */
  function ProductById(products: seq<Product>, id: string): (r: Option<Product>)
    ensures r.None? <==> forall k :: 0 <= k < |products| ==> products[k].id != id
    ensures r.Some? ==>
      r.value.id == id &&
      exists k :: 0 <= k < |products| && products[k] == r.value &&
        forall j :: 0 <= j < k ==> products[j].id != id
  {
    match IndexWhere(products, WithProductId(id))
    case None => None
    case Some(k) => Some(products[k])
  }

  /** `getBidsForProduct`: exactly the bids on one product, oldest first; bids
      with the same time stay in the order they were placed. */
  function BidsForProduct(bids: seq<Bid>, productId: string): (r: seq<Bid>)
    ensures SortedByTime(r)
    ensures forall b :: multiset(r)[b] == if b.productId == productId then multiset(bids)[b] else 0
    ensures forall t :: Filter(r, AtTime(t)) == Filter(Filter(bids, ForProduct(productId)), AtTime(t))
  {
    var mine := Filter(bids, ForProduct(productId));
    assert forall t :: Filter(SortByTime(mine), AtTime(t)) == Filter(mine, AtTime(t)) by {
      forall t ensures Filter(SortByTime(mine), AtTime(t)) == Filter(mine, AtTime(t)) {
        SortByTimeStable(mine, t);
      }
    }
    SortByTime(mine)
  }

  // ---------------------------------------------------------------------------
  // The invariant the store's operations keep.

  predicate UniqueUsernames(users: seq<User>)
  {
    forall i, j :: 0 <= i < j < |users| ==> users[i].username != users[j].username
  }

  predicate AtOrAboveBase(products: seq<Product>)
  {
    forall k :: 0 <= k < |products| ==> products[k].currentBid >= products[k].basePrice
  }

  /** Every bid names a product that is listed. */
  predicate BidsOnListedProducts(products: seq<Product>, bids: seq<Bid>)
  {
    forall k :: 0 <= k < |bids| ==> IndexWhere(products, WithProductId(bids[k].productId)).Some?
  }

  /** The amounts of a product's bids, oldest first, rise strictly and all exceed the base price. */
  predicate RisingAbove(ledger: seq<Bid>, basePrice: int)
  {
    && (forall i :: 0 <= i < |ledger| ==> ledger[i].amount > basePrice)
    && (forall i, j :: 0 <= i < j < |ledger| ==> ledger[i].amount < ledger[j].amount)
  }

  /** The amount of the latest bid, or the base price when there is none. */
  function LastAmount(ledger: seq<Bid>, basePrice: int): int
  {
    if |ledger| == 0 then basePrice else ledger[|ledger| - 1].amount
  }

  /** For the product every lookup by its id finds (the first with that id), the
      bids on it rise strictly above the base price and its current bid is the last of them. */
  predicate LedgerMatches(products: seq<Product>, bids: seq<Bid>)
  {
    forall k :: 0 <= k < |products| && IndexWhere(products, WithProductId(products[k].id)) == Some(k) ==>
      && RisingAbove(Filter(bids, ForProduct(products[k].id)), products[k].basePrice)
      && products[k].currentBid == LastAmount(Filter(bids, ForProduct(products[k].id)), products[k].basePrice)
  }

  predicate Consistent(users: seq<User>, products: seq<Product>, bids: seq<Bid>)
  {
    && UniqueUsernames(users)
    && AtOrAboveBase(products)
    && BidsOnListedProducts(products, bids)
    && LedgerMatches(products, bids)
  }

  /** The seed tables already satisfy the invariant. */
  lemma SeedConsistent(now: int)
    ensures Consistent(InitialUsers(now), InitialProducts(now), InitialBids(now))
  {
    var us, ps, bs := InitialUsers(now), InitialProducts(now), InitialBids(now);
    var p1, p3 := ps[0].(currentBid := ps[0].basePrice), ps[2].(currentBid := ps[2].basePrice);
    SeedShape(now);
    SeedReachable(us, p1, ps[1], p3, bs[0], bs[1], bs[2]);
    ConsistentTransfer(us, [p1.(currentBid := bs[0].amount), ps[1], p3.(currentBid := bs[2].amount)],
                       [bs[0], bs[1], bs[2]], ps, bs);
  }

  /** The seed tables meet the requirements of `SeedReachable`, and are what it builds. */
  lemma SeedShape(now: int)
    ensures UniqueUsernames(InitialUsers(now))
    ensures var ps, bs := InitialProducts(now), InitialBids(now);
      |ps| == 3 && |bs| == 3 &&
      ps[0].id != ps[1].id && ps[0].id != ps[2].id && ps[1].id != ps[2].id &&
      ps[1].currentBid == ps[1].basePrice &&
      bs[0].productId == ps[0].id && bs[0].amount > ps[0].basePrice &&
      bs[1].productId == ps[2].id && bs[2].productId == ps[2].id &&
      ps[2].basePrice < bs[1].amount < bs[2].amount &&
      ps == [ps[0].(currentBid := ps[0].basePrice).(currentBid := bs[0].amount), ps[1],
             ps[2].(currentBid := ps[2].basePrice).(currentBid := bs[2].amount)] &&
      bs == [bs[0], bs[1], bs[2]]
  {
    var us, ps := InitialUsers(now), InitialProducts(now);
    assert us[0].username != us[1].username;
    assert ps[0].id != ps[1].id && ps[0].id != ps[2].id && ps[1].id != ps[2].id;
  }

  /** Tables shaped like the seed are the result of the store's own operations: list
      three products with distinct ids, bid once on the first, list the second and the
      third, then bid twice, rising, on the third. */
  lemma SeedReachable(users: seq<User>, p1: Product, p2: Product, p3: Product, b1: Bid, b2: Bid, b3: Bid)
    requires UniqueUsernames(users)
    requires p1.id != p2.id && p1.id != p3.id && p2.id != p3.id
    requires p1.currentBid == p1.basePrice && p2.currentBid == p2.basePrice && p3.currentBid == p3.basePrice
    requires b1.productId == p1.id && b1.amount > p1.basePrice
    requires b2.productId == p3.id && b3.productId == p3.id && p3.basePrice < b2.amount < b3.amount
    ensures Consistent(users, [p1.(currentBid := b1.amount), p2, p3.(currentBid := b3.amount)], [b1, b2, b3])
  {
    var q1 := p1.(currentBid := b1.amount);
    SeedFirstBid(users, p1, b1);
    SeedMoreListings(users, q1, p2, p3, b1);
    SeedLastBids(users, [q1, p2, p3], [b1], b2, b3);
    SeedLastTables(q1, p2, p3, b1, b2, b3);
    ConsistentTransfer(users, [q1, p2, p3][2 := p3.(currentBid := b3.amount)], [b1] + [b2] + [b3],
                       [q1, p2, p3.(currentBid := b3.amount)], [b1, b2, b3]);
  }

  /** Proof helper for `SeedReachable`: the tables it builds, as displays. */
  lemma SeedLastTables(q1: Product, p2: Product, p3: Product, b1: Bid, b2: Bid, b3: Bid)
    ensures [q1, p2, p3][2 := p3.(currentBid := b3.amount)] == [q1, p2, p3.(currentBid := b3.amount)]
    ensures [b1] + [b2] + [b3] == [b1, b2, b3]
  {
  }

  lemma SeedFirstBid(users: seq<User>, p1: Product, b1: Bid)
    requires UniqueUsernames(users)
    requires p1.currentBid == p1.basePrice
    requires b1.productId == p1.id && b1.amount > p1.basePrice
    ensures Consistent(users, [p1.(currentBid := b1.amount)], [b1])
  {
    assert Consistent(users, [], []);
    ListingKeepsConsistent(users, [], [], p1);
    assert [] + [p1] == [p1];
    assert IndexWhere([p1], WithProductId(b1.productId)) == Some(0);
    AcceptKeepsConsistent(users, [p1], [], 0, b1);
    assert [p1][0 := p1.(currentBid := b1.amount)] == [p1.(currentBid := b1.amount)] && [] + [b1] == [b1];
  }

  lemma SeedMoreListings(users: seq<User>, q1: Product, p2: Product, p3: Product, b1: Bid)
    requires Consistent(users, [q1], [b1])
    requires p2.currentBid == p2.basePrice && p3.currentBid == p3.basePrice
    ensures Consistent(users, [q1, p2, p3], [b1])
  {
    ListingKeepsConsistent(users, [q1], [b1], p2);
    assert [q1] + [p2] == [q1, p2];
    ListingKeepsConsistent(users, [q1, p2], [b1], p3);
    assert [q1, p2] + [p3] == [q1, p2, p3];
  }

  /** Two rising bids on the third of three listings whose ids differ from it. */
  lemma SeedLastBids(users: seq<User>, ps: seq<Product>, bids: seq<Bid>, b2: Bid, b3: Bid)
    requires |ps| == 3 && Consistent(users, ps, bids)
    requires ps[0].id != b2.productId && ps[1].id != b2.productId && ps[2].id == b2.productId
    requires b3.productId == b2.productId && ps[2].currentBid < b2.amount < b3.amount
    ensures Consistent(users, ps[2 := ps[2].(currentBid := b3.amount)], bids + [b2] + [b3])
  {
    var ps1 := ps[2 := ps[2].(currentBid := b2.amount)];
    SeedBidOnThird(users, ps, bids, b2);
    SeedBidOnThird(users, ps1, bids + [b2], b3);
    UpdateThirdTwice(ps, ps[2].(currentBid := b2.amount), ps[2].(currentBid := b3.amount));
    ConsistentTransfer(users, ps1[2 := ps1[2].(currentBid := b3.amount)], bids + [b2] + [b3],
                       ps[2 := ps[2].(currentBid := b3.amount)], bids + [b2] + [b3]);
  }

  /** Proof helper for `SeedLastBids`: a second update of the third entry overrides the first. */
  lemma UpdateThirdTwice(ps: seq<Product>, x: Product, y: Product)
    requires |ps| == 3
    ensures ps[2 := x][2 := x.(currentBid := y.currentBid)] == ps[2 := x.(currentBid := y.currentBid)]
  {
  }

  lemma SeedBidOnThird(users: seq<User>, ps: seq<Product>, bids: seq<Bid>, b: Bid)
    requires |ps| == 3 && Consistent(users, ps, bids)
    requires ps[0].id != b.productId && ps[1].id != b.productId && ps[2].id == b.productId
    requires ps[2].currentBid < b.amount
    ensures Consistent(users, ps[2 := ps[2].(currentBid := b.amount)], bids + [b])
  {
    ThirdFound(ps, b.productId);
    AcceptKeepsConsistent(users, ps, bids, 2, b);
  }

  /** Proof helper for the seed lemmas: consistency is a property of the tables' values,
      whatever terms denote them; calling it spares the solver a search for the equality. */
  lemma ConsistentTransfer(users: seq<User>, products: seq<Product>, bids: seq<Bid>,
                           products': seq<Product>, bids': seq<Bid>)
    requires Consistent(users, products, bids)
    requires products == products' && bids == bids'
    ensures Consistent(users, products', bids')
  {
  }

  /** Proof helper for `SeedBidOnThird`: a product whose id the first two lack is the one
      found by that id. */
  lemma ThirdFound(ps: seq<Product>, id: string)
    requires |ps| == 3 && ps[2].id == id && ps[0].id != id && ps[1].id != id
    ensures IndexWhere(ps, WithProductId(id)) == Some(2)
  {
    assert WithProductId(id)(ps[2]) && !WithProductId(id)(ps[0]) && !WithProductId(id)(ps[1]);
  }

  /** Appending a bid above the last amount keeps a ledger rising and makes it the last amount. */
  lemma RisingAppend(ledger: seq<Bid>, basePrice: int, bid: Bid)
    requires RisingAbove(ledger, basePrice)
    requires bid.amount > LastAmount(ledger, basePrice)
    ensures RisingAbove(ledger + [bid], basePrice)
    ensures LastAmount(ledger + [bid], basePrice) == bid.amount
  {
    RisingBelowLast(ledger, basePrice);
  }

  /** No amount of a rising ledger exceeds its last amount. */
  lemma RisingBelowLast(ledger: seq<Bid>, basePrice: int)
    requires RisingAbove(ledger, basePrice)
    ensures forall i :: 0 <= i < |ledger| ==> ledger[i].amount <= LastAmount(ledger, basePrice)
  {
    forall i | 0 <= i < |ledger| ensures ledger[i].amount <= LastAmount(ledger, basePrice) {
      if i < |ledger| - 1 {
        assert ledger[i].amount < ledger[|ledger| - 1].amount;
      }
    }
  }

  /** Accepting a bid above the current bid of the product it names keeps the invariant. */
  lemma AcceptKeepsConsistent(users: seq<User>, products: seq<Product>, bids: seq<Bid>, k: nat, bid: Bid)
    requires Consistent(users, products, bids)
    requires IndexWhere(products, WithProductId(bid.productId)) == Some(k)
    requires bid.amount > products[k].currentBid
    ensures Consistent(users, products[k := products[k].(currentBid := bid.amount)], bids + [bid])
  {
    BaseKeptAfterAccept(products, k, bid.amount);
    BidsListedAfterAccept(products, bids, k, bid);
    LedgerMatchesAfterAccept(products, bids, k, bid);
  }

  lemma BaseKeptAfterAccept(products: seq<Product>, k: nat, amount: int)
    requires AtOrAboveBase(products)
    requires k < |products| && amount > products[k].currentBid
    ensures AtOrAboveBase(products[k := products[k].(currentBid := amount)])
  {
  }

  lemma BidsListedAfterAccept(products: seq<Product>, bids: seq<Bid>, k: nat, bid: Bid)
    requires BidsOnListedProducts(products, bids)
    requires IndexWhere(products, WithProductId(bid.productId)) == Some(k)
    ensures BidsOnListedProducts(products[k := products[k].(currentBid := bid.amount)], bids + [bid])
  {
    var ps := products[k := products[k].(currentBid := bid.amount)];
    var bs := bids + [bid];
    forall j | 0 <= j < |bs| ensures IndexWhere(ps, WithProductId(bs[j].productId)).Some? {
      IndexWhereAgrees(ps, products, WithProductId(bs[j].productId));
      if j < |bids| { assert bs[j] == bids[j]; }
    }
  }

  lemma LedgerMatchesAfterAccept(products: seq<Product>, bids: seq<Bid>, k: nat, bid: Bid)
    requires LedgerMatches(products, bids)
    requires IndexWhere(products, WithProductId(bid.productId)) == Some(k)
    requires bid.amount > products[k].currentBid
    ensures LedgerMatches(products[k := products[k].(currentBid := bid.amount)], bids + [bid])
  {
    var ps := products[k := products[k].(currentBid := bid.amount)];
    var bs := bids + [bid];
    forall j | 0 <= j < |ps| && IndexWhere(ps, WithProductId(ps[j].id)) == Some(j)
      ensures RisingAbove(Filter(bs, ForProduct(ps[j].id)), ps[j].basePrice)
      ensures ps[j].currentBid == LastAmount(Filter(bs, ForProduct(ps[j].id)), ps[j].basePrice)
    {
      IndexWhereAgrees(ps, products, WithProductId(ps[j].id));
      LedgerAfterAccept(products, bids, k, bid, j);
    }
  }

  /** The ledger of one first-listed product after a bid is accepted: the bid's own
      product gains it at the end, every other product keeps its ledger. */
  lemma LedgerAfterAccept(products: seq<Product>, bids: seq<Bid>, k: nat, bid: Bid, j: nat)
    requires LedgerMatches(products, bids)
    requires IndexWhere(products, WithProductId(bid.productId)) == Some(k)
    requires bid.amount > products[k].currentBid
    requires j < |products| && IndexWhere(products, WithProductId(products[j].id)) == Some(j)
    ensures var p := products[k := products[k].(currentBid := bid.amount)][j];
      && RisingAbove(Filter(bids + [bid], ForProduct(p.id)), p.basePrice)
      && p.currentBid == LastAmount(Filter(bids + [bid], ForProduct(p.id)), p.basePrice)
  {
    var id := products[j].id;
    var ledger := Filter(bids, ForProduct(id));
    FilterAppend(bids, [bid], ForProduct(id));
    FilterSingle(bid, ForProduct(id));
    if j == k {
      RisingAppend(ledger, products[k].basePrice, bid);
    } else {
      assert bid.productId != id;
      assert Filter(bids + [bid], ForProduct(id)) == ledger + [];
    }
  }

  /** Listing a new product whose current bid is its base price keeps the invariant. */
  lemma ListingKeepsConsistent(users: seq<User>, products: seq<Product>, bids: seq<Bid>, p: Product)
    requires Consistent(users, products, bids)
    requires p.currentBid == p.basePrice
    ensures Consistent(users, products + [p], bids)
  {
    var ps := products + [p];
    forall id ensures IndexWhere(ps, WithProductId(id)) ==
      if IndexWhere(products, WithProductId(id)).Some? then IndexWhere(products, WithProductId(id))
      else if p.id == id then Some(|products|) else None
    {
      IndexWhereAppend(products, p, WithProductId(id));
    }
    forall j | 0 <= j < |ps| && IndexWhere(ps, WithProductId(ps[j].id)) == Some(j)
      ensures RisingAbove(Filter(bids, ForProduct(ps[j].id)), ps[j].basePrice)
      ensures ps[j].currentBid == LastAmount(Filter(bids, ForProduct(ps[j].id)), ps[j].basePrice)
    {
      if j == |products| {
        assert IndexWhere(products, WithProductId(p.id)).None?;
        FilterNone(bids, ForProduct(p.id));
      } else {
        assert ps[j] == products[j];
      }
    }
  }

  /** The current bid of a product found by id is the highest amount bid on that id,
      and, once anything was bid, it is the amount of one of those bids. */
  lemma CurrentBidIsHighest(users: seq<User>, products: seq<Product>, bids: seq<Bid>, id: string)
    requires Consistent(users, products, bids)
    requires ProductById(products, id).Some?
    ensures forall b :: b in bids && b.productId == id ==> b.amount <= ProductById(products, id).value.currentBid
    ensures (exists b :: b in bids && b.productId == id) ==>
      exists b :: b in bids && b.productId == id && b.amount == ProductById(products, id).value.currentBid
  {
    var p := ProductById(products, id).value;
    var ledger := LedgerOfFound(products, bids, id);
    RisingBelowLast(ledger, p.basePrice);
    forall b | b in bids && b.productId == id ensures b.amount <= p.currentBid {
      FilterMember(bids, ForProduct(id), b);
    }
    if b :| b in bids && b.productId == id {
      FilterMember(bids, ForProduct(id), b);
      FilterMember(bids, ForProduct(id), ledger[|ledger| - 1]);
    }
  }

  /** The ledger of the product a lookup by id finds. */
  lemma LedgerOfFound(products: seq<Product>, bids: seq<Bid>, id: string) returns (ledger: seq<Bid>)
    requires LedgerMatches(products, bids)
    requires ProductById(products, id).Some?
    ensures ledger == Filter(bids, ForProduct(id))
    ensures RisingAbove(ledger, ProductById(products, id).value.basePrice)
    ensures ProductById(products, id).value.currentBid == LastAmount(ledger, ProductById(products, id).value.basePrice)
  {
    var k := IndexWhere(products, WithProductId(id)).value;
    assert ProductById(products, id) == Some(products[k]);
    assert products[k].id == id;
    ledger := Filter(bids, ForProduct(id));
  }

  /** With unique usernames, `login` finds the only account with that username, if its role matches. */
  lemma LoginFindsTheOnlyAccount(users: seq<User>, username: string, role: UserRole)
    requires UniqueUsernames(users)
    requires FindAccount(users, username, role).Some?
    ensures forall k :: 0 <= k < |users| && users[k].username == username ==> users[k] == FindAccount(users, username, role).value
  {
    var u := FindAccount(users, username, role).value;
    var i :| 0 <= i < |users| && users[i] == u;
    forall k | 0 <= k < |users| && users[k].username == username ensures users[k] == u {
      assert !(k < i) && !(i < k);
    }
  }

  /** A newly registered buyer joins the end of the approval queue; any other new
      user leaves the queue as it was. */
  lemma RegisteredUserJoinsQueue(users: seq<User>, u: User)
    requires u.status == Pending
    ensures PendingUsers(users + [u]) == if u.role == Buyer then PendingUsers(users) + [u] else PendingUsers(users)
  {
    FilterAppend(users, [u], IsPendingBuyer);
    FilterSingle(u, IsPendingBuyer);
  }

  /** Reviewing a user (to APPROVED or REJECTED) takes that user out of the queue and
      leaves the others in their order. */
  lemma ReviewedUserLeavesQueue(users: seq<User>, k: nat, status: UserStatus)
    requires k < |users| && status != Pending
    ensures PendingUsers(users[k := users[k].(status := status)]) ==
      PendingUsers(users[..k]) + PendingUsers(users[k + 1..])
  {
    FilterReplaceDropped(users, k, users[k].(status := status), IsPendingBuyer);
  }

  // ---------------------------------------------------------------------------
  // The store object: the three tables, changed in place by its methods.

  class Store {
    var users: seq<User>
    var products: seq<Product>
    var bids: seq<Bid>

    ghost predicate Valid()
      reads this
    {
      Consistent(users, products, bids)
    }

    /** A store holding the seed tables; `now` is the clock reading at start-up. */
    constructor (now: int)
      ensures users == InitialUsers(now) && products == InitialProducts(now) && bids == InitialBids(now)
      ensures Valid()
    {
      users := InitialUsers(now);
      products := InitialProducts(now);
      bids := InitialBids(now);
      SeedConsistent(now);
    }

    /** `login`: the first stored account with this username and role. */
    method Login(username: string, role: UserRole) returns (r: Option<User>)
      ensures r == FindAccount(users, username, role)
    {
      r := FindAccount(users, username, role);
    }

    /** `getPendingUsers`. */
    method GetPendingUsers() returns (r: seq<User>)
      ensures r == PendingUsers(users)
    {
      r := PendingUsers(users);
    }

    /** `getAllProducts`: the product table as stored. */
    method GetAllProducts() returns (r: seq<Product>)
      ensures r == products
    {
      r := products;
    }

    /** `getProductById`. */
    method GetProductById(id: string) returns (r: Option<Product>)
      ensures r == ProductById(products, id)
    {
      r := ProductById(products, id);
    }

    /** `getBidsForProduct`. */
    method GetBidsForProduct(productId: string) returns (r: seq<Bid>)
      ensures r == BidsForProduct(bids, productId)
    {
      r := BidsForProduct(bids, productId);
    }

    /** `register`: refuses a username any user already has (whatever the role);
        otherwise appends the user as PENDING with the given id and creation time. */
    method Register(reg: Registration, id: string, now: int) returns (r: Result<User, StoreError>)
      requires Valid()
      modifies this
      ensures Valid()
      ensures products == old(products) && bids == old(bids)
      ensures (exists k :: 0 <= k < |old(users)| && old(users)[k].username == reg.username) ==>
        r == Failure(UsernameExists) && users == old(users)
      ensures (forall k :: 0 <= k < |old(users)| ==> old(users)[k].username != reg.username) ==>
        && r == Success(User(id, reg.fullName, reg.username, reg.password, reg.mobile, reg.role, Pending, now))
        && users == old(users) + [r.value]
    {
      if IndexWhere(users, WithUsername(reg.username)).Some? {
        r := Failure(UsernameExists);
        return;
      }
      var u := User(id, reg.fullName, reg.username, reg.password, reg.mobile, reg.role, Pending, now);
      users := users + [u];
      r := Success(u);
    }

    /** `approveUser`. */
    method ApproveUser(userId: string)
      requires Valid()
      modifies this
      ensures Valid()
      ensures products == old(products) && bids == old(bids)
      ensures match IndexWhere(old(users), WithUserId(userId))
        case None => users == old(users)
        case Some(k) => users == old(users)[k := old(users)[k].(status := Approved)]
    {
      SetStatus(userId, Approved);
    }

    /** `rejectUser`. */
    method RejectUser(userId: string)
      requires Valid()
      modifies this
      ensures Valid()
      ensures products == old(products) && bids == old(bids)
      ensures match IndexWhere(old(users), WithUserId(userId))
        case None => users == old(users)
        case Some(k) => users == old(users)[k := old(users)[k].(status := Rejected)]
    {
      SetStatus(userId, Rejected);
    }

    /** Sets the status of the first user with this id; an unknown id changes nothing. */
    method SetStatus(userId: string, status: UserStatus)
      requires Valid()
      modifies this
      ensures Valid()
      ensures products == old(products) && bids == old(bids)
      ensures match IndexWhere(old(users), WithUserId(userId))
        case None => users == old(users)
        case Some(k) => users == old(users)[k := old(users)[k].(status := status)]
    {
      match IndexWhere(users, WithUserId(userId))
      case None =>
      case Some(k) =>
        users := users[k := users[k].(status := status)];
    }

    /** `addProduct`: appends the listing as ACTIVE with its current bid at the base price. */
    method AddProduct(listing: Listing, id: string) returns (p: Product)
      requires Valid()
      modifies this
      ensures Valid()
      ensures users == old(users) && bids == old(bids)
      ensures p == Product(id, listing.title, listing.description, listing.basePrice, listing.basePrice,
                           listing.imageUrl, listing.endTime, Active)
      ensures products == old(products) + [p]
    {
      p := Product(id, listing.title, listing.description, listing.basePrice, listing.basePrice,
                   listing.imageUrl, listing.endTime, Active);
      ListingKeepsConsistent(users, products, bids, p);
      products := products + [p];
    }

    /** `placeBid`: refuses an unknown product and any amount not strictly above the
        current bid, changing nothing; otherwise raises the current bid of the product
        found to `amount` and appends the new bid, which it returns. Product status,
        end time and the bidder's approval are not checked. */
    method PlaceBid(userId: string, username: string, productId: string, amount: int, bidId: string, now: int)
      returns (r: Result<Bid, StoreError>)
      requires Valid()
      modifies this
      ensures Valid()
      ensures users == old(users)
      ensures match IndexWhere(old(products), WithProductId(productId))
        case None =>
          r == Failure(ProductNotFound) && products == old(products) && bids == old(bids)
        case Some(k) =>
          if amount <= old(products)[k].currentBid then
            r == Failure(BidNotHigher) && products == old(products) && bids == old(bids)
          else
            && r == Success(Bid(bidId, productId, userId, username, amount, now))
            && products == old(products)[k := old(products)[k].(currentBid := amount)]
            && products[k].currentBid > old(products)[k].currentBid
            && bids == old(bids) + [r.value]
    {
      var found := IndexWhere(products, WithProductId(productId));
      if found.None? {
        return Failure(ProductNotFound);
      }
      var k := found.value;
      if amount <= products[k].currentBid {
        return Failure(BidNotHigher);
      }
      var bid := Bid(bidId, productId, userId, username, amount, now);
      AcceptKeepsConsistent(users, products, bids, k, bid);
      products := products[k := products[k].(currentBid := amount)];
      bids := bids + [bid];
      r := Success(bid);
    }
  }

  /** A client of the store: a listing at 5000 under a new id takes a bid of 5500,
      which becomes its current bid; a second bid of 5500 is refused. */
  method BiddingScenario(store: Store, id: string, now: int)
    returns (first: Result<Bid, StoreError>, second: Result<Bid, StoreError>)
    requires store.Valid() && IndexWhere(store.products, WithProductId(id)).None?
    modifies store
    ensures first.Success? && first.value.amount == 5500
    ensures second == Failure(BidNotHigher)
  {
    ghost var listed := store.products;
    var p := store.AddProduct(Listing("Bell", "", 5000, "", now + DayMs), id);
    ListedLast(listed, p);
    first := store.PlaceBid("buyer1", "rohan", id, 5500, "b4", now);
    RaisedLast(listed, p, 5500);
    second := store.PlaceBid("buyer2", "priya", id, 5500, "b5", now);
  }

  /** A product listed under an id no earlier listing has is found at the end. */
  lemma ListedLast(products: seq<Product>, p: Product)
    requires IndexWhere(products, WithProductId(p.id)).None?
    ensures IndexWhere(products + [p], WithProductId(p.id)) == Some(|products|)
  {
    IndexWhereAppend(products, p, WithProductId(p.id));
  }

  /** Raising the current bid of that last listing does not change where it is found. */
  lemma RaisedLast(products: seq<Product>, p: Product, amount: int)
    requires IndexWhere(products, WithProductId(p.id)).None?
    ensures var ps := products + [p];
      IndexWhere(ps[|products| := ps[|products|].(currentBid := amount)], WithProductId(p.id)) == Some(|products|)
  {
    var ps := products + [p];
    assert ps[|products| := ps[|products|].(currentBid := amount)] == products + [p.(currentBid := amount)];
    IndexWhereAppend(products, p.(currentBid := amount), WithProductId(p.id));
  }
}
