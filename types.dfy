/** The records and enumerations shared by the store, the login page and the router.
    Timestamps (`createdAt`, `endTime`, `timestamp`) are milliseconds since the epoch;
    monetary amounts are whole numbers. */
module Types {
  import opened Wrappers

  datatype UserRole = Admin | Buyer

  datatype UserStatus = Pending | Approved | Rejected

  /** An account. The password is optional in the record and stored in plain text. */
  datatype User = User(
    id: string,
    fullName: string,
    username: string,
    password: Option<string>,
    mobile: string,
    role: UserRole,
    status: UserStatus,
    createdAt: int)

  datatype ProductStatus = Active | Closed

  /** A listing; `currentBid` is the highest accepted amount so far. */
  datatype Product = Product(
    id: string,
    title: string,
    description: string,
    basePrice: int,
    currentBid: int,
    imageUrl: string,
    endTime: int,
    status: ProductStatus)

  /** One accepted bid; the bid table only ever grows. */
  datatype Bid = Bid(
    id: string,
    productId: string,
    userId: string,
    username: string,
    amount: int,
    timestamp: int)
}
