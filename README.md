# Temple-antiques auction: store, login gate and router

This project models the core of a small single-page auction site. Admins list
antiques and review buyer registrations. Approved buyers bid on the listings.

The model covers three parts:

- **The mock store** (`services/mockStore.ts`). It keeps three tables (users,
  products, bids) and answers the app's calls: `login`, `register`,
  `getPendingUsers`, `approveUser`, `rejectUser`, `getAllProducts`,
  `getProductById`, `addProduct`, `getBidsForProduct` and `placeBid`. It starts
  from a fixed seed of two users, three products and three bids.
- **The login page's decision** (`pages/Login.tsx`). The store looks the user up
  by username and role. The page then checks the password, then the buyer's
  review status. It either logs the user in and picks the landing path, or shows
  one of four messages.
- **The router** (`App.tsx`). This covers the route table, the `ProtectedRoute`
  guard, the root redirect, and the session field that `handleLogin` and
  `handleLogout` set.

Files:

- `types.dfy`: the records and enumerations of `types.ts`.
- `seqs.dfy`: `findIndex` and `filter` as `IndexWhere` and `Filter`.
- `bid_history.dfy`: the stable sort by timestamp.
- `mock_store.dfy`: the store.
- `login_gate.dfy`: the login decision.
- `routes.dfy`: the router and the session.
- `wrappers.dfy`: `Option` and `Result`.

The store is a class whose methods update its three `seq` fields in place.
Every method keeps one invariant, `Consistent`:

- usernames are unique;
- every product's current bid is at least its base price;
- every bid names a listed product;
- for the product a lookup by id finds (the first with that id), the bids on it
  rise strictly above the base price, and its current bid is the latest of them.

The invariant is stated for the first product with each id because the source
does not guarantee unique ids (they come from the clock), and `findIndex` and
`find` always pick the first match. The seed satisfies the invariant. The lemma
proving this rebuilds the seed through the store's own operations.

Identifiers and times that the source takes from `Date.now()` are parameters of
the model. Times are whole milliseconds. Amounts are integers.

The code refuses no bid on a closed or expired listing. It has no close
operation and validates no listing. The model follows it: `Store.PlaceBid`
checks only that the product exists and that the amount is strictly above the
current bid.

## Model

| member | source | states |
|---|---|---|
| Seqs.IndexWhere | services/mockStore.ts:216 | The `findIndex` the store uses. The result is the first index whose element passes the test. `None` (the source's -1) is returned exactly when no element passes. |
| Seqs.Filter | services/mockStore.ts:157 | The `filter` the store uses. Each value occurs in the result as often as in the input when it passes the test, and not at all otherwise. |
| Seqs.FilterAppend | services/mockStore.ts:208 | Filtering a concatenation is the concatenation of the filtered parts, so the filter keeps the stored order. |
| BidHistory.SortByTime | services/mockStore.ts:208-210 | The result is ordered by timestamp and is a permutation of the input. |
| BidHistory.SortByTimeStable | services/mockStore.ts:208-210 | For every time, the bids placed at that time come out in the order they went in (the array sort is stable). |
| MockStore.FindAccount | services/mockStore.ts:128-134 | Finds nothing exactly when no user has both the username and the role. Otherwise it returns a stored user with both, and no earlier user has both. Password and status are not looked at. |
| MockStore.PendingUsers | services/mockStore.ts:155-158 | Every result is a buyer with status PENDING. Every pending buyer is in the result, as often as in the table. |
| MockStore.ProductById | services/mockStore.ts:186-189 | Finds nothing exactly when no product has the id. Otherwise it returns the first stored product with that id. |
| MockStore.BidsForProduct | services/mockStore.ts:206-211 | The result is ordered by timestamp and holds exactly the bids on the product, each as often as stored. Bids with equal timestamps keep their stored order. |
| MockStore.Message | services/mockStore.ts:139-140 | Each error the store throws has its own message: "Username already exists", "Product not found" (mockStore.ts:218) and "Bid must be higher than current bid" (mockStore.ts:219), and each message names exactly one error. |
| MockStore.SeedConsistent | services/mockStore.ts:4-85 | The seed's users, products and bids satisfy the store invariant: unique usernames, current bids matching the rising bid history, and every bid on a listed product. |
| MockStore.AcceptKeepsConsistent | services/mockStore.ts:215-237 | Raising the found product's current bid to an amount above it, and appending the bid, keeps the invariant. |
| MockStore.ListingKeepsConsistent | services/mockStore.ts:191-203 | Appending a product whose current bid is its base price keeps the invariant, whatever its id. |
| MockStore.CurrentBidIsHighest | services/mockStore.ts:216-222 | In a consistent store, no bid on a product exceeds the current bid of the product found by that id. Once anything was bid on it, the current bid is the amount of one of those bids. |
| MockStore.LoginFindsTheOnlyAccount | services/mockStore.ts:132-141 | Since `register` refuses a taken username, a successful login returns the only account with that username. |
| MockStore.RegisteredUserJoinsQueue | services/mockStore.ts:143-157 | A new PENDING user joins the end of the approval queue if a buyer. Otherwise the queue is unchanged. |
| MockStore.ReviewedUserLeavesQueue | services/mockStore.ts:155-178 | Approving or rejecting a user removes that user from the approval queue. The other entries keep their order. |
| MockStore.Store.constructor | services/mockStore.ts:90-101 | The store starts from the seed tables and satisfies the invariant. |
| MockStore.Store.Login | services/mockStore.ts:128-134 | Returns the lookup by username and role on the current user table. Changes nothing. |
| MockStore.Store.GetPendingUsers | services/mockStore.ts:155-158 | Returns the approval queue of the current user table. Changes nothing. |
| MockStore.Store.GetAllProducts | services/mockStore.ts:181-184 | Returns the product table as stored. |
| MockStore.Store.GetProductById | services/mockStore.ts:186-189 | Returns the lookup by id on the current product table. |
| MockStore.Store.GetBidsForProduct | services/mockStore.ts:206-211 | Returns the product's sorted bid history from the current bid table. |
| MockStore.Store.Register | services/mockStore.ts:136-153 | A username any user already has (whatever the role) fails with "Username already exists" and changes nothing. Otherwise the user is appended as PENDING, with the given id and time, and returned. Products and bids are untouched, and the invariant holds. |
| MockStore.Store.ApproveUser | services/mockStore.ts:160-168 | Sets the status of the first user with the id to APPROVED. An unknown id changes nothing. Nothing else changes. |
| MockStore.Store.RejectUser | services/mockStore.ts:170-178 | Sets the status of the first user with the id to REJECTED. An unknown id changes nothing. Nothing else changes. |
| MockStore.Store.AddProduct | services/mockStore.ts:191-203 | Appends and returns the listing as ACTIVE, with its current bid at the base price. Users and bids are untouched, and the invariant holds. |
| MockStore.Store.PlaceBid | services/mockStore.ts:213-240 | An unknown product fails with "Product not found". An amount not above the current bid fails with "Bid must be higher than current bid". Neither failure changes anything. Otherwise the found product's current bid becomes the amount, and the new bid is appended and returned. The invariant holds. |
| MockStore.BiddingScenario | services/mockStore.ts:191-240 | A new listing at 5000 accepts a bid of 5500. A second bid of 5500 on it is refused as not higher. |
| LoginGate.Decide | pages/Login.tsx:30-52 | No user gives "Invalid credentials or role". A password that differs (or is missing) gives "Invalid password". A pending buyer gives "under verification", and a rejected buyer gives "rejected". The user is admitted exactly when found, the password matches, and the user is an admin or an approved buyer. An admitted user goes to the admin products path or the buyer home path. |
| LoginGate.ErrorMessage | pages/Login.tsx:30-44 | Each refusal shows its own message: "Invalid credentials or role", "Invalid password", "Your account is still under verification by Admin." and "Your account application has been rejected.", and each message names exactly one refusal. |
| LoginGate.HandleSubmit | pages/Login.tsx:28-52 | An admitted user is a stored account with the typed username, role and password, and is an admin or an approved buyer. The landing path renders that role's home page. "Invalid credentials or role" is returned exactly when no stored user has the username and role. |
| Routes.ProtectedRoute | App.tsx:13-33 | No user is sent to /login. A user of the wrong role is sent to /. The page renders exactly when a user is present and the role matches or none is required. |
| Routes.RootRedirect | App.tsx:61 | The root path always redirects: no user to /login, an admin to /admin/products, a buyer to /buyer/home. |
| Routes.Resolve | App.tsx:59-102 | Each listed path gives its route's view: / the root redirect, /login and /register their pages, the admin and buyer paths their page behind the guard with the route's role, and a `/buyer/product/:id` path the bidding page for that id behind the buyer guard. Any other path redirects to /. Every rendered page is one the user may see and is served at exactly the requested path. Every redirect goes to /, to /login when no user is present, or to the user's home path. |
| Routes.ProductIdOf | App.tsx:92-93 | A path yields an id exactly when it is `/buyer/product/` followed by one non-empty segment without a slash, and that segment is the id. |
| Routes.ProductPathRoundTrip | App.tsx:92-99 | The id of a `/buyer/product/:id` path built from a non-empty id without a slash is that id. |
| Routes.RedirectTargetsSettle | App.tsx:24-61 | /login renders for a visitor without a user. A user's home path renders that role's home page. The root path reaches either in one redirect. |
| Routes.NavigationSettles | App.tsx:13-102 | From any path, at most two redirects reach a page the user may see. A redirected logged-in user lands on their role's home page. A redirected visitor without a user lands on the login page. |
| Routes.Session.constructor | App.tsx:36 | The first render has no user, whatever was remembered. |
| Routes.Session.Restore | App.tsx:39-44 | The mount effect: a remembered user replaces the session's user; with nothing remembered the session is unchanged. |
| Routes.Session.HandleLogin | App.tsx:46-49 | After login the session holds the user. |
| Routes.Session.HandleLogout | App.tsx:51-54 | After logout the session holds no user. |

## Left out

- localStorage, JSON encoding and the artificial `delay`: the three tables are fields of the store object, and every call completes at once.
- Tables left in localStorage by anything other than this store (another tab, a hand edit, an older version) are not modelled. Every store method requires the invariant that the constructor sets up and each method keeps.
- Concurrency between browser tabs sharing localStorage, and the window between `placeBid`'s two writes (products saved, then bids): `Store.PlaceBid` makes both changes in one step.
- `Date.now()` and `new Date()`: ids and times are parameters. ISO timestamp strings are whole milliseconds, and the seed's times are offsets from a start time `now`.
- Floating-point amounts: amounts are integers.
- MockStore.Store.constructor: always seeds, because the "only if the key is missing" branch depends on localStorage, which is not modelled.
- Routes.Resolve: react-router's case-insensitive matching, trailing slashes and URL decoding are not modelled. The hash router's location is a plain path.
- Routes.Session.Restore: reading `currentUser` from localStorage becomes the method's parameter. Writing it back in `handleLogin` and removing it in `handleLogout` are not modelled.
- The order of React renders is not modelled beyond the two session steps. Until `Session.Restore` runs, the router sees no user, so `/` and every protected path redirect to /login (`Routes.NavigationSettles` with no user).
- The `state.from` location that `ProtectedRoute` passes to the login page is not modelled, because the login page always lands on the role's home path.
- JSX rendering, the layout, and the forms' field handling and loading flags.
- The bidding page's polling, chart data and its own client-side amount check. It calls `placeBid`, which is modelled.
- The registration page's OTP and captcha steps, which do not reach the store.
- Closing auctions and checks on end time, product status or bidder approval: the code has none of these.
- Password security: passwords are plain optional strings compared for equality, as in the source.
