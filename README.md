# Chilli Chhat restaurant front end — a verified model of its state logic

This project models the synchronous state logic of the Chilli Chhat
restaurant front end, a React application, and proves properties of it:

- **The waiter panel** (`WaiterPanel`, on top of the pure line transforms in `OrderCart`):
  - the dish catalogue, the dish search and dish selection;
  - the quantity clamp;
  - the order lines behind `addItem`, `changeQty`, `removeItem` and `total`;
  - `submitOrder`;
  - editing a placed order, with Save and Cancel.
- **The chef's board** (`KitchenBoard`):
  - unwrapping the differently shaped order-list responses;
  - the `id || _id` and `qty ?? quantity ?? 1` fallbacks;
  - `normalizeStatus`, `statusColor`;
  - the single forward button shown for each status.
- **The table-booking board** (`TableBooking`): the eight initial tables, `bookTable`, and the rule that only a free table can be selected. The page also defines `addTables`, which the model covers too, but the page renders no button or input for it and never calls it.
- **The menu page** (`MenuEditor`): the initial category list and `addNewItem`.
- **The registration form** (`Registration`):
  - the strong-password regular expression, modelled construct by construct and proved equal to a plain character-class rule;
  - the ordered chain of checks and their messages;
  - the request payload;
  - the handling of the server's reply.
- **Sign-in and access** (`LoginPage`, `ProtectedRoute`, `AppRoutes`, `AuthSlice`, `BrowserStorage`):
  - the login form and its storage writes;
  - the role-to-page redirect;
  - the route guard;
  - the route table with each page's allowed roles;
  - the navigation-bar and footer hiding rule;
  - the `auth` slice's `setRole` and `logout` reducers over `localStorage`.

The form follows the source:
- Components whose handlers update state variables step by step are classes whose fields are those state variables: `WaiterPanel`, `TableBoard`, `MenuPage`, `RegisterPage`, `LoginForm` and `AuthState`.
- The `map`/`filter`/`reduce` expressions inside the handlers are functions. Each method's contract ties the new state to those functions, and lemmas state what the functions do.
- `localStorage` is a `Storage` object shared by reference between the login form and the auth slice.
- JavaScript's `||`, `??` and truthiness are written out in `JsValues`.
- ASCII case mapping, `includes` and `trim` are in `JsStrings`.
- `Array.prototype.map` and `filter` are in `JsArrays`.

Where the two disagree, the model follows the code, not the design notes that describe the system:
- The cart's total is a plain `reduce` of `price * qty`. It has no coercion of missing prices to 0 (`src/pages/WaiterPannel.jsx:118-121`).
- `submitOrder` only appends to a local list and clears the cart at once. It makes no remote submission and waits for no confirmation (`src/pages/WaiterPannel.jsx:124-143`).
- Dish ids are numbers, not strings.
- Tables are named "Table 1" … "Table 8" (`src/pages/WaiterPannel.jsx:178-180`).

Behaviour of the code that the model keeps, although it may surprise:
- A members box holding "0", or a negative number, passes the `!members` test of `bookTable`, and that count is stored.
- A price of "0" passes the `!newItem.price` test of `addNewItem`.
- `setRole(null)` stores the string "null", which a reload reads back as a role (`NullRoleSurvivesReload`).
- A login reply without `user` still stores the token before the page's own `catch` swallows the error.
- `addTables` (`src/pages/BookTable.jsx:45-59`) is never called. No control on the page sets `newTableCount` either; its only write, at line 58, clears it.
- `LoginPage.jsx:9` imports `setCredentials` from the auth slice, which exports only `setRole`, `logout` and the reducer (`src/store/slices/authSlice.js:25-26`). Under native ES modules that import fails when the modules are linked; some bundlers only warn and bind `undefined`. The page never uses the name, so the model reads the login page as if the import were absent.

## Model

| member | source | states |
|---|---|---|
| OrderCart.CategoriesAreMenuKeys | src/pages/WaiterPannel.jsx:4-58 | every category button names a catalogue key, and every key has a button |
| OrderCart.FilteredItemsMember | src/pages/WaiterPannel.jsx:76-78 | a dish is listed exactly when it is in the current category and the search text occurs in its name, ignoring ASCII case |
| OrderCart.FilteredItemsExactly | src/pages/WaiterPannel.jsx:76-78 | the listed dishes are exactly the category's dishes whose lower-cased name contains the lower-cased search text |
| OrderCart.EmptySearchListsAll | src/pages/WaiterPannel.jsx:76-78 | with an empty search box the whole category is listed, in order |
| OrderCart.FindItem | src/pages/WaiterPannel.jsx:238-244 | the result is the first dish with the id, and there is none exactly when no dish has that id |
| OrderCart.AddLineNew | src/pages/WaiterPannel.jsx:84-91 | a dish not yet in the cart is appended as one line with the entered quantity; the earlier lines are untouched |
| OrderCart.AddLineExisting | src/pages/WaiterPannel.jsx:84-90 | a dish already in the cart raises that one line's quantity by the entered quantity and adds no line |
| OrderCart.AddLineWellFormed | src/pages/WaiterPannel.jsx:84-91 | with a quantity of at least 1, one line per dish and positive quantities are kept, and the dish is in the cart afterwards |
| OrderCart.AddLineTotal | src/pages/WaiterPannel.jsx:84-91 | adding raises the total by the price times the entered quantity |
| OrderCart.AddTwiceMerges | src/pages/WaiterPannel.jsx:84-91 | adding a dish with 2 and then 3 gives a single line of 5 |
| OrderCart.ChangeQtyAt | src/pages/WaiterPannel.jsx:99-111 | only the line with the id moves by one step; it is dropped when it reaches 0, and the other lines keep their values and order |
| OrderCart.ChangeQtyAbsent | src/pages/WaiterPannel.jsx:99-111 | an id that is not in the cart leaves the cart unchanged |
| OrderCart.ChangeQtyWellFormed | src/pages/WaiterPannel.jsx:99-111 | after a step every line still has a positive quantity and the ids stay unique |
| OrderCart.ChangeQtyTotal | src/pages/WaiterPannel.jsx:99-121 | a step moves the total by one unit price, up for "inc" and down otherwise |
| OrderCart.RemoveLineAt | src/pages/WaiterPannel.jsx:114-116 | the one line with the id is deleted and the rest keep their order |
| OrderCart.RemoveLineAbsent | src/pages/WaiterPannel.jsx:114-116 | removing an id that is not in the cart changes nothing |
| OrderCart.RemoveLineWellFormed | src/pages/WaiterPannel.jsx:114-116 | removal keeps the cart well formed, and the id is gone afterwards |
| OrderCart.RemoveLineTotal | src/pages/WaiterPannel.jsx:114-121 | removal lowers the total by that line's price times quantity |
| OrderCart.TotalAppend | src/pages/WaiterPannel.jsx:118-121 | the total of two line lists put together is the sum of their totals |
| OrderCart.TotalUpdate | src/pages/WaiterPannel.jsx:118-121 | replacing one line changes the total by the difference of the two line amounts |
| OrderCart.TotalRemoveAt | src/pages/WaiterPannel.jsx:118-121 | dropping one line lowers the total by that line's amount |
| OrderCart.EditPlacedLineEffect | src/pages/WaiterPannel.jsx:146-157 | "inc" adds 1, "dec" subtracts 1 only above 1, "remove" splices out exactly that index, and any other action changes nothing |
| OrderCart.EditPlacedLinePositive | src/pages/WaiterPannel.jsx:151-154 | editing a placed order never takes a quantity below 1 |
| OrderCart.EditPlacedLineTotal | src/pages/WaiterPannel.jsx:146-157 | how each action moves the placed order's total |
| WaiterPanel.WaiterPanel.constructor | src/pages/WaiterPannel.jsx:61-70 | the initial state: no table, category "starter", nothing selected, quantity 1, an empty cart and no orders |
| WaiterPanel.WaiterPanel.ChooseTable | src/pages/WaiterPannel.jsx:170-173 | choosing a table stores it and clears the table error |
| WaiterPanel.WaiterPanel.ChooseCategory | src/pages/WaiterPannel.jsx:195 | a category button switches the category and keeps the panel invariant |
| WaiterPanel.WaiterPanel.SetSearch | src/pages/WaiterPannel.jsx:232 | the search box stores its text |
| WaiterPanel.WaiterPanel.Dishes | src/pages/WaiterPannel.jsx:76-78 | the dish list holds exactly the current category's dishes that match the search, and no more than the category has |
| WaiterPanel.WaiterPanel.TotalAmount | src/pages/WaiterPannel.jsx:118-121 | the shown total is 0 for an empty cart and price times quantity for a one-line cart |
| WaiterPanel.SingleLine | src/pages/WaiterPannel.jsx:118-121 | the `reduce` over one line gives that line's price times quantity |
| WaiterPanel.WaiterPanel.SelectDish | src/pages/WaiterPannel.jsx:238-244 | the selection is the first dish of the current category with that id, or nothing |
| WaiterPanel.WaiterPanel.EnterQty | src/pages/WaiterPannel.jsx:261 | the quantity is the entered number, but never below 1 |
| WaiterPanel.WaiterPanel.AddItem | src/pages/WaiterPannel.jsx:81-95 | nothing happens without a selected dish; otherwise the cart becomes the merge-or-append of the selection, which is then in the cart, and the selection and quantity are reset |
| WaiterPanel.WaiterPanel.ChangeQty | src/pages/WaiterPannel.jsx:99-111 | the cart takes one quantity step and stays well formed |
| WaiterPanel.WaiterPanel.RemoveItem | src/pages/WaiterPannel.jsx:114-116 | the line is removed, the id is no longer in the cart, and the cart stays well formed |
| WaiterPanel.WaiterPanel.SubmitOrder | src/pages/WaiterPannel.jsx:124-143 | no table: only the table error is set. Empty cart: only an alert. Otherwise exactly one order `{tableNo, items}` is appended, the edit buffer is recopied, and the cart, table and error are cleared |
| WaiterPanel.WaiterPanel.StartEditing | src/pages/WaiterPannel.jsx:317 | the Edit button marks that order as being edited |
| WaiterPanel.WaiterPanel.UpdatePlacedOrderItem | src/pages/WaiterPannel.jsx:146-157 | only the edited order changes, and its lines change as the edit prescribes |
| WaiterPanel.WaiterPanel.SaveEdits | src/pages/WaiterPannel.jsx:295-298 | Save makes the edited orders the placed orders, which the copying effect (lines 72-74) leaves in the edit buffer, and ends editing |
| WaiterPanel.WaiterPanel.CancelEdits | src/pages/WaiterPannel.jsx:304-309 | Cancel resets the edit buffer from the placed orders and ends editing |
| WaiterPanel.PakodaForTableThree | src/pages/WaiterPannel.jsx:81-143 | two Paneer Pakoda at 120 for "Table 3" are placed as an order totalling 240, and the cart is empty afterwards |
| KitchenBoard.OrderListShapes | src/pages/ChiefPannel.jsx:8-19 | the list is the response itself when it is an array, else a truthy `orders`, else a truthy `data`, else an empty array |
| KitchenBoard.OrderId | src/pages/ChiefPannel.jsx:88 | a truthy `id` is the id; otherwise `_id`, which may be missing |
| KitchenBoard.DisplayQty | src/pages/ChiefPannel.jsx:119 | `qty` unless null or missing, then `quantity` likewise, then 1 |
| KitchenBoard.NormalizeEmptyIff | src/pages/ChiefPannel.jsx:25-26 | a missing or empty status, and only such a status, normalises to "" |
| KitchenBoard.NormalizeCanonicalIff | src/pages/ChiefPannel.jsx:28-35 | NEW, PREPARING and READY are each reached exactly from their own synonyms, in any ASCII letter case |
| KitchenBoard.NormalizeUnknown | src/pages/ChiefPannel.jsx:28-35 | a status that is no synonym comes out upper-cased |
| KitchenBoard.NormalizeCanonical | src/pages/ChiefPannel.jsx:28-33 | a canonical status normalises to itself |
| KitchenBoard.NormalizeIdempotent | src/pages/ChiefPannel.jsx:25-36 | normalising twice is normalising once |
| KitchenBoard.NormalizeExamples | src/pages/ChiefPannel.jsx:28-33 | "placed" gives NEW, "In_Progress" gives PREPARING, "DONE" gives READY |
| KitchenBoard.UnknownExample | src/pages/ChiefPannel.jsx:35 | "weird_value" gives "WEIRD_VALUE", which shows no button |
| KitchenBoard.StatusColorDistinct | src/pages/ChiefPannel.jsx:38-48 | the three canonical statuses get three different colours; any other status gets the grey default |
| KitchenBoard.ActionGate | src/pages/ChiefPannel.jsx:126-155 | NEW shows only "Start Cooking", PREPARING only "Mark Ready", READY only the disabled "Waiting for Pickup"; any other status shows nothing |
| KitchenBoard.ForwardOnly | src/pages/ChiefPannel.jsx:126-155 | every requested move goes exactly one stage forward and requests an already-normalised status |
| KitchenBoard.UnknownStatusOffersNothing | src/pages/ChiefPannel.jsx:89-155 | a backend status that is no synonym shows no button and the default colour |
| TableBooking.FreshTables | src/pages/BookTable.jsx:50-55 | the new-table block has the requested number of tables |
| TableBooking.InitialTables | src/pages/BookTable.jsx:5-12 | the initial board is tables 1 to 8, all free, with no name and no members |
| TableBooking.ConsecutiveIdsUnique | src/pages/BookTable.jsx:5-12 | numbering the row 1..n makes table numbers unique |
| TableBooking.AppendFreshKeepsNumbering | src/pages/BookTable.jsx:49-57 | appending n tables after the last number keeps the row numbered 1..len+n, keeps the earlier tables, and leaves free tables blank |
| TableBooking.MarkBookedEffect | src/pages/BookTable.jsx:26-37 | the table with the selected number takes the booking; every other table is unchanged |
| TableBooking.MarkBookedAt | src/pages/BookTable.jsx:26-37 | on a numbered row, exactly entry `selected - 1` changes |
| TableBooking.BookingKeepsInvariants | src/pages/BookTable.jsx:26-41 | a booking keeps the numbering and the blank free tables, and leaves no selection |
| TableBooking.BookedCountUpdate | src/pages/BookTable.jsx:26-37 | replacing one table changes the booked count by the difference of the two flags |
| TableBooking.BookSelected | src/pages/BookTable.jsx:26-41 | booking a free selected table changes one entry, books one more table and keeps the invariants |
| TableBooking.BookingKeepsEarlierBookings | src/pages/BookTable.jsx:26-37 | a booking never overwrites a table that was already booked |
| TableBooking.TableBoard.constructor | src/pages/BookTable.jsx:5-17 | the board starts with the eight free tables and an empty form |
| TableBooking.TableBoard.SetCustomerName | src/pages/BookTable.jsx:14 | the name box stores its text |
| TableBooking.TableBoard.SetMembers | src/pages/BookTable.jsx:15 | the members box stores its number, or is empty |
| TableBooking.TableBoard.SetNewTableCount | src/pages/BookTable.jsx:17 | the `newTableCount` state takes the given value; the page renders no control for it and its only write clears it (line 58) |
| TableBooking.TableBoard.ClickTable | src/pages/BookTable.jsx:72 | clicking a free table selects it; clicking a booked table changes nothing, so a booked table is never selected |
| TableBooking.TableBoard.BookTable | src/pages/BookTable.jsx:20-42 | alerts exactly when there is no selection, the name is blank or whitespace, or the members box is empty, and then changes nothing; otherwise only the selected table is booked under the name as typed, one more table is booked, and the form is reset |
| TableBooking.TableBoard.AddTables | src/pages/BookTable.jsx:45-59 | a missing, zero or negative count does nothing; otherwise that many free tables are appended after the last number and the count is cleared (the page defines this handler but never calls it) |
| MenuEditor.InitialMenuShape | src/pages/MenuData.jsx:4-73 | the initial list has the nine categories, in order, with distinct names |
| MenuEditor.InitialItemCount | src/pages/MenuData.jsx:4-73 | the initial list holds 23 dishes |
| MenuEditor.NewDish | src/pages/MenuData.jsx:97-102 | the new dish takes the clock's id, the name, and the price as a number; its description defaults to "New item" when empty |
| MenuEditor.AddToMenuEffect | src/pages/MenuData.jsx:90-107 | every category keeps its name and position; only matching categories gain the dish, at the end |
| MenuEditor.AddToMenuCount | src/pages/MenuData.jsx:90-107 | adding to an existing category of a menu with distinct names adds exactly one dish |
| MenuEditor.AddToMenuKeepsNames | src/pages/MenuData.jsx:90-107 | the category names are unchanged, so distinct names stay distinct |
| MenuEditor.AddToPageMenu | src/pages/MenuData.jsx:90-107 | on the page's menu, adding keeps the nine categories and adds one dish when the category is one of them |
| MenuEditor.MenuPage.constructor | src/pages/MenuData.jsx:4-81 | the page starts with the initial list and an empty form |
| MenuEditor.MenuPage.SetCategory | src/pages/MenuData.jsx:127 | the category field is updated and the other fields are kept |
| MenuEditor.MenuPage.SetName | src/pages/MenuData.jsx:142 | the name field is updated and the other fields are kept |
| MenuEditor.MenuPage.SetPrice | src/pages/MenuData.jsx:152 | the price field is updated and the other fields are kept |
| MenuEditor.MenuPage.SetDesc | src/pages/MenuData.jsx:162 | the description field is updated and the other fields are kept |
| MenuEditor.MenuPage.AddNewItem | src/pages/MenuData.jsx:84-110 | alerts exactly when category, name or price is empty, and then changes nothing. Otherwise the dish is appended to the matching category, the number of categories is unchanged, an existing category grows by exactly one dish, and the form is emptied |
| Registration.StrongPatternIff | src/pages/RegisterPage.jsx:36-37 | the regular expression accepts exactly: eight or more characters without line terminators, with a small letter, a capital, a digit and one of `@$!%*?&` |
| Registration.SeekIff | src/pages/RegisterPage.jsx:37 | each lookahead finds exactly the characters of its class on a line-terminator-free string |
| Registration.DotsToEndIff | src/pages/RegisterPage.jsx:37 | `.*$` matches exactly a string without line terminators |
| Registration.StrongPasswordExamples | src/pages/RegisterPage.jsx:36-37 | "Chef@12" is refused for length, "chef@123" for the missing capital, and "Chef@123" is strong |
| Registration.ValidateChain | src/pages/RegisterPage.jsx:42-66 | each message appears exactly when its check is the first to fail; the request is made only when all pass, with exactly `{name, email, password, role}` |
| Registration.RegisterPage.constructor | src/pages/RegisterPage.jsx:16-23 | the form starts empty |
| Registration.RegisterPage.SetRole | src/pages/RegisterPage.jsx:100 | the role field stores its value |
| Registration.RegisterPage.SetFullName | src/pages/RegisterPage.jsx:115 | the full-name field stores its value |
| Registration.RegisterPage.SetEmail | src/pages/RegisterPage.jsx:124 | the e-mail field stores its value |
| Registration.RegisterPage.SetPassword | src/pages/RegisterPage.jsx:134 | the password field stores its value |
| Registration.RegisterPage.SetConfirmPassword | src/pages/RegisterPage.jsx:151 | the confirmation field stores its value |
| Registration.RegisterPage.Submit | src/pages/RegisterPage.jsx:39-66 | a failing check sets its message and sends nothing; otherwise the error is cleared and the payload is sent |
| Registration.RegisterPage.Settle | src/pages/RegisterPage.jsx:68-73 | success leads to "/"; a refusal shows the server's message, or "Registration failed" when there is none |
| Registration.RejectionMessage | src/pages/RegisterPage.jsx:72 | the shown refusal is never empty, and is the default when the server sent no message |
| BrowserStorage.Storage.GetItem | src/store/slices/authSlice.js:4 | `getItem` gives the stored string, or null exactly when the key is absent |
| BrowserStorage.Storage.SetItem | src/pages/LoginPage.jsx:58-61 | `setItem` overwrites one entry and keeps every other |
| BrowserStorage.Storage.RemoveItem | src/store/slices/authSlice.js:20 | `removeItem` drops one entry and keeps every other |
| BrowserStorage.Stringify | src/pages/LoginPage.jsx:58-60 | an undefined value is stored as the string "undefined" |
| AuthSlice.InitialView | src/store/slices/authSlice.js:3-6 | the initial role is the stored role or null, and the user is signed in exactly when a non-empty role is stored |
| AuthSlice.SetRoleStep | src/store/slices/authSlice.js:12-16 | `setRole` sets the role and the signed-in flag. It stores exactly the payload's string form under "role" ("null" for null) and keeps every other entry |
| AuthSlice.LogoutStep | src/store/slices/authSlice.js:17-21 | `logout` clears the role and the flag; the stored entries are the old ones without "role" |
| AuthSlice.LogoutIdempotent | src/store/slices/authSlice.js:17-21 | logging out twice is logging out once |
| AuthSlice.ConsistencyPreserved | src/store/slices/authSlice.js:4-5 | signed in exactly when a role is held: true initially, after `logout` and after `setRole` with a role; false after `setRole(null)` (lines 13-19) |
| AuthSlice.ReloadRoundTrip | src/store/slices/authSlice.js:3-21 | a reload after `setRole` reads a non-empty role back, and a reload after `logout` reads none |
| AuthSlice.NullRoleSurvivesReload | src/store/slices/authSlice.js:15 | `setRole(null)` stores "null", which a reload reads back as a signed-in role |
| AuthSlice.AuthState.constructor | src/store/slices/authSlice.js:3-6 | the slice starts in the initial state read from storage |
| AuthSlice.AuthState.SetRole | src/store/slices/authSlice.js:12-16 | the reducer's effect on the slice and storage is exactly the `setRole` step |
| AuthSlice.AuthState.Logout | src/store/slices/authSlice.js:17-21 | the reducer's effect on the slice and storage is exactly the `logout` step |
| ProtectedRoute.GuardOutcomes | src/routes/ProtectedRoute.jsx:4-15 | a missing or empty role goes to "/", a role outside the list goes to "/home", an allowed role sees the page; exactly one of the three happens |
| ProtectedRoute.GuardMonotone | src/routes/ProtectedRoute.jsx:11-15 | allowing more roles never turns away a role that was admitted |
| AppRoutes.ChromeHidden | src/App.jsx:26-35 | the bar is hidden exactly on "/", "/register" and "/forgot-pass", and the footer is hidden exactly when the bar is |
| AppRoutes.GuardedExactlyProtected | src/App.jsx:41-100 | exactly the five protected paths have a role list, and no public path is guarded |
| AppRoutes.VisitProtected | src/App.jsx:57-100 | a protected page shows exactly for a stored role its list admits; without a role it redirects to "/" |
| AppRoutes.PublicPagesOpen | src/App.jsx:43-52 | the public pages show for everyone |
| LoginPage.LoginRedirect | src/pages/LoginPage.jsx:63-69 | waiter, chef and admin, and only they, are sent to a page |
| LoginPage.RedirectAdmitsRole | src/pages/LoginPage.jsx:63-69 | each redirect target is a protected route (src/App.jsx:75-100) whose allowed roles include the role, so the guard shows the page |
| LoginPage.LoginForm.constructor | src/pages/LoginPage.jsx:25-29 | the form starts with an empty role, e-mail and password |
| LoginPage.LoginForm.HandleChange | src/pages/LoginPage.jsx:42-47 | only the field named by the input changes; the others keep their values |
| LoginPage.LoginForm.HandleSubmit | src/pages/LoginPage.jsx:50-73 | a failed login writes nothing and stays. A reply without a user stores only the token. Otherwise token, name, e-mail and the form's own role are stored, and the role's page is opened |
| LoginPage.SignInThenVisit | src/pages/LoginPage.jsx:50-73 | signing in as waiter, chef or admin opens a page that the guard then shows, reading the role back from storage |

## Left out

- Network requests, polling, `alert`, `console`, `navigate` and `window.location`. The outcome of each request is a parameter (`Reply`, `LoginReply`, the chef board's response). An alert or a navigation is a returned value.
- `handleStatusChange` on the chef's board only forwards the requested status to the server. The model stops at the button's target status.
- The RTK Query API slices and `src/store/store.js`. `src/store/api/loginApi` is not part of this model. The dangling `setCredentials` import is described above; the model does not capture a failure to load the login page.
- Registration.ValidateChain: the browser's constraint validation is not modelled. The inputs carry `required` (`src/pages/RegisterPage.jsx:117,126,136,153`) and the e-mail box `type="email"` (line 121), so an empty name, e-mail, password or confirmation, or a malformed e-mail, stops the submit before `handleSubmit` runs. The chain is stated for every input, including those the browser would block.
- Registration.RegisterPage.Submit: for the same reason, it runs on inputs the browser would refuse to submit. For example, an empty role and an empty name give "Please select a role." here, but the browser's own prompt on the page.
- LoginPage.LoginForm.HandleSubmit: the login inputs carry `required` (`src/pages/LoginPage.jsx:119,142,159`) and `type="email"` (line 136). The model does not capture that the browser blocks submission of an empty or malformed form.
- `src/store/slices/logout/logout.js`, `sessionStorage`, and the storage reads in the navigation bar and profile menus. They are not part of this model. `localStorage` is modelled only as far as the login page, the auth slice and the route guard use it.
- `Date.now()` is a parameter of `MenuEditor.MenuPage.AddNewItem`.
- The number inputs: `Number(...)`, `+value`, NaN and decimals. Members, price, new-table count and the dish quantity arrive as whole numbers, and an empty box is `None`.
- JavaScript numbers are modelled as unbounded integers. Floating-point prices and overflow are not modelled.
- Statuses that are not strings (`status.toString()`) are left out. Case mapping is restricted to ASCII.
- Strings are sequences of characters. UTF-16 code units, surrogate pairs and Unicode case rules are not modelled, so the regular expression's length count is by character.
- React's render cycle, React StrictMode's double invocation of updaters, and the batching of state updates. Each handler runs to completion as one step.
- WaiterPanel.WaiterPanel.UpdatePlacedOrderItem: the source mutates `items[itemIdx]` and calls `splice` on an array shared with the previous state object. The model updates a value copy, so that aliasing is not captured. Its precondition names an existing order and line, which the buttons guarantee.
- The effect that recopies the placed orders into the edit buffer is folded into the methods that assign the placed orders (`SubmitOrder`, `SaveEdits`). `JSON.parse(JSON.stringify(...))` becomes a value copy.
- TableBooking.TableBoard.ClickTable and WaiterPanel.WaiterPanel.SelectDish take an index or id that the rendered list offers.
- AppRoutes.VisitProtected and AppRoutes.PublicPagesOpen compare paths exactly. React Router's case-insensitive matching and trailing-slash handling are not modelled.
- Presentational components (footer, offers, testimonials, about, contact, hero, admin panel, loader, profile menus, navigation bar) and the password-reset page. They have no state logic to model.
- Styling, except the four status colour strings, which are kept as distinct constants.
