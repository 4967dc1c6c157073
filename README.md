# Restaurant ordering client: cart, orders, checkout, notification and local catalog

This project models the client-side logic of a restaurant ordering web
application in Dafny and proves properties of that model. It covers six parts:

- **Cart store** (`src/hooks/useCart.ts`). A sequence of cart entries keyed by
  a numeric id, with add, set-quantity, remove and clear, and the derived item
  count and price total. The price total reads the ASCII digits of each price
  string as a number.
- **Order ledger** (`src/lib/orders.ts`). A most-recent-first sequence of
  orders. It supports add, status update, delete, lookup by id, statistics,
  filtering by status and text search.
- **Checkout page** (`src/pages/CartPage.tsx`). The quantity handler, and the
  order sequence: build a pending order, store it, send it, then clear the cart
  and the form only when sending succeeded.
- **Order notification** (`src/lib/telegram.ts`). Resolving the bot
  credentials, formatting the order message, and the success rule of
  `sendOrder`.
- **Local catalog store** (the branches of `src/lib/supabase.ts` taken when no
  remote service is configured). The menu, category and admin-action lists.
- **Add-item form** (`src/components/AddMenuItem.tsx`). The non-empty
  validation and the price-currency rule.

Files and modules:

| file | module | content |
|---|---|---|
| `wrappers.dfy` | `Wrappers` | `Option` and `Result` |
| `strings.dfy` | `Strings` | digit extraction and `parseInt`, number rendering, ASCII lower-casing, `includes`, `trim`, `join`/`split`, the `\|\|` fallback on strings |
| `lists.dfy` | `Lists` | `filter`, `map`, `findIndex` on sequences, and the by-id lookup and removal every store uses, with facts about them |
| `cart.dfy` | `Cart` | the cart as functions on `seq<CartItem>` and the `CartStore` class |
| `orders.dfy` | `Orders` | the order functions and the `OrderService` class |
| `telegram.dfy` | `Telegram` | settings, message format, and the `TelegramService` class |
| `checkout.dfy` | `Checkout` | the `CheckoutPage` class |
| `catalog.dfy` | `Catalog` | configuration, the `MenuStore`, `CategoryStore` and `AdminLog` classes |
| `menu_form.dfy` | `MenuForm` | validation and price normalisation |

Modelling choices:

- **Storage.** Each storage entry the code reads and writes is a field of its
  class. The cart and the ledger hold a `seq`. A catalog store holds an
  `Option<seq>`, where `None` means the key was never written, because the
  code treats a missing key differently from a stored empty list.
- **Inputs from the environment.** Clock readings, generated ids,
  build-time variables, saved settings and the HTTP reply are all method
  parameters.
- **`parseInt`.** `parseInt` of a price with no digits gives NaN. NaN is `None`
  in `Cart.TotalPrice`, and it propagates to the total, as it does in the code.
- **Seeding defaults.** A catalog list is seeded with its defaults only when
  its storage key is missing. A stored empty list is returned as it is. This
  follows the code: `if (saved)` tests the stored text, which is `"[]"` and
  so truthy; the stored empty list is not re-seeded.
- **Deleting from the catalog.** On a missing key, menu and category `delete`
  still write the (empty) filtered list. A later `getAll` therefore returns
  `[]` and does not seed.
- **Update patches.** A menu or category update patch may carry an `id`, as
  `Partial<MenuItem>` allows, and the merge then changes the id.

## Model

| member | source | states |
|---|---|---|
| Strings.DigitsMembers | src/hooks/useCart.ts:73 | exactly the digit characters of a price survive the removal of non-digits |
| Strings.ParseDigitsOfNatToString | src/hooks/useCart.ts:73 | a price written as a number reads back as that number |
| Strings.Fallback | src/lib/telegram.ts:115-116 | a saved value wins unless it is missing or empty, and the result is empty only when both are |
| Strings.TrimSurrounded | src/lib/telegram.ts:81 | trimming removes the surrounding whitespace and nothing of a text that starts and ends with a non-space |
| Cart.NewEntry | src/hooks/useCart.ts:41 | a new entry carries every product field and quantity 1 |
| Cart.Find | src/hooks/useCart.ts:30 | the result is an entry of the cart with that id; none exactly when no entry has the id |
| Cart.TotalItems | src/hooks/useCart.ts:67-69 | the item count is never negative for non-negative quantities, and with every quantity at least 1 it is at least the number of entries |
| Cart.ItemQuantity | src/hooks/useCart.ts:78-81 | 0 when no entry has the id; any other result is the quantity of an entry with that id |
| Cart.WithAdded | src/hooks/useCart.ts:28-44 | an absent id gets one new entry appended; a present id keeps the length and raises by 1 exactly the quantities of the entries with that id, others unchanged |
| Cart.WithQuantity | src/hooks/useCart.ts:46-57 | at most 0 is removal; otherwise the length is kept and exactly the entries with the id get that quantity |
| Cart.TotalPrice | src/hooks/useCart.ts:71-76 | the total is a number exactly when every price holds a digit (otherwise NaN) |
| Cart.AddExisting | src/hooks/useCart.ts:30-38 | adding a present id raises only that entry's quantity, by exactly 1; all other entries and the order are unchanged |
| Cart.AddNew | src/hooks/useCart.ts:41 | adding an absent id appends exactly one entry with quantity 1 at the end |
| Cart.AddPreservesValid | src/hooks/useCart.ts:28-44 | adding keeps ids unique and quantities at least 1 |
| Cart.RemoveSpec | src/hooks/useCart.ts:59-61 | removal leaves no entry with the id, keeps every other entry with as many copies as before, and keeps their relative order |
| Cart.RemoveAbsent | src/hooks/useCart.ts:59-61 | removing an absent id changes nothing |
| Cart.RemovePreservesValid | src/hooks/useCart.ts:59-61 | removal keeps ids unique and quantities at least 1 |
| Cart.UpdatePositive | src/hooks/useCart.ts:52-56 | a positive quantity sets exactly that entry's quantity, keeping length and order |
| Cart.UpdateAbsent | src/hooks/useCart.ts:52-56 | setting the quantity of an absent id changes nothing |
| Cart.UpdatePreservesValid | src/hooks/useCart.ts:46-57 | setting a quantity (removing for at most 0) keeps ids unique and quantities at least 1 |
| Cart.ItemQuantityOf | src/hooks/useCart.ts:78-81 | the reported quantity is the stored quantity of the entry with that id |
| Cart.ItemQuantityAbsent | src/hooks/useCart.ts:78-81 | the reported quantity of an absent id is 0 |
| Cart.TotalItemsAppend | src/hooks/useCart.ts:67-69 | the item count is the sum of quantities: appending an entry adds its quantity |
| Cart.TotalItemsBump | src/hooks/useCart.ts:34-38 | raising the quantity of a present id raises the item count by 1, and of an absent id by nothing |
| Cart.TotalItemsAfterAdd | src/hooks/useCart.ts:67-69 | every add raises the item count by exactly 1 |
| Cart.ItemQuantityAfterAdd | src/hooks/useCart.ts:78-81 | every add raises the added id's quantity by exactly 1 |
| Cart.TotalPriceAppend | src/hooks/useCart.ts:71-76 | the price total is the sum over entries of the digits' value times the quantity |
| Cart.ExamplePrice | src/hooks/useCart.ts:73 | the price "100 جنيه" reads as 100 |
| Cart.AddTwiceToEmpty | src/hooks/useCart.ts:28-44 | adding one product twice to an empty cart gives one entry of quantity 2, item count 2 and twice the price |
| Cart.DoubleAddExample | src/hooks/useCart.ts:71-76 | two adds of id 1 priced "100 جنيه" give a total of 200 |
| Cart.CartStore.constructor | src/hooks/useCart.ts:16-21 | the cart starts with the saved entries, or empty when none are saved |
| Cart.CartStore.AddToCart | src/hooks/useCart.ts:28-44 | the new cart is the add of the old, and validity is preserved |
| Cart.CartStore.UpdateQuantity | src/hooks/useCart.ts:46-57 | at most 0 behaves as removal; otherwise the quantity is set and the length kept; validity is preserved |
| Cart.CartStore.RemoveFromCart | src/hooks/useCart.ts:59-61 | the new cart is the old without the id, and validity is preserved |
| Cart.CartStore.ClearCart | src/hooks/useCart.ts:63-65 | the cart becomes empty |
| Orders.Stamped | src/lib/orders.ts:54-59 | a new record keeps every draft field and carries the given id and the two separate clock readings as creation and update times |
| Orders.IndexOfId | src/lib/orders.ts:69 | the first position with the id, or none exactly when no record has it |
| Orders.FindById | src/lib/orders.ts:46-49 | the result is a record with the id; none exactly when no record has it |
| Orders.NotesAfter | src/lib/orders.ts:76 | given non-empty notes replace the old ones; missing or empty notes keep them |
| Orders.Restamped | src/lib/orders.ts:73-78 | only status, notes and update time change; every other field is kept |
| Lists.FilterCount | src/lib/orders.ts:128 | `filter` keeps every copy of an element that passes and no copy of one that fails |
| Orders.ByStatus | src/lib/orders.ts:126-129 | exactly the records with that status, each with as many copies as the ledger holds |
| Orders.Matches | src/lib/orders.ts:136-141 | the empty query matches; a phone holding the raw query matches; a name or address holding the lower-cased query matches |
| Orders.Stats | src/lib/orders.ts:96-123 | the total is the length, and pending plus completed never exceeds it |
| Orders.Search | src/lib/orders.ts:132-142 | exactly the matching records, each with as many copies as the ledger holds; a record matches when its lower-cased name, address or item name holds the lower-cased query, or its phone holds the raw query |
| Orders.AddThenFind | src/lib/orders.ts:52-63 | a record just added is found by its id |
| Orders.FindFirst | src/lib/orders.ts:46-49 | lookup returns the first record with the id |
| Orders.DeleteAbsent | src/lib/orders.ts:85-93 | deleting an absent id changes nothing |
| Orders.DeleteSpec | src/lib/orders.ts:85-93 | after delete no record has the id, every other record stays with as many copies as before and in order, and the list shrinks exactly when the id was present |
| Orders.StatsAfterAdd | src/lib/orders.ts:104-114 | adding a record raises the total by 1, pending by 1 for an open status, completed by 1 and revenue by its total for a delivered one |
| Orders.StatsExample | src/lib/orders.ts:96-123 | a pending, a delivered and a cancelled order give 3 in total, 1 pending, 1 completed, and the delivered order's total as revenue |
| Orders.AddThenDeleteExample | src/lib/orders.ts:85-93 | adding one order and deleting it by id leaves nothing |
| Orders.SearchEmptyQuery | src/lib/orders.ts:132-142 | the empty query matches every record |
| Orders.QueriesKeepOrder | src/lib/orders.ts:126-142 | status filter and search keep the records in ledger order |
| Orders.OrderService.constructor | src/lib/orders.ts:35-43 | the ledger starts with the stored records |
| Orders.OrderService.Add | src/lib/orders.ts:52-63 | the stamped record goes first and the old records follow unchanged; the returned record is the new head |
| Orders.OrderService.UpdateStatus | src/lib/orders.ts:67-82 | an absent id gives none and changes nothing; otherwise the first matching record is restamped in place, the rest and the length are unchanged, and that record is returned |
| Orders.OrderService.Delete | src/lib/orders.ts:85-93 | reports removal exactly when the id was present, and writes nothing otherwise |
| Telegram.BuildConfig | src/lib/telegram.ts:104-107 | each default is the build-time variable, or empty when it is unset |
| Telegram.GetTelegramSettings | src/lib/telegram.ts:110-123 | with nothing saved the defaults; otherwise each saved field, or its default when missing or empty |
| Telegram.SettingsFieldsIndependent | src/lib/telegram.ts:115-116 | each resolved field depends only on its own saved value and default |
| Telegram.CompleteSettings | src/lib/telegram.ts:30 | the credentials are complete exactly when each one is either a non-empty default or supplied non-empty by the saved entry |
| Telegram.ItemLine | src/lib/telegram.ts:65 | an item line starts with the bullet and holds the item's name and price |
| Telegram.ItemLines | src/lib/telegram.ts:64-65 | one line per item, in item order |
| Telegram.FormatOrderMessage | src/lib/telegram.ts:63-82 | the message neither starts nor ends with whitespace |
| Telegram.BodyContents | src/lib/telegram.ts:68-80 | the template text holds the name, phone, address, item lines, total followed by the currency, and the order date |
| Telegram.MessageIsBody | src/lib/telegram.ts:68-81 | trimming removes exactly the template's leading newline and trailing indentation |
| Telegram.MessageContents | src/lib/telegram.ts:68-81 | the message holds the name, phone, address, item lines, total followed by the currency, and the order date |
| Telegram.ItemsTextEmpty | src/lib/telegram.ts:64-66 | no items give an empty item block |
| Telegram.LineHasNoBreak | src/lib/telegram.ts:65 | an item line holds no line break when its name and price hold none |
| Telegram.ItemsTextLines | src/lib/telegram.ts:64-66 | splitting the item block at line breaks gives back one line per item |
| Telegram.TelegramService.constructor | src/lib/telegram.ts:19-22 | the service keeps the credentials it is given |
| Telegram.TelegramService.SendOrder | src/lib/telegram.ts:25-60 | no request without complete freshly resolved settings; the request carries the resolved token and chat id and the formatted message; success exactly when the HTTP status and the body's flag are both ok |
| Telegram.TelegramService.TestConnection | src/lib/telegram.ts:85-100 | queries the bot with the service's own token; success exactly when the HTTP status and the body's flag are both ok |
| Checkout.CanOrderGuards | src/pages/CartPage.tsx:254 | the order button is disabled while an order is under way and when the form is empty |
| Checkout.CanOrder | src/pages/CartPage.tsx:254 | the button is disabled exactly when the name, phone or address is empty or an order is under way |
| Checkout.ToLineItems | src/pages/CartPage.tsx:55 | the order's items are the cart entries, field for field, in cart order |
| Checkout.ToTelegramLines | src/pages/CartPage.tsx:69-73 | the payload's items are the cart entries' name, quantity and price, in cart order |
| Checkout.OrderDraftOf | src/pages/CartPage.tsx:51-59 | the draft is pending, without notes, with the form's customer fields, the cart's items and the given total |
| Checkout.TelegramOrderOf | src/pages/CartPage.tsx:65-76 | the payload carries the form's customer fields, the cart's lines, the given total and the second clock reading |
| Checkout.PayloadMatchesDraft | src/pages/CartPage.tsx:65-76 | the payload lists the draft's items by name, quantity and price, with the same customer and total |
| Checkout.CheckoutPage.constructor | src/pages/CartPage.tsx:26-31 | the form starts empty and no order is under way |
| Checkout.CheckoutPage.HandleQuantityChange | src/pages/CartPage.tsx:36-42 | at most 0 removes the entry; otherwise that exact quantity is set |
| Checkout.CheckoutPage.HandleOrder | src/pages/CartPage.tsx:44-97 | an empty cart changes nothing; otherwise the pending order is stored before it is sent, the cart and form are cleared exactly when sending succeeds and kept otherwise, and no order is under way at the end |
| Catalog.ConfiguredIff | src/lib/supabase.ts:5-9 | the remote service is used exactly when the URL and key variables are set, non-empty and not the placeholders |
| Catalog.IsSupabaseConfigured | src/lib/supabase.ts:5-9 | an unset URL or key variable means not configured; when configured, the URL and key are the variables' values |
| Catalog.Message | src/lib/supabase.ts:115-240 | the duplicate-name (line 115), item-not-found (line 145) and category-not-found (line 240) errors are each thrown with a fixed, non-empty text |
| Catalog.MessagesDistinct | src/lib/supabase.ts:115-240 | the duplicate-name, item-not-found and category-not-found messages differ from each other |
| Catalog.DefaultsHaveUniqueIds | src/lib/supabase.ts:60-193 | the three default items and the three default categories carry the ids 1, 2 and 3 once each |
| Catalog.Loaded | src/lib/supabase.ts:54-57 | a present list is returned as stored; a missing one gives the defaults |
| Lists.IndexOfKey | src/lib/supabase.ts:139 | the first position with the id, or none exactly when no entry has it |
| Lists.RemoveKey | src/lib/supabase.ts:164 | no entry with the id remains, every other entry is kept with as many copies as before and in order, and the list shrinks exactly when the id occurs |
| Lists.RemoveAbsentKey | src/lib/supabase.ts:162-166 | deleting an absent id changes nothing |
| Lists.RemoveKeyThenAbsent | src/lib/supabase.ts:162-166 | after delete the id is not found, and deleting again changes nothing |
| Catalog.ReplaceKeepsKeys | src/lib/supabase.ts:141 | replacing an entry with one of the same id keeps ids unique and the entry findable at the same position |
| Catalog.NameTaken | src/lib/supabase.ts:110-112 | some stored item has the name, ignoring case |
| Catalog.NameTakenIgnoresCase | src/lib/supabase.ts:111 | names differing only in case are taken or free together |
| Catalog.NewMenuItem | src/lib/supabase.ts:118 | the new item carries every given field and the fresh id |
| Catalog.CreateThenDuplicate | src/lib/supabase.ts:110-119 | right after an item is created, its name in any case is refused |
| Catalog.MergeMenu | src/lib/supabase.ts:141 | each field of the merged item is the patch's value when given, and the stored value otherwise |
| Catalog.MergeMenuLaws | src/lib/supabase.ts:141 | given fields win and absent fields are kept; an empty patch changes nothing; a patch applied twice acts once; two patches compose |
| Catalog.MenuStore.constructor | src/lib/supabase.ts:54 | the store holds what is saved under the key, or nothing |
| Catalog.MenuStore.GetAll | src/lib/supabase.ts:51-91 | returns the stored list unchanged, or writes and returns the three defaults when the key is missing |
| Catalog.MenuStore.Create | src/lib/supabase.ts:103-122 | a name already present in any case is refused and nothing is written; otherwise the new item goes first |
| Catalog.MenuStore.Update | src/lib/supabase.ts:134-146 | no item with the id is an error and nothing is written; otherwise the patch is merged at the first matching position only |
| Catalog.MenuStore.Delete | src/lib/supabase.ts:159-167 | writes the list without the id, with no error when it is absent |
| Catalog.NewCategory | src/lib/supabase.ts:213 | the new category carries the given fields and the fresh id |
| Catalog.MergeCategory | src/lib/supabase.ts:236 | each field of the merged category is the patch's value when given, and the stored value otherwise |
| Catalog.MergeCategoryLaws | src/lib/supabase.ts:236 | given fields win and absent fields are kept; an empty patch changes nothing; a patch applied twice acts once |
| Catalog.CategoryStore.constructor | src/lib/supabase.ts:183 | the store holds what is saved under the key, or nothing |
| Catalog.CategoryStore.GetAll | src/lib/supabase.ts:180-196 | returns the stored list unchanged, or writes and returns the three defaults when the key is missing |
| Catalog.CategoryStore.Create | src/lib/supabase.ts:208-217 | with no duplicate check, the new category goes first |
| Catalog.CategoryStore.Update | src/lib/supabase.ts:229-241 | no category with the id is an error and nothing is written; otherwise the patch is merged at the first matching position only |
| Catalog.CategoryStore.Delete | src/lib/supabase.ts:254-262 | writes the list without the id, with no error when it is absent |
| Catalog.Logged | src/lib/supabase.ts:280 | the entry carries every given field, the fresh id and the creation time |
| Catalog.AdminLog.constructor | src/lib/supabase.ts:278 | the log holds what is saved under the key, or nothing |
| Catalog.AdminLog.LogAction | src/lib/supabase.ts:275-284 | the stamped entry goes first |
| Catalog.AdminLog.GetActions | src/lib/supabase.ts:296-301 | the stored list, or empty when nothing is stored |
| MenuForm.Validate | src/components/AddMenuItem.tsx:15-22 | accepted exactly when the five text fields are non-empty; the fields pass unchanged and a missing flag becomes false |
| MenuForm.ValidateDefaults | src/components/AddMenuItem.tsx:43-50 | the untouched form is refused, and a missing popularity flag reads as false |
| MenuForm.PriceWithCurrency | src/components/AddMenuItem.tsx:55-57 | a price mentioning "جنيه" passes unchanged; any other gets " جنيه مصري" appended |
| MenuForm.PriceMentionsCurrency | src/components/AddMenuItem.tsx:55-57 | the result always mentions "جنيه" and starts with the typed price |
| MenuForm.PriceIdempotent | src/components/AddMenuItem.tsx:55-57 | normalising twice is normalising once |
| MenuForm.OnSubmit | src/components/AddMenuItem.tsx:53-62 | only the price is normalised; every other field reaches the item unchanged |
| MenuForm.SubmittedPrice | src/components/AddMenuItem.tsx:55-62 | every submitted price mentions the currency and is already normalised |

## Left out

- Rendering, dialogs, toasts, `alert` and navigation are presentational.
- The static components, the admin dashboard, the category management form, the login page and the legacy cart component are outside this model.
- Browser storage and JSON are not modelled. Each storage entry is a field. A text that fails to parse, and the fallback to an empty list on a parse error (src/lib/orders.ts:39-42), are not modelled.
- The cart's write-back effect (src/hooks/useCart.ts:24-26) and the order in which the mount effects run are not modelled. The mount load is the `CartStore` constructor.
- `Date.now()`, `Math.random()`, `toISOString` and `toLocaleString` are not modelled. Ids and times are parameters. Each clock reading is its own parameter: the page's two are `orderDate` and `sendDate`, and the ledger's two in `add` are `createdAt` and `updatedAt`.
- `todayOrders` in the order statistics is not modelled. It re-parses a locale-formatted date with the host date library.
- `toLowerCase`, in search and in the duplicate-name check, is modelled on ASCII letters only. Other characters pass unchanged.
- `fetch` is not modelled. The reply is an input: `NetworkFailure` for a thrown request, or the HTTP status flag and the body's `ok` flag.
- The remote Supabase branches and `createClient` are a foreign library with network calls, and are not modelled.
- `parseInt` is modelled only for digit strings, which is all the cart passes it after removing non-digits.
- Prices, quantities, line totals and order totals are exact unbounded integers. A JavaScript number is a double, so `parseInt` of a digit string above 2^53, and sums or products above 2^53, round in the code (src/hooks/useCart.ts:73-74). That rounding is not modelled.
- A number is rendered in plain decimal digits by `Strings.IntToString`. JavaScript writes numbers of 1e21 and above with an exponent (src/lib/telegram.ts:65, 78), and that form is not modelled.
- Checkout.CheckoutPage.HandleOrder: requires that every cart price holds a digit, so the total is a number. When it does not, the code stores and sends `NaN`, and the model does not cover that case.
- Checkout.CheckoutPage.HandleOrder: treats the awaited send (src/pages/CartPage.tsx:79) as one atomic step. On the page, the quantity buttons, remove, clear-cart and the three form inputs stay enabled while the send is pending; only the order button is disabled (src/pages/CartPage.tsx:254). User events during the wait are not modelled. So the promise that a failed send leaves the cart and form unchanged covers only the order's own steps. A successful send's `clearCart` also drops entries added during the wait, which the model does not show.
- Checkout.CheckoutPage.HandleOrder: does not model the `catch` branch (src/pages/CartPage.tsx:91-93). The ledger and the notification service never throw in this model, because sending failures are already folded into `false`.
- Orders.OrderService.GetAll has no contract of its own. It reads the `orders` field.
- Catalog.MergeMenuLaws: the spread merge is modelled for the fields of the item only. A patch that carries a property explicitly set to `undefined`, or timestamp fields, is not modelled.
