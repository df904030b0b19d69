# Novasat price calculator and order store, in Dafny

A model of the two pieces of logic in the Novasat video-surveillance mini-app:

- **The quote calculator** (`Calculator`, from `client/src/App.jsx`). It holds the price table,
  the form the user fills in (`FormData`: four camera counts, storage days, four option flags,
  and name, phone and address), and the transitions the buttons apply to the form. Each
  transition builds a new form with an object spread, so each one is a function. It also holds
  `calculateTotal`, which builds the price by successive additions to an accumulator. That is a
  method, `CalculateTotal`, proved equal to the closed form `QuoteTotal`, and the properties of
  the quote are proved about `QuoteTotal`. Last, it holds the send button's guard and the
  payload that `handleSubmit` posts.
- **The order server** (`OrderServer`, from `server/server.js`). The order file is modelled by
  what reading and parsing it yields: `Missing`, `Unreadable` or `Saved(orders)`. The class
  `OrderStore` holds that file, and `saveOrder` is its method. The statistics handler is a set
  of functions over the loaded list: the order count, this month's count, and the rounded
  average total.

Supporting modules: `Wrappers` (an `Option` type, used for JSON fields that may be missing) and
`Dates` (a timestamp as the server looks at it: a year and a zero-based month).

Decisions about the source's behaviour:

- The cloud term multiplies a number of storage days (3 to 30) by a monthly price per camera.
  `QuoteTotal` keeps this as written. As a result, the cloud fee is 0 when no camera is chosen.
- The server stores the `total` the client sent and does not recompute it;
  `SubmittedTotalIsStored` states this.
- `saveOrder` returns the order it was given, without the `id` and `createdAt` it stored.
- `Math.round(sum / n)` is modelled over the rationals as `(2·sum + n) / (2·n)`. For a positive
  divisor, Dafny's `/` is floor division. `RoundedQuotient` states the meaning: the nearest
  integer to sum / n, with halves rounded up.
- When the order file is missing, or cannot be read or parsed, `loadOrders` yields the empty
  list. A later `saveOrder` then writes a file holding only the new order, so unparseable
  contents are lost. `SaveOrder`'s postcondition covers this case, because it is stated over
  what was loaded. A file that parses to something other than a list is a different case; see
  "## Left out".

## Model

| member | source | states |
|---|---|---|
| Calculator.CalculateTotal | client/src/App.jsx:45-76 | the accumulated total equals the closed-form quote `QuoteTotal`: camera subtotal, plus recorder, installation and 20 m of cable per camera when any camera is chosen, plus cameras × storage days × 350 when cloud is on |
| Calculator.TotalCameras | client/src/App.jsx:55 | the left-fold sum of the four counts is indoor + outdoor + wifi + ptz, and is 0 exactly when every count is 0 |
| Calculator.NoCamerasCostNothing | client/src/App.jsx:55-73 | with all four counts at 0 the quote is 0, whatever the storage days and the cloud flag |
| Calculator.QuoteNonNegative | client/src/App.jsx:49-73 | for storage days in the slider's range, the quote is never negative |
| Calculator.QuoteDependsOnlyOnPricedFields | client/src/App.jsx:45-76 | two forms with the same counts and cloud flag, and with the same storage when cloud is on, have the same quote; mic, night vision, motion and the contact fields never matter |
| Calculator.WorkedExample | client/src/App.jsx:49-67 | two indoor and one outdoor camera, 7 days, cloud off: the quote is 34700 |
| Calculator.QuoteMonotoneInCameras | client/src/App.jsx:49-73 | raising camera counts kind by kind, all else equal, never lowers the quote |
| Calculator.QuoteMonotoneInStorage | client/src/App.jsx:71-73 | more storage days, all else equal, never lower the quote |
| Calculator.InitialForm | client/src/App.jsx:17-34 | the starting form has no cameras, 7 storage days, night vision and motion on, mic and cloud off, empty contact fields, and a quote of 0 |
| Calculator.AddCamera | client/src/App.jsx:164-222 | a camera button raises that kind's count by exactly 1; the other counts, storage, options and contact fields are unchanged |
| Calculator.AddCameraRaisesQuote | client/src/App.jsx:49-73 | one more camera adds its unit price, installation, 20 m of cable, its cloud fee when cloud is on, and the recorder when it is the first camera |
| Calculator.ResetCameras | client/src/App.jsx:228-233 | reset sets all four counts to 0, leaves storage, options and contact fields unchanged, and makes the quote 0 |
| Calculator.SetStorage | client/src/App.jsx:257-266 | the slider sets the storage days to the chosen value and changes nothing else |
| Calculator.ToggleCloud | client/src/App.jsx:277-282 | the cloud option flips only `options.cloud` |
| Calculator.ToggleCloudTwice | client/src/App.jsx:279-282 | flipping the cloud option twice gives back the same form |
| Calculator.ToggleMic | client/src/App.jsx:294-299 | the microphone option flips only `options.mic` |
| Calculator.EditContact | client/src/App.jsx:336-364 | a contact input replaces exactly one of name, phone or address; the quote is unchanged |
| Calculator.Submit | client/src/App.jsx:376-382 | a payload is sent exactly when name and phone are both non-empty; it is the order `handleSubmit` builds at lines 78-83: the form, `total` equal to the quote, and the client's timestamp |
| OrderServer.Received | client/src/App.jsx:78-83 | the body the server receives carries the client's form, its total and the client's own timestamp, and no id |
| OrderServer.InMonth | server/server.js:60-63 | defines the filter's test: an order is of the current month exactly when it has a date whose month and year both equal now's; an order without a date never is (used by `ThisMonth` and `ThisMonthCountsMatchingOrders`) |
| OrderServer.SumTotals | server/server.js:66 | defines the sum as the left fold of the totals, a missing total counting as 0 (its properties are `SumTotalsPrepend` and `SumTotalsBounded`) |
| OrderServer.LoadOrders | server/server.js:15-24 | a missing or unreadable file yields the empty list; a saved file yields its list |
| OrderServer.OrderStore.ListOrders | server/server.js:38-41 | the orders route returns the stored list, or the empty list when the file is missing or unreadable |
| OrderServer.Stamped | server/server.js:28-32 | the stored record keeps the request's form and client total; its `id` and `createdAt` are the server's and override the request's |
| OrderServer.OrderStore.SaveOrder | server/server.js:26-35 | the stored list is one longer; its head is the stamped order; its tail is exactly the previously loaded list; the input order is returned unchanged |
| OrderServer.OrderStore.GetStats | server/server.js:56-70 | `total` is the number of stored orders; `thisMonth` is the number of positions holding an order of the current month, at most `total`; `avgPrice` is 0 for no orders, and otherwise `Math.round` of the sum of totals over the count (`RoundedQuotient`), which lies between the smallest and largest total |
| OrderServer.ThisMonth | server/server.js:60-64 | the filtered list is no longer than the input and holds exactly the input's orders dated in the current year and month |
| OrderServer.ComputeStats | server/server.js:57-68 | `total` is the order count, `thisMonth` is at most `total`, and an empty list gives all three values 0 |
| OrderServer.RoundedQuotient | server/server.js:65-67 | the average is the integer nearest to sum / n, with halves rounded up (`Math.round` over the rationals) |
| OrderServer.ThisMonthCountsMatchingOrders | server/server.js:60-64 | the length of the filtered list equals the number of positions whose order is dated in the current year and month |
| OrderServer.ThisMonthPrepend | server/server.js:60-64 | filtering a list with one order put in front yields that order first if it is of this month, then the filtered rest |
| OrderServer.SumTotalsPrepend | server/server.js:66 | the sum of totals with one order put in front grows by that order's total, a missing total counting as 0 |
| OrderServer.SumTotalsBounded | server/server.js:66 | when every total lies in [lo, hi], the sum lies in [n·lo, n·hi] |
| OrderServer.RoundedQuotientBounded | server/server.js:65-67 | the rounded quotient of a sum in [n·lo, n·hi] lies in [lo, hi] |
| OrderServer.AveragePriceBounded | server/server.js:65-67 | `avgPrice` of a non-empty list lies between its smallest and largest total |
| OrderServer.StatsAfterSave | server/server.js:26-70 | after saving at `now`, `total` and `thisMonth` each grow by 1 and the sum of totals grows by the client's total |
| OrderServer.SubmittedTotalIsStored | server/server.js:28-32 | a submitted form is stored with the client-computed quote as its total, and with the server's id and date |

## Left out

- Rendering, steps and navigation (`handleOrderClick`, the back button, progress dots), styling, and the success screen: presentational only. The success screen's "new calculation" button restores the same form as `InitialForm`.
- The reset link appears only when some camera is chosen (client/src/App.jsx:225). `ResetCameras` is defined on every form.
- Night vision and motion detection have no control in the app. They keep their initial values, and the model has no transitions for them.
- The chat-platform SDK calls (`ready`, `expand`, colours, haptic feedback), `alert` and console logging: side effects whose results the logic never uses.
- `fetch` of the order, and what the app does when it fails. The Express routing, CORS and JSON body parsing are left out as well: these are network I/O. The request body is modelled by `Received`.
- File I/O and JSON parsing and serialising: the file is the `StoredFile` value.
- OrderServer.OrderStore.SaveOrder: does not model a file that parses to something other than an array (`null`, an object, a number, a string). For such a file `loadOrders` returns the value itself (server/server.js:18). `saveOrder` then throws at `unshift` before writing, so the POST answers HTTP 500 and the file is kept (server/server.js:28, 49-51). The orders route returns the value unchanged (server/server.js:39-40), and the statistics route throws. `StoredFile` has no case for such a file.
- OrderServer.OrderStore.SaveOrder: assumes the write succeeds. When `writeFileSync` throws, the route answers HTTP 500 (server/server.js:49-52), and the file may be left partly written; this is not modelled.
- `Date.now()` and `new Date()`: the id and the current year and month are parameters. Ids taken from the clock can repeat within one millisecond; the model does not require them to be unique.
- Local time against UTC at month boundaries: a timestamp is a year and a month.
- `formatPrice` and the cloud option's price label (client/src/App.jsx:289): locale formatting, display only.
- `parseInt` of the slider value: `SetStorage` requires a value in [3, 30], which is the range the slider produces.
- Totals are integers. The model does not cover floating-point rounding of `Math.round` for huge sums. It also does not cover JavaScript's string concatenation when a stored `total` is a string.
- The lost update when two `POST /api/orders` requests interleave their read and write: a concurrency concern outside a sequential model.
