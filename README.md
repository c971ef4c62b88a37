# Bookstore admin dashboard: view-state model

This project models the view-state logic of three screens of a Next.js bookstore dashboard and
proves properties of it in Dafny. The REST API is outside the model. Each request's outcome is an
input: an ok response with its decoded body, a non-ok response (`NotOk`), or an exception
(`Threw`). `window.confirm` is a boolean input. Alerts and request bodies are out-parameters.

- **Book list** (`book_list.dfy`, module `BookList`): the books fetched on mount and the three
  statistics cards over them. These are the book count, the total quantity (`so_luong`) and the
  revenue, the sum of `parseInt(don_gia) * so_luong`. The module also has delete-by-id after a
  confirmation and the choice between spinner, error banner and dashboard.
- **Order list** (`order_list.dfy`, module `OrderList`): orders and customer accounts (role
  `"KH"`), the inline form that creates an order for a chosen account, and the per-row action
  that marks an order `"hoan_thanh"`. It also has the three-way status icon and label.
- **Add book** (`add_book.dfy`, module `AddBook`): seven form fields and the author, genre and
  publisher lists, loaded all or nothing. It builds the POST payload, whose `so_luong` is always
  0, resets the fields after success, and has an error state that replaces the form for good.

Support modules:

- `Js` (`js.dfy`): `string | null`, `if (error)` truthiness (an empty string is falsy), and
  integral Numbers with NaN.
- `JsParseInt` (`parse_int.dfy`): JavaScript's `parseInt` with no radix, as section 19.2.5 of
  ECMA-262 defines it. It skips leading white space, reads one sign, and treats a `0x` prefix as
  hexadecimal. It reads the longest digit run and gives NaN when there is none.
- `Http` (`http.dfy`): a request's outcome, and `CaughtMessage`, the message a `catch` block
  shows. It is the definition of the handlers' pattern: a response whose `ok` is false becomes
  `throw new Error(notOkMessage)`, and the `catch` shows
  `err instanceof Error ? err.message : unknownMessage`. The handlers' contracts use it as the
  reference for their alerts and error banners.
- `Seqs` (`seqs.dfy`): the subsequence relation. The list filters are proved against it.

Each screen's `useState` variables are the fields of a class. Each event handler or effect is a
method of that class. Its contract gives the whole new state in terms of the old state and the
inputs. The pure parts (folds, filters, the status `map`, labels, payload, rendering) are
functions with their own contracts and lemmas. Each screen also has a `Mount`-style method. It
allocates a fresh page, drives it through one sequence of events, and states what the page
then renders.

## Notes on the code's behaviour

- The create request posts `{ tentk }`, the selected account's username.
- On the order page, a failed account fetch sets `error` but leaves `loading` alone. While
  `loading` is true the page shows "Đang tải..." even if an error is already set, so loading and
  error can hold at the same time.
- The add-book screen has no loading state.
- The average publication year gives NaN on an empty list (it is left out, see below).

## Model

| member | source | states |
|---|---|---|
| `BookList.Statistics` | src/app/page.tsx:69-75 | `tongSach` is the number of books, `tongSoLuong` the sum of the quantities, and `tongDoanhThu` the sum of parsed price times quantity. Revenue is NaN when some price has no leading digits. Each fold is tied to a book-by-book reference sum. |
| `BookList.ReduceSoLuongIsSum` | src/app/page.tsx:71 | The left fold of `reduce` with any starting total equals that total plus the sum of the quantities. |
| `BookList.ReduceDoanhThuIsSum` | src/app/page.tsx:72-75 | The revenue fold is the start value plus the sum of per-book revenues when every price parses and the start is a number. Otherwise it is NaN, because NaN absorbs every later addition. |
| `BookList.TongSoLuongAppend` | src/app/page.tsx:70-71 | The total quantity of the empty list is 0. Appending a book adds exactly its `so_luong` to the total and 1 to the count. |
| `BookList.SingletonStatistics` | src/app/page.tsx:70-75 | A one-book list gives count 1, its own quantity, and its own price times quantity. |
| `BookList.ExampleStatistics` | src/app/page.tsx:70-75 | `[{so_luong: 5, don_gia: "10000"}]` gives the cards 1, 5 and 50000. `"10000.00"` gives the same. |
| `BookList.Without` | src/app/page.tsx:89 | After the delete filter, no book has the deleted id. Every other book is kept, as many times as before, in its original relative order. The length drops by exactly the number of books with that id. |
| `BookList.WithoutAbsent` | src/app/page.tsx:89 | Deleting an id that no book carries leaves the list unchanged. |
| `BookList.WithoutIdempotent` | src/app/page.tsx:89 | Deleting the same id twice gives the same list as deleting it once. |
| `BookList.Render` | src/app/page.tsx:98-115 | `loading` shows only the spinner. If not loading, a truthy `error` shows the banner with that message. Only otherwise are the cards and table of the current list shown. |
| `BookList.BookDashboard.constructor` | src/app/page.tsx:46-48 | Initial state: empty list, loading, no error. |
| `BookList.BookDashboard.FetchSach` | src/app/page.tsx:51-64 | A load ends with `loading` false either way. Success stores the fetched list and keeps `error`. Failure keeps the list and stores the failure's message. |
| `BookList.BookDashboard.HandleXoaSach` | src/app/page.tsx:77-96 | A DELETE is sent exactly when the user confirmed. Only a confirmed, ok delete removes the id's books (through `Without`). A declined confirmation or a failed request leaves the list unchanged. A failure raises an alert with the failure's message. |
| `BookList.Mount` | src/app/page.tsx:50-113 | From mount, the spinner shows first. Then the page shows the dashboard of the fetched list, or the failure's banner. An empty failure message is falsy, so in that case the empty dashboard shows. |
| `BookList.MountAndDelete` | src/app/page.tsx:77-96 | After a delete attempt on a loaded list, the cards and table show `Without(list, id)` if the delete was confirmed and ok. Otherwise they show the unchanged list. |
| `JsParseInt.ParseInt` | src/app/page.tsx:73 | `parseInt(sach.don_gia)` gives a number only for a string that is not blank. It gives a negative number only when the first non-blank character is `-`. |
| `JsParseInt.ParseIntDecimal` | src/app/page.tsx:73 | `parseInt` reads back a decimal numeral, with or without a minus sign. It ignores anything after it that starts with a non-digit. The exception is `"0"` followed by `x`/`X`, which is read as a hex prefix. |
| `JsParseInt.ParseIntSkipsWhiteSpace` | src/app/page.tsx:73 | Leading white space does not change what `parseInt` returns. |
| `JsParseInt.ParseIntNoDigits` | src/app/page.tsx:73 | A price that is blank, or whose first character after its leading white space is neither a sign nor a digit, parses to NaN. |
| `JsParseInt.ParseIntTenThousand` | src/app/page.tsx:73 | `"10000"` and `"10000.00"` both parse to 10000. |
| `JsParseInt.ParseIntHexPrefix` | src/app/page.tsx:73 | `"0x1A"` parses in radix 16, to 26. |
| `JsParseInt.ParseIntBareHexPrefix` | src/app/page.tsx:73 | A hex prefix with no digits after it (`" 0x"`) parses to NaN. |
| `OrderList.Customers` | src/app/Order/page.tsx:56-58 | The stored accounts are exactly those with `vaitro === "KH"`. Each is kept as many times as it was fetched, in the original order. |
| `OrderList.MarkCompleted` | src/app/Order/page.tsx:112-116 | The status update preserves the length. An order with the id gets `trangThai = "hoan_thanh"` and keeps its id, account and total. Every other order is identical to before. |
| `OrderList.MarkCompletedIdempotent` | src/app/Order/page.tsx:112-116 | Marking an order completed twice gives the same list as marking it once. |
| `OrderList.MarkCompletedNoOp` | src/app/Order/page.tsx:112-116 | If every order with the id is already completed, the update changes nothing. |
| `OrderList.MarkCompletedCommutes` | src/app/Order/page.tsx:112-116 | Completing two orders gives the same list in either order. |
| `OrderList.StatusIcon` | src/app/Order/page.tsx:122-131 | The check icon is shown exactly for `"hoan_thanh"` and the clock exactly for `"dang_xu_ly"`. Every other status gets the alert icon. |
| `OrderList.StatusLabel` | src/app/Order/page.tsx:235-239 | The label is total: always one of the three texts. "Hoàn thành" is shown exactly for `"hoan_thanh"`, "Đang xử lý" exactly for `"dang_xu_ly"`, and "Lỗi" otherwise. |
| `OrderList.LabelAgreesWithIcon` | src/app/Order/page.tsx:233-239 | The label always matches the icon, case by case. |
| `OrderList.RowOf` | src/app/Order/page.tsx:202-260 | A row carries the order's id, account and total through, and its icon is the status's icon. Its label is always the label of its icon. Its update button is disabled exactly on the rows that show the check, and those are exactly the orders whose status is `"hoan_thanh"`. |
| `OrderList.CompletedRows` | src/app/Order/page.tsx:233-256 | After a successful update, each matching row shows the check, "Hoàn thành" and a disabled button. |
| `OrderList.Render` | src/app/Order/page.tsx:140-270 | `loading` is checked before `error`, and `error` before the table. The table has one row per order, in order. The form appears exactly when `isCreating`, listing the stored accounts' usernames. The empty notice appears exactly when there are no orders. |
| `OrderList.OrderPage.constructor` | src/app/Order/page.tsx:21-26 | Initial state: no orders, no accounts, loading, no error, form closed, no account selected. |
| `OrderList.OrderPage.FetchOrders` | src/app/Order/page.tsx:29-44 | The orders fetch ends with `loading` false. Success stores the orders. Failure stores its message and keeps the orders. |
| `OrderList.OrderPage.FetchAccounts` | src/app/Order/page.tsx:50-64 | Success stores only the customer accounts (through `Customers`). Failure sets `error`. `loading` is outside the method's frame, so it is never touched. |
| `OrderList.OrderPage.SetCreating` | src/app/Order/page.tsx:149-181 | The open and cancel buttons set `isCreating` and change nothing else. |
| `OrderList.OrderPage.SelectAccount` | src/app/Order/page.tsx:162-166 | The select sets `selectedAccount` and nothing else. |
| `OrderList.OrderPage.HandleCreateOrder` | src/app/Order/page.tsx:69-95 | With an empty selection it alerts, sends nothing, and changes nothing. Otherwise it posts the selected username. On success the returned order is appended at the end, earlier orders are untouched, and the form closes and clears. On failure it alerts and `orders`, `isCreating` and `selectedAccount` are unchanged. |
| `OrderList.OrderPage.HandleUpdateOrder` | src/app/Order/page.tsx:97-120 | Success applies `MarkCompleted` for the id. Failure alerts and leaves the orders unchanged. |
| `OrderList.OrderPage.PressUpdate` | src/app/Order/page.tsx:252-256 | The row's button sends a request exactly when the order is not yet completed. On a completed order it is a no-op. A request that succeeds marks the order completed and alerts nothing. One that fails changes nothing and alerts the caught message. |
| `OrderList.Mount` | src/app/Order/page.tsx:28-141 | While the orders fetch is pending, "Đang tải..." shows whatever the accounts fetch did. Once both settle, in either order, a failure of either one with a non-empty message replaces the table. When both fail, the last one's message is shown. |
| `OrderList.CreateScenario` | src/app/Order/page.tsx:69-95 | Creating an order for "kh01" when the server answers order 7 adds order 7 as the last row, with the clock icon and "Đang xử lý", and closes the form. |
| `AddBook.Payload` | src/app/AddBook/page.tsx:71-79 | The payload's `so_luong` is always 0. Title, price and year are carried verbatim. The three selected ids are wrapped as `{id}`. |
| `AddBook.PayloadRoundTrip` | src/app/AddBook/page.tsx:71-79 | The form's fields can be read back from the payload, except the quantity. Any payload with `so_luong` 0 can be rebuilt from its fields. |
| `AddBook.PayloadIgnoresOnlyQuantity` | src/app/AddBook/page.tsx:71-79 | Two forms produce the same payload exactly when they agree on every field except the quantity. |
| `AddBook.Render` | src/app/AddBook/page.tsx:110-118 | A truthy `error` replaces the whole form with the message. Otherwise the form shows the fields and the three option lists. |
| `AddBook.MessagesAreTruthy` | src/app/AddBook/page.tsx:110-116 | Both of the screen's error messages are truthy, so once set they always hide the form. |
| `AddBook.ErrorIsTerminal` | src/app/AddBook/page.tsx:35-116 | Once an error banner shows, no sequence of loads, input changes and submits brings the form back. The banner shows the old message or one of the two messages the handlers set. |
| `AddBook.AddBookForm.constructor` | src/app/AddBook/page.tsx:23-35 | The fields start at `("", 0, "", 2024, 0, 0, 0)`. The lists start empty and there is no error. |
| `AddBook.AddBookForm.FetchData` | src/app/AddBook/page.tsx:39-63 | When all three fetches succeed, each list is stored from its own response. If any of the three fails, `error` becomes "Không thể tải dữ liệu" and no list changes. No path clears `error`. |
| `AddBook.AddBookForm.SetTen` | src/app/AddBook/page.tsx:137 | The title input changes only the title. |
| `AddBook.AddBookForm.SetDonGia` | src/app/AddBook/page.tsx:151 | The price input changes only the price. |
| `AddBook.AddBookForm.SetNamXb` | src/app/AddBook/page.tsx:165 | The year input changes only the year. |
| `AddBook.AddBookForm.SetTacGiaId` | src/app/AddBook/page.tsx:178 | The author select changes only the author id. |
| `AddBook.AddBookForm.SetTheLoaiId` | src/app/AddBook/page.tsx:198 | The genre select changes only the genre id. |
| `AddBook.AddBookForm.SetNhaXuatBanId` | src/app/AddBook/page.tsx:218 | The publisher select changes only the publisher id. |
| `AddBook.AddBookForm.ResetFields` | src/app/AddBook/page.tsx:98-104 | After the reset the fields are `("", 0, "", 2024, 0, 0, 0)`, the initial state, whatever they were before. So resetting twice gives the same state as resetting once. |
| `AddBook.AddBookForm.HandleSubmit` | src/app/AddBook/page.tsx:68-108 | The posted payload is `Payload` of the fields as they were. Success resets the fields and keeps `error`. Failure sets "Có lỗi xảy ra khi thêm sách" and leaves the fields unchanged. No path clears `error`. |
| `AddBook.Mount` | src/app/AddBook/page.tsx:37-66 | The form shows its initial fields and empty lists at first. It then shows the three fetched lists if all loads succeed, and the load error otherwise, without a partial form. |
| `AddBook.Fill` | src/app/AddBook/page.tsx:137-218 | Typing into the six inputs sets every field to what was typed. The quantity, which has no input, keeps its value. |
| `AddBook.FillAndSubmit` | src/app/AddBook/page.tsx:68-116 | After any of the three loads fails, nothing can be submitted and the load error stays. Otherwise the payload carries what was typed, with `so_luong` 0. Success shows the form back at its initial values. Failure shows the submit error. |

## Left out

- Real requests: `fetch`, HTTP status codes beyond ok/not ok, and JSON decoding. Each request's outcome is an input (`Http.Response`), and a decoded body is assumed to have the declared shape.
- UI: JSX markup, CSS classes, `Link` navigation, the toast, and the real `alert` and `window.confirm` dialogs. Alerts are out-parameters and confirm is a boolean input.
- `formatCurrency` (src/app/Order/page.tsx:133-138) and `toLocaleString` (src/app/page.tsx:154, 200). They depend on `parseFloat`, floating point and locale formatting. A rendered order row carries `tongTien` as the raw text.
- The average publication year card (src/app/page.tsx:163-165). It is a floating-point division with `Math.round`, and gives NaN on an empty list.
- Concurrency: `Promise.all`, the order in which effects run, and responses that arrive after unmount. The three add-book loads are one combined outcome. The two order-page fetches are taken in either order (`OrderList.Mount`).
- `HandleXoaSach` filters the list it was rendered with, the `sach` captured by the closure. With overlapping deletes this can bring back a book, but the model runs handlers one at a time.
- The browser's native form validation. The `required` attributes block submission before `handleSubmit` runs, and this is not modelled. `HandleSubmit` models `handleSubmit` itself, which has no guard.
- `Number(e.target.value)` in the year and select handlers. The setters take an integer, so NaN and fractional input are not modelled.
- The "Chỉnh sửa" (edit) button, which has no handler.
- src/app/layout.tsx and src/app/Nhanban/page.tsx: a static shell and a read-only listing. src/app/Order/[id]/page.tsx (the order-detail screen) is not part of this model.
- `BookList.Statistics`: quantities and revenue are exact integers. JavaScript adds and multiplies IEEE doubles, whose results round above 2^53. `parseInt` of a numeral longer than about 309 digits gives `Infinity`, which the model does not have.
- `JsParseInt.ParseIntDecimal`: the model has no negative zero, so `parseInt("-0")` is 0 rather than -0. The difference is invisible in the sums. The model also reads every numeral exactly, while `parseInt` rounds numerals above 2^53 to a double (`parseInt("9007199254740993")` is 9007199254740992).
