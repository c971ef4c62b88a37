/**
 * The order list (src/app/Order/page.tsx): all orders and the customer accounts fetched on
 * mount, an inline form that creates an order for a chosen account, a per-row action that marks
 * an order completed, and the three-way status icon and label.
 */
module OrderList {
  import opened Js
  import opened Http
  import Seqs

  /** An order as the API returns it; `tongTien` is decimal text. */
  datatype Order = Order(id: int, ten_tk: string, tongTien: string, trangThai: string)
  datatype Account = Account(id: int, tentk: string, vaitro: string)

  const Completed := "hoan_thanh"
  const Processing := "dang_xu_ly"
  const CustomerRole := "KH"

  const OrdersFailedMessage := "Failed to fetch orders"
  const AccountsFailedMessage := "Failed to fetch accounts"
  const CreateFailedMessage := "Failed to create order"
  const UpdateFailedMessage := "Failed to update order"
  const UnknownMessage := "An unknown error occurred"
  const NoAccountMessage := "Vui lòng chọn tài khoản!"

  // ---------------------------------------------------------------------------------------
  // Pure parts

  /**
   * `data.filter((acc) => acc.vaitro === "KH")`: exactly the customer accounts, each as often as
   * it was fetched, in the order the API sent them.
   */
  function Customers(accounts: seq<Account>): (r: seq<Account>)
    ensures forall a :: a in r ==> a in accounts && a.vaitro == CustomerRole
    ensures forall a :: a in accounts && a.vaitro == CustomerRole ==> a in r
    ensures forall a: Account :: a.vaitro == CustomerRole ==> multiset(r)[a] == multiset(accounts)[a]
    ensures Seqs.IsSubsequence(r, accounts)
  {
    if accounts == [] then []
    else
      assert accounts == [accounts[0]] + accounts[1..];
      if accounts[0].vaitro == CustomerRole then [accounts[0]] + Customers(accounts[1..])
      else Customers(accounts[1..])
  }

  /**
   * `prevOrders.map((order) => order.id === orderId ? { ...order, trangThai: "hoan_thanh" } : order)`:
   * same length; an order with `orderId` keeps every field but its status, which becomes
   * "hoan_thanh"; every other order is left exactly as it was.
   */
  function MarkCompleted(orders: seq<Order>, orderId: int): (r: seq<Order>)
    ensures |r| == |orders|
    ensures forall i :: 0 <= i < |r| && orders[i].id == orderId ==>
      r[i].trangThai == Completed &&
      r[i].id == orders[i].id && r[i].ten_tk == orders[i].ten_tk && r[i].tongTien == orders[i].tongTien
    ensures forall i :: 0 <= i < |r| && orders[i].id != orderId ==> r[i] == orders[i]
  {
    seq(|orders|, i requires 0 <= i < |orders| =>
      if orders[i].id == orderId then orders[i].(trangThai := Completed) else orders[i])
  }

  /** Marking an order completed a second time changes nothing. */
  lemma MarkCompletedIdempotent(orders: seq<Order>, orderId: int)
    ensures MarkCompleted(MarkCompleted(orders, orderId), orderId) == MarkCompleted(orders, orderId)
  {
  }

  /** When every order with `orderId` is already completed (or there is none), the update changes nothing. */
  lemma MarkCompletedNoOp(orders: seq<Order>, orderId: int)
    requires forall i :: 0 <= i < |orders| && orders[i].id == orderId ==> orders[i].trangThai == Completed
    ensures MarkCompleted(orders, orderId) == orders
  {
  }

  /** Completing two orders gives the same list whichever is completed first. */
  lemma MarkCompletedCommutes(orders: seq<Order>, a: int, b: int)
    ensures MarkCompleted(MarkCompleted(orders, a), b) == MarkCompleted(MarkCompleted(orders, b), a)
  {
  }

  datatype Icon = Check | Clock | AlertCircle

  /** `getStatusIcon`: the check, the clock, or the alert for every other status. */
  function StatusIcon(status: string): (icon: Icon)
    ensures icon == Check <==> status == Completed
    ensures icon == Clock <==> status == Processing
  {
    match status
    case "hoan_thanh" => Check
    case "dang_xu_ly" => Clock
    case _ => AlertCircle
  }

  /** The status cell's text: one of three labels, decided by the same two status strings. */
  function StatusLabel(status: string): (text: string)
    ensures text in {"Hoàn thành", "Đang xử lý", "Lỗi"}
    ensures text == "Hoàn thành" <==> status == Completed
    ensures text == "Đang xử lý" <==> status == Processing
  {
    if status == Completed then "Hoàn thành"
    else if status == Processing then "Đang xử lý"
    else "Lỗi"
  }

  /** The label that goes with each icon. */
  function IconLabel(icon: Icon): string
  {
    match icon
    case Check => "Hoàn thành"
    case Clock => "Đang xử lý"
    case AlertCircle => "Lỗi"
  }

  /** The label and the icon never disagree: each label is the one of its icon. */
  lemma LabelAgreesWithIcon(status: string)
    ensures StatusLabel(status) == IconLabel(StatusIcon(status))
  {
  }

  /** One table row: id, account, raw total, status icon and label, and whether "Cập nhật" is disabled. */
  datatype Row = Row(id: int, ten_tk: string, tongTien: string, icon: Icon, statusText: string, updateDisabled: bool)

  /**
   * A row carries its order's id, account and total through, and shows its status's icon. Its
   * label is always the one of its icon, and the button is disabled exactly on the rows that
   * show the check, which are the completed orders.
   */
  function RowOf(order: Order): (row: Row)
    ensures row.id == order.id && row.ten_tk == order.ten_tk && row.tongTien == order.tongTien
    ensures row.icon == StatusIcon(order.trangThai)
    ensures row.statusText == IconLabel(row.icon)
    ensures row.updateDisabled <==> row.icon == Check
    ensures row.icon == Check <==> order.trangThai == Completed
  {
    Row(order.id, order.ten_tk, order.tongTien, StatusIcon(order.trangThai), StatusLabel(order.trangThai),
        order.trangThai == Completed)
  }

  /** After a successful update every row of the order shows the check, "Hoàn thành", and a disabled button. */
  lemma CompletedRows(orders: seq<Order>, orderId: int, i: int)
    requires 0 <= i < |orders| && orders[i].id == orderId
    ensures RowOf(MarkCompleted(orders, orderId)[i]) ==
      Row(orders[i].id, orders[i].ten_tk, orders[i].tongTien, Check, "Hoàn thành", true)
  {
  }

  /** The inline creation form: the usernames offered after the "" placeholder, and the current choice. */
  datatype CreateForm = CreateForm(usernames: seq<string>, selected: string)

  datatype Screen =
    | Loading
    | ErrorText(message: string)
    | Table(form: Option<CreateForm>, rows: seq<Row>, emptyNotice: bool)

  /**
   * The page's early returns: `loading` first, then a truthy `error`, and only then the table,
   * with the creation form when `isCreating` and the empty notice when there are no orders.
   */
  function Render(loading: bool, error: Option<string>, orders: seq<Order>, accounts: seq<Account>,
                  isCreating: bool, selectedAccount: string): (v: Screen)
    ensures v.Loading? <==> loading
    ensures v.ErrorText? <==> !loading && Truthy(error)
    ensures v.ErrorText? ==> v.message == error.value
    ensures v.Table? ==> |v.rows| == |orders| && forall i :: 0 <= i < |orders| ==> v.rows[i] == RowOf(orders[i])
    ensures v.Table? ==> (v.emptyNotice <==> orders == [])
    ensures v.Table? ==> (v.form.Some? <==> isCreating)
    ensures v.Table? && isCreating ==>
      v.form.value.selected == selectedAccount && |v.form.value.usernames| == |accounts| &&
      forall i :: 0 <= i < |accounts| ==> v.form.value.usernames[i] == accounts[i].tentk
  {
    if loading then Loading
    else if Truthy(error) then ErrorText(error.value)
    else
      var form := if isCreating
        then Some(CreateForm(seq(|accounts|, i requires 0 <= i < |accounts| => accounts[i].tentk), selectedAccount))
        else None;
      Table(form, seq(|orders|, i requires 0 <= i < |orders| => RowOf(orders[i])), |orders| == 0)
  }

  // ---------------------------------------------------------------------------------------
  // The component's state

  class OrderPage {
    var orders: seq<Order>
    var accounts: seq<Account>
    var loading: bool
    var error: Option<string>
    var isCreating: bool
    var selectedAccount: string

    constructor ()
      ensures orders == [] && accounts == [] && loading && error == None
      ensures !isCreating && selectedAccount == ""
    {
      orders, accounts, loading, error := [], [], true, None;
      isCreating, selectedAccount := false, "";
    }

    function Screen(): Screen
      reads this
    {
      Render(loading, error, orders, accounts, isCreating, selectedAccount)
    }

    /** `fetchOrders`: stores the orders or the failure's message, and stops loading either way. */
    method FetchOrders(response: Response<seq<Order>>)
      modifies this`orders, this`loading, this`error
      ensures !loading
      ensures response.Ok? ==> orders == response.body && error == old(error)
      ensures !response.Ok? ==>
        orders == old(orders) && error == Some(CaughtMessage(response, OrdersFailedMessage, UnknownMessage))
    {
      if response.Ok? {
        orders := response.body;
      } else {
        error := Some(CaughtMessage(response, OrdersFailedMessage, UnknownMessage));
      }
      loading := false;
    }

    /** `fetchAccounts`: keeps only the customer accounts, or records the failure; `loading` is not touched. */
    method FetchAccounts(response: Response<seq<Account>>)
      modifies this`accounts, this`error
      ensures response.Ok? ==> accounts == Customers(response.body) && error == old(error)
      ensures !response.Ok? ==>
        accounts == old(accounts) && error == Some(CaughtMessage(response, AccountsFailedMessage, UnknownMessage))
    {
      if response.Ok? {
        accounts := Customers(response.body);
      } else {
        error := Some(CaughtMessage(response, AccountsFailedMessage, UnknownMessage));
      }
    }

    /** The "Tạo đơn hàng mới" button opens the form; "Hủy" closes it. */
    method SetCreating(open: bool)
      modifies this`isCreating
      ensures isCreating == open
    {
      isCreating := open;
    }

    /** The account select's `onChange`. */
    method SelectAccount(value: string)
      modifies this`selectedAccount
      ensures selectedAccount == value
    {
      selectedAccount := value;
    }

    /**
     * `handleCreateOrder`: with no account chosen it alerts and sends nothing; otherwise it POSTs
     * `{ tentk: selectedAccount }`. Success appends the server's order and closes and clears the
     * form; failure alerts and changes nothing.
     */
    method HandleCreateOrder(response: Response<Order>) returns (request: Option<string>, alert: Option<string>)
      modifies this`orders, this`isCreating, this`selectedAccount
      ensures old(selectedAccount) == "" ==>
        request == None && alert == Some(NoAccountMessage) &&
        orders == old(orders) && isCreating == old(isCreating) && selectedAccount == old(selectedAccount)
      ensures old(selectedAccount) != "" ==> request == Some(old(selectedAccount))
      ensures old(selectedAccount) != "" && response.Ok? ==>
        orders == old(orders) + [response.body] && !isCreating && selectedAccount == "" && alert == None
      ensures old(selectedAccount) != "" && !response.Ok? ==>
        orders == old(orders) && isCreating == old(isCreating) && selectedAccount == old(selectedAccount) &&
        alert == Some(CaughtMessage(response, CreateFailedMessage, UnknownMessage))
    {
      if selectedAccount == "" {
        return None, Some(NoAccountMessage);
      }
      request := Some(selectedAccount);
      match response
      case Ok(newOrder) =>
        orders := orders + [newOrder];
        isCreating := false;
        selectedAccount := "";
        alert := None;
      case _ =>
        alert := Some(CaughtMessage(response, CreateFailedMessage, UnknownMessage));
    }

    /** `handleUpdateOrder(orderId)`: PATCHes the status; only success marks the order completed locally. */
    method HandleUpdateOrder(orderId: int, response: Response<()>) returns (alert: Option<string>)
      modifies this`orders
      ensures response.Ok? ==> orders == MarkCompleted(old(orders), orderId) && alert == None
      ensures !response.Ok? ==>
        orders == old(orders) && alert == Some(CaughtMessage(response, UpdateFailedMessage, UnknownMessage))
    {
      if response.Ok? {
        orders := MarkCompleted(orders, orderId);
        alert := None;
      } else {
        alert := Some(CaughtMessage(response, UpdateFailedMessage, UnknownMessage));
      }
    }

    /**
     * The row's "Cập nhật" button: `order.trangThai !== "hoan_thanh" && handleUpdateOrder(order.id)`.
     * On a completed order it sends nothing and changes nothing.
     */
    method PressUpdate(row: nat, response: Response<()>) returns (requested: bool, alert: Option<string>)
      requires row < |orders|
      modifies this`orders
      ensures requested <==> old(orders)[row].trangThai != Completed
      ensures !requested ==> orders == old(orders) && alert == None
      ensures requested ==> response.Ok? ==> orders == MarkCompleted(old(orders), old(orders)[row].id)
      ensures requested ==> !response.Ok? ==> orders == old(orders)
      ensures requested ==>
        alert == if response.Ok? then None else Some(CaughtMessage(response, UpdateFailedMessage, UnknownMessage))
    {
      requested, alert := false, None;
      if orders[row].trangThai != Completed {
        requested := true;
        alert := HandleUpdateOrder(orders[row].id, response);
      }
    }
  }

  /**
   * The page from mount until both fetches have settled, in either order. While the orders are
   * pending the page shows "Đang tải..." whatever the accounts did; afterwards a failure of
   * either fetch (with a non-empty message) replaces the table, and when both fail the message
   * of the one that settled last is shown.
   */
  method Mount(ordersRes: Response<seq<Order>>, accountsRes: Response<seq<Account>>, accountsFirst: bool)
    returns (pending: Screen, settled: Screen)
    ensures pending == Loading
    ensures ordersRes.Ok? && accountsRes.Ok? ==>
      settled == Render(false, None, ordersRes.body, Customers(accountsRes.body), false, "")
    ensures !ordersRes.Ok? && accountsRes.Ok? ==>
      var m := CaughtMessage(ordersRes, OrdersFailedMessage, UnknownMessage);
      settled == if m != "" then ErrorText(m) else Render(false, None, [], Customers(accountsRes.body), false, "")
    ensures ordersRes.Ok? && !accountsRes.Ok? ==>
      var m := CaughtMessage(accountsRes, AccountsFailedMessage, UnknownMessage);
      settled == if m != "" then ErrorText(m) else Render(false, None, ordersRes.body, [], false, "")
    ensures !ordersRes.Ok? && !accountsRes.Ok? ==>
      var m := if accountsFirst then CaughtMessage(ordersRes, OrdersFailedMessage, UnknownMessage)
               else CaughtMessage(accountsRes, AccountsFailedMessage, UnknownMessage);
      settled == if m != "" then ErrorText(m) else Render(false, None, [], [], false, "")
  {
    var page := new OrderPage();
    if accountsFirst {
      page.FetchAccounts(accountsRes);
      pending := page.Screen();
      page.FetchOrders(ordersRes);
    } else {
      pending := page.Screen();
      page.FetchOrders(ordersRes);
      page.FetchAccounts(accountsRes);
    }
    settled := page.Screen();
  }

  /**
   * Creating an order for "kh01" when POST /don answers { id: 7, ten_tk: "kh01", tongTien: "0",
   * trangThai: "dang_xu_ly" }: order 7 becomes the last row, with the clock and "Đang xử lý",
   * and the form is closed.
   */
  method CreateScenario(existing: seq<Order>) returns (screen: Screen)
    ensures screen.Table? && screen.form == None && |screen.rows| == |existing| + 1
    ensures screen.rows[|existing|] == Row(7, "kh01", "0", Clock, "Đang xử lý", false)
  {
    var page := new OrderPage();
    page.FetchOrders(Ok(existing));
    page.FetchAccounts(Ok([Account(1, "kh01", CustomerRole)]));
    page.SetCreating(true);
    page.SelectAccount("kh01");
    var request, alert := page.HandleCreateOrder(Ok(Order(7, "kh01", "0", Processing)));
    screen := page.Screen();
  }
}
