/**
 * The book dashboard (src/app/page.tsx): the list of books fetched on mount, three aggregates
 * over it, delete-by-id after a confirmation, and which of spinner, error banner or dashboard
 * is shown.
 */
module BookList {
  import opened Js
  import opened Http
  import opened JsParseInt
  import Seqs

  datatype TacGia = TacGia(id: int, ten: string, tieu_su: Option<string>)
  datatype TheLoai = TheLoai(id: int, ten: string)
  datatype NhaXuatBan = NhaXuatBan(id: int, ten: string, dia_chi: string, so_dien_thoai: string)

  /** A book as the API returns it; the unit price `don_gia` is decimal text such as "10000.00". */
  datatype Sach = Sach(id: int, ten: string, so_luong: int, don_gia: string, nam_xb: int,
                       tacGia: TacGia, theLoai: TheLoai, nhaXuatBan: NhaXuatBan)

  const LoadFailedMessage := "Không thể tải dữ liệu sách"
  const LoadUnknownMessage := "Lỗi không xác định"
  const DeleteFailedMessage := "Không thể xóa sách"
  const DeleteUnknownMessage := "Lỗi không xác định khi xóa sách"

  // ---------------------------------------------------------------------------------------
  // Aggregates

  /** The total quantity, book by book: the reference `tongSoLuong` is checked against. */
  function SumSoLuong(books: seq<Sach>): int
  {
    if books == [] then 0 else books[0].so_luong + SumSoLuong(books[1..])
  }

  /** `books.reduce((total, book) => total + book.so_luong, total)`: a fold from the left. */
  function ReduceSoLuong(books: seq<Sach>, total: int): int
  {
    if books == [] then total else ReduceSoLuong(books[1..], total + books[0].so_luong)
  }

  lemma {:induction false} ReduceSoLuongIsSum(books: seq<Sach>, total: int)
    ensures ReduceSoLuong(books, total) == total + SumSoLuong(books)
  {
    if books != [] {
      ReduceSoLuongIsSum(books[1..], total + books[0].so_luong);
    }
  }

  /** One book's contribution to revenue, `parseInt(book.don_gia) * book.so_luong`. */
  function LineRevenue(book: Sach): Number
  {
    Mul(ParseInt(book.don_gia), book.so_luong)
  }

  /** `books.reduce((total, book) => total + parseInt(book.don_gia) * book.so_luong, total)`. */
  function ReduceDoanhThu(books: seq<Sach>, total: Number): Number
  {
    if books == [] then total else ReduceDoanhThu(books[1..], Add(total, LineRevenue(books[0])))
  }

  /** Every unit price starts with digits that `parseInt` can read. */
  predicate AllPricesParse(books: seq<Sach>)
  {
    forall i :: 0 <= i < |books| ==> ParseInt(books[i].don_gia).Int?
  }

  /** The revenue, book by book: sum of price times quantity. */
  function SumDoanhThu(books: seq<Sach>): int
    requires AllPricesParse(books)
  {
    if books == [] then 0
    else ParseInt(books[0].don_gia).value * books[0].so_luong + SumDoanhThu(books[1..])
  }

  lemma AllPricesParseSplit(books: seq<Sach>)
    requires books != []
    ensures AllPricesParse(books) <==> ParseInt(books[0].don_gia).Int? && AllPricesParse(books[1..])
  {
  }

  /** The revenue fold is the sum of the per-book revenues, or NaN as soon as one price does not parse. */
  lemma {:induction false} ReduceDoanhThuIsSum(books: seq<Sach>, total: Number)
    ensures AllPricesParse(books) && total.Int? ==> ReduceDoanhThu(books, total) == Int(total.value + SumDoanhThu(books))
    ensures !(AllPricesParse(books) && total.Int?) ==> ReduceDoanhThu(books, total) == NaN
  {
    if books != [] {
      var line := LineRevenue(books[0]);
      var next := Add(total, line);
      assert ReduceDoanhThu(books, total) == ReduceDoanhThu(books[1..], next);
      ReduceDoanhThuIsSum(books[1..], next);
      AllPricesParseSplit(books);
      if AllPricesParse(books) && total.Int? {
        assert next == Int(total.value + ParseInt(books[0].don_gia).value * books[0].so_luong);
      }
    }
  }

  /** The dashboard's statistics cards (the average publication year is not modelled). */
  datatype ThongKe = ThongKe(tongSach: nat, tongSoLuong: int, tongDoanhThu: Number)

  /**
   * `tongSach`, `tongSoLuong` and `tongDoanhThu` as the page computes them: the length and two
   * folds. They are the number of books, the sum of the quantities and the sum of
   * price-times-quantity, the last being NaN when some price has no leading digits.
   */
  function Statistics(books: seq<Sach>): (st: ThongKe)
    ensures st.tongSach == |books|
    ensures st.tongSoLuong == SumSoLuong(books)
    ensures AllPricesParse(books) ==> st.tongDoanhThu == Int(SumDoanhThu(books))
    ensures !AllPricesParse(books) ==> st.tongDoanhThu == NaN
  {
    ReduceSoLuongIsSum(books, 0);
    ReduceDoanhThuIsSum(books, Int(0));
    ThongKe(|books|, ReduceSoLuong(books, 0), ReduceDoanhThu(books, Int(0)))
  }

  lemma {:induction false} SumSoLuongAppend(books: seq<Sach>, book: Sach)
    ensures SumSoLuong(books + [book]) == SumSoLuong(books) + book.so_luong
  {
    if books == [] {
      assert books + [book] == [book];
    } else {
      assert (books + [book])[1..] == books[1..] + [book];
      SumSoLuongAppend(books[1..], book);
    }
  }

  /** The total quantity of no books is 0, and one more book adds exactly its own quantity. */
  lemma TongSoLuongAppend(books: seq<Sach>, book: Sach)
    ensures Statistics([]).tongSoLuong == 0
    ensures Statistics(books + [book]).tongSoLuong == Statistics(books).tongSoLuong + book.so_luong
    ensures Statistics(books + [book]).tongSach == Statistics(books).tongSach + 1
  {
    SumSoLuongAppend(books, book);
  }

  /** A one-book list: the cards are 1, its quantity, and its own price times quantity. */
  lemma SingletonStatistics(book: Sach)
    ensures Statistics([book]) == ThongKe(1, book.so_luong, Add(Int(0), LineRevenue(book)))
  {
    var one := [book];
    assert one[1..] == [];
    assert ReduceSoLuong(one, 0) == ReduceSoLuong([], book.so_luong);
    assert ReduceDoanhThu(one, Int(0)) == ReduceDoanhThu([], Add(Int(0), LineRevenue(book)));
  }

  /** The single book { so_luong: 5, don_gia: "10000" } gives the cards 1, 5 and 50000; "10000.00" gives the same. */
  lemma ExampleStatistics(author: TacGia, genre: TheLoai, publisher: NhaXuatBan)
    ensures Statistics([Sach(1, "A", 5, "10000", 2020, author, genre, publisher)]) == ThongKe(1, 5, Int(50000))
    ensures Statistics([Sach(1, "A", 5, "10000.00", 2020, author, genre, publisher)]) == ThongKe(1, 5, Int(50000))
  {
    ParseIntTenThousand();
    SingletonStatistics(Sach(1, "A", 5, "10000", 2020, author, genre, publisher));
    SingletonStatistics(Sach(1, "A", 5, "10000.00", 2020, author, genre, publisher));
  }

  // ---------------------------------------------------------------------------------------
  // Delete

  /** The number of books carrying `id`. */
  function CountWithId(books: seq<Sach>, id: int): nat
  {
    if books == [] then 0 else (if books[0].id == id then 1 else 0) + CountWithId(books[1..], id)
  }

  /**
   * `sach.filter((book) => book.id !== id)`: no book with `id` is left; every other book is kept,
   * as often as it occurred and in its original relative order; the list shrinks by exactly the
   * number of books that carried `id`.
   */
  function Without(books: seq<Sach>, id: int): (r: seq<Sach>)
    ensures forall b :: b in r ==> b in books && b.id != id
    ensures forall b :: b in books && b.id != id ==> b in r
    ensures forall b: Sach :: b.id != id ==> multiset(r)[b] == multiset(books)[b]
    ensures Seqs.IsSubsequence(r, books)
    ensures |r| == |books| - CountWithId(books, id)
  {
    if books == [] then []
    else
      assert books == [books[0]] + books[1..];
      if books[0].id != id then [books[0]] + Without(books[1..], id) else Without(books[1..], id)
  }

  /** Deleting an id that no book carries changes nothing, so deleting twice is deleting once. */
  lemma {:induction false} WithoutAbsent(books: seq<Sach>, id: int)
    requires forall b :: b in books ==> b.id != id
    ensures Without(books, id) == books
  {
    if books != [] {
      assert books[0] in books;
      assert forall b :: b in books[1..] ==> b in books;
      WithoutAbsent(books[1..], id);
      assert books == [books[0]] + books[1..];
    }
  }

  lemma WithoutIdempotent(books: seq<Sach>, id: int)
    ensures Without(Without(books, id), id) == Without(books, id)
  {
    WithoutAbsent(Without(books, id), id);
  }

  // ---------------------------------------------------------------------------------------
  // Rendering

  datatype Screen = Spinner | ErrorAlert(message: string) | Dashboard(stats: ThongKe, rows: seq<Sach>)

  /**
   * The page's early returns: while `loading` only the spinner shows; otherwise a truthy
   * `error` shows the banner; only then the cards and the table of `sach`.
   */
  function Render(loading: bool, error: Option<string>, sach: seq<Sach>): (v: Screen)
    ensures v.Spinner? <==> loading
    ensures v.ErrorAlert? <==> !loading && Truthy(error)
    ensures v.ErrorAlert? ==> v.message == error.value
    ensures v.Dashboard? ==> v.stats == Statistics(sach) && v.rows == sach
  {
    if loading then Spinner
    else if Truthy(error) then ErrorAlert(error.value)
    else Dashboard(Statistics(sach), sach)
  }

  // ---------------------------------------------------------------------------------------
  // The component's state

  class BookDashboard {
    var sach: seq<Sach>
    var loading: bool
    var error: Option<string>

    constructor ()
      ensures sach == [] && loading && error == None
    {
      sach, loading, error := [], true, None;
    }

    function Screen(): Screen
      reads this
    {
      Render(loading, error, sach)
    }

    /** `fetchSach`: stores the list or the failure's message, and stops loading either way. */
    method FetchSach(response: Response<seq<Sach>>)
      modifies this
      ensures !loading
      ensures response.Ok? ==> sach == response.body && error == old(error)
      ensures !response.Ok? ==>
        sach == old(sach) && error == Some(CaughtMessage(response, LoadFailedMessage, LoadUnknownMessage))
    {
      match response
      case Ok(data) =>
        sach := data;
        loading := false;
      case _ =>
        error := Some(CaughtMessage(response, LoadFailedMessage, LoadUnknownMessage));
        loading := false;
    }

    /**
     * `handleXoaSach(id)`: a declined confirmation sends nothing; otherwise one DELETE request is
     * sent, and only an ok response removes the books with `id`; a failure raises an alert and
     * leaves the list as it was.
     */
    method HandleXoaSach(id: int, confirmed: bool, response: Response<()>) returns (requested: bool, alert: Option<string>)
      modifies this`sach
      ensures requested == confirmed
      ensures confirmed && response.Ok? ==> sach == Without(old(sach), id) && alert == None
      ensures !(confirmed && response.Ok?) ==> sach == old(sach)
      ensures confirmed && !response.Ok? ==>
        alert == Some(CaughtMessage(response, DeleteFailedMessage, DeleteUnknownMessage))
      ensures !confirmed ==> alert == None
    {
      requested, alert := false, None;
      if confirmed {
        requested := true;
        if response.Ok? {
          sach := Without(sach, id);
        } else {
          alert := Some(CaughtMessage(response, DeleteFailedMessage, DeleteUnknownMessage));
        }
      }
    }
  }

  /**
   * The page from mount to the end of its load: the spinner first; then the dashboard of the
   * fetched list, or the banner with the failure's message (an empty message is falsy, so then
   * the dashboard of the still-empty list shows).
   */
  method Mount(response: Response<seq<Sach>>) returns (before: Screen, after: Screen)
    ensures before == Spinner
    ensures response.Ok? ==> after == Dashboard(Statistics(response.body), response.body)
    ensures !response.Ok? ==>
      var m := CaughtMessage(response, LoadFailedMessage, LoadUnknownMessage);
      after == if m != "" then ErrorAlert(m) else Dashboard(Statistics([]), [])
  {
    var page := new BookDashboard();
    before := page.Screen();
    page.FetchSach(response);
    after := page.Screen();
  }

  /** A loaded dashboard after one delete attempt: the table and the cards follow the list. */
  method MountAndDelete(books: seq<Sach>, id: int, confirmed: bool, response: Response<()>)
    returns (after: Screen, requested: bool)
    ensures requested == confirmed
    ensures confirmed && response.Ok? ==> after == Dashboard(Statistics(Without(books, id)), Without(books, id))
    ensures !(confirmed && response.Ok?) ==> after == Dashboard(Statistics(books), books)
  {
    var page := new BookDashboard();
    page.FetchSach(Ok(books));
    var alert;
    requested, alert := page.HandleXoaSach(id, confirmed, response);
    after := page.Screen();
  }
}
