/**
 * The add-book form (src/app/AddBook/page.tsx): seven form fields, the author, genre and
 * publisher lists fetched together on mount, the creation payload POSTed on submit, the reset
 * after success, and an error state that replaces the form for good.
 */
module AddBook {
  import opened Js
  import opened Http

  datatype TacGia = TacGia(id: int, ten: string)
  datatype TheLoai = TheLoai(id: int, ten: string)
  datatype NhaXuatBan = NhaXuatBan(id: int, ten: string)

  /** A reference to a related record by id, `{ id }`. */
  datatype Ref = Ref(id: int)

  /** The body of POST /sach. */
  datatype NewBook = NewBook(ten: string, so_luong: int, don_gia: string, nam_xb: int,
                             tacGia: Ref, theLoai: Ref, nhaXuatBan: Ref)

  /** The seven form fields; an id of 0 is the "not chosen" value of a select. */
  datatype Fields = Fields(ten: string, soLuong: int, donGia: string, namXb: int,
                           tacGiaId: int, theLoaiId: int, nhaXuatBanId: int)

  /** The fields' initial values, which are also what a successful submit resets them to. */
  const InitialFields := Fields("", 0, "", 2024, 0, 0, 0)

  const LoadFailedMessage := "Không thể tải dữ liệu"
  const SubmitFailedMessage := "Có lỗi xảy ra khi thêm sách"

  // ---------------------------------------------------------------------------------------
  // The payload

  /**
   * `newBook` in `handleSubmit`: title, price and year verbatim, the three ids wrapped as
   * `{ id }`, and `so_luong` fixed at 0 whatever the quantity field holds.
   */
  function Payload(f: Fields): (b: NewBook)
    ensures b.so_luong == 0
    ensures b.ten == f.ten && b.don_gia == f.donGia && b.nam_xb == f.namXb
    ensures b.tacGia == Ref(f.tacGiaId) && b.theLoai == Ref(f.theLoaiId) && b.nhaXuatBan == Ref(f.nhaXuatBanId)
  {
    NewBook(f.ten, 0, f.donGia, f.namXb, Ref(f.tacGiaId), Ref(f.theLoaiId), Ref(f.nhaXuatBanId))
  }

  /** The fields a payload was built from, with the quantity it leaves out read as 0. */
  function FieldsOf(b: NewBook): Fields
  {
    Fields(b.ten, 0, b.don_gia, b.nam_xb, b.tacGia.id, b.theLoai.id, b.nhaXuatBan.id)
  }

  /** The payload loses the quantity and nothing else: it gives back every other field. */
  lemma PayloadRoundTrip(f: Fields, b: NewBook)
    ensures FieldsOf(Payload(f)) == f.(soLuong := 0)
    ensures b.so_luong == 0 ==> Payload(FieldsOf(b)) == b
  {
  }

  /** Two forms send the same payload exactly when they agree on every field but the quantity. */
  lemma PayloadIgnoresOnlyQuantity(f: Fields, g: Fields)
    ensures Payload(f) == Payload(g) <==> f.(soLuong := 0) == g.(soLuong := 0)
  {
  }

  // ---------------------------------------------------------------------------------------
  // Rendering

  datatype Screen =
    | ErrorBanner(message: string)
    | Form(fields: Fields, tacGiaList: seq<TacGia>, theLoaiList: seq<TheLoai>, nhaXuatBanList: seq<NhaXuatBan>)

  /** A truthy `error` replaces the whole form; otherwise the form shows the fields and the three option lists. */
  function Render(error: Option<string>, fields: Fields, tacGiaList: seq<TacGia>, theLoaiList: seq<TheLoai>,
                  nhaXuatBanList: seq<NhaXuatBan>): (v: Screen)
    ensures v.ErrorBanner? <==> Truthy(error)
    ensures v.ErrorBanner? ==> v.message == error.value
    ensures v.Form? ==> v == Form(fields, tacGiaList, theLoaiList, nhaXuatBanList)
  {
    if Truthy(error) then ErrorBanner(error.value) else Form(fields, tacGiaList, theLoaiList, nhaXuatBanList)
  }

  /** Both of the form's error messages are non-empty, so once set they always hide the form. */
  lemma MessagesAreTruthy()
    ensures Truthy(Some(LoadFailedMessage)) && Truthy(Some(SubmitFailedMessage))
  {
  }

  // ---------------------------------------------------------------------------------------
  // The component's state

  class AddBookForm {
    var ten: string
    var soLuong: int
    var donGia: string
    var namXb: int
    var tacGiaId: int
    var theLoaiId: int
    var nhaXuatBanId: int
    var tacGiaList: seq<TacGia>
    var theLoaiList: seq<TheLoai>
    var nhaXuatBanList: seq<NhaXuatBan>
    var error: Option<string>

    function CurrentFields(): Fields
      reads this
    {
      Fields(ten, soLuong, donGia, namXb, tacGiaId, theLoaiId, nhaXuatBanId)
    }

    function Screen(): Screen
      reads this
    {
      Render(error, CurrentFields(), tacGiaList, theLoaiList, nhaXuatBanList)
    }

    constructor ()
      ensures CurrentFields() == InitialFields
      ensures tacGiaList == [] && theLoaiList == [] && nhaXuatBanList == [] && error == None
    {
      ten, soLuong, donGia, namXb := "", 0, "", 2024;
      tacGiaId, theLoaiId, nhaXuatBanId := 0, 0, 0;
      tacGiaList, theLoaiList, nhaXuatBanList := [], [], [];
      error := None;
    }

    /**
     * `fetchData`: the three lists are stored, each from its own response, only when all three
     * requests succeed; any failure sets the one load error and stores none of them.
     */
    method FetchData(tacGiaRes: Response<seq<TacGia>>, theLoaiRes: Response<seq<TheLoai>>,
                     nhaXuatBanRes: Response<seq<NhaXuatBan>>)
      modifies this`tacGiaList, this`theLoaiList, this`nhaXuatBanList, this`error
      ensures tacGiaRes.Ok? && theLoaiRes.Ok? && nhaXuatBanRes.Ok? ==>
        tacGiaList == tacGiaRes.body && theLoaiList == theLoaiRes.body && nhaXuatBanList == nhaXuatBanRes.body &&
        error == old(error)
      ensures !(tacGiaRes.Ok? && theLoaiRes.Ok? && nhaXuatBanRes.Ok?) ==>
        tacGiaList == old(tacGiaList) && theLoaiList == old(theLoaiList) && nhaXuatBanList == old(nhaXuatBanList) &&
        error == Some(LoadFailedMessage)
    {
      if tacGiaRes.Ok? && theLoaiRes.Ok? && nhaXuatBanRes.Ok? {
        tacGiaList := tacGiaRes.body;
        theLoaiList := theLoaiRes.body;
        nhaXuatBanList := nhaXuatBanRes.body;
      } else {
        error := Some(LoadFailedMessage);
      }
    }

    /** The `onChange` handlers of the six inputs; the quantity has none. */
    method SetTen(value: string)
      modifies this`ten
      ensures CurrentFields() == old(CurrentFields()).(ten := value)
    {
      ten := value;
    }

    method SetDonGia(value: string)
      modifies this`donGia
      ensures CurrentFields() == old(CurrentFields()).(donGia := value)
    {
      donGia := value;
    }

    method SetNamXb(value: int)
      modifies this`namXb
      ensures CurrentFields() == old(CurrentFields()).(namXb := value)
    {
      namXb := value;
    }

    method SetTacGiaId(value: int)
      modifies this`tacGiaId
      ensures CurrentFields() == old(CurrentFields()).(tacGiaId := value)
    {
      tacGiaId := value;
    }

    method SetTheLoaiId(value: int)
      modifies this`theLoaiId
      ensures CurrentFields() == old(CurrentFields()).(theLoaiId := value)
    {
      theLoaiId := value;
    }

    method SetNhaXuatBanId(value: int)
      modifies this`nhaXuatBanId
      ensures CurrentFields() == old(CurrentFields()).(nhaXuatBanId := value)
    {
      nhaXuatBanId := value;
    }

    /** The seven setters of the success branch: the fields go back to their initial values. */
    method ResetFields()
      modifies this`ten, this`soLuong, this`donGia, this`namXb, this`tacGiaId, this`theLoaiId, this`nhaXuatBanId
      ensures CurrentFields() == InitialFields
    {
      ten := "";
      soLuong := 0;
      donGia := "";
      namXb := 2024;
      tacGiaId := 0;
      theLoaiId := 0;
      nhaXuatBanId := 0;
    }

    /**
     * `handleSubmit`: POSTs the payload of the current fields; success resets the fields,
     * failure sets the submit error and leaves the fields as they were.
     */
    method HandleSubmit(response: Response<()>) returns (payload: NewBook)
      modifies this`ten, this`soLuong, this`donGia, this`namXb, this`tacGiaId, this`theLoaiId, this`nhaXuatBanId,
        this`error
      ensures payload == Payload(old(CurrentFields()))
      ensures response.Ok? ==> CurrentFields() == InitialFields && error == old(error)
      ensures !response.Ok? ==> CurrentFields() == old(CurrentFields()) && error == Some(SubmitFailedMessage)
    {
      payload := Payload(CurrentFields());
      if response.Ok? {
        ResetFields();
      } else {
        error := Some(SubmitFailedMessage);
      }
    }
  }

  /**
   * The form from mount until its three loads settle: the initial fields and the three lists
   * when all three succeed, the load error (and no form) as soon as one fails.
   */
  method Mount(tacGiaRes: Response<seq<TacGia>>, theLoaiRes: Response<seq<TheLoai>>,
               nhaXuatBanRes: Response<seq<NhaXuatBan>>) returns (before: Screen, after: Screen)
    ensures before == Form(InitialFields, [], [], [])
    ensures tacGiaRes.Ok? && theLoaiRes.Ok? && nhaXuatBanRes.Ok? ==>
      after == Form(InitialFields, tacGiaRes.body, theLoaiRes.body, nhaXuatBanRes.body)
    ensures !(tacGiaRes.Ok? && theLoaiRes.Ok? && nhaXuatBanRes.Ok?) ==> after == ErrorBanner(LoadFailedMessage)
  {
    var form := new AddBookForm();
    before := form.Screen();
    form.FetchData(tacGiaRes, theLoaiRes, nhaXuatBanRes);
    after := form.Screen();
  }

  /** Typing `f` into the six inputs, one `onChange` each; the quantity keeps its value. */
  method Fill(form: AddBookForm, f: Fields)
    modifies form`ten, form`donGia, form`namXb, form`tacGiaId, form`theLoaiId, form`nhaXuatBanId
    ensures form.CurrentFields() == f.(soLuong := old(form.soLuong))
  {
    form.SetTen(f.ten);
    form.SetDonGia(f.donGia);
    form.SetNamXb(f.namXb);
    form.SetTacGiaId(f.tacGiaId);
    form.SetTheLoaiId(f.theLoaiId);
    form.SetNhaXuatBanId(f.nhaXuatBanId);
  }

  /**
   * Filling in the six inputs and pressing "Thêm Sách", which is only on screen while no error
   * is: after a failed load nothing can be submitted and the load error stays. Otherwise the
   * payload carries what was typed, with `so_luong` 0 whatever `f.soLuong` says; success shows
   * the form again, back at its initial values; failure shows the submit error.
   */
  method FillAndSubmit(f: Fields, tacGiaRes: Response<seq<TacGia>>, theLoaiRes: Response<seq<TheLoai>>,
                       nhaXuatBanRes: Response<seq<NhaXuatBan>>, response: Response<()>)
    returns (payload: Option<NewBook>, after: Screen)
    ensures !(tacGiaRes.Ok? && theLoaiRes.Ok? && nhaXuatBanRes.Ok?) ==>
      payload == None && after == ErrorBanner(LoadFailedMessage)
    ensures tacGiaRes.Ok? && theLoaiRes.Ok? && nhaXuatBanRes.Ok? ==>
      payload == Some(Payload(f)) && payload.value.so_luong == 0
    ensures tacGiaRes.Ok? && theLoaiRes.Ok? && nhaXuatBanRes.Ok? && response.Ok? ==>
      after == Form(InitialFields, tacGiaRes.body, theLoaiRes.body, nhaXuatBanRes.body)
    ensures tacGiaRes.Ok? && theLoaiRes.Ok? && nhaXuatBanRes.Ok? && !response.Ok? ==>
      after == ErrorBanner(SubmitFailedMessage)
  {
    var form := new AddBookForm();
    form.FetchData(tacGiaRes, theLoaiRes, nhaXuatBanRes);
    after := form.Screen();
    payload := None;
    if after.Form? {
      Fill(form, f);
      PayloadIgnoresOnlyQuantity(f, form.CurrentFields());
      var sent := form.HandleSubmit(response);
      payload := Some(sent);
      after := form.Screen();
    }
  }

  /** What can happen to the form: a load settling, an input's `onChange`, or a submit settling. */
  datatype Event =
    | Load(tacGiaRes: Response<seq<TacGia>>, theLoaiRes: Response<seq<TheLoai>>,
           nhaXuatBanRes: Response<seq<NhaXuatBan>>)
    | EditTen(ten: string)
    | EditDonGia(donGia: string)
    | EditNamXb(namXb: int)
    | EditTacGia(tacGiaId: int)
    | EditTheLoai(theLoaiId: int)
    | EditNhaXuatBan(nhaXuatBanId: int)
    | Submit(response: Response<()>)

  /**
   * The error banner is terminal: no handler clears `error`, and both messages it can be set to
   * are truthy, so once a banner shows, the form never comes back, whatever happens next.
   */
  method ErrorIsTerminal(form: AddBookForm, events: seq<Event>)
    requires Truthy(form.error)
    modifies form
    ensures Truthy(form.error) && form.Screen() == ErrorBanner(form.error.value)
    ensures form.error.value in {old(form.error.value), LoadFailedMessage, SubmitFailedMessage}
  {
    MessagesAreTruthy();
    var k := 0;
    while k < |events|
      invariant 0 <= k <= |events|
      invariant Truthy(form.error)
      invariant form.error.value in {old(form.error.value), LoadFailedMessage, SubmitFailedMessage}
    {
      match events[k] {
        case Load(a, b, c) => form.FetchData(a, b, c);
        case EditTen(v) => form.SetTen(v);
        case EditDonGia(v) => form.SetDonGia(v);
        case EditNamXb(v) => form.SetNamXb(v);
        case EditTacGia(v) => form.SetTacGiaId(v);
        case EditTheLoai(v) => form.SetTheLoaiId(v);
        case EditNhaXuatBan(v) => form.SetNhaXuatBanId(v);
        case Submit(r) => var sent := form.HandleSubmit(r);
      }
      k := k + 1;
    }
  }
}
