/** The customers page's create/edit dialog: the form reset, the request a
    submit sends (PUT to the selected customer's URL, POST to the list URL),
    and the error line, which is the first present of the server's phone,
    email, non-field and detail messages, a fixed fallback, or the text for a
    request that threw. The fetch is a parameter saying how it ends. */
module Customers {
  import opened Wrappers
  import opened Js

  /** The five form fields. */
  datatype CustomerForm = CustomerForm(firstName: Value, lastName: Value, email: Value, phone: Value, address: Value)

  /** A customer as listed by the API. */
  datatype ListedCustomer = ListedCustomer(id: Value, firstName: Value, lastName: Value, email: Value, phone: Value, address: Value)

  function BlankForm(): CustomerForm
  {
    CustomerForm(Str(""), Str(""), Str(""), Str(""), Str(""))
  }

  datatype Dialog = Dialog(open: bool, selected: Option<ListedCustomer>, form: CustomerForm)

  /** `handleOpen(customer)`: the dialog opens; a given customer becomes the
      selection and its fields fill the form, otherwise the selection is
      cleared and all five fields are ''. */
  function HandleOpen(customer: Option<ListedCustomer>): (d: Dialog)
    ensures d.open && d.selected == customer
    ensures customer.None? ==> d.form == CustomerForm(Str(""), Str(""), Str(""), Str(""), Str(""))
    ensures customer.Some? ==>
      var c := customer.value;
      d.form == CustomerForm(c.firstName, c.lastName, c.email, c.phone, c.address)
  {
    match customer
    case None => Dialog(true, None, BlankForm())
    case Some(c) => Dialog(true, customer, CustomerForm(c.firstName, c.lastName, c.email, c.phone, c.address))
  }

  const ListUrl: string := "http://localhost:8000/api/customers/"

  datatype Verb = Post | Put
  datatype Request = Request(verb: Verb, url: string, body: CustomerForm)

  /** The URL and method: the selected customer's own URL with PUT, or the
      list URL with POST. */
  function SaveRequest(selected: Option<ListedCustomer>, form: CustomerForm): (r: Request)
    ensures selected.Some? <==> r.verb == Put
    ensures selected.Some? ==> r.url == ListUrl + ToText(selected.value.id) + "/"
    ensures selected.None? ==> r.url == ListUrl
    ensures r.body == form
  {
    match selected
    case Some(c) => Request(Put, ListUrl + ToText(c.id) + "/", form)
    case None => Request(Post, ListUrl, form)
  }

  /** Editing a customer never targets the list URL, and customers with
      different numeric ids are saved to different URLs. */
  lemma SaveUrlsDistinct(c: ListedCustomer, d: ListedCustomer, form: CustomerForm, m: int, n: int)
    requires c.id == Num(m) && d.id == Num(n) && m != n
    ensures SaveRequest(Some(c), form).url != ListUrl
    ensures SaveRequest(Some(c), form).url != SaveRequest(Some(d), form).url
  {
    var p := ListUrl + IntToString(m) + "/";
    var q := ListUrl + IntToString(n) + "/";
    assert |p| > |ListUrl|;
    if p == q {
      assert p[|ListUrl|..|p| - 1] == IntToString(m);
      assert q[|ListUrl|..|q| - 1] == IntToString(n);
      IntToStringInjective(m, n);
    }
  }

  /** The fields of the error body the page reads: None when a key is absent. */
  datatype ErrorData = ErrorData(
    phone: Option<seq<Value>>,
    email: Option<seq<Value>>,
    nonFieldErrors: Option<seq<Value>>,
    detail: Option<Value>)

  /** `x?.[0]`: the first entry, or undefined (falsy, here Null) when the key
      is absent or the list empty. */
  function FirstEntry(list: Option<seq<Value>>): (r: Value)
    ensures list.Some? && list.value != [] ==> r == list.value[0]
    ensures !(list.Some? && list.value != []) ==> !Truthy(r)
  {
    if list.Some? && list.value != [] then list.value[0] else Null
  }

  function DetailOf(detail: Option<Value>): (r: Value)
    ensures detail.Some? ==> r == detail.value
    ensures detail.None? ==> !Truthy(r)
  {
    if detail.Some? then detail.value else Null
  }

  const FallbackMessage: string := "Failed to save customer."
  const ThrownMessage: string := "Error saving customer."

  /** The `||` chain over the error body; a null body reads every key as undefined. */
  function ErrorMessage(body: Option<ErrorData>): Value
  {
    match body
    case None => Str(FallbackMessage)
    case Some(e) =>
      Or(FirstEntry(e.phone), Or(FirstEntry(e.email), Or(FirstEntry(e.nonFieldErrors), Or(DetailOf(e.detail), Str(FallbackMessage)))))
  }

  /** The chain's meaning: the phone message when there is a truthy one; else
      the email message; else the first non-field error; else the detail;
      else the fallback. */
  lemma ErrorMessagePriority(e: ErrorData)
    ensures var m := ErrorMessage(Some(e));
      var phone, email, other, detail := FirstEntry(e.phone), FirstEntry(e.email), FirstEntry(e.nonFieldErrors), DetailOf(e.detail);
      && (Truthy(phone) ==> m == phone)
      && (!Truthy(phone) && Truthy(email) ==> m == email)
      && (!Truthy(phone) && !Truthy(email) && Truthy(other) ==> m == other)
      && (!Truthy(phone) && !Truthy(email) && !Truthy(other) && Truthy(detail) ==> m == detail)
      && (!Truthy(phone) && !Truthy(email) && !Truthy(other) && !Truthy(detail) ==> m == Str(FallbackMessage))
  {
  }

  /** The chosen message is always truthy, so the error line shows; when the
      server's entries are all texts it is a non-empty text. */
  lemma ErrorMessageShown(body: Option<ErrorData>)
    ensures Truthy(ErrorMessage(body))
    ensures AllTexts(body) ==> ErrorMessage(body).Str? && ErrorMessage(body).s != ""
  {
  }

  predicate AllTexts(body: Option<ErrorData>)
  {
    body.Some? ==>
      var e := body.value;
      && (e.phone.Some? ==> forall i :: 0 <= i < |e.phone.value| ==> e.phone.value[i].Str?)
      && (e.email.Some? ==> forall i :: 0 <= i < |e.email.value| ==> e.email.value[i].Str?)
      && (e.nonFieldErrors.Some? ==> forall i :: 0 <= i < |e.nonFieldErrors.value| ==> e.nonFieldErrors.value[i].Str?)
      && (e.detail.Some? ==> e.detail.value.Str?)
  }

  /** How the fetch ends: it throws (network failure, or an error body that
      is not JSON), or answers with `ok` and, when not ok, the parsed body. */
  datatype Response = Threw | Answered(ok: bool, body: Option<ErrorData>)

  /** What a submit does: the request, the successive values given to the
      error line, and whether the list is refetched and the dialog closed. */
  datatype SubmitOutcome = SubmitOutcome(request: Request, errors: seq<Value>, refetch: bool, closed: bool)

  /** `handleSubmit`. */
  function Submit(selected: Option<ListedCustomer>, form: CustomerForm, response: Response): (r: SubmitOutcome)
    ensures r.request == SaveRequest(selected, form)
    ensures |r.errors| >= 1 && r.errors[0] == Str("")
    ensures response.Answered? && response.ok ==> r.errors == [Str("")] && r.refetch && r.closed
    ensures response.Answered? && !response.ok ==> r.errors == [Str(""), ErrorMessage(response.body)] && !r.refetch && !r.closed
    ensures response.Threw? ==> r.errors == [Str(""), Str(ThrownMessage)] && !r.refetch && !r.closed
  {
    var request := SaveRequest(selected, form);
    match response
    case Threw => SubmitOutcome(request, [Str(""), Str(ThrownMessage)], false, false)
    case Answered(ok, body) =>
      if ok then SubmitOutcome(request, [Str("")], true, true)
      else SubmitOutcome(request, [Str(""), ErrorMessage(body)], false, false)
  }

  /** The error line a submit leaves: empty after a success, a non-empty
      message after any failure. */
  lemma SubmitLeavesError(selected: Option<ListedCustomer>, form: CustomerForm, response: Response)
    ensures var r := Submit(selected, form, response);
      var shown := r.errors[|r.errors| - 1];
      (response.Answered? && response.ok <==> shown == Str("")) && (shown != Str("") ==> Truthy(shown))
  {
    if response.Answered? && !response.ok {
      ErrorMessageShown(response.body);
    }
  }
}
