/**
 * The transfer form of the wallet screen (components/PaymentDashboard.js): a
 * selected contact, the MPIN, amount and category fields, and the displayed
 * balance. `handleSend` validates the form, sends one transfer request, and
 * resets the form whatever the backend answers.
 */
module Payment {
  import opened Wrappers
  import opened Backend
  import opened Numbers
  import opened Contacts

  const FieldsMissing: string := "Please enter MPIN, amount, and category."
  const NoContact: string := "Please select a contact."
  const TransferFailed: string := "Failed to complete the transaction."
  const TransferError: string := "An error occurred while processing the transaction."
  const BalanceFailed: string := "Failed to fetch balance."
  const BalanceError: string := "An error occurred while fetching balance."
  const DefaultCategory: string := "General"
  const Rupee: string := "\U{20B9}"

  /** The body of a `/transfer` request; the MPIN is not part of it. */
  datatype TransferPayload = TransferPayload(
    senderMobileNumber: string,
    receiverMobileNumber: string,
    amount: Number,
    category: string)

  /** The success body of `/transfer`. */
  datatype TransferReceipt = TransferReceipt(transactionId: Option<string>)

  /** The success body of `/get_wallet_amount`. */
  datatype WalletBody = WalletBody(walletAmount: Number)

  /** The screen's form state. */
  datatype Form = Form(selected: Contact?, mpin: string, amount: string, category: string, balance: Number)

  /** What one press of Send does: the new form, the request made (if any) and the alert shown. */
  datatype SendStep = SendStep(form: Form, request: Option<TransferPayload>, alert: Alert)

  /** The form after a refresh and the alert shown, if any. */
  datatype RefreshStep = RefreshStep(form: Form, alert: Option<Alert>)

  /** `mpin && amount && category`: each field holds some text. */
  predicate FieldsFilled(f: Form) {
    f.mpin != "" && f.amount != "" && f.category != ""
  }

  /** The form after a send that passed validation: nothing selected, fields reset. */
  function ResetForm(balance: Number): Form {
    Form(null, "", "", DefaultCategory, balance)
  }

  function SuccessText(amount: string, to: Contact): string {
    Rupee + amount + " sent successfully to " + to.name + "."
  }

  /** `handleSend` on form `f`, sending from `myNumber`, when the backend answers `response`. */
  function Send(f: Form, myNumber: string, response: Response<TransferReceipt>): (r: SendStep)
    ensures !FieldsFilled(f) ==> r == SendStep(f, None, Alert(ErrorTitle, FieldsMissing))
    ensures FieldsFilled(f) && f.selected == null ==> r == SendStep(f, None, Alert(ErrorTitle, NoContact))
    ensures r.request.Some? <==> FieldsFilled(f) && f.selected != null
    ensures r.request.Some? ==>
      r.request.value == TransferPayload(myNumber, f.selected.mobileNumber, ParseFloat(f.amount), f.category)
    ensures r.request.Some? && response.Ok? ==>
      r.form == ResetForm(Minus(f.balance, ParseFloat(f.amount))) &&
      r.alert == Alert(SuccessTitle, SuccessText(f.amount, f.selected))
    ensures r.request.Some? && response.Rejected? ==>
      r.form == ResetForm(f.balance) && r.alert == Alert(ErrorTitle, MessageOr(response.message, TransferFailed))
    ensures r.request.Some? && response.Unreachable? ==>
      r.form == ResetForm(f.balance) && r.alert == Alert(ErrorTitle, TransferError)
  {
    if !FieldsFilled(f) then SendStep(f, None, Alert(ErrorTitle, FieldsMissing))
    else if f.selected == null then SendStep(f, None, Alert(ErrorTitle, NoContact))
    else
      var amount := ParseFloat(f.amount);
      var request := Some(TransferPayload(myNumber, f.selected.mobileNumber, amount, f.category));
      match response
      case Ok(_) => SendStep(ResetForm(Minus(f.balance, amount)), request, Alert(SuccessTitle, SuccessText(f.amount, f.selected)))
      case Rejected(message) => SendStep(ResetForm(f.balance), request, Alert(ErrorTitle, MessageOr(message, TransferFailed)))
      case Unreachable => SendStep(ResetForm(f.balance), request, Alert(ErrorTitle, TransferError))
  }

  /** `onRefresh`: clears the selection and every field, and reloads the balance. */
  function Refresh(f: Form, response: Response<WalletBody>): (r: RefreshStep)
    ensures r.form.selected == null && r.form.mpin == "" && r.form.amount == "" && r.form.category == ""
    ensures r.form.balance == if response.Ok? then response.data.walletAmount else f.balance
    ensures r.alert.None? <==> response.Ok?
    ensures response.Rejected? ==> r.alert == Some(Alert(ErrorTitle, MessageOr(response.message, BalanceFailed)))
    ensures response.Unreachable? ==> r.alert == Some(Alert(ErrorTitle, BalanceError))
  {
    var cleared := Form(null, "", "", "", f.balance);
    match response
    case Ok(body) => RefreshStep(cleared.(balance := body.walletAmount), None)
    case Rejected(message) => RefreshStep(cleared, Some(Alert(ErrorTitle, MessageOr(message, BalanceFailed))))
    case Unreachable => RefreshStep(cleared, Some(Alert(ErrorTitle, BalanceError)))
  }

  /** The balance changes only when the backend accepts a transfer, and then by exactly the parsed amount. */
  lemma DebitOnlyOnConfirmation(f: Form, myNumber: string, response: Response<TransferReceipt>)
    ensures var r := Send(f, myNumber, response);
      r.form.balance == if r.request.Some? && response.Ok? then Minus(f.balance, r.request.value.amount) else f.balance
  {
  }

  /**
   * The MPIN is checked for presence only and never reaches the backend: two
   * forms that differ only in a non-empty MPIN send the same request.
   */
  lemma MpinNotSent(f: Form, mpin: string, myNumber: string, response: Response<TransferReceipt>)
    requires f.mpin != "" && mpin != ""
    ensures Send(f, myNumber, response).request == Send(f.(mpin := mpin), myNumber, response).request
  {
  }

  /** A second press of Send right after a validated one is stopped by the cleared fields. */
  lemma NoResend(f: Form, myNumber: string, first: Response<TransferReceipt>, second: Response<TransferReceipt>)
    requires Send(f, myNumber, first).request.Some?
    ensures Send(Send(f, myNumber, first).form, myNumber, second).request == None
  {
  }

  /** After a refresh the category is empty, so Send is stopped until a category is typed again. */
  lemma RefreshBlocksSend(f: Form, refresh: Response<WalletBody>, myNumber: string, response: Response<TransferReceipt>)
    ensures Send(Refresh(f, refresh).form, myNumber, response).alert == Alert(ErrorTitle, FieldsMissing)
  {
  }

  /** One user action on the screen. */
  datatype Event =
    | Press(contact: Contact)
    | TypeMpin(mpinText: string)
    | TypeAmount(amountText: string)
    | TypeCategory(categoryText: string)
    | PressSend(transfer: Response<TransferReceipt>)

  function Apply(f: Form, myNumber: string, e: Event): Form {
    match e
    case Press(c) => f.(selected := Toggled(f.selected, c))
    case TypeMpin(t) => f.(mpin := t)
    case TypeAmount(t) => f.(amount := t)
    case TypeCategory(t) => f.(category := t)
    case PressSend(response) => Send(f, myNumber, response).form
  }

  function Run(f: Form, myNumber: string, events: seq<Event>): Form
    decreases events
  {
    if events == [] then f else Run(Apply(f, myNumber, events[0]), myNumber, events[1..])
  }

  /** The amounts of the transfers the backend accepted during `events`, in order. */
  function Confirmed(f: Form, myNumber: string, events: seq<Event>): seq<Number>
    decreases events
  {
    if events == [] then []
    else
      var e := events[0];
      var accepted :=
        if e.PressSend? && e.transfer.Ok? && Send(f, myNumber, e.transfer).request.Some?
        then [ParseFloat(f.amount)] else [];
      accepted + Confirmed(Apply(f, myNumber, e), myNumber, events[1..])
  }

  /** `balance` minus each of `amounts`, left to right. */
  function DebitAll(balance: Number, amounts: seq<Number>): Number
    decreases amounts
  {
    if amounts == [] then balance else DebitAll(Minus(balance, amounts[0]), amounts[1..])
  }

  /**
   * Over any sequence of user actions, the displayed balance is the starting
   * balance minus exactly the transfers the backend confirmed: failed or
   * unvalidated sends never touch it.
   */
  lemma {:induction false} BalanceTracksConfirmedTransfers(f: Form, myNumber: string, events: seq<Event>)
    ensures Run(f, myNumber, events).balance == DebitAll(f.balance, Confirmed(f, myNumber, events))
    decreases events
  {
    if events != [] {
      var e := events[0];
      var g := Apply(f, myNumber, e);
      BalanceTracksConfirmedTransfers(g, myNumber, events[1..]);
      if e.PressSend? && e.transfer.Ok? && Send(f, myNumber, e.transfer).request.Some? {
        assert Confirmed(f, myNumber, events) == [ParseFloat(f.amount)] + Confirmed(g, myNumber, events[1..]);
      } else {
        assert g.balance == f.balance;
        assert Confirmed(f, myNumber, events) == Confirmed(g, myNumber, events[1..]);
      }
    }
  }

  /** The wallet screen's state, updated in place by its event handlers. */
  class PaymentDashboard {
    const myNumber: string
    var selectedContact: Contact?
    var mpin: string
    var amount: string
    var category: string
    var balance: Number

    function FormOf(): Form
      reads this
    {
      Form(selectedContact, mpin, amount, category, balance)
    }

    /** The screen as opened with the `mynumber` and `balance` navigation params. */
    constructor (myNumber: string, initialBalance: Number)
      ensures this.myNumber == myNumber
      ensures FormOf() == Form(null, "", "", "", initialBalance)
    {
      this.myNumber := myNumber;
      selectedContact := null;
      mpin, amount, category := "", "", "";
      balance := initialBalance;
    }

    method HandleContactPress(contact: Contact)
      modifies this
      ensures FormOf() == old(FormOf()).(selected := Toggled(old(selectedContact), contact))
    {
      selectedContact := if contact == selectedContact then null else contact;
    }

    /** `onChangeText={setMpin}` */
    method SetMpin(text: string)
      modifies this
      ensures FormOf() == old(FormOf()).(mpin := text)
    {
      mpin := text;
    }

    /** `onChangeText={setAmount}` */
    method SetAmount(text: string)
      modifies this
      ensures FormOf() == old(FormOf()).(amount := text)
    {
      amount := text;
    }

    /** `onChangeText={setCategory}` */
    method SetCategory(text: string)
      modifies this
      ensures FormOf() == old(FormOf()).(category := text)
    {
      category := text;
    }

    method HandleSend(response: Response<TransferReceipt>) returns (request: Option<TransferPayload>, alert: Alert)
      modifies this
      ensures SendStep(FormOf(), request, alert) == Send(old(FormOf()), myNumber, response)
    {
      if mpin == "" || amount == "" || category == "" {
        return None, Alert(ErrorTitle, FieldsMissing);
      }
      if selectedContact == null {
        return None, Alert(ErrorTitle, NoContact);
      }
      var to := selectedContact;
      request := Some(TransferPayload(myNumber, to.mobileNumber, ParseFloat(amount), category));
      match response {
        case Ok(_) =>
          alert := Alert(SuccessTitle, SuccessText(amount, to));
          balance := Minus(balance, ParseFloat(amount));
        case Rejected(message) =>
          alert := Alert(ErrorTitle, MessageOr(message, TransferFailed));
        case Unreachable =>
          alert := Alert(ErrorTitle, TransferError);
      }
      // Reset fields and close the box: pressing the selected contact deselects it.
      HandleContactPress(to);
      mpin := "";
      amount := "";
      category := DefaultCategory;
    }

    method OnRefresh(response: Response<WalletBody>) returns (alert: Option<Alert>)
      modifies this
      ensures RefreshStep(FormOf(), alert) == Refresh(old(FormOf()), response)
    {
      alert := None;
      match response {
        case Ok(body) => balance := body.walletAmount;
        case Rejected(message) => alert := Some(Alert(ErrorTitle, MessageOr(message, BalanceFailed)));
        case Unreachable => alert := Some(Alert(ErrorTitle, BalanceError));
      }
      selectedContact := null;
      mpin := "";
      amount := "";
      category := "";
    }
  }
}
