/**
 * The second variant of the wallet screen
 * (my-new-project/components/PaymentDashboard.js): no category field, every
 * transfer is sent with category "General", the success alert quotes the
 * transaction id, and there is no pull-to-refresh.
 */
module PaymentFixedCategory {
  import opened Wrappers
  import opened Backend
  import opened Numbers
  import opened Contacts
  import Payment

  const FieldsMissing: string := "Please enter both MPIN and amount."

  /** The screen's form state. */
  datatype Form = Form(selected: Contact?, mpin: string, amount: string, balance: Number)

  datatype SendStep = SendStep(form: Form, request: Option<Payment.TransferPayload>, alert: Alert)

  /** `mpin && amount`: the category is not checked. */
  predicate FieldsFilled(f: Form) {
    f.mpin != "" && f.amount != ""
  }

  function ResetForm(balance: Number): Form {
    Form(null, "", "", balance)
  }

  /** A template literal prints a missing `transaction_id` as "undefined". */
  function SuccessText(amount: string, to: Contact, receipt: Payment.TransferReceipt): string {
    Payment.Rupee + amount + " sent successfully to " + to.name + ". Transaction ID: "
      + receipt.transactionId.GetOr("undefined")
  }

  /** `handleSend` on form `f`, sending from `myNumber`, when the backend answers `response`. */
  function Send(f: Form, myNumber: string, response: Response<Payment.TransferReceipt>): (r: SendStep)
    ensures !FieldsFilled(f) ==> r == SendStep(f, None, Alert(ErrorTitle, FieldsMissing))
    ensures FieldsFilled(f) && f.selected == null ==> r == SendStep(f, None, Alert(ErrorTitle, Payment.NoContact))
    ensures r.request.Some? <==> FieldsFilled(f) && f.selected != null
    ensures r.request.Some? ==>
      r.request.value == Payment.TransferPayload(myNumber, f.selected.mobileNumber, ParseFloat(f.amount), Payment.DefaultCategory)
    ensures r.request.Some? && response.Ok? ==>
      r.form == ResetForm(Minus(f.balance, ParseFloat(f.amount))) &&
      r.alert == Alert(SuccessTitle, SuccessText(f.amount, f.selected, response.data))
    ensures r.request.Some? && response.Rejected? ==>
      r.form == ResetForm(f.balance) && r.alert == Alert(ErrorTitle, MessageOr(response.message, Payment.TransferFailed))
    ensures r.request.Some? && response.Unreachable? ==>
      r.form == ResetForm(f.balance) && r.alert == Alert(ErrorTitle, Payment.TransferError)
  {
    if !FieldsFilled(f) then SendStep(f, None, Alert(ErrorTitle, FieldsMissing))
    else if f.selected == null then SendStep(f, None, Alert(ErrorTitle, Payment.NoContact))
    else
      var amount := ParseFloat(f.amount);
      var request := Some(Payment.TransferPayload(myNumber, f.selected.mobileNumber, amount, Payment.DefaultCategory));
      match response
      case Ok(receipt) =>
        SendStep(ResetForm(Minus(f.balance, amount)), request, Alert(SuccessTitle, SuccessText(f.amount, f.selected, receipt)))
      case Rejected(message) =>
        SendStep(ResetForm(f.balance), request, Alert(ErrorTitle, MessageOr(message, Payment.TransferFailed)))
      case Unreachable =>
        SendStep(ResetForm(f.balance), request, Alert(ErrorTitle, Payment.TransferError))
  }

  /** The form of the other variant with its category field dropped. */
  function WithoutCategory(f: Payment.Form): Form {
    Form(f.selected, f.mpin, f.amount, f.balance)
  }

  /**
   * The two variants agree whenever the other one's category field reads
   * "General": same request, same balance, same selection and fields afterwards.
   */
  lemma AgreesWithCategoryVariant(f: Payment.Form, myNumber: string, response: Response<Payment.TransferReceipt>)
    requires f.category == Payment.DefaultCategory
    ensures Send(WithoutCategory(f), myNumber, response).request == Payment.Send(f, myNumber, response).request
    ensures Send(WithoutCategory(f), myNumber, response).form == WithoutCategory(Payment.Send(f, myNumber, response).form)
  {
  }

  /** A second press of Send right after a validated one is stopped by the cleared fields. */
  lemma NoResend(f: Form, myNumber: string, first: Response<Payment.TransferReceipt>, second: Response<Payment.TransferReceipt>)
    requires Send(f, myNumber, first).request.Some?
    ensures Send(Send(f, myNumber, first).form, myNumber, second) ==
      SendStep(Send(f, myNumber, first).form, None, Alert(ErrorTitle, FieldsMissing))
  {
  }

  class PaymentDashboard {
    const myNumber: string
    var selectedContact: Contact?
    var mpin: string
    var amount: string
    var balance: Number

    function FormOf(): Form
      reads this
    {
      Form(selectedContact, mpin, amount, balance)
    }

    constructor (myNumber: string, initialBalance: Number)
      ensures this.myNumber == myNumber
      ensures FormOf() == Form(null, "", "", initialBalance)
    {
      this.myNumber := myNumber;
      selectedContact := null;
      mpin, amount := "", "";
      balance := initialBalance;
    }

    method HandleContactPress(contact: Contact)
      modifies this
      ensures FormOf() == old(FormOf()).(selected := Toggled(old(selectedContact), contact))
    {
      selectedContact := if contact == selectedContact then null else contact;
    }

    /** `onChangeText={setMpin}` */
    method SetMpin(text: string)
      modifies this
      ensures FormOf() == old(FormOf()).(mpin := text)
    {
      mpin := text;
    }

    /** `onChangeText={setAmount}` */
    method SetAmount(text: string)
      modifies this
      ensures FormOf() == old(FormOf()).(amount := text)
    {
      amount := text;
    }

    method HandleSend(response: Response<Payment.TransferReceipt>) returns (request: Option<Payment.TransferPayload>, alert: Alert)
      modifies this
      ensures SendStep(FormOf(), request, alert) == Send(old(FormOf()), myNumber, response)
    {
      if mpin == "" || amount == "" {
        return None, Alert(ErrorTitle, FieldsMissing);
      }
      if selectedContact == null {
        return None, Alert(ErrorTitle, Payment.NoContact);
      }
      var to := selectedContact;
      request := Some(Payment.TransferPayload(myNumber, to.mobileNumber, ParseFloat(amount), Payment.DefaultCategory));
      match response {
        case Ok(receipt) =>
          alert := Alert(SuccessTitle, SuccessText(amount, to, receipt));
          balance := Minus(balance, ParseFloat(amount));
        case Rejected(message) =>
          alert := Alert(ErrorTitle, MessageOr(message, Payment.TransferFailed));
        case Unreachable =>
          alert := Alert(ErrorTitle, Payment.TransferError);
      }
      // Reset fields and close the box: pressing the selected contact deselects it.
      HandleContactPress(to);
      mpin := "";
      amount := "";
    }
  }
}
