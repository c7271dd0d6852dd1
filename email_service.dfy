/** The e-mail service: a mutable three-field configuration with its
    validity test, and the payload `sendReceiptEmail` assembles from a
    receipt. The sending call itself is outside the model: its outcome is a
    parameter. Currency and date formatting are parameters too. */
module EmailService {
  import opened Types
  import opened Strings
  import PdfGenerator

  /** The placeholders the configuration starts with. */
  const PlaceholderServiceId := "your_service_id"
  const PlaceholderTemplateId := "your_template_id"
  const PlaceholderPublicKey := "your_public_key"

  /** `EMAIL_CONFIG`. */
  class EmailConfig {
    var serviceId: string
    var templateId: string
    var publicKey: string

    /** The configuration as loaded: the three placeholders, which make it valid. */
    constructor()
      ensures serviceId == PlaceholderServiceId && templateId == PlaceholderTemplateId
      ensures publicKey == PlaceholderPublicKey
      ensures Validate()
    {
      serviceId := PlaceholderServiceId;
      templateId := PlaceholderTemplateId;
      publicKey := PlaceholderPublicKey;
    }

    /** `validateEmailConfiguration`. */
    predicate Validate()
      reads this
    {
      serviceId != "" && templateId != "" && publicKey != ""
    }

    /** `updateEmailConfiguration`: the three fields become the given ones,
        so the configuration is valid exactly when all three are non-empty. */
    method UpdateEmailConfiguration(config: EmailSettings)
      modifies this
      ensures serviceId == config.serviceId && templateId == config.templateId && publicKey == config.publicKey
      ensures Validate() <==> config.serviceId != "" && config.templateId != "" && config.publicKey != ""
    {
      serviceId := config.serviceId;
      templateId := config.templateId;
      publicKey := config.publicKey;
    }
  }

  /** `formatCurrency(amount, currency)` and `format(date, 'MMMM dd, yyyy')`. */
  datatype EmailFormats = EmailFormats(currency: (real, string) -> string, longDate: Timestamp -> string)

  datatype EmailData = EmailData(
    toEmail: string,
    toName: string,
    fromName: string,
    fromEmail: string,
    subject: string,
    message: string,
    receiptNumber: string,
    receiptTotal: string,
    transactionDate: string,
    businessName: string)

  /** `receipt.notes ? '\nAdditional Notes:\n' + notes : ''`. */
  function NotesPart(notes: Option<string>): (s: string)
    ensures notes.None? || notes.value == "" ==> s == ""
    ensures notes.Some? && notes.value != "" ==> s == "\nAdditional Notes:\n" + notes.value
  {
    if notes.Some? && notes.value != "" then "\nAdditional Notes:\n" + notes.value else ""
  }

  /** The closing block: the business name, e-mail and phone on three lines. */
  function Signature(p: BusinessProfile): string
  {
    "Best regards,\n" + p.name + "\n" + p.email + "\n" + p.phone
  }

  /** The salutation line, without its line break. */
  function Greeting(r: Receipt): string
  {
    "Dear " + r.customerName + ","
  }

  /** Everything between the salutation and the signature. */
  function Body(r: Receipt, fmt: EmailFormats, payment: string): string
  {
    "\n\n"
    + "Thank you for your purchase! Please find attached your receipt " + r.receiptNumber
    + " for your recent transaction.\n\n"
    + "Receipt Details:\n"
    + "- Receipt Number: " + r.receiptNumber + "\n"
    + "- Transaction Date: " + fmt.longDate(r.transactionDate) + "\n"
    + "- Payment Method: " + payment + "\n"
    + "- Total Amount: " + fmt.currency(r.total, r.currency) + "\n\n"
    + NotesPart(r.notes) + "\n\n"
    + "Thank you for choosing " + r.businessProfile.name + "! We appreciate your business.\n\n"
  }

  /** The body of `generateDefaultEmailMessage`, with the payment label it
      prints given as a parameter. */
  function MessageText(r: Receipt, fmt: EmailFormats, payment: string): string
  {
    Greeting(r) + Body(r, fmt, payment) + Signature(r.businessProfile)
  }

  /** `generateDefaultEmailMessage`: the payment method printed as the PDF
      layout prints it, first underscore to a space and upper case. */
  function DefaultEmailMessage(r: Receipt, fmt: EmailFormats): string
  {
    MessageText(r, fmt, PdfGenerator.PaymentLabel(r.paymentMethod))
  }

  /** The default message opens by addressing the customer by name and
      closes with the business's signature block. */
  lemma MessageFrame(r: Receipt, fmt: EmailFormats, payment: string)
    ensures var m := MessageText(r, fmt, payment);
      && IsPrefix("Dear " + r.customerName + ",", m)
      && |Signature(r.businessProfile)| <= |m|
      && m[|m| - |Signature(r.businessProfile)|..] == Signature(r.businessProfile)
  {
    ConcatEnds(Greeting(r), Body(r, fmt, payment), Signature(r.businessProfile));
  }

  /** `emailData`: who it is to and from, the subject line, and the custom
      message when one is given, else the default one (`||` treats the empty
      message as absent). */
  function BuildEmailData(r: Receipt, customMessage: Option<string>, fmt: EmailFormats): (d: EmailData)
    ensures d.toEmail == r.customerEmail && d.toName == r.customerName
    ensures d.fromName == r.businessProfile.name && d.fromEmail == r.businessProfile.email
    ensures d.businessName == r.businessProfile.name && d.receiptNumber == r.receiptNumber
    ensures d.subject == "Receipt " + r.receiptNumber + " from " + r.businessProfile.name
    ensures customMessage.Some? && customMessage.value != "" ==> d.message == customMessage.value
    ensures customMessage.None? || customMessage.value == "" ==> d.message == DefaultEmailMessage(r, fmt)
  {
    EmailData(r.customerEmail, r.customerName, r.businessProfile.name, r.businessProfile.email,
      "Receipt " + r.receiptNumber + " from " + r.businessProfile.name,
      OrOpt(customMessage, DefaultEmailMessage(r, fmt)),
      r.receiptNumber, fmt.currency(r.total, r.currency), fmt.longDate(r.transactionDate),
      r.businessProfile.name)
  }

  /** The subject names the receipt number after `Receipt ` and ends with
      the business name. */
  lemma SubjectShape(r: Receipt, customMessage: Option<string>, fmt: EmailFormats)
    ensures var s := BuildEmailData(r, customMessage, fmt).subject;
      var n := r.businessProfile.name;
      && IsPrefix("Receipt " + r.receiptNumber, s)
      && |n| <= |s| && s[|s| - |n|..] == n
  {
    ConcatEnds("Receipt " + r.receiptNumber, " from ", r.businessProfile.name);
  }

  /** What the sending call does: it throws, or answers with a status. */
  datatype SendResult = Threw | Status(code: int)

  /** The call `emailjs.send` is made with. */
  datatype SendRequest = SendRequest(serviceId: string, templateId: string, data: EmailData, publicKey: string)

  /** `sendReceiptEmail`: the request built from the configuration and the
      payload; the answer is true exactly when the call answers status 200,
      and false when it throws or answers anything else. */
  method SendReceiptEmail(config: EmailConfig, r: Receipt, customMessage: Option<string>,
                          fmt: EmailFormats, response: SendResult) returns (request: SendRequest, ok: bool)
    ensures request == SendRequest(config.serviceId, config.templateId, BuildEmailData(r, customMessage, fmt), config.publicKey)
    ensures ok <==> response == Status(200)
  {
    var emailData := BuildEmailData(r, customMessage, fmt);
    request := SendRequest(config.serviceId, config.templateId, emailData, config.publicKey);
    match response
    case Threw =>
      ok := false;
    case Status(code) =>
      ok := code == 200;
  }
}
