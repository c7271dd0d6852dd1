/** The records of the receipt/invoice generator: business profiles, line
    items, receipts, invoices, settings and e-mail settings. Enumerated string
    unions of the source become closed datatypes; optional fields become
    `Option`. Dates are millisecond timestamps. */
module Types {

  datatype Option<+T> = None | Some(value: T)

  /** A JavaScript `Date`, as its millisecond timestamp. */
  type Timestamp = int

  datatype BusinessProfile = BusinessProfile(
    id: string,
    name: string,
    email: string,
    phone: string,
    address: string,
    city: string,
    state: string,
    zipCode: string,
    country: string,
    website: Option<string>,
    logo: Option<string>,
    taxNumber: Option<string>,
    createdAt: Timestamp,
    updatedAt: Timestamp)

  datatype ReceiptItem = ReceiptItem(
    id: string,
    description: string,
    quantity: real,
    price: real,
    amount: real)

  datatype PaymentMethod = Cash | Card | BankTransfer | MobileMoney | Check | OtherMethod

  datatype ReceiptStatus = Completed | Refunded | PartialRefund

  datatype Template = Modern | Classic | Minimal | Professional | Corporate | Elegant | Creative

  datatype Receipt = Receipt(
    id: string,
    receiptNumber: string,
    businessProfile: BusinessProfile,
    customerName: string,
    customerEmail: string,
    customerPhone: Option<string>,
    customerAddress: Option<string>,
    items: seq<ReceiptItem>,
    subtotal: real,
    taxRate: real,
    taxAmount: real,
    discountRate: real,
    discountAmount: real,
    total: real,
    notes: Option<string>,
    paymentMethod: PaymentMethod,
    transactionDate: Timestamp,
    status: ReceiptStatus,
    template: Template,
    currency: string,
    createdAt: Timestamp,
    updatedAt: Timestamp)

  /** Invoice line: like a receipt line, with `rate` in place of `price`. */
  datatype InvoiceItem = InvoiceItem(
    id: string,
    description: string,
    quantity: real,
    rate: real,
    amount: real)

  datatype InvoiceStatus = Draft | Sent | Paid | Overdue

  datatype Invoice = Invoice(
    id: string,
    invoiceNumber: string,
    businessProfile: BusinessProfile,
    clientName: string,
    clientEmail: string,
    clientPhone: Option<string>,
    clientAddress: Option<string>,
    clientCity: Option<string>,
    clientState: Option<string>,
    clientZipCode: Option<string>,
    clientCountry: Option<string>,
    items: seq<InvoiceItem>,
    subtotal: real,
    taxRate: real,
    taxAmount: real,
    discountRate: real,
    discountAmount: real,
    total: real,
    notes: Option<string>,
    terms: Option<string>,
    dueDate: Timestamp,
    issueDate: Timestamp,
    status: InvoiceStatus,
    template: Template,
    currency: string,
    createdAt: Timestamp,
    updatedAt: Timestamp)

  datatype EmailSettings = EmailSettings(serviceId: string, templateId: string, publicKey: string)

  /** The application settings object. The first four fields are the ones
      `getSettings` supplies by default; the others are only present when
      the settings screen stored them. */
  datatype Settings = Settings(
    currency: string,
    taxRate: real,
    language: string,
    dateFormat: string,
    defaultTemplate: Option<Template>,
    defaultNotes: Option<string>,
    defaultTerms: Option<string>,
    defaultDueDays: Option<int>)

  /** The four totals the totals engine returns. */
  datatype Totals = Totals(subtotal: real, taxAmount: real, discountAmount: real, total: real)

  /** The string each enumeration value stands for in the source. */
  function StatusName(s: ReceiptStatus): string
  {
    match s
    case Completed => "completed"
    case Refunded => "refunded"
    case PartialRefund => "partial_refund"
  }

  function PaymentMethodName(m: PaymentMethod): string
  {
    match m
    case Cash => "cash"
    case Card => "card"
    case BankTransfer => "bank_transfer"
    case MobileMoney => "mobile_money"
    case Check => "check"
    case OtherMethod => "other"
  }

  function TemplateName(t: Template): string
  {
    match t
    case Modern => "modern"
    case Classic => "classic"
    case Minimal => "minimal"
    case Professional => "professional"
    case Corporate => "corporate"
    case Elegant => "elegant"
    case Creative => "creative"
  }

  function InvoiceStatusName(s: InvoiceStatus): string
  {
    match s
    case Draft => "draft"
    case Sent => "sent"
    case Paid => "paid"
    case Overdue => "overdue"
  }
}
