/** The invoice editor screen: the receipt editor's workflow over invoice
    lines (a `rate` in place of a `price`), with client address fields,
    payment terms and a due date that the stored settings push out by a
    number of days. The clock is a parameter of the operations that read it. */
module InvoiceCreator {
  import opened Types
  import opened Strings
  import ById
  import InvoiceHelpers
  import Storage

  /** Milliseconds in a day: `24 * 60 * 60 * 1000`. */
  const DayMs := 86400000

  /** The invoice draft (`Partial<Invoice>`). */
  datatype InvoiceDraft = InvoiceDraft(
    id: Option<string>,
    invoiceNumber: string,
    clientName: string,
    clientEmail: string,
    clientPhone: Option<string>,
    clientAddress: Option<string>,
    clientCity: Option<string>,
    clientState: Option<string>,
    clientZipCode: Option<string>,
    clientCountry: Option<string>,
    items: seq<InvoiceItem>,
    subtotal: real,
    taxRate: real,
    taxAmount: real,
    discountRate: real,
    discountAmount: real,
    total: real,
    notes: Option<string>,
    terms: Option<string>,
    dueDate: Timestamp,
    issueDate: Timestamp,
    status: InvoiceStatus,
    template: Template,
    currency: string,
    createdAt: Option<Timestamp>)

  /** The state the screen starts in: a draft due thirty days from now. */
  function InitialDraft(invoiceNumber: string, now: Timestamp): (d: InvoiceDraft)
    ensures d.items == [] && d.id.None? && d.createdAt.None? && d.status == Draft
    ensures d.issueDate == now && d.dueDate - d.issueDate == 30 * DayMs
  {
    InvoiceDraft(None, invoiceNumber, "", "", Some(""), Some(""), Some(""), Some(""), Some(""), Some(""),
      [], 0.0, 0.0, 0.0, 0.0, 0.0, 0.0, Some(""), Some(""), now + 30 * DayMs, now, Draft, Modern, "USD", None)
  }

  /** `setInvoice(savedInvoice)`: a stored invoice as a draft. */
  function DraftOf(v: Invoice): (d: InvoiceDraft)
    ensures d.id == Some(v.id) && d.createdAt == Some(v.createdAt) && d.items == v.items
  {
    InvoiceDraft(Some(v.id), v.invoiceNumber, v.clientName, v.clientEmail, v.clientPhone, v.clientAddress,
      v.clientCity, v.clientState, v.clientZipCode, v.clientCountry, v.items, v.subtotal, v.taxRate,
      v.taxAmount, v.discountRate, v.discountAmount, v.total, v.notes, v.terms, v.dueDate, v.issueDate,
      v.status, v.template, v.currency, Some(v.createdAt))
  }

  // ---------------------------------------------------------------------
  // Line items

  function ItemId(x: InvoiceItem): string { x.id }

  /** The line `addItem` appends. */
  function NewItem(id: string): InvoiceItem
  {
    InvoiceItem(id, "", 1.0, 0.0, 0.0)
  }

  /** The edits the line inputs make. */
  datatype ItemEdit = SetDescription(description: string) | SetQuantity(quantity: real) | SetRate(rate: real)

  /** `{ ...item, [field]: value }`, with the amount recomputed when the
      field is the quantity or the rate. */
  function ApplyEdit(item: InvoiceItem, e: ItemEdit): InvoiceItem
  {
    match e
    case SetDescription(d) => item.(description := d)
    case SetQuantity(q) => item.(quantity := q, amount := q * item.rate)
    case SetRate(p) => item.(rate := p, amount := item.quantity * p)
  }

  /** The `items.map(...)` of `updateItem`: same length, same ids in the
      same places, other lines untouched, and on a matching line the edited
      field set with the amount recomputed from quantity and rate unless the
      edit is to the description. */
  function UpdateItems(items: seq<InvoiceItem>, itemId: string, e: ItemEdit): (r: seq<InvoiceItem>)
    ensures |r| == |items|
    ensures forall i :: 0 <= i < |items| ==> r[i].id == items[i].id
    ensures forall i :: 0 <= i < |items| && items[i].id != itemId ==> r[i] == items[i]
    ensures forall i :: 0 <= i < |items| && items[i].id == itemId ==>
      match e
      case SetDescription(d) =>
        r[i].description == d && r[i].amount == items[i].amount
        && r[i].quantity == items[i].quantity && r[i].rate == items[i].rate
      case SetQuantity(q) =>
        r[i].quantity == q && r[i].amount == q * items[i].rate
        && r[i].rate == items[i].rate && r[i].description == items[i].description
      case SetRate(p) =>
        r[i].rate == p && r[i].amount == items[i].quantity * p
        && r[i].quantity == items[i].quantity && r[i].description == items[i].description
  {
    seq(|items|, i requires 0 <= i < |items| => if items[i].id == itemId then ApplyEdit(items[i], e) else items[i])
  }

  /** A line's amount is its quantity times its rate. */
  predicate LineConsistent(x: InvoiceItem)
  {
    x.amount == x.quantity * x.rate
  }

  predicate ItemsConsistent(items: seq<InvoiceItem>)
  {
    forall i :: 0 <= i < |items| ==> LineConsistent(items[i])
  }

  /** No edit breaks a consistent line, and a quantity or rate edit makes
      the edited line consistent. */
  lemma UpdateKeepsConsistent(items: seq<InvoiceItem>, itemId: string, e: ItemEdit)
    ensures ItemsConsistent(items) ==> ItemsConsistent(UpdateItems(items, itemId, e))
    ensures !e.SetDescription? ==> forall i :: 0 <= i < |items| && items[i].id == itemId ==>
      LineConsistent(UpdateItems(items, itemId, e)[i])
  {
  }

  lemma AddKeepsConsistent(items: seq<InvoiceItem>, newId: string)
    requires ItemsConsistent(items)
    ensures ItemsConsistent(items + [NewItem(newId)])
  {
    var r := items + [NewItem(newId)];
    forall i | 0 <= i < |r| ensures LineConsistent(r[i]) {
      if i < |items| {
        assert r[i] == items[i];
      }
    }
  }

  lemma RemoveKeepsConsistent(items: seq<InvoiceItem>, itemId: string)
    requires ItemsConsistent(items)
    ensures ItemsConsistent(ById.RemoveId(items, ItemId, itemId))
  {
    var r := ById.RemoveId(items, ItemId, itemId);
    ById.RemoveIdSpec(items, ItemId, itemId);
    forall i | 0 <= i < |r| ensures LineConsistent(r[i]) {
      assert r[i] in r;
      var j :| 0 <= j < |items| && items[j] == r[i];
    }
  }

  /** Appending a fresh line leaves the subtotal where it was. */
  lemma {:induction false} AddItemKeepsSubtotal(items: seq<InvoiceItem>, newId: string)
    ensures InvoiceHelpers.Subtotal(items + [NewItem(newId)]) == InvoiceHelpers.Subtotal(items)
  {
    assert (items + [NewItem(newId)])[..|items|] == items;
  }

  // ---------------------------------------------------------------------
  // Totals

  function WithTotals(d: InvoiceDraft): (r: InvoiceDraft)
    ensures r.items == d.items && r.taxRate == d.taxRate && r.discountRate == d.discountRate
  {
    var t := InvoiceHelpers.CalculateInvoiceTotals(d.items, d.taxRate, d.discountRate);
    d.(subtotal := t.subtotal, taxAmount := t.taxAmount, discountAmount := t.discountAmount, total := t.total)
  }

  predicate TotalsCurrent(d: InvoiceDraft)
  {
    InvoiceHelpers.CalculateInvoiceTotals(d.items, d.taxRate, d.discountRate)
      == Totals(d.subtotal, d.taxAmount, d.discountAmount, d.total)
  }

  /** Recomputing makes the totals current, changes nothing else, and is idempotent. */
  lemma WithTotalsSpec(d: InvoiceDraft)
    ensures TotalsCurrent(WithTotals(d))
    ensures WithTotals(WithTotals(d)) == WithTotals(d)
    ensures TotalsCurrent(d) ==> WithTotals(d) == d
    ensures WithTotals(d).(subtotal := d.subtotal, taxAmount := d.taxAmount,
      discountAmount := d.discountAmount, total := d.total) == d
  {
  }

  // ---------------------------------------------------------------------
  // Settings and saving

  /** `settings.defaultDueDays || 30`: an absent or zero setting means thirty days. */
  function DueDays(s: Settings): (days: int)
    ensures s.defaultDueDays.Some? && s.defaultDueDays.value != 0 ==> days == s.defaultDueDays.value
    ensures s.defaultDueDays.None? || s.defaultDueDays.value == 0 ==> days == 30
  {
    if s.defaultDueDays.Some? && s.defaultDueDays.value != 0 then s.defaultDueDays.value else 30
  }

  /** The settings values `loadData` lays over the draft, the due date
      counted from the moment of loading. */
  function ApplySettings(d: InvoiceDraft, s: Settings, now: Timestamp): (r: InvoiceDraft)
    ensures r.dueDate == now + DueDays(s) * DayMs
  {
    d.(currency := Or(s.currency, "USD"), taxRate := s.taxRate,
       template := (if s.defaultTemplate.Some? then s.defaultTemplate.value else Modern),
       notes := Some(OrOpt(s.defaultNotes, "")), terms := Some(OrOpt(s.defaultTerms, "")),
       dueDate := now + DueDays(s) * DayMs)
  }

  /** With nothing stored, loading sets a thirty-day due date, `USD`, a zero
      tax rate, the modern template and empty notes and terms. */
  lemma DefaultSettingsApplied(d: InvoiceDraft, now: Timestamp)
    ensures var r := ApplySettings(d, Storage.DefaultSettings, now);
      r.dueDate == now + 30 * DayMs && r.currency == "USD" && r.taxRate == 0.0
      && r.template == Modern && r.notes == Some("") && r.terms == Some("")
      && r.items == d.items && r.clientName == d.clientName && r.id == d.id
  {
  }

  datatype SaveOutcome = NoProfile | MissingClient | NoItems | Saved(invoice: Invoice)

  /** The record `handleSave` builds. */
  function BuildInvoice(d: InvoiceDraft, profile: BusinessProfile, newId: string, now: Timestamp): (v: Invoice)
    ensures v.id == OrOpt(d.id, newId)
    ensures v.businessProfile == profile && v.items == d.items && v.dueDate == d.dueDate
    ensures v.clientPhone == Some(OrOpt(d.clientPhone, "")) && v.clientAddress == Some(OrOpt(d.clientAddress, ""))
    ensures v.clientCity == Some(OrOpt(d.clientCity, "")) && v.clientState == Some(OrOpt(d.clientState, ""))
    ensures v.clientZipCode == Some(OrOpt(d.clientZipCode, "")) && v.clientCountry == Some(OrOpt(d.clientCountry, ""))
    ensures v.notes == Some(OrOpt(d.notes, "")) && v.terms == Some(OrOpt(d.terms, ""))
    ensures v.createdAt == (if d.createdAt.Some? then d.createdAt.value else now) && v.updatedAt == now
  {
    Invoice(OrOpt(d.id, newId), d.invoiceNumber, profile, d.clientName, d.clientEmail,
      Some(OrOpt(d.clientPhone, "")), Some(OrOpt(d.clientAddress, "")), Some(OrOpt(d.clientCity, "")),
      Some(OrOpt(d.clientState, "")), Some(OrOpt(d.clientZipCode, "")), Some(OrOpt(d.clientCountry, "")),
      d.items, d.subtotal, d.taxRate, d.taxAmount, d.discountRate, d.discountAmount, d.total,
      Some(OrOpt(d.notes, "")), Some(OrOpt(d.terms, "")), d.dueDate, d.issueDate, d.status,
      d.template, d.currency, if d.createdAt.Some? then d.createdAt.value else now, now)
  }

  /** An invoice loaded for editing is saved back under its own id with its
      creation time. */
  lemma ResaveKeepsIdentity(v: Invoice, profile: BusinessProfile, newId: string, now: Timestamp)
    requires v.id != ""
    ensures BuildInvoice(DraftOf(v), profile, newId, now).id == v.id
    ensures BuildInvoice(DraftOf(v), profile, newId, now).createdAt == v.createdAt
  {
  }

  /** The guards of `handleSave`, in order. */
  function SaveCheck(profile: Option<BusinessProfile>, d: InvoiceDraft): (o: Option<SaveOutcome>)
    ensures o.None? <==> profile.Some? && d.clientName != "" && d.clientEmail != "" && d.items != []
    ensures o == Some(NoProfile) <==> profile.None?
    ensures o == Some(MissingClient) <==> profile.Some? && (d.clientName == "" || d.clientEmail == "")
    ensures o == Some(NoItems) <==> profile.Some? && d.clientName != "" && d.clientEmail != "" && d.items == []
  {
    if profile.None? then Some(NoProfile)
    else if d.clientName == "" || d.clientEmail == "" then Some(MissingClient)
    else if d.items == [] then Some(NoItems)
    else None
  }

  /** The stored invoice `loadData` opens for editing: none unless a
      non-empty id is given and found. */
  function EditTarget(store: Storage.Store, editId: Option<string>): (saved: Option<Invoice>)
    reads store
    ensures saved.Some? ==> editId.Some? && saved.value.id == editId.value
  {
    if editId.Some? && editId.value != "" then store.GetInvoiceById(editId.value) else None
  }

  /** The profile `loadData` selects: the edited invoice's own profile when
      it was found; when not editing, the current profile, else the first
      one; otherwise the selection stays as it was. */
  function Selection(editId: Option<string>, saved: Option<Invoice>, current: Option<BusinessProfile>,
                     profiles: seq<BusinessProfile>, previous: Option<BusinessProfile>): Option<BusinessProfile>
  {
    if editId.Some? && editId.value != "" then
      (if saved.Some? then Some(saved.value.businessProfile) else previous)
    else if current.Some? then current
    else if |profiles| > 0 then Some(profiles[0])
    else previous
  }

  class InvoiceEditor {
    var businessProfiles: seq<BusinessProfile>
    var selectedProfile: Option<BusinessProfile>
    var draft: InvoiceDraft
    var showEmailModal: bool

    constructor(invoiceNumber: string, now: Timestamp)
      ensures businessProfiles == [] && selectedProfile.None? && !showEmailModal
      ensures draft == InitialDraft(invoiceNumber, now)
      ensures TotalsCurrent(draft)
    {
      businessProfiles := [];
      selectedProfile := None;
      draft := InitialDraft(invoiceNumber, now);
      showEmailModal := false;
    }

    /** The totals effect: `calculateTotals`. */
    method CalculateTotals()
      modifies this
      ensures draft == WithTotals(old(draft)) && TotalsCurrent(draft)
      ensures businessProfiles == old(businessProfiles) && selectedProfile == old(selectedProfile)
      ensures showEmailModal == old(showEmailModal)
    {
      var totals := InvoiceHelpers.CalculateInvoiceTotals(draft.items, draft.taxRate, draft.discountRate);
      draft := draft.(subtotal := totals.subtotal, taxAmount := totals.taxAmount,
        discountAmount := totals.discountAmount, total := totals.total);
    }

    /** `addItem`, followed by the totals effect. */
    method AddItem(newId: string)
      modifies this
      ensures draft == WithTotals(old(draft).(items := old(draft).items + [NewItem(newId)]))
      ensures draft.subtotal == InvoiceHelpers.Subtotal(old(draft.items))
      ensures ItemsConsistent(old(draft.items)) ==> ItemsConsistent(draft.items)
      ensures TotalsCurrent(draft)
      ensures businessProfiles == old(businessProfiles) && selectedProfile == old(selectedProfile)
      ensures showEmailModal == old(showEmailModal)
    {
      AddItemKeepsSubtotal(draft.items, newId);
      if ItemsConsistent(draft.items) {
        AddKeepsConsistent(draft.items, newId);
      }
      draft := draft.(items := draft.items + [NewItem(newId)]);
      CalculateTotals();
    }

    /** `updateItem(itemId, field, value)`, followed by the totals effect. */
    method UpdateItem(itemId: string, e: ItemEdit)
      modifies this
      ensures draft == WithTotals(old(draft).(items := UpdateItems(old(draft).items, itemId, e)))
      ensures ItemsConsistent(old(draft.items)) ==> ItemsConsistent(draft.items)
      ensures TotalsCurrent(draft)
      ensures businessProfiles == old(businessProfiles) && selectedProfile == old(selectedProfile)
      ensures showEmailModal == old(showEmailModal)
    {
      UpdateKeepsConsistent(draft.items, itemId, e);
      draft := draft.(items := UpdateItems(draft.items, itemId, e));
      CalculateTotals();
    }

    /** `removeItem(itemId)`, followed by the totals effect. */
    method RemoveItem(itemId: string)
      modifies this
      ensures draft == WithTotals(old(draft).(items := ById.RemoveId(old(draft).items, ItemId, itemId)))
      ensures ById.IsSubsequence(draft.items, old(draft.items))
      ensures forall x :: x in draft.items <==> x in old(draft.items) && x.id != itemId
      ensures ItemsConsistent(old(draft.items)) ==> ItemsConsistent(draft.items)
      ensures TotalsCurrent(draft)
      ensures businessProfiles == old(businessProfiles) && selectedProfile == old(selectedProfile)
      ensures showEmailModal == old(showEmailModal)
    {
      ById.RemoveIdSpec(draft.items, ItemId, itemId);
      if ItemsConsistent(draft.items) {
        RemoveKeepsConsistent(draft.items, itemId);
      }
      draft := draft.(items := ById.RemoveId(draft.items, ItemId, itemId));
      CalculateTotals();
    }

    /** The tax-rate input, followed by the totals effect. */
    method SetTaxRate(rate: real)
      modifies this
      ensures draft == WithTotals(old(draft).(taxRate := rate))
      ensures TotalsCurrent(draft)
      ensures businessProfiles == old(businessProfiles) && selectedProfile == old(selectedProfile)
      ensures showEmailModal == old(showEmailModal)
    {
      draft := draft.(taxRate := rate);
      CalculateTotals();
    }

    /** The discount-rate input, followed by the totals effect. */
    method SetDiscountRate(rate: real)
      modifies this
      ensures draft == WithTotals(old(draft).(discountRate := rate))
      ensures TotalsCurrent(draft)
      ensures businessProfiles == old(businessProfiles) && selectedProfile == old(selectedProfile)
      ensures showEmailModal == old(showEmailModal)
    {
      draft := draft.(discountRate := rate);
      CalculateTotals();
    }

    /** `loadData`: the stored part, then the settings (and a due date counted from
        `now`) laid over
        the draft, then the totals effect. */
    method LoadData(store: Storage.Store, editId: Option<string>, now: Timestamp)
      modifies this
      ensures businessProfiles == store.GetBusinessProfiles()
      ensures var saved := EditTarget(store, editId);
        && draft == WithTotals(ApplySettings(if saved.Some? then DraftOf(saved.value) else old(draft), store.GetSettings(), now))
        && selectedProfile == Selection(editId, saved, store.GetCurrentProfile(), store.GetBusinessProfiles(), old(selectedProfile))
      ensures draft.dueDate == now + DueDays(store.GetSettings()) * DayMs
      ensures TotalsCurrent(draft)
      ensures showEmailModal == old(showEmailModal)
    {
      LoadStored(store, editId);
      var settings := store.GetSettings();
      draft := ApplySettings(draft, settings, now);
      CalculateTotals();
    }

    /** The first part of `loadData`: the profiles, then the invoice being
        edited (when its id is found) or else the current or first profile. */
    method LoadStored(store: Storage.Store, editId: Option<string>)
      modifies this
      ensures businessProfiles == store.GetBusinessProfiles()
      ensures var saved := EditTarget(store, editId);
        && draft == (if saved.Some? then DraftOf(saved.value) else old(draft))
        && selectedProfile == Selection(editId, saved, store.GetCurrentProfile(), store.GetBusinessProfiles(), old(selectedProfile))
      ensures showEmailModal == old(showEmailModal)
    {
      var profiles := store.GetBusinessProfiles();
      var currentProfile := store.GetCurrentProfile();
      businessProfiles := profiles;
      if editId.Some? && editId.value != "" {
        var savedInvoice := store.GetInvoiceById(editId.value);
        if savedInvoice.Some? {
          draft := DraftOf(savedInvoice.value);
          selectedProfile := Some(savedInvoice.value.businessProfile);
        }
      } else if currentProfile.Some? {
        selectedProfile := currentProfile;
      } else if |profiles| > 0 {
        selectedProfile := Some(profiles[0]);
      }
    }

    /** `handleSave`: the three guards in order, each stopping with the
        store untouched; otherwise the built record is upserted into the
        stored invoices. */
    method HandleSave(store: Storage.Store, newId: string, now: Timestamp) returns (outcome: SaveOutcome)
      modifies store
      ensures SaveCheck(selectedProfile, draft).Some? ==>
        outcome == SaveCheck(selectedProfile, draft).value && store.data == old(store.data)
      ensures SaveCheck(selectedProfile, draft).None? ==>
        var v := BuildInvoice(draft, selectedProfile.value, newId, now);
        && outcome == Saved(v)
        && store.data == old(store.data)[Storage.InvoicesKey := Storage.InvoiceList(ById.Upsert(old(store.GetInvoices()), Storage.InvoiceId, v))]
        && store.GetInvoiceById(v.id) == Some(v)
    {
      var check := SaveCheck(selectedProfile, draft);
      if check.Some? {
        return check.value;
      }
      var invoiceData := BuildInvoice(draft, selectedProfile.value, newId, now);
      store.SaveInvoice(invoiceData);
      outcome := Saved(invoiceData);
    }

    /** `handleSendEmail`: the dialog opens only with a profile selected and
        a client e-mail entered. */
    method HandleSendEmail()
      modifies this
      ensures selectedProfile.Some? && draft.clientEmail != "" ==> showEmailModal
      ensures !(selectedProfile.Some? && draft.clientEmail != "") ==> showEmailModal == old(showEmailModal)
      ensures draft == old(draft) && selectedProfile == old(selectedProfile)
      ensures businessProfiles == old(businessProfiles)
    {
      if selectedProfile.None? {
        return;
      }
      if draft.clientEmail == "" {
        return;
      }
      showEmailModal := true;
    }
  }
}
