/** The receipt editor screen: a draft receipt whose line items are appended,
    edited by id and filtered out, whose totals are recomputed after every
    change to the items or the rates, and which is checked in a fixed order
    and written to the store on save. The clock (`Date.now()`) is a
    parameter of the operations that read it. */
module ReceiptCreator {
  import opened Types
  import opened Strings
  import ById
  import ReceiptHelpers
  import Storage

  /** The screen's `Partial<Receipt>`: every field the initial state sets,
      plus the id and creation time that only a receipt loaded for editing
      carries. */
  datatype ReceiptDraft = ReceiptDraft(
    id: Option<string>,
    receiptNumber: string,
    customerName: string,
    customerEmail: string,
    customerPhone: Option<string>,
    customerAddress: Option<string>,
    items: seq<ReceiptItem>,
    subtotal: real,
    taxRate: real,
    taxAmount: real,
    discountRate: real,
    discountAmount: real,
    total: real,
    notes: Option<string>,
    paymentMethod: PaymentMethod,
    transactionDate: Timestamp,
    status: ReceiptStatus,
    template: Template,
    currency: string,
    createdAt: Option<Timestamp>)

  /** The state the screen starts in, given a fresh receipt number and the clock. */
  function InitialDraft(receiptNumber: string, now: Timestamp): (d: ReceiptDraft)
    ensures d.items == [] && d.id.None? && d.createdAt.None?
    ensures d.taxRate == 0.0 && d.discountRate == 0.0 && d.total == 0.0
    ensures d.subtotal == 0.0 && d.taxAmount == 0.0 && d.discountAmount == 0.0
  {
    ReceiptDraft(None, receiptNumber, "", "", Some(""), Some(""), [], 0.0, 0.0, 0.0, 0.0, 0.0, 0.0,
      Some(""), Cash, now, Completed, Modern, "USD", None)
  }

  /** `setReceipt(savedReceipt)`: a stored receipt as a draft. */
  function DraftOf(r: Receipt): (d: ReceiptDraft)
    ensures d.id == Some(r.id) && d.createdAt == Some(r.createdAt) && d.items == r.items
  {
    ReceiptDraft(Some(r.id), r.receiptNumber, r.customerName, r.customerEmail, r.customerPhone,
      r.customerAddress, r.items, r.subtotal, r.taxRate, r.taxAmount, r.discountRate,
      r.discountAmount, r.total, r.notes, r.paymentMethod, r.transactionDate, r.status,
      r.template, r.currency, Some(r.createdAt))
  }

  // ---------------------------------------------------------------------
  // Line items

  function ItemId(x: ReceiptItem): string { x.id }

  /** The item `addItem` appends. */
  function NewItem(id: string): ReceiptItem
  {
    ReceiptItem(id, "", 1.0, 0.0, 0.0)
  }

  /** The edits the item inputs make: `updateItem(id, 'description', text)`,
      and `'quantity'` or `'price'` with `parseFloat(value) || 0`. */
  datatype ItemEdit = SetDescription(description: string) | SetQuantity(quantity: real) | SetPrice(price: real)

  /** `{ ...item, [field]: value }`, with the amount recomputed from the new
      quantity and price when the field is one of those two. */
  function ApplyEdit(item: ReceiptItem, e: ItemEdit): ReceiptItem
  {
    match e
    case SetDescription(d) => item.(description := d)
    case SetQuantity(q) => item.(quantity := q, amount := q * item.price)
    case SetPrice(p) => item.(price := p, amount := item.quantity * p)
  }

  /** The `items.map(...)` of `updateItem`: the list keeps its length and
      the position and id of every line; lines with another id are
      untouched; on a matching line a quantity or price edit sets that field
      and recomputes the amount, while a description edit keeps the amount. */
  function UpdateItems(items: seq<ReceiptItem>, itemId: string, e: ItemEdit): (r: seq<ReceiptItem>)
    ensures |r| == |items|
    ensures forall i :: 0 <= i < |items| ==> r[i].id == items[i].id
    ensures forall i :: 0 <= i < |items| && items[i].id != itemId ==> r[i] == items[i]
    ensures forall i :: 0 <= i < |items| && items[i].id == itemId ==>
      match e
      case SetDescription(d) =>
        r[i].description == d && r[i].amount == items[i].amount
        && r[i].quantity == items[i].quantity && r[i].price == items[i].price
      case SetQuantity(q) =>
        r[i].quantity == q && r[i].amount == q * items[i].price
        && r[i].price == items[i].price && r[i].description == items[i].description
      case SetPrice(p) =>
        r[i].price == p && r[i].amount == items[i].quantity * p
        && r[i].quantity == items[i].quantity && r[i].description == items[i].description
  {
    seq(|items|, i requires 0 <= i < |items| => if items[i].id == itemId then ApplyEdit(items[i], e) else items[i])
  }

  /** A line's amount is its quantity times its price. */
  predicate LineConsistent(x: ReceiptItem)
  {
    x.amount == x.quantity * x.price
  }

  /** Every line is consistent. */
  predicate ItemsConsistent(items: seq<ReceiptItem>)
  {
    forall i :: 0 <= i < |items| ==> LineConsistent(items[i])
  }

  /** A quantity or price edit makes the edited line consistent, and no
      edit breaks a line that was consistent. */
  lemma UpdateKeepsConsistent(items: seq<ReceiptItem>, itemId: string, e: ItemEdit)
    ensures ItemsConsistent(items) ==> ItemsConsistent(UpdateItems(items, itemId, e))
    ensures !e.SetDescription? ==> forall i :: 0 <= i < |items| && items[i].id == itemId ==>
      LineConsistent(UpdateItems(items, itemId, e)[i])
  {
  }

  /** Appending a fresh line keeps every line consistent. */
  lemma AddKeepsConsistent(items: seq<ReceiptItem>, newId: string)
    requires ItemsConsistent(items)
    ensures ItemsConsistent(items + [NewItem(newId)])
  {
    var r := items + [NewItem(newId)];
    forall i | 0 <= i < |r| ensures LineConsistent(r[i]) {
      if i < |items| {
        assert r[i] == items[i];
      }
    }
  }

  /** Filtering lines out keeps every line consistent. */
  lemma RemoveKeepsConsistent(items: seq<ReceiptItem>, itemId: string)
    requires ItemsConsistent(items)
    ensures ItemsConsistent(ById.RemoveId(items, ItemId, itemId))
  {
    var r := ById.RemoveId(items, ItemId, itemId);
    ById.RemoveIdSpec(items, ItemId, itemId);
    forall i | 0 <= i < |r| ensures LineConsistent(r[i]) {
      assert r[i] in r;
      var j :| 0 <= j < |items| && items[j] == r[i];
    }
  }

  /** The subtotal after appending a fresh line is unchanged: its amount is 0. */
  lemma AddItemKeepsSubtotal(items: seq<ReceiptItem>, newId: string)
    ensures ReceiptHelpers.Subtotal(items + [NewItem(newId)]) == ReceiptHelpers.Subtotal(items)
  {
    ReceiptHelpers.SubtotalAppend(items, NewItem(newId));
  }

  // ---------------------------------------------------------------------
  // Totals

  /** The draft with the four totals recomputed from its items and rates. */
  function WithTotals(d: ReceiptDraft): (r: ReceiptDraft)
    ensures r.items == d.items && r.taxRate == d.taxRate && r.discountRate == d.discountRate
  {
    var t := ReceiptHelpers.CalculateReceiptTotals(d.items, d.taxRate, d.discountRate);
    d.(subtotal := t.subtotal, taxAmount := t.taxAmount, discountAmount := t.discountAmount, total := t.total)
  }

  /** The draft's totals are those of its items and rates. */
  predicate TotalsCurrent(d: ReceiptDraft)
  {
    ReceiptHelpers.CalculateReceiptTotals(d.items, d.taxRate, d.discountRate)
      == Totals(d.subtotal, d.taxAmount, d.discountAmount, d.total)
  }

  /** Recomputing makes the totals current, changes nothing else, and is
      idempotent. */
  lemma WithTotalsSpec(d: ReceiptDraft)
    ensures TotalsCurrent(WithTotals(d))
    ensures WithTotals(WithTotals(d)) == WithTotals(d)
    ensures TotalsCurrent(d) ==> WithTotals(d) == d
    ensures WithTotals(d).(subtotal := d.subtotal, taxAmount := d.taxAmount,
      discountAmount := d.discountAmount, total := d.total) == d
  {
  }

  // ---------------------------------------------------------------------
  // Saving

  /** Why `handleSave` stops, checked in this order, or the record it saved. */
  datatype SaveOutcome = NoProfile | MissingCustomer | NoItems | Saved(receipt: Receipt)

  /** The record `handleSave` builds from the draft and the selected profile. */
  function BuildReceipt(d: ReceiptDraft, profile: BusinessProfile, newId: string, now: Timestamp): (r: Receipt)
    ensures r.id == OrOpt(d.id, newId)
    ensures r.businessProfile == profile && r.items == d.items
    ensures r.customerPhone == Some(OrOpt(d.customerPhone, ""))
    ensures r.customerAddress == Some(OrOpt(d.customerAddress, ""))
    ensures r.notes == Some(OrOpt(d.notes, ""))
    ensures r.createdAt == (if d.createdAt.Some? then d.createdAt.value else now) && r.updatedAt == now
  {
    Receipt(OrOpt(d.id, newId), d.receiptNumber, profile, d.customerName, d.customerEmail,
      Some(OrOpt(d.customerPhone, "")), Some(OrOpt(d.customerAddress, "")), d.items,
      d.subtotal, d.taxRate, d.taxAmount, d.discountRate, d.discountAmount, d.total,
      Some(OrOpt(d.notes, "")), d.paymentMethod, d.transactionDate, d.status, d.template,
      d.currency, if d.createdAt.Some? then d.createdAt.value else now, now)
  }

  /** A receipt loaded for editing is saved back under its own id, with its
      creation time; only the update time moves. */
  lemma ResaveKeepsIdentity(r: Receipt, profile: BusinessProfile, newId: string, now: Timestamp)
    requires r.id != ""
    ensures BuildReceipt(DraftOf(r), profile, newId, now).id == r.id
    ensures BuildReceipt(DraftOf(r), profile, newId, now).createdAt == r.createdAt
  {
  }

  /** The guards of `handleSave`, in order. */
  function SaveCheck(profile: Option<BusinessProfile>, d: ReceiptDraft): (o: Option<SaveOutcome>)
    ensures o.None? <==> profile.Some? && d.customerName != "" && d.customerEmail != "" && d.items != []
    ensures o == Some(NoProfile) <==> profile.None?
    ensures o == Some(MissingCustomer) <==> profile.Some? && (d.customerName == "" || d.customerEmail == "")
    ensures o == Some(NoItems) <==> profile.Some? && d.customerName != "" && d.customerEmail != "" && d.items == []
  {
    if profile.None? then Some(NoProfile)
    else if d.customerName == "" || d.customerEmail == "" then Some(MissingCustomer)
    else if d.items == [] then Some(NoItems)
    else None
  }

  /** The settings values `loadData` lays over the draft. */
  function ApplySettings(d: ReceiptDraft, s: Settings): (r: ReceiptDraft)
  {
    d.(currency := Or(s.currency, "USD"), taxRate := s.taxRate,
       template := (if s.defaultTemplate.Some? then s.defaultTemplate.value else Modern),
       notes := Some(OrOpt(s.defaultNotes, "")))
  }

  /** With nothing stored, the settings leave the currency at `USD`, the tax
      rate at 0, the template at `modern` and the notes empty. */
  lemma DefaultSettingsApplied(d: ReceiptDraft)
    ensures var r := ApplySettings(d, Storage.DefaultSettings);
      r.currency == "USD" && r.taxRate == 0.0 && r.template == Modern && r.notes == Some("")
      && r.items == d.items && r.customerName == d.customerName && r.id == d.id
  {
  }

  /** The stored receipt `loadData` opens for editing: none unless a
      non-empty id is given and found. */
  function EditTarget(store: Storage.Store, editId: Option<string>): (saved: Option<Receipt>)
    reads store
    ensures saved.Some? ==> editId.Some? && saved.value.id == editId.value
  {
    if editId.Some? && editId.value != "" then store.GetReceiptById(editId.value) else None
  }

  /** The profile `loadData` selects: the edited receipt's own profile when
      it was found; when not editing, the current profile, else the first
      one; otherwise the selection stays as it was. */
  function Selection(editId: Option<string>, saved: Option<Receipt>, current: Option<BusinessProfile>,
                     profiles: seq<BusinessProfile>, previous: Option<BusinessProfile>): Option<BusinessProfile>
  {
    if editId.Some? && editId.value != "" then
      (if saved.Some? then Some(saved.value.businessProfile) else previous)
    else if current.Some? then current
    else if |profiles| > 0 then Some(profiles[0])
    else previous
  }

  class ReceiptEditor {
    var businessProfiles: seq<BusinessProfile>
    var selectedProfile: Option<BusinessProfile>
    var draft: ReceiptDraft
    var showEmailModal: bool

    /** The screen as first rendered. */
    constructor(receiptNumber: string, now: Timestamp)
      ensures businessProfiles == [] && selectedProfile.None? && !showEmailModal
      ensures draft == InitialDraft(receiptNumber, now)
      ensures TotalsCurrent(draft)
    {
      businessProfiles := [];
      selectedProfile := None;
      draft := InitialDraft(receiptNumber, now);
      showEmailModal := false;
    }

    /** The totals effect: `calculateTotals`. */
    method CalculateTotals()
      modifies this
      ensures draft == WithTotals(old(draft)) && TotalsCurrent(draft)
      ensures businessProfiles == old(businessProfiles) && selectedProfile == old(selectedProfile)
      ensures showEmailModal == old(showEmailModal)
    {
      var items := draft.items;
      var totals := ReceiptHelpers.CalculateReceiptTotals(items, draft.taxRate, draft.discountRate);
      draft := draft.(subtotal := totals.subtotal, taxAmount := totals.taxAmount,
        discountAmount := totals.discountAmount, total := totals.total);
    }

    /** `addItem`, followed by the totals effect. */
    method AddItem(newId: string)
      modifies this
      ensures draft == WithTotals(old(draft).(items := old(draft).items + [NewItem(newId)]))
      ensures |draft.items| == |old(draft.items)| + 1 && draft.items[|draft.items| - 1] == NewItem(newId)
      ensures draft.subtotal == ReceiptHelpers.Subtotal(old(draft.items))
      ensures ItemsConsistent(old(draft.items)) ==> ItemsConsistent(draft.items)
      ensures TotalsCurrent(draft)
      ensures businessProfiles == old(businessProfiles) && selectedProfile == old(selectedProfile)
      ensures showEmailModal == old(showEmailModal)
    {
      AddItemKeepsSubtotal(draft.items, newId);
      if ItemsConsistent(draft.items) {
        AddKeepsConsistent(draft.items, newId);
      }
      draft := draft.(items := draft.items + [NewItem(newId)]);
      CalculateTotals();
    }

    /** `updateItem(itemId, field, value)`, followed by the totals effect. */
    method UpdateItem(itemId: string, e: ItemEdit)
      modifies this
      ensures draft == WithTotals(old(draft).(items := UpdateItems(old(draft).items, itemId, e)))
      ensures ItemsConsistent(old(draft.items)) ==> ItemsConsistent(draft.items)
      ensures TotalsCurrent(draft)
      ensures businessProfiles == old(businessProfiles) && selectedProfile == old(selectedProfile)
      ensures showEmailModal == old(showEmailModal)
    {
      UpdateKeepsConsistent(draft.items, itemId, e);
      draft := draft.(items := UpdateItems(draft.items, itemId, e));
      CalculateTotals();
    }

    /** `removeItem(itemId)`, followed by the totals effect. */
    method RemoveItem(itemId: string)
      modifies this
      ensures draft == WithTotals(old(draft).(items := ById.RemoveId(old(draft).items, ItemId, itemId)))
      ensures ById.IsSubsequence(draft.items, old(draft.items))
      ensures forall x :: x in draft.items <==> x in old(draft.items) && x.id != itemId
      ensures ItemsConsistent(old(draft.items)) ==> ItemsConsistent(draft.items)
      ensures TotalsCurrent(draft)
      ensures businessProfiles == old(businessProfiles) && selectedProfile == old(selectedProfile)
      ensures showEmailModal == old(showEmailModal)
    {
      ById.RemoveIdSpec(draft.items, ItemId, itemId);
      if ItemsConsistent(draft.items) {
        RemoveKeepsConsistent(draft.items, itemId);
      }
      draft := draft.(items := ById.RemoveId(draft.items, ItemId, itemId));
      CalculateTotals();
    }

    /** The tax-rate input (`parseFloat(value) || 0`), followed by the totals effect. */
    method SetTaxRate(rate: real)
      modifies this
      ensures draft == WithTotals(old(draft).(taxRate := rate))
      ensures TotalsCurrent(draft)
      ensures businessProfiles == old(businessProfiles) && selectedProfile == old(selectedProfile)
      ensures showEmailModal == old(showEmailModal)
    {
      draft := draft.(taxRate := rate);
      CalculateTotals();
    }

    /** The discount-rate input, followed by the totals effect. */
    method SetDiscountRate(rate: real)
      modifies this
      ensures draft == WithTotals(old(draft).(discountRate := rate))
      ensures TotalsCurrent(draft)
      ensures businessProfiles == old(businessProfiles) && selectedProfile == old(selectedProfile)
      ensures showEmailModal == old(showEmailModal)
    {
      draft := draft.(discountRate := rate);
      CalculateTotals();
    }

    /** `loadData`: the stored part, then the settings laid over
        the draft, then the totals effect. */
    method LoadData(store: Storage.Store, editId: Option<string>)
      modifies this
      ensures businessProfiles == store.GetBusinessProfiles()
      ensures var saved := EditTarget(store, editId);
        && draft == WithTotals(ApplySettings(if saved.Some? then DraftOf(saved.value) else old(draft), store.GetSettings()))
        && selectedProfile == Selection(editId, saved, store.GetCurrentProfile(), store.GetBusinessProfiles(), old(selectedProfile))
      ensures TotalsCurrent(draft)
      ensures showEmailModal == old(showEmailModal)
    {
      LoadStored(store, editId);
      var settings := store.GetSettings();
      draft := ApplySettings(draft, settings);
      CalculateTotals();
    }

    /** The first part of `loadData`: the profiles, then the receipt being
        edited (when its id is found) or else the current or first profile. */
    method LoadStored(store: Storage.Store, editId: Option<string>)
      modifies this
      ensures businessProfiles == store.GetBusinessProfiles()
      ensures var saved := EditTarget(store, editId);
        && draft == (if saved.Some? then DraftOf(saved.value) else old(draft))
        && selectedProfile == Selection(editId, saved, store.GetCurrentProfile(), store.GetBusinessProfiles(), old(selectedProfile))
      ensures showEmailModal == old(showEmailModal)
    {
      var profiles := store.GetBusinessProfiles();
      var currentProfile := store.GetCurrentProfile();
      businessProfiles := profiles;
      if editId.Some? && editId.value != "" {
        var savedReceipt := store.GetReceiptById(editId.value);
        if savedReceipt.Some? {
          draft := DraftOf(savedReceipt.value);
          selectedProfile := Some(savedReceipt.value.businessProfile);
        }
      } else if currentProfile.Some? {
        selectedProfile := currentProfile;
      } else if |profiles| > 0 {
        selectedProfile := Some(profiles[0]);
      }
    }

    /** `handleSave`: the three guards in order, each stopping with the
        store untouched; otherwise the built record is upserted into the
        store's receipts, where it can then be found by its id. */
    method HandleSave(store: Storage.Store, newId: string, now: Timestamp) returns (outcome: SaveOutcome)
      modifies store
      ensures SaveCheck(selectedProfile, draft).Some? ==>
        outcome == SaveCheck(selectedProfile, draft).value && store.data == old(store.data)
      ensures SaveCheck(selectedProfile, draft).None? ==>
        var r := BuildReceipt(draft, selectedProfile.value, newId, now);
        && outcome == Saved(r)
        && store.data == old(store.data)[Storage.ReceiptsKey := Storage.ReceiptList(ById.Upsert(old(store.GetReceipts()), Storage.ReceiptId, r))]
        && store.GetReceiptById(r.id) == Some(r)
    {
      var check := SaveCheck(selectedProfile, draft);
      if check.Some? {
        return check.value;
      }
      var receiptData := BuildReceipt(draft, selectedProfile.value, newId, now);
      store.SaveReceipt(receiptData);
      outcome := Saved(receiptData);
    }

    /** `handleSendEmail`: the e-mail dialog opens only with a profile
        selected and a customer e-mail entered. */
    method HandleSendEmail()
      modifies this
      ensures selectedProfile.Some? && draft.customerEmail != "" ==> showEmailModal
      ensures !(selectedProfile.Some? && draft.customerEmail != "") ==> showEmailModal == old(showEmailModal)
      ensures draft == old(draft) && selectedProfile == old(selectedProfile)
      ensures businessProfiles == old(businessProfiles)
    {
      if selectedProfile.None? {
        return;
      }
      if draft.customerEmail == "" {
        return;
      }
      showEmailModal := true;
    }
  }
}
