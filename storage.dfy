/** The persistence layer: `localStorage` as a map from key to stored value.
    Each collection is held as one whole list under its own key; a save loads
    the list, replaces the entry with the same id or appends, and writes
    the list back; a delete writes back the list without that id. JSON
    encoding is the identity here. */
module Storage {
  import opened Types
  import ById

  const ProfilesKey := "receipt_business_profiles"
  const ReceiptsKey := "receipt_receipts"
  const CurrentProfileKey := "receipt_current_profile"
  const SettingsKey := "receipt_settings"
  /** The invoice collection's key; the repository does not define it. */
  const InvoicesKey := "receipt_invoices"

  /** What a key can hold once parsed. */
  datatype Value =
    | ProfileList(profiles: seq<BusinessProfile>)
    | ReceiptList(receipts: seq<Receipt>)
    | InvoiceList(invoices: seq<Invoice>)
    | ProfileRecord(profile: BusinessProfile)
    | SettingsRecord(settings: Settings)

  /** The settings `getSettings` answers when none are stored. */
  const DefaultSettings := Settings("USD", 0.0, "en", "MM/dd/yyyy", None, None, None, None)

  function ProfileId(p: BusinessProfile): string { p.id }
  function ReceiptId(r: Receipt): string { r.id }
  function InvoiceId(v: Invoice): string { v.id }

  class Store {
    var data: map<string, Value>

    /** An empty store. */
    constructor()
      ensures data == map[]
    {
      data := map[];
    }

    // -------------------------------------------------------------------
    // Reads. A key that is absent reads as the empty list, no profile or
    // the default settings.

    /** `getBusinessProfiles`. */
    function GetBusinessProfiles(): (ps: seq<BusinessProfile>)
      reads this
      ensures ProfilesKey !in data ==> ps == []
    {
      if ProfilesKey in data && data[ProfilesKey].ProfileList? then data[ProfilesKey].profiles else []
    }

    /** `getCurrentProfile`. */
    function GetCurrentProfile(): (p: Option<BusinessProfile>)
      reads this
      ensures CurrentProfileKey !in data ==> p == None
    {
      if CurrentProfileKey in data && data[CurrentProfileKey].ProfileRecord?
      then Some(data[CurrentProfileKey].profile) else None
    }

    /** `getReceipts`. */
    function GetReceipts(): (rs: seq<Receipt>)
      reads this
      ensures ReceiptsKey !in data ==> rs == []
    {
      if ReceiptsKey in data && data[ReceiptsKey].ReceiptList? then data[ReceiptsKey].receipts else []
    }

    /** `getReceiptById`: the first stored receipt with that id. */
    function GetReceiptById(id: string): (r: Option<Receipt>)
      reads this
      ensures r.None? <==> forall j :: 0 <= j < |GetReceipts()| ==> GetReceipts()[j].id != id
      ensures r.Some? ==> r.value in GetReceipts() && r.value.id == id
      ensures r.Some? ==> exists i :: 0 <= i < |GetReceipts()| && GetReceipts()[i] == r.value &&
                              forall j :: 0 <= j < i ==> GetReceipts()[j].id != id
    {
      ById.Find(GetReceipts(), ReceiptId, id)
    }

    /** `getSettings`. */
    function GetSettings(): (s: Settings)
      reads this
      ensures SettingsKey !in data ==> s == DefaultSettings
    {
      if SettingsKey in data && data[SettingsKey].SettingsRecord? then data[SettingsKey].settings
      else DefaultSettings
    }

    /** The stored invoices, read like the receipts. */
    function GetInvoices(): (vs: seq<Invoice>)
      reads this
      ensures InvoicesKey !in data ==> vs == []
    {
      if InvoicesKey in data && data[InvoicesKey].InvoiceList? then data[InvoicesKey].invoices else []
    }

    /** The first stored invoice with that id. */
    function GetInvoiceById(id: string): (v: Option<Invoice>)
      reads this
      ensures v.None? <==> forall j :: 0 <= j < |GetInvoices()| ==> GetInvoices()[j].id != id
      ensures v.Some? ==> v.value in GetInvoices() && v.value.id == id
      ensures v.Some? ==> exists i :: 0 <= i < |GetInvoices()| && GetInvoices()[i] == v.value &&
                              forall j :: 0 <= j < i ==> GetInvoices()[j].id != id
    {
      ById.Find(GetInvoices(), InvoiceId, id)
    }

    // -------------------------------------------------------------------
    // Writes. Each one rewrites its own key and leaves every other key as
    // it was.

    /** `saveBusinessProfile`: replace the first profile with the same id in
        place, or append. */
    method SaveBusinessProfile(profile: BusinessProfile)
      modifies this
      ensures data == old(data)[ProfilesKey := ProfileList(ById.Upsert(old(GetBusinessProfiles()), ProfileId, profile))]
      ensures ById.Find(GetBusinessProfiles(), ProfileId, profile.id) == Some(profile)
      ensures GetCurrentProfile() == old(GetCurrentProfile()) && GetReceipts() == old(GetReceipts())
    {
      var profiles := GetBusinessProfiles();
      var existingIndex := ById.FindIndex(profiles, ProfileId, profile.id);
      if existingIndex >= 0 {
        profiles := profiles[existingIndex := profile];
      } else {
        profiles := profiles + [profile];
      }
      data := data[ProfilesKey := ProfileList(profiles)];
      ById.FindAfterUpsert(old(GetBusinessProfiles()), ProfileId, profile);
    }

    /** `deleteBusinessProfile`: keep the profiles with another id, in order.
        The current-profile key is not touched, even when it holds the
        deleted profile. */
    method DeleteBusinessProfile(id: string)
      modifies this
      ensures data == old(data)[ProfilesKey := ProfileList(ById.RemoveId(old(GetBusinessProfiles()), ProfileId, id))]
      ensures ById.IsSubsequence(GetBusinessProfiles(), old(GetBusinessProfiles()))
      ensures forall p :: p in GetBusinessProfiles() <==> p in old(GetBusinessProfiles()) && p.id != id
      ensures GetCurrentProfile() == old(GetCurrentProfile())
    {
      var profiles := GetBusinessProfiles();
      ById.RemoveIdSpec(profiles, ProfileId, id);
      data := data[ProfilesKey := ProfileList(ById.RemoveId(profiles, ProfileId, id))];
    }

    /** `setCurrentProfile`. */
    method SetCurrentProfile(profile: BusinessProfile)
      modifies this
      ensures data == old(data)[CurrentProfileKey := ProfileRecord(profile)]
      ensures GetCurrentProfile() == Some(profile)
      ensures GetBusinessProfiles() == old(GetBusinessProfiles())
    {
      data := data[CurrentProfileKey := ProfileRecord(profile)];
    }

    /** `saveReceipt`: replace the first receipt with the same id in place,
        or append; afterwards `getReceiptById` finds it. */
    method SaveReceipt(receipt: Receipt)
      modifies this
      ensures data == old(data)[ReceiptsKey := ReceiptList(ById.Upsert(old(GetReceipts()), ReceiptId, receipt))]
      ensures GetReceiptById(receipt.id) == Some(receipt)
      ensures forall id :: id != receipt.id ==> GetReceiptById(id) == old(GetReceiptById(id))
    {
      var receipts := GetReceipts();
      var existingIndex := ById.FindIndex(receipts, ReceiptId, receipt.id);
      if existingIndex >= 0 {
        receipts := receipts[existingIndex := receipt];
      } else {
        receipts := receipts + [receipt];
      }
      data := data[ReceiptsKey := ReceiptList(receipts)];
      ById.FindAfterUpsert(old(GetReceipts()), ReceiptId, receipt);
      forall id | id != receipt.id
        ensures ById.Find(receipts, ReceiptId, id) == ById.Find(old(GetReceipts()), ReceiptId, id)
      {
        ById.FindOtherAfterUpsert(old(GetReceipts()), ReceiptId, receipt, id);
      }
    }

    /** `deleteReceipt`: keep the receipts with another id, in order. */
    method DeleteReceipt(id: string)
      modifies this
      ensures data == old(data)[ReceiptsKey := ReceiptList(ById.RemoveId(old(GetReceipts()), ReceiptId, id))]
      ensures ById.IsSubsequence(GetReceipts(), old(GetReceipts()))
      ensures forall r :: r in GetReceipts() <==> r in old(GetReceipts()) && r.id != id
      ensures GetReceiptById(id) == None
    {
      var receipts := GetReceipts();
      ById.RemoveIdSpec(receipts, ReceiptId, id);
      ById.FindAfterRemove(receipts, ReceiptId, id);
      data := data[ReceiptsKey := ReceiptList(ById.RemoveId(receipts, ReceiptId, id))];
    }

    /** `saveSettings`. */
    method SaveSettings(settings: Settings)
      modifies this
      ensures data == old(data)[SettingsKey := SettingsRecord(settings)]
      ensures GetSettings() == settings
    {
      data := data[SettingsKey := SettingsRecord(settings)];
    }

    /** The invoice save the invoice screen calls, mirroring `saveReceipt`. */
    method SaveInvoice(invoice: Invoice)
      modifies this
      ensures data == old(data)[InvoicesKey := InvoiceList(ById.Upsert(old(GetInvoices()), InvoiceId, invoice))]
      ensures GetInvoiceById(invoice.id) == Some(invoice)
    {
      var invoices := GetInvoices();
      var existingIndex := ById.FindIndex(invoices, InvoiceId, invoice.id);
      if existingIndex >= 0 {
        invoices := invoices[existingIndex := invoice];
      } else {
        invoices := invoices + [invoice];
      }
      data := data[InvoicesKey := InvoiceList(invoices)];
      ById.FindAfterUpsert(old(GetInvoices()), InvoiceId, invoice);
    }
  }

  /** The five keys are distinct, so a write under one never reaches another. */
  lemma KeysDistinct()
    ensures |{ProfilesKey, ReceiptsKey, CurrentProfileKey, SettingsKey, InvoicesKey}| == 5
  {
    assert ProfilesKey[8] == 'b' && ReceiptsKey[8] == 'r' && CurrentProfileKey[8] == 'c'
      && SettingsKey[8] == 's' && InvoicesKey[8] == 'i';
  }
}
