/** The ledger entry record: `LedgerEntry` with the defaults its post-construction step fills
    in, and the field-preserving part of its dictionary form. */
module LedgerEntries {
  import opened Common
  import opened Decimals

  /** The declared `Literal["debit", "credit"]`. */
  datatype EntryType = Debit | Credit

  /** `to_dict`, with the amount kept as a number rather than its `str` rendering and the
      timestamp as the instant rather than its ISO rendering. */
  datatype EntryDict = EntryDict(
    id: string, timestamp: Instant, account: string, description: string, amount: real,
    currency: string, entryType: EntryType, category: Option<string>,
    tags: seq<string>, metadata: map<string, string>)

  /** The `decimal.InvalidOperation` raised while coercing the amount. */
  datatype ConversionError = InvalidAmount

  const DefaultCurrency: string := "USD"
  const DefaultEntryType: EntryType := Debit

  class LedgerEntry {
    var id: string
    var timestamp: Instant
    var account: string
    var description: string
    var amount: real
    var currency: string
    var entryType: EntryType
    var category: Option<string>
    var tags: seq<string>
    var metadata: map<string, string>

    /** Stores fields that are already normalised. */
    constructor Init(id: string, timestamp: Instant, account: string, description: string, amount: real,
                     currency: string, entryType: EntryType, category: Option<string>,
                     tags: seq<string>, metadata: map<string, string>)
      ensures this.id == id && this.timestamp == timestamp && this.account == account
      ensures this.description == description && this.amount == amount && this.currency == currency
      ensures this.entryType == entryType && this.category == category
      ensures this.tags == tags && this.metadata == metadata
    {
      this.id := id;
      this.timestamp := timestamp;
      this.account := account;
      this.description := description;
      this.amount := amount;
      this.currency := currency;
      this.entryType := entryType;
      this.category := category;
      this.tags := tags;
      this.metadata := metadata;
    }

    /** Dataclass construction followed by `__post_init__`. An omitted `currency` is "USD" and
        an omitted `entry_type` is debit; `category` stays as given; `tags` and `metadata` left
        at (or passed as) `None` become the empty list and map, and supplied ones are kept.
        The amount is coerced to Decimal; a string that does not parse raises. */
    static method Create(id: string, timestamp: Instant, account: string, description: string,
                         amount: PyValue, currency: Option<string>, entryType: Option<EntryType>,
                         category: Option<string>, tags: Option<seq<string>>,
                         metadata: Option<map<string, string>>, parse: string -> Option<real>)
      returns (r: Result<LedgerEntry, ConversionError>)
      ensures r.Err? <==> ToDecimal(amount, parse).None?
      ensures r.Err? ==> r.error == InvalidAmount
      ensures r.Ok? ==> fresh(r.value)
      ensures r.Ok? ==> r.value.id == id && r.value.timestamp == timestamp
      ensures r.Ok? ==> r.value.account == account && r.value.description == description
      ensures r.Ok? ==> r.value.amount == ToDecimal(amount, parse).value
      ensures r.Ok? ==> r.value.currency == (if currency.None? then DefaultCurrency else currency.value)
      ensures r.Ok? ==> r.value.entryType == (if entryType.None? then DefaultEntryType else entryType.value)
      ensures r.Ok? ==> r.value.category == category
      ensures r.Ok? ==> r.value.tags == (if tags.None? then [] else tags.value)
      ensures r.Ok? ==> r.value.metadata == (if metadata.None? then map[] else metadata.value)
    {
      var a := ToDecimal(amount, parse);
      if a.None? {
        return Err(InvalidAmount);
      }
      var cur := if currency.None? then DefaultCurrency else currency.value;
      var kind := if entryType.None? then DefaultEntryType else entryType.value;
      var t := if tags.None? then [] else tags.value;
      var m := if metadata.None? then map[] else metadata.value;
      var e := new LedgerEntry.Init(id, timestamp, account, description, a.value, cur, kind, category, t, m);
      return Ok(e);
    }

    /** The dictionary form passes every field through unchanged. */
    function ToDict(): (d: EntryDict)
      reads this
      ensures d.id == id && d.timestamp == timestamp && d.account == account
      ensures d.description == description && d.amount == amount && d.currency == currency
      ensures d.entryType == entryType && d.category == category
      ensures d.tags == tags && d.metadata == metadata
    {
      EntryDict(id, timestamp, account, description, amount, currency, entryType, category, tags, metadata)
    }
  }
}
