/**
 * The field catalogue (`buildSyncXFieldCatalogue`), the four default columns
 * (`DEFAULT_FIELDS`) and the case-insensitive label search of the
 * "Add export fields" dialog (`includesSearch`, `availableFields`).
 */
module FieldCatalogue {
  import opened Wrappers
  import opened JsText

  /** A `FieldOption`: the label (`title`; `label` is a Dafny keyword) offered in the picker and the path it reads. */
  datatype FieldOption = FieldOption(title: string, path: string)

  /** A `ColumnFieldOrder` (app/config/index.tsx): one active export column; `title` is its `label`. */
  datatype Column = Column(id: string, title: string, path: string)

  /** The one path that is not read from the order but supplied at export time. */
  const StaticTimestampPath: string := "__static.exportedTimestamp"

  /** The namespace of synthetic paths. */
  const StaticPrefix: string := "__static."

  /** Catalogue section: order basics. */
  const OrderBasics: seq<FieldOption> := [
    FieldOption("Order Number", "raw.order_number"),
    FieldOption("Order Name", "raw.name"),
    FieldOption("Order Created Date", "raw.created_at"),
    FieldOption("Order Processed Date", "raw.processed_at"),
    FieldOption("Order Close DateTime", "raw.closed_at"),
    FieldOption("Order Cancelled at", "raw.cancelled_at"),
    FieldOption("Financial Status", "raw.financial_status"),
    FieldOption("Fulfillment Status", "raw.fulfillment_status"),
    FieldOption("Currency", "raw.currency")
  ]

  /** Catalogue section: customer and contact. */
  const CustomerContact: seq<FieldOption> := [
    FieldOption("Email (Order)", "raw.email"),
    FieldOption("Phone (Order)", "raw.phone"),
    FieldOption("Customer Email", "raw.customer.email"),
    FieldOption("Customer First Name", "raw.customer.first_name"),
    FieldOption("Customer Last Name", "raw.customer.last_name"),
    FieldOption("Customer Phone", "raw.customer.phone")
  ]

  /** Catalogue section: sales channel and source. */
  const ChannelSource: seq<FieldOption> := [
    FieldOption("Sales Channel Name", "raw.source_name"),
    FieldOption("Source Identifier", "raw.source_identifier"),
    FieldOption("Checkout Token (GQL deprecated)", "raw.checkout_token")
  ]

  /** Catalogue section: shipping address. */
  const ShippingAddress: seq<FieldOption> := [
    FieldOption("Shipping Name", "raw.shipping_address.name"),
    FieldOption("Shipping Address 1", "raw.shipping_address.address1"),
    FieldOption("Shipping Address 2", "raw.shipping_address.address2"),
    FieldOption("Shipping City", "raw.shipping_address.city"),
    FieldOption("Shipping Province", "raw.shipping_address.province"),
    FieldOption("Shipping Country", "raw.shipping_address.country"),
    FieldOption("Shipping Zip", "raw.shipping_address.zip"),
    FieldOption("Shipping Phone", "raw.shipping_address.phone")
  ]

  /** Catalogue section: billing address. */
  const BillingAddress: seq<FieldOption> := [
    FieldOption("Billing Name", "raw.billing_address.name"),
    FieldOption("Billing Address 1", "raw.billing_address.address1"),
    FieldOption("Billing Address 2", "raw.billing_address.address2"),
    FieldOption("Billing City", "raw.billing_address.city"),
    FieldOption("Billing Province", "raw.billing_address.province"),
    FieldOption("Billing Country", "raw.billing_address.country"),
    FieldOption("Billing Zip", "raw.billing_address.zip"),
    FieldOption("Billing Phone", "raw.billing_address.phone")
  ]

  /** Catalogue section: prices. */
  const Prices: seq<FieldOption> := [
    FieldOption("Subtotal Price Set", "raw.subtotal_price_set.shop_money.amount"),
    FieldOption("Total Price Presentment Amount", "raw.total_price_set.presentment_money.amount"),
    FieldOption("Total Tax Presentment Amount", "raw.total_tax_set.presentment_money.amount")
  ]

  /** Catalogue section: note and the first three note attributes. */
  const NoteAttributes: seq<FieldOption> := [
    FieldOption("Note", "raw.note"),
    FieldOption("Note Attribute 1 Name", "raw.note_attributes[0].name"),
    FieldOption("Note Attribute 1 Value", "raw.note_attributes[0].value"),
    FieldOption("Note Attribute 2 Name", "raw.note_attributes[1].name"),
    FieldOption("Note Attribute 2 Value", "raw.note_attributes[1].value"),
    FieldOption("Note Attribute 3 Name", "raw.note_attributes[2].name"),
    FieldOption("Note Attribute 3 Value", "raw.note_attributes[2].value")
  ]

  /** Catalogue section: the first three properties of the first line item. */
  const LineItemProperties: seq<FieldOption> := [
    FieldOption("Order Line item Properties 1 Name", "raw.line_items[0].properties[0].name"),
    FieldOption("Order Line item Properties 1 Value", "raw.line_items[0].properties[0].value"),
    FieldOption("Order Line item Properties 2 Name", "raw.line_items[0].properties[1].name"),
    FieldOption("Order Line item Properties 2 Value", "raw.line_items[0].properties[1].value"),
    FieldOption("Order Line item Properties 3 Name", "raw.line_items[0].properties[2].name"),
    FieldOption("Order Line item Properties 3 Value", "raw.line_items[0].properties[2].value")
  ]

  /** Catalogue section: the synthetic field. */
  const StaticFields: seq<FieldOption> := [
    FieldOption("Exported Timestamp", "__static.exportedTimestamp")
  ]

  /** Catalogue section: fields deprecated in the GraphQL API. */
  const DeprecatedFields: seq<FieldOption> := [
    FieldOption("Token (GQL deprecated)", "raw.token"),
    FieldOption("Cart Token (GQL deprecated)", "raw.cart_token"),
    FieldOption("Referring Site (GQL deprecated)", "raw.referring_site"),
    FieldOption("Landing Site (GQL deprecated)", "raw.landing_site")
  ]

  /** Catalogue section: miscellaneous. */
  const MiscFields: seq<FieldOption> := [
    FieldOption("Test", "raw.test"),
    FieldOption("User ID (GQL deprecated)", "raw.user_id")
  ]

  /** `buildSyncXFieldCatalogue()`: the fixed (label, path) table, in display order. */
  const Catalogue: seq<FieldOption> :=
    OrderBasics + CustomerContact + ChannelSource + ShippingAddress + BillingAddress + Prices
    + NoteAttributes + LineItemProperties + StaticFields + DeprecatedFields + MiscFields

  /** `DEFAULT_FIELDS`: the columns a new template starts with. */
  const DefaultFields: seq<Column> := [
      Column("name", "Order Name", "raw.name"),
      Column("createdAt", "Order Created Date", "raw.created_at"),
      Column("financialStatus", "Financial Status", "raw.financial_status"),
      Column("totalPrice", "Subtotal Price Set", "raw.subtotal_price_set.shop_money.amount")
  ]

  /** `fieldCatalogue.find((f) => f.path === path)`: the first entry with that path. */
  function FindByPath(catalogue: seq<FieldOption>, path: string): (r: Option<FieldOption>)
    ensures r.Some? ==> r.value in catalogue && r.value.path == path
    ensures r.Some? ==> exists k :: 0 <= k < |catalogue| && catalogue[k] == r.value
                                    && forall j :: 0 <= j < k ==> catalogue[j].path != path
    ensures r.None? ==> forall i :: 0 <= i < |catalogue| ==> catalogue[i].path != path
  {
    if catalogue == [] then None
    else if catalogue[0].path == path then Some(catalogue[0])
    else
      var r := FindByPath(catalogue[1..], path);
      if r.Some? then FirstAfterHead(catalogue, path, r.value); r else r
  }

  /** When the head has another path, the first match in the tail is the first match overall. */
  lemma FirstAfterHead(catalogue: seq<FieldOption>, path: string, v: FieldOption)
    requires catalogue != [] && catalogue[0].path != path
    requires exists k :: 0 <= k < |catalogue[1..]| && catalogue[1..][k] == v
                         && forall j :: 0 <= j < k ==> catalogue[1..][j].path != path
    ensures exists k :: 0 <= k < |catalogue| && catalogue[k] == v
                        && forall j :: 0 <= j < k ==> catalogue[j].path != path
  {
    var k :| 0 <= k < |catalogue[1..]| && catalogue[1..][k] == v
             && forall j :: 0 <= j < k ==> catalogue[1..][j].path != path;
    assert catalogue[k + 1] == v;
    forall j | 0 <= j < k + 1 ensures catalogue[j].path != path {
      if j > 0 {
        assert catalogue[j] == catalogue[1..][j - 1];
      }
    }
  }

  /** No two entries of `catalogue` share a path. */
  predicate PathsDistinct(catalogue: seq<FieldOption>) {
    forall i, j :: 0 <= i < j < |catalogue| ==> catalogue[i].path != catalogue[j].path
  }

  /** No entry of `a` has the path of an entry of `b`. */
  predicate PathsDisjoint(a: seq<FieldOption>, b: seq<FieldOption>) {
    forall i, j :: 0 <= i < |a| && 0 <= j < |b| ==> a[i].path != b[j].path
  }

  lemma DistinctConcat(a: seq<FieldOption>, b: seq<FieldOption>)
    requires PathsDistinct(a) && PathsDistinct(b) && PathsDisjoint(a, b)
    ensures PathsDistinct(a + b)
  {
    var c := a + b;
    forall i, j | 0 <= i < j < |c| ensures c[i].path != c[j].path {
      if j < |a| {
        assert c[i] == a[i] && c[j] == a[j];
      } else if i >= |a| {
        assert c[i] == b[i - |a|] && c[j] == b[j - |a|];
      } else {
        assert c[i] == a[i] && c[j] == b[j - |a|];
      }
    }
  }

  lemma DisjointConcat(a: seq<FieldOption>, b: seq<FieldOption>, c: seq<FieldOption>)
    requires PathsDisjoint(a, c) && PathsDisjoint(b, c)
    ensures PathsDisjoint(a + b, c)
  {
    var ab := a + b;
    forall i, j | 0 <= i < |ab| && 0 <= j < |c| ensures ab[i].path != c[j].path {
      if i < |a| {
        assert ab[i] == a[i];
      } else {
        assert ab[i] == b[i - |a|];
      }
    }
  }

  /** Within sections OrderBasics to ShippingAddress, paths are distinct. */
  lemma SectionsDistinctFromOrderBasics()
    ensures PathsDistinct(OrderBasics)
    ensures PathsDistinct(CustomerContact)
    ensures PathsDistinct(ChannelSource)
    ensures PathsDistinct(ShippingAddress)
  {
  }

  /** Within sections BillingAddress to StaticFields, paths are distinct. */
  lemma SectionsDistinctFromBillingAddress()
    ensures PathsDistinct(BillingAddress)
    ensures PathsDistinct(Prices)
    ensures PathsDistinct(NoteAttributes)
    ensures PathsDistinct(LineItemProperties)
    ensures PathsDistinct(StaticFields)
  {
  }

  /** Within sections DeprecatedFields to MiscFields, paths are distinct. */
  lemma SectionsDistinctFromDeprecatedFields()
    ensures PathsDistinct(DeprecatedFields)
    ensures PathsDistinct(MiscFields)
  {
  }

  /** Section CustomerContact shares no path with section OrderBasics. */
  lemma CustomerContactDisjointFromEarlier()
    ensures PathsDisjoint(OrderBasics, CustomerContact)
  {
  }

  /** Section ChannelSource shares no path with sections OrderBasics to CustomerContact. */
  lemma ChannelSourceDisjointFromEarlier()
    ensures PathsDisjoint(OrderBasics, ChannelSource)
    ensures PathsDisjoint(CustomerContact, ChannelSource)
  {
  }

  /** Section ShippingAddress shares no path with sections OrderBasics to CustomerContact. */
  lemma ShippingAddressDisjointFromOrderBasics()
    ensures PathsDisjoint(OrderBasics, ShippingAddress)
    ensures PathsDisjoint(CustomerContact, ShippingAddress)
  {
  }

  /** Section ShippingAddress shares no path with section ChannelSource. */
  lemma ShippingAddressDisjointFromChannelSource()
    ensures PathsDisjoint(ChannelSource, ShippingAddress)
  {
  }

  /** Section BillingAddress shares no path with sections OrderBasics to CustomerContact. */
  lemma BillingAddressDisjointFromOrderBasics()
    ensures PathsDisjoint(OrderBasics, BillingAddress)
    ensures PathsDisjoint(CustomerContact, BillingAddress)
  {
  }

  /** Section BillingAddress shares no path with sections ChannelSource to ShippingAddress. */
  lemma BillingAddressDisjointFromChannelSource()
    ensures PathsDisjoint(ChannelSource, BillingAddress)
    ensures PathsDisjoint(ShippingAddress, BillingAddress)
  {
  }

  /** Section Prices shares no path with sections OrderBasics to ChannelSource. */
  lemma PricesDisjointFromOrderBasics()
    ensures PathsDisjoint(OrderBasics, Prices)
    ensures PathsDisjoint(CustomerContact, Prices)
    ensures PathsDisjoint(ChannelSource, Prices)
  {
  }

  /** Section Prices shares no path with sections ShippingAddress to BillingAddress. */
  lemma PricesDisjointFromShippingAddress()
    ensures PathsDisjoint(ShippingAddress, Prices)
    ensures PathsDisjoint(BillingAddress, Prices)
  {
  }

  /** Section NoteAttributes shares no path with sections OrderBasics to CustomerContact. */
  lemma NoteAttributesDisjointFromOrderBasics()
    ensures PathsDisjoint(OrderBasics, NoteAttributes)
    ensures PathsDisjoint(CustomerContact, NoteAttributes)
  {
  }

  /** Section NoteAttributes shares no path with sections ChannelSource to BillingAddress. */
  lemma NoteAttributesDisjointFromChannelSource()
    ensures PathsDisjoint(ChannelSource, NoteAttributes)
    ensures PathsDisjoint(ShippingAddress, NoteAttributes)
    ensures PathsDisjoint(BillingAddress, NoteAttributes)
  {
  }

  /** Section NoteAttributes shares no path with section Prices. */
  lemma NoteAttributesDisjointFromPrices()
    ensures PathsDisjoint(Prices, NoteAttributes)
  {
  }

  /** Section LineItemProperties shares no path with sections OrderBasics to CustomerContact. */
  lemma LineItemPropertiesDisjointFromOrderBasics()
    ensures PathsDisjoint(OrderBasics, LineItemProperties)
    ensures PathsDisjoint(CustomerContact, LineItemProperties)
  {
  }

  /** Section LineItemProperties shares no path with sections ChannelSource to BillingAddress. */
  lemma LineItemPropertiesDisjointFromChannelSource()
    ensures PathsDisjoint(ChannelSource, LineItemProperties)
    ensures PathsDisjoint(ShippingAddress, LineItemProperties)
    ensures PathsDisjoint(BillingAddress, LineItemProperties)
  {
  }

  /** Section LineItemProperties shares no path with sections Prices to NoteAttributes. */
  lemma LineItemPropertiesDisjointFromPrices()
    ensures PathsDisjoint(Prices, LineItemProperties)
    ensures PathsDisjoint(NoteAttributes, LineItemProperties)
  {
  }

  /** Section StaticFields shares no path with sections OrderBasics to NoteAttributes. */
  lemma StaticFieldsDisjointFromOrderBasics()
    ensures PathsDisjoint(OrderBasics, StaticFields)
    ensures PathsDisjoint(CustomerContact, StaticFields)
    ensures PathsDisjoint(ChannelSource, StaticFields)
    ensures PathsDisjoint(ShippingAddress, StaticFields)
    ensures PathsDisjoint(BillingAddress, StaticFields)
    ensures PathsDisjoint(Prices, StaticFields)
    ensures PathsDisjoint(NoteAttributes, StaticFields)
  {
  }

  /** Section StaticFields shares no path with section LineItemProperties. */
  lemma StaticFieldsDisjointFromLineItemProperties()
    ensures PathsDisjoint(LineItemProperties, StaticFields)
  {
  }

  /** Section DeprecatedFields shares no path with sections OrderBasics to ChannelSource. */
  lemma DeprecatedFieldsDisjointFromOrderBasics()
    ensures PathsDisjoint(OrderBasics, DeprecatedFields)
    ensures PathsDisjoint(CustomerContact, DeprecatedFields)
    ensures PathsDisjoint(ChannelSource, DeprecatedFields)
  {
  }

  /** Section DeprecatedFields shares no path with sections ShippingAddress to Prices. */
  lemma DeprecatedFieldsDisjointFromShippingAddress()
    ensures PathsDisjoint(ShippingAddress, DeprecatedFields)
    ensures PathsDisjoint(BillingAddress, DeprecatedFields)
    ensures PathsDisjoint(Prices, DeprecatedFields)
  {
  }

  /** Section DeprecatedFields shares no path with sections NoteAttributes to StaticFields. */
  lemma DeprecatedFieldsDisjointFromNoteAttributes()
    ensures PathsDisjoint(NoteAttributes, DeprecatedFields)
    ensures PathsDisjoint(LineItemProperties, DeprecatedFields)
    ensures PathsDisjoint(StaticFields, DeprecatedFields)
  {
  }

  /** Section MiscFields shares no path with sections OrderBasics to BillingAddress. */
  lemma MiscFieldsDisjointFromOrderBasics()
    ensures PathsDisjoint(OrderBasics, MiscFields)
    ensures PathsDisjoint(CustomerContact, MiscFields)
    ensures PathsDisjoint(ChannelSource, MiscFields)
    ensures PathsDisjoint(ShippingAddress, MiscFields)
    ensures PathsDisjoint(BillingAddress, MiscFields)
  {
  }

  /** Section MiscFields shares no path with sections Prices to DeprecatedFields. */
  lemma MiscFieldsDisjointFromPrices()
    ensures PathsDisjoint(Prices, MiscFields)
    ensures PathsDisjoint(NoteAttributes, MiscFields)
    ensures PathsDisjoint(LineItemProperties, MiscFields)
    ensures PathsDisjoint(StaticFields, MiscFields)
    ensures PathsDisjoint(DeprecatedFields, MiscFields)
  {
  }

  /** No two catalogue entries share a path. */
  lemma CataloguePathsDistinct()
    ensures PathsDistinct(Catalogue)
  {
    SectionsDistinctFromOrderBasics();
    SectionsDistinctFromBillingAddress();
    SectionsDistinctFromDeprecatedFields();
    CustomerContactDisjointFromEarlier();
    DistinctConcat(OrderBasics, CustomerContact);
    ChannelSourceDisjointFromEarlier();
    DisjointConcat(OrderBasics, CustomerContact, ChannelSource);
    DistinctConcat(OrderBasics + CustomerContact, ChannelSource);
    ShippingAddressDisjointFromOrderBasics();
    ShippingAddressDisjointFromChannelSource();
    DisjointConcat(OrderBasics, CustomerContact, ShippingAddress);
    DisjointConcat(OrderBasics + CustomerContact, ChannelSource, ShippingAddress);
    DistinctConcat(OrderBasics + CustomerContact + ChannelSource, ShippingAddress);
    BillingAddressDisjointFromOrderBasics();
    BillingAddressDisjointFromChannelSource();
    DisjointConcat(OrderBasics, CustomerContact, BillingAddress);
    DisjointConcat(OrderBasics + CustomerContact, ChannelSource, BillingAddress);
    DisjointConcat(OrderBasics + CustomerContact + ChannelSource, ShippingAddress, BillingAddress);
    DistinctConcat(OrderBasics + CustomerContact + ChannelSource + ShippingAddress, BillingAddress);
    PricesDisjointFromOrderBasics();
    PricesDisjointFromShippingAddress();
    DisjointConcat(OrderBasics, CustomerContact, Prices);
    DisjointConcat(OrderBasics + CustomerContact, ChannelSource, Prices);
    DisjointConcat(OrderBasics + CustomerContact + ChannelSource, ShippingAddress, Prices);
    DisjointConcat(OrderBasics + CustomerContact + ChannelSource + ShippingAddress, BillingAddress, Prices);
    DistinctConcat(OrderBasics + CustomerContact + ChannelSource + ShippingAddress + BillingAddress, Prices);
    NoteAttributesDisjointFromOrderBasics();
    NoteAttributesDisjointFromChannelSource();
    NoteAttributesDisjointFromPrices();
    DisjointConcat(OrderBasics, CustomerContact, NoteAttributes);
    DisjointConcat(OrderBasics + CustomerContact, ChannelSource, NoteAttributes);
    DisjointConcat(OrderBasics + CustomerContact + ChannelSource, ShippingAddress, NoteAttributes);
    DisjointConcat(OrderBasics + CustomerContact + ChannelSource + ShippingAddress, BillingAddress, NoteAttributes);
    DisjointConcat(OrderBasics + CustomerContact + ChannelSource + ShippingAddress + BillingAddress, Prices, NoteAttributes);
    DistinctConcat(OrderBasics + CustomerContact + ChannelSource + ShippingAddress + BillingAddress + Prices, NoteAttributes);
    LineItemPropertiesDisjointFromOrderBasics();
    LineItemPropertiesDisjointFromChannelSource();
    LineItemPropertiesDisjointFromPrices();
    DisjointConcat(OrderBasics, CustomerContact, LineItemProperties);
    DisjointConcat(OrderBasics + CustomerContact, ChannelSource, LineItemProperties);
    DisjointConcat(OrderBasics + CustomerContact + ChannelSource, ShippingAddress, LineItemProperties);
    DisjointConcat(OrderBasics + CustomerContact + ChannelSource + ShippingAddress, BillingAddress, LineItemProperties);
    DisjointConcat(OrderBasics + CustomerContact + ChannelSource + ShippingAddress + BillingAddress, Prices, LineItemProperties);
    DisjointConcat(OrderBasics + CustomerContact + ChannelSource + ShippingAddress + BillingAddress + Prices, NoteAttributes, LineItemProperties);
    DistinctConcat(OrderBasics + CustomerContact + ChannelSource + ShippingAddress + BillingAddress + Prices + NoteAttributes, LineItemProperties);
    StaticFieldsDisjointFromOrderBasics();
    StaticFieldsDisjointFromLineItemProperties();
    DisjointConcat(OrderBasics, CustomerContact, StaticFields);
    DisjointConcat(OrderBasics + CustomerContact, ChannelSource, StaticFields);
    DisjointConcat(OrderBasics + CustomerContact + ChannelSource, ShippingAddress, StaticFields);
    DisjointConcat(OrderBasics + CustomerContact + ChannelSource + ShippingAddress, BillingAddress, StaticFields);
    DisjointConcat(OrderBasics + CustomerContact + ChannelSource + ShippingAddress + BillingAddress, Prices, StaticFields);
    DisjointConcat(OrderBasics + CustomerContact + ChannelSource + ShippingAddress + BillingAddress + Prices, NoteAttributes, StaticFields);
    DisjointConcat(OrderBasics + CustomerContact + ChannelSource + ShippingAddress + BillingAddress + Prices + NoteAttributes, LineItemProperties, StaticFields);
    DistinctConcat(OrderBasics + CustomerContact + ChannelSource + ShippingAddress + BillingAddress + Prices + NoteAttributes + LineItemProperties, StaticFields);
    DeprecatedFieldsDisjointFromOrderBasics();
    DeprecatedFieldsDisjointFromShippingAddress();
    DeprecatedFieldsDisjointFromNoteAttributes();
    DisjointConcat(OrderBasics, CustomerContact, DeprecatedFields);
    DisjointConcat(OrderBasics + CustomerContact, ChannelSource, DeprecatedFields);
    DisjointConcat(OrderBasics + CustomerContact + ChannelSource, ShippingAddress, DeprecatedFields);
    DisjointConcat(OrderBasics + CustomerContact + ChannelSource + ShippingAddress, BillingAddress, DeprecatedFields);
    DisjointConcat(OrderBasics + CustomerContact + ChannelSource + ShippingAddress + BillingAddress, Prices, DeprecatedFields);
    DisjointConcat(OrderBasics + CustomerContact + ChannelSource + ShippingAddress + BillingAddress + Prices, NoteAttributes, DeprecatedFields);
    DisjointConcat(OrderBasics + CustomerContact + ChannelSource + ShippingAddress + BillingAddress + Prices + NoteAttributes, LineItemProperties, DeprecatedFields);
    DisjointConcat(OrderBasics + CustomerContact + ChannelSource + ShippingAddress + BillingAddress + Prices + NoteAttributes + LineItemProperties, StaticFields, DeprecatedFields);
    DistinctConcat(OrderBasics + CustomerContact + ChannelSource + ShippingAddress + BillingAddress + Prices + NoteAttributes + LineItemProperties + StaticFields, DeprecatedFields);
    MiscFieldsDisjointFromOrderBasics();
    MiscFieldsDisjointFromPrices();
    DisjointConcat(OrderBasics, CustomerContact, MiscFields);
    DisjointConcat(OrderBasics + CustomerContact, ChannelSource, MiscFields);
    DisjointConcat(OrderBasics + CustomerContact + ChannelSource, ShippingAddress, MiscFields);
    DisjointConcat(OrderBasics + CustomerContact + ChannelSource + ShippingAddress, BillingAddress, MiscFields);
    DisjointConcat(OrderBasics + CustomerContact + ChannelSource + ShippingAddress + BillingAddress, Prices, MiscFields);
    DisjointConcat(OrderBasics + CustomerContact + ChannelSource + ShippingAddress + BillingAddress + Prices, NoteAttributes, MiscFields);
    DisjointConcat(OrderBasics + CustomerContact + ChannelSource + ShippingAddress + BillingAddress + Prices + NoteAttributes, LineItemProperties, MiscFields);
    DisjointConcat(OrderBasics + CustomerContact + ChannelSource + ShippingAddress + BillingAddress + Prices + NoteAttributes + LineItemProperties, StaticFields, MiscFields);
    DisjointConcat(OrderBasics + CustomerContact + ChannelSource + ShippingAddress + BillingAddress + Prices + NoteAttributes + LineItemProperties + StaticFields, DeprecatedFields, MiscFields);
    DistinctConcat(OrderBasics + CustomerContact + ChannelSource + ShippingAddress + BillingAddress + Prices + NoteAttributes + LineItemProperties + StaticFields + DeprecatedFields, MiscFields);
  }

  /** Every path in `s` starts with the `r` of `raw.`, the order's own record. */
  predicate RawPaths(s: seq<FieldOption>) {
    forall i :: 0 <= i < |s| ==> |s[i].path| > 0 && s[i].path[0] == 'r'
  }

  lemma RawPathsConcat(a: seq<FieldOption>, b: seq<FieldOption>)
    requires RawPaths(a) && RawPaths(b)
    ensures RawPaths(a + b)
  {
    var c := a + b;
    forall i | 0 <= i < |c| ensures |c[i].path| > 0 && c[i].path[0] == 'r' {
      if i < |a| {
        assert c[i] == a[i];
      } else {
        assert c[i] == b[i - |a|];
      }
    }
  }

  lemma RawPathsEarlySections()
    ensures RawPaths(OrderBasics)
    ensures RawPaths(CustomerContact)
    ensures RawPaths(ChannelSource)
    ensures RawPaths(ShippingAddress)
    ensures RawPaths(BillingAddress)
  {
  }

  lemma RawPathsLateSections()
    ensures RawPaths(Prices)
    ensures RawPaths(NoteAttributes)
    ensures RawPaths(LineItemProperties)
    ensures RawPaths(DeprecatedFields)
    ensures RawPaths(MiscFields)
  {
  }

  /** Every catalogue path starts with the `r` of `raw.`, except the synthetic one at position 50. */
  lemma CataloguePathStarts()
    ensures Catalogue[50] == FieldOption("Exported Timestamp", StaticTimestampPath)
    ensures forall i :: 0 <= i < |Catalogue| && i != 50 ==> |Catalogue[i].path| > 0 && Catalogue[i].path[0] == 'r'
  {
    RawPathsEarlySections();
    RawPathsLateSections();
    var before := OrderBasics + CustomerContact + ChannelSource + ShippingAddress + BillingAddress + Prices + NoteAttributes + LineItemProperties;
    var after := DeprecatedFields + MiscFields;
    RawPathsConcat(OrderBasics, CustomerContact);
    RawPathsConcat(OrderBasics + CustomerContact, ChannelSource);
    RawPathsConcat(OrderBasics + CustomerContact + ChannelSource, ShippingAddress);
    RawPathsConcat(OrderBasics + CustomerContact + ChannelSource + ShippingAddress, BillingAddress);
    RawPathsConcat(OrderBasics + CustomerContact + ChannelSource + ShippingAddress + BillingAddress, Prices);
    RawPathsConcat(OrderBasics + CustomerContact + ChannelSource + ShippingAddress + BillingAddress + Prices, NoteAttributes);
    RawPathsConcat(OrderBasics + CustomerContact + ChannelSource + ShippingAddress + BillingAddress + Prices + NoteAttributes, LineItemProperties);
    RawPathsConcat(DeprecatedFields, MiscFields);
    assert Catalogue == before + StaticFields + after;
    assert |before| == 50;
    assert Catalogue[50] == StaticFields[0];
    forall i | 0 <= i < |Catalogue| && i != 50 ensures |Catalogue[i].path| > 0 && Catalogue[i].path[0] == 'r' {
      if i < 50 {
        assert Catalogue[i] == before[i];
      } else {
        assert Catalogue[i] == after[i - 51];
      }
    }
  }

  /**
   * Exactly one catalogue entry is synthetic: the export timestamp at position 50
   * is the only path in the `__static.` namespace, and no other entry has its path.
   */
  lemma ExactlyOneStaticField()
    ensures Catalogue[50] == FieldOption("Exported Timestamp", StaticTimestampPath)
    ensures StaticPrefix <= Catalogue[50].path
    ensures forall i :: 0 <= i < |Catalogue| && i != 50 ==> !(StaticPrefix <= Catalogue[i].path)
    ensures forall i :: 0 <= i < |Catalogue| && i != 50 ==> Catalogue[i].path != StaticTimestampPath
  {
    CataloguePathStarts();
    assert StaticPrefix[0] == '_';
    CataloguePathsDistinct();
  }

  /** Every default column is a catalogue entry, and the four default ids are distinct. */
  lemma DefaultFieldsInCatalogue()
    ensures forall c :: c in DefaultFields ==> FieldOption(c.title, c.path) in Catalogue
    ensures forall i, j :: 0 <= i < j < |DefaultFields| ==> DefaultFields[i].id != DefaultFields[j].id
  {
  }

  /** `includesSearch`: an empty needle matches every label; otherwise an ASCII case-insensitive substring test. */
  function IncludesSearch(haystack: string, needle: string): bool {
    needle == [] || Contains(Lower(haystack), Lower(needle))
  }

  /** A non-empty query matches exactly when its lower-cased text occurs in the lower-cased label. */
  lemma IncludesSearchIff(haystack: string, needle: string)
    ensures IncludesSearch(haystack, needle) <==> needle == [] || exists i :: OccursAt(Lower(haystack), Lower(needle), i)
  {
    ContainsIff(Lower(haystack), Lower(needle));
  }

  /** The search does not depend on the case of the query. */
  lemma IncludesSearchIgnoresCase(haystack: string, needle: string)
    ensures IncludesSearch(haystack, Lower(needle)) == IncludesSearch(haystack, needle)
  {
    LowerIdempotent(needle);
  }

  /** `catalogue.filter(f => includesSearch(f.label, query))`. */
  function Search(catalogue: seq<FieldOption>, query: string): (r: seq<FieldOption>)
    ensures |r| <= |catalogue|
    ensures forall i :: 0 <= i < |r| ==> r[i] in catalogue && IncludesSearch(r[i].title, query)
  {
    if catalogue == [] then []
    else
      var rest := Search(catalogue[1..], query);
      if IncludesSearch(catalogue[0].title, query) then [catalogue[0]] + rest else rest
  }

  /** An entry is listed exactly when it is in the catalogue and its label matches. */
  lemma {:induction false} SearchMembers(catalogue: seq<FieldOption>, query: string, f: FieldOption)
    ensures f in Search(catalogue, query) <==> f in catalogue && IncludesSearch(f.title, query)
  {
    if catalogue != [] {
      SearchMembers(catalogue[1..], query, f);
      assert catalogue == [catalogue[0]] + catalogue[1..];
    }
  }

  /** Filtering distributes over concatenation, so the listing keeps catalogue order. */
  lemma {:induction false} SearchConcat(a: seq<FieldOption>, b: seq<FieldOption>, query: string)
    ensures Search(a + b, query) == Search(a, query) + Search(b, query)
  {
    if a != [] {
      assert (a + b)[0] == a[0];
      assert (a + b)[1..] == a[1..] + b;
      SearchConcat(a[1..], b, query);
      var rest := Search(a[1..], query) + Search(b, query);
      if IncludesSearch(a[0].title, query) {
        assert Search(a + b, query) == [a[0]] + rest;
        assert Search(a, query) == [a[0]] + Search(a[1..], query);
      }
    } else {
      assert a + b == b;
    }
  }

  /** An empty query lists the whole catalogue, in order. */
  lemma {:induction false} SearchEmptyQuery(catalogue: seq<FieldOption>)
    ensures Search(catalogue, "") == catalogue
  {
    if catalogue != [] {
      SearchEmptyQuery(catalogue[1..]);
    }
  }
}
