/**
  The invoice builder: an object that accumulates the header fields, the
  ordered line items, the ordered custom fields and the template overrides of
  one invoice, and the step that reshapes that object into the request body of
  the invoice-generation API by rewriting the object's own attributes.
*/
module Invoice {
  import opened Wrappers
  import opened Json
  import opened Dates

  /** The template labels the API lets a caller override, in the API's own names. */
  const TemplateParameters: seq<string> := [
    "header", "to_title", "ship_to_title", "invoice_number_title", "date_title",
    "payment_terms_title", "due_date_title", "purchase_order_title", "quantity_header",
    "item_header", "unit_cost_header", "amount_header", "subtotal_title", "discounts_title",
    "tax_title", "shipping_title", "total_title", "amount_paid_title", "balance_title",
    "terms_title", "notes_title"
  ]

  /** One billable line. Quantity and unit cost are only copied, never computed with. */
  datatype Item = Item(name: Option<string>, quantity: real, unitCost: real, description: Option<string>)

  /** An extra name/value pair shown on the invoice. */
  datatype CustomField = CustomField(name: Option<string>, value: Option<string>)

  /** Which subtotal lines the rendered invoice shows; tax is "%" or a fixed-amount marker. */
  datatype Fields = Fields(tax: string, discounts: bool, shipping: bool)

  const DefaultFields := Fields("%", false, false)

  /** The exceptions the builder raises. */
  datatype Error =
    | ValueError(message: string)
    | AttributeError(attribute: string)

  /** The message of the ValueError raised for a key outside the allow-list. */
  function InvalidParameterMessage(key: string): string {
    "The parameter " + key + " is not a valid template parameter. See docs."
  }

  /**
    An element of the items or custom-fields list: the object an add method
    created, or the plain attribute record that serialising put in its place.
  */
  datatype Slot<T> = Instance(val: T) | Record(val: T)

  /** The value of a date attribute: a date, or the text serialising put in its place. */
  datatype When = Stamp(date: CalendarDate) | Text(text: string)

  predicate AllRecords<T>(s: seq<Slot<T>>) {
    forall i | 0 <= i < |s| :: s[i].Record?
  }

  predicate AllInstances<T>(s: seq<Slot<T>>) {
    forall i | 0 <= i < |s| :: s[i].Instance?
  }

  /**
    The attribute dictionary of an invoice object, one component per attribute.
    sender and template are None once serialising has removed them; added holds
    the attributes serialising inserts: "from" and one per template override.
  */
  datatype Attributes = Attributes(
    logo: Option<string>, sender: Option<string>, to: string, shipTo: Option<string>,
    number: Option<string>, currency: string, customFields: seq<Slot<CustomField>>,
    date: When, paymentTerms: Option<string>, dueDate: Option<When>,
    items: seq<Slot<Item>>, fields: Fields, discounts: real, tax: real, shipping: real,
    amountPaid: real, notes: Option<string>, terms: Option<string>,
    template: Option<map<string, string>>, added: map<string, Value>)

  /** Nothing has been rewritten yet: the attributes are as the builder methods leave them. */
  predicate Unserialized(a: Attributes) {
    && a.sender.Some? && a.template.Some? && a.added == map[]
    && (a.dueDate.Some? ==> a.dueDate.value.Stamp?)
    && AllInstances(a.items) && AllInstances(a.customFields)
  }

  /**
    The invariant every method keeps: template overrides only use allow-listed
    keys, added attributes are "from" or allow-listed, and while the date is
    still a date nothing has been rewritten.
  */
  predicate WellFormed(a: Attributes) {
    && (a.template.Some? ==> forall k | k in a.template.value :: k in TemplateParameters)
    && (forall k | k in a.added :: k == "from" || k in TemplateParameters)
    && (a.date.Stamp? ==> Unserialized(a))
  }

  /** Every attribute can be written as JSON: no date and no item or field object is left. */
  predicate Serializable(a: Attributes) {
    && a.date.Text? && (a.dueDate.Some? ==> a.dueDate.value.Text?)
    && AllRecords(a.items) && AllRecords(a.customFields)
  }

  function OptStr(o: Option<string>): Value {
    if o.Some? then Str(o.value) else Null
  }

  /** The attribute record of an item, under the attribute names of the item object. */
  function ItemRecord(it: Item): map<string, Value> {
    map["name" := OptStr(it.name), "quantity" := Num(it.quantity),
        "unit_cost" := Num(it.unitCost), "description" := OptStr(it.description)]
  }

  /** The attribute record of a custom field. */
  function CustomFieldRecord(cf: CustomField): map<string, Value> {
    map["name" := OptStr(cf.name), "value" := OptStr(cf.value)]
  }

  function FieldsRecord(f: Fields): map<string, Value> {
    map["tax" := Str(f.tax), "discounts" := Bool(f.discounts), "shipping" := Bool(f.shipping)]
  }

  /** Each template override as a JSON string under its own key. */
  function Overrides(template: map<string, string>): map<string, Value>
  {
    map k | k in template :: Str(template[k])
  }

  function ItemArray(items: seq<Slot<Item>>): seq<Value>
  {
    seq(|items|, i requires 0 <= i < |items| => Obj(ItemRecord(items[i].val)))
  }

  function CustomFieldArray(fields: seq<Slot<CustomField>>): seq<Value>
  {
    seq(|fields|, i requires 0 <= i < |fields| => Obj(CustomFieldRecord(fields[i].val)))
  }

  /** The object's own attributes, named as in the attribute dictionary. */
  function OwnAttributes(a: Attributes): map<string, Value>
    requires Serializable(a)
  {
    map[
      "logo" := OptStr(a.logo), "to" := Str(a.to), "ship_to" := OptStr(a.shipTo),
      "number" := OptStr(a.number), "currency" := Str(a.currency),
      "custom_fields" := Arr(CustomFieldArray(a.customFields)),
      "date" := Str(a.date.text), "payment_terms" := OptStr(a.paymentTerms),
      "due_date" := (if a.dueDate.Some? then Str(a.dueDate.value.text) else Null),
      "items" := Arr(ItemArray(a.items)), "fields" := Obj(FieldsRecord(a.fields)),
      "discounts" := Num(a.discounts), "tax" := Num(a.tax), "shipping" := Num(a.shipping),
      "amount_paid" := Num(a.amountPaid), "notes" := OptStr(a.notes), "terms" := OptStr(a.terms)]
  }

  /** The attribute dictionary written as a JSON object; later insertions win, as in the dictionary. */
  function AsJson(a: Attributes): map<string, Value>
    requires Serializable(a)
  {
    var own := OwnAttributes(a);
    var withSender := if a.sender.Some? then own["sender" := Str(a.sender.value)] else own;
    var withTemplate := if a.template.Some? then withSender["template" := Obj(Overrides(a.template.value))] else withSender;
    withTemplate + a.added
  }

  /** A list whose every element is the attribute record of the corresponding element of s. */
  function Flattened<T>(s: seq<Slot<T>>): seq<Slot<T>>
  {
    seq(|s|, i requires 0 <= i < |s| => Record(s[i].val))
  }

  /** The due date after serialising: its text when there is one, still absent otherwise. */
  function FormattedDueDate(dueDate: Option<When>): Option<When>
    requires dueDate.Some? ==> dueDate.value.Stamp?
  {
    if dueDate.Some? then Some(Text(FormatDate(dueDate.value.date))) else None
  }

  /**
    What serialising does to the attribute dictionary, and what it returns.
    "from" is set to the sender (null once the sender is gone). On a date that
    is already text the formatting step raises; otherwise the dates become
    text, the sender is dropped, items and custom fields become records, the
    template overrides become attributes and the template is dropped, and the
    result is the JSON form of the rewritten dictionary.
  */
  function Serialize(a: Attributes): (Attributes, Result<map<string, Value>, Error>)
    requires WellFormed(a)
  {
    var withFrom := a.(added := a.added["from" := OptStr(a.sender)]);
    if a.date.Text? then
      (withFrom, Failure(AttributeError("strftime")))
    else
      var b := withFrom.(
        sender := None, date := Text(FormatDate(a.date.date)),
        dueDate := FormattedDueDate(a.dueDate),
        items := Flattened(a.items), customFields := Flattened(a.customFields),
        added := withFrom.added + Overrides(a.template.value), template := None);
      (b, Success(AsJson(b)))
  }

  // ----- Names -----

  /** The names of the attributes every invoice object has from construction on. */
  const AttributeNames: set<string> := {
    "logo", "to", "ship_to", "number", "currency", "custom_fields", "date",
    "payment_terms", "due_date", "items", "fields", "discounts", "tax", "shipping",
    "amount_paid", "notes", "terms"
  }

  /** The names a template override must not shadow: the own attributes, "from", "sender" and "template". */
  const ReservedNames: set<string> := AttributeNames + {"from", "sender", "template"}

  /** Whether a name ends in "itle" or "ader", as every template label does. */
  predicate EndsLikeLabel(name: string) {
    var n := |name|;
    && n >= 4
    && (|| (name[n - 4] == 'i' && name[n - 3] == 't' && name[n - 2] == 'l' && name[n - 1] == 'e')
        || (name[n - 4] == 'a' && name[n - 3] == 'd' && name[n - 2] == 'e' && name[n - 1] == 'r'))
  }

  lemma TemplateParametersEndLikeLabels()
    ensures forall k | k in TemplateParameters :: EndsLikeLabel(k)
  {
    assert EndsLikeLabel("header");
    assert EndsLikeLabel("to_title");
    assert EndsLikeLabel("ship_to_title");
    assert EndsLikeLabel("invoice_number_title");
    assert EndsLikeLabel("date_title");
    assert EndsLikeLabel("payment_terms_title");
    assert EndsLikeLabel("due_date_title");
    assert EndsLikeLabel("purchase_order_title");
    assert EndsLikeLabel("quantity_header");
    assert EndsLikeLabel("item_header");
    assert EndsLikeLabel("unit_cost_header");
    assert EndsLikeLabel("amount_header");
    assert EndsLikeLabel("subtotal_title");
    assert EndsLikeLabel("discounts_title");
    assert EndsLikeLabel("tax_title");
    assert EndsLikeLabel("shipping_title");
    assert EndsLikeLabel("total_title");
    assert EndsLikeLabel("amount_paid_title");
    assert EndsLikeLabel("balance_title");
    assert EndsLikeLabel("terms_title");
    assert EndsLikeLabel("notes_title");
  }

  lemma ReservedNamesDoNotEndLikeLabels()
    ensures forall k | k in ReservedNames :: !EndsLikeLabel(k)
  {
  }

  /** No template parameter is named like an attribute, so merging the overrides shadows none. */
  lemma TemplateParametersAreNotReserved()
    ensures forall k | k in TemplateParameters :: k !in ReservedNames
  {
    TemplateParametersEndLikeLabels();
    ReservedNamesDoNotEndLikeLabels();
  }

  /**
    Merging the overrides of an allow-listed template never shadows an attribute,
    "from", "sender" or "template".
  */
  lemma OverridesShadowNothing(template: map<string, string>)
    requires forall k | k in template :: k in TemplateParameters
    ensures forall k | k in Overrides(template) :: k !in ReservedNames
  {
    TemplateParametersAreNotReserved();
  }

  /** A formatted due date reads back as the due date it was made from. */
  lemma FormattedDueDateReadsBack(dueDate: Option<When>)
    requires dueDate.Some? ==> dueDate.value.Stamp?
    ensures FormattedDueDate(dueDate).Some? ==>
              ParseDate(FormattedDueDate(dueDate).value.text) == Some(dueDate.value.date)
  {
    if dueDate.Some? {
      FormatThenParse(dueDate.value.date);
    }
  }

  // ----- What serialising promises -----

  /** A dictionary serialising has produced: JSON-ready, without sender or template, with only "from" and label keys added. */
  predicate Rewritten(b: Attributes) {
    && Serializable(b) && b.sender.None? && b.template.None?
    && forall k | k in b.added :: k == "from" || EndsLikeLabel(k)
  }

  lemma BodyHasNoContainers(b: Attributes)
    requires Rewritten(b)
    ensures "sender" !in AsJson(b) && "template" !in AsJson(b)
  {
    assert AsJson(b) == OwnAttributes(b) + b.added;
  }

  lemma BodyHasAdded(b: Attributes)
    requires Rewritten(b)
    ensures forall k | k in b.added :: k in AsJson(b) && AsJson(b)[k] == b.added[k]
  {
  }

  lemma BodyKeys(b: Attributes)
    requires Rewritten(b)
    ensures AsJson(b).Keys == AttributeNames + b.added.Keys
  {
    assert AsJson(b) == OwnAttributes(b) + b.added;
    assert OwnAttributes(b).Keys == AttributeNames;
  }

  lemma BodyHasDates(b: Attributes)
    requires Rewritten(b)
    ensures AsJson(b)["date"] == Str(b.date.text)
    ensures AsJson(b)["due_date"] == (if b.dueDate.Some? then Str(b.dueDate.value.text) else Null)
  {
    var own := OwnAttributes(b);
    assert AsJson(b) == own + b.added;
    assert own["date"] == Str(b.date.text);
    assert own["due_date"] == (if b.dueDate.Some? then Str(b.dueDate.value.text) else Null);
  }

  lemma BodyHasLists(b: Attributes)
    requires Rewritten(b)
    ensures AsJson(b)["items"] == Arr(ItemArray(b.items))
    ensures AsJson(b)["custom_fields"] == Arr(CustomFieldArray(b.customFields))
  {
  }

  lemma BodyHasUntouched(b: Attributes)
    requires Rewritten(b)
    ensures AsJson(b)["to"] == Str(b.to) && AsJson(b)["currency"] == Str(b.currency)
    ensures AsJson(b)["fields"] == Obj(FieldsRecord(b.fields))
  {
    var own := OwnAttributes(b);
    assert AsJson(b) == own + b.added;
    assert own["to"] == Str(b.to) && own["currency"] == Str(b.currency);
    assert own["fields"] == Obj(FieldsRecord(b.fields));
  }

  /** Serialising yields a rewritten dictionary, and returns it as JSON. */
  lemma SerializeRewrites(a: Attributes)
    requires WellFormed(a) && a.date.Stamp?
    ensures Rewritten(Serialize(a).0)
    ensures Serialize(a).1 == Success(AsJson(Serialize(a).0))
  {
    var b := Serialize(a).0;
    TemplateParametersEndLikeLabels();
    assert forall k | k in b.added :: k == "from" || k in a.template.value;
  }

  /** Serialising keeps the invariant: no key outside the allow-list ever appears. */
  lemma SerializeKeepsWellFormed(a: Attributes)
    requires WellFormed(a)
    ensures WellFormed(Serialize(a).0)
  {
    var b := Serialize(a).0;
    if a.date.Stamp? {
      assert forall k | k in b.added :: k == "from" || k in a.template.value;
    }
  }

  /** The request body names the sender "from". */
  lemma SerializedFrom(a: Attributes)
    requires WellFormed(a) && a.date.Stamp?
    ensures Serialize(a).1.Success?
    ensures "from" in Serialize(a).1.value && Serialize(a).1.value["from"] == Str(a.sender.value)
  {
    SerializeRewrites(a);
    var b := Serialize(a).0;
    BodyHasAdded(b);
    TemplateParametersEndLikeLabels();
    assert b.added["from"] == Str(a.sender.value);
  }

  /** The request body has neither a "sender" nor a "template" key. */
  lemma SerializedWithoutContainers(a: Attributes)
    requires WellFormed(a) && a.date.Stamp?
    ensures Serialize(a).1.Success?
    ensures "sender" !in Serialize(a).1.value && "template" !in Serialize(a).1.value
  {
    SerializeRewrites(a);
    BodyHasNoContainers(Serialize(a).0);
  }

  /** The request body holds the "%d %b %Y" text of the date, and of the due date when there is one. */
  lemma SerializedDates(a: Attributes)
    requires WellFormed(a) && a.date.Stamp?
    ensures Serialize(a).1.Success?
    ensures var w := Serialize(a).1.value;
      && w["date"] == Str(FormatDate(a.date.date))
      && w["due_date"] == (if a.dueDate.Some? then Str(FormatDate(a.dueDate.value.date)) else Null)
  {
    SerializeRewrites(a);
    BodyHasDates(Serialize(a).0);
  }

  /**
    The request body lists the items and the custom fields as arrays of their
    records, as many as were added and in the order they were added.
  */
  lemma SerializedLists(a: Attributes)
    requires WellFormed(a) && a.date.Stamp?
    ensures Serialize(a).1.Success?
    ensures var w := Serialize(a).1.value;
      && w["items"].Arr? && |w["items"].elems| == |a.items|
      && (forall i | 0 <= i < |a.items| :: w["items"].elems[i] == Obj(ItemRecord(a.items[i].val)))
      && w["custom_fields"].Arr? && |w["custom_fields"].elems| == |a.customFields|
      && (forall i | 0 <= i < |a.customFields| ::
            w["custom_fields"].elems[i] == Obj(CustomFieldRecord(a.customFields[i].val)))
  {
    SerializeRewrites(a);
    BodyHasLists(Serialize(a).0);
  }

  /** Every template override is a top-level key of the request body with its text. */
  lemma SerializedOverrides(a: Attributes)
    requires WellFormed(a) && a.date.Stamp?
    ensures Serialize(a).1.Success?
    ensures var w := Serialize(a).1.value;
      forall k | k in a.template.value :: k in w && w[k] == Str(a.template.value[k])
  {
    SerializeRewrites(a);
    var b := Serialize(a).0;
    BodyHasAdded(b);
    assert forall k | k in a.template.value :: k in b.added && b.added[k] == Str(a.template.value[k]);
  }

  /** The recipient, the currency and the subtotal display record reach the request body unchanged. */
  lemma SerializedUntouched(a: Attributes)
    requires WellFormed(a) && a.date.Stamp?
    ensures Serialize(a).1.Success?
    ensures var w := Serialize(a).1.value;
      && w["to"] == Str(a.to) && w["currency"] == Str(a.currency)
      && w["fields"] == Obj(FieldsRecord(a.fields))
  {
    SerializeRewrites(a);
    BodyHasUntouched(Serialize(a).0);
  }

  /** Serialising inserts "from" and one attribute per template override, and no other. */
  lemma SerializedAddedKeys(a: Attributes)
    requires WellFormed(a) && a.date.Stamp?
    ensures Serialize(a).0.added.Keys == {"from"} + a.template.value.Keys
  {
  }

  /**
    The request body has exactly the object's own attributes, "from" and one key
    per template override: the sender and the template are gone.
  */
  lemma SerializedKeys(a: Attributes)
    requires WellFormed(a) && a.date.Stamp?
    ensures Serialize(a).1.Success?
    ensures Serialize(a).1.value.Keys == AttributeNames + {"from"} + a.template.value.Keys
  {
    SerializeRewrites(a);
    SerializedAddedKeys(a);
    BodyKeys(Serialize(a).0);
  }

  /**
    Serialising rewrites the invoice itself: afterwards it has no sender and no
    template and its date is text, so serialising it again raises, after
    resetting "from" to null.
  */
  lemma SerializeTwiceFails(a: Attributes)
    requires WellFormed(a) && a.date.Stamp?
    ensures var b := Serialize(a).0;
      && b.sender.None? && b.template.None? && b.date.Text?
      && Serialize(b).1 == Failure(AttributeError("strftime"))
      && Serialize(b).0.added["from"] == Null
  {
    SerializeKeepsWellFormed(a);
  }

  // ----- The builder object -----

  /** Replaces every object of a list by its attribute record, index by index, keeping the order. */
  method Flatten<T>(s: seq<Slot<T>>) returns (t: seq<Slot<T>>)
    ensures |t| == |s|
    ensures forall i | 0 <= i < |s| :: t[i] == Record(s[i].val)
  {
    t := s;
    var i := 0;
    while i < |t|
      invariant 0 <= i <= |t| == |s|
      invariant forall j | 0 <= j < i :: t[j] == Record(s[j].val)
      invariant forall j | i <= j < |t| :: t[j] == s[j]
    {
      t := t[i := Record(t[i].val)];
      i := i + 1;
    }
  }

  /** Adds every template override to the attributes as a key of its own. */
  method MergeOverrides(attributes: map<string, Value>, template: map<string, string>)
    returns (merged: map<string, Value>)
    ensures merged.Keys == attributes.Keys + template.Keys
    ensures forall k | k in template :: merged[k] == Str(template[k])
    ensures forall k | k in attributes && k !in template :: merged[k] == attributes[k]
  {
    merged := attributes;
    var pending := template.Keys;
    while pending != {}
      invariant pending <= template.Keys
      invariant merged.Keys == attributes.Keys + (template.Keys - pending)
      invariant forall k | k in template.Keys - pending :: merged[k] == Str(template[k])
      invariant forall k | k in attributes && k !in template.Keys - pending :: merged[k] == attributes[k]
      decreases pending
    {
      var k :| k in pending;
      merged := merged[k := Str(template[k])];
      pending := pending - {k};
    }
  }

  /**
    The steps of serialising, on the attribute dictionary: set "from", format
    the dates, drop the sender, flatten the two lists index by index, copy the
    template overrides out and drop the template.
  */
  method Rewrite(a: Attributes) returns (b: Attributes, r: Result<map<string, Value>, Error>)
    requires WellFormed(a)
    ensures (b, r) == Serialize(a)
    // only sender, date, due_date, the two lists, template and the added attributes change
    ensures b == a.(sender := b.sender, date := b.date, dueDate := b.dueDate, items := b.items,
                    customFields := b.customFields, template := b.template, added := b.added)
  {
    b := a.(added := a.added["from" := OptStr(a.sender)]);
    if b.date.Text? {
      return b, Failure(AttributeError("strftime"));
    }
    b := b.(date := Text(FormatDate(b.date.date)));
    b := b.(dueDate := FormattedDueDate(b.dueDate));
    b := b.(sender := None);
    var items := Flatten(b.items);
    var customFields := Flatten(b.customFields);
    var added := MergeOverrides(b.added, b.template.value);
    assert items == Flattened(a.items);
    assert customFields == Flattened(a.customFields);
    assert added == b.added + Overrides(a.template.value);
    b := b.(items := items, customFields := customFields, added := added, template := None);
    r := Success(AsJson(b));
  }

  class InvoiceGenerator {
    var logo: Option<string>
    var sender: Option<string>
    var to: string
    var shipTo: Option<string>
    var number: Option<string>
    var currency: string
    var customFields: seq<Slot<CustomField>>
    var date: When
    var paymentTerms: Option<string>
    var dueDate: Option<When>
    var items: seq<Slot<Item>>
    var fields: Fields
    var discounts: real
    var tax: real
    var shipping: real
    var amountPaid: real
    var notes: Option<string>
    var terms: Option<string>
    var template: Option<map<string, string>>
    var added: map<string, Value>

    /** The object's attribute dictionary. */
    function State(): Attributes
      reads this
    {
      Attributes(logo, sender, to, shipTo, number, currency, customFields, date, paymentTerms,
                 dueDate, items, fields, discounts, tax, shipping, amountPaid, notes, terms,
                 template, added)
    }

    ghost predicate Valid()
      reads this
    {
      WellFormed(State())
    }

    constructor (sender: string, to: string, date: CalendarDate,
                 logo: Option<string> := None, shipTo: Option<string> := None,
                 number: Option<string> := None, paymentTerms: Option<string> := None,
                 dueDate: Option<CalendarDate> := None, notes: Option<string> := None,
                 terms: Option<string> := None, currency: string := "USD",
                 discounts: real := 0.0, tax: real := 0.0, shipping: real := 0.0,
                 amountPaid: real := 0.0)
      ensures Valid() && Unserialized(State())
      ensures this.sender == Some(sender) && this.to == to && this.date == Stamp(date)
      ensures this.logo == logo && this.shipTo == shipTo && this.number == number
      ensures this.paymentTerms == paymentTerms && this.notes == notes && this.terms == terms
      ensures this.dueDate == (if dueDate.Some? then Some(Stamp(dueDate.value)) else None)
      ensures this.currency == currency && this.discounts == discounts && this.tax == tax
      ensures this.shipping == shipping && this.amountPaid == amountPaid
      ensures items == [] && customFields == [] && template == Some(map[])
      ensures fields == DefaultFields && added == map[]
    {
      this.logo := logo;
      this.sender := Some(sender);
      this.to := to;
      this.shipTo := shipTo;
      this.number := number;
      this.currency := currency;
      this.customFields := [];
      this.date := Stamp(date);
      this.paymentTerms := paymentTerms;
      this.dueDate := if dueDate.Some? then Some(Stamp(dueDate.value)) else None;
      this.items := [];
      this.fields := DefaultFields;
      this.discounts := discounts;
      this.tax := tax;
      this.shipping := shipping;
      this.amountPaid := amountPaid;
      this.notes := notes;
      this.terms := terms;
      this.template := Some(map[]);
      this.added := map[];
    }

    /** Appends a custom field; nothing is checked. */
    method AddCustomField(name: Option<string> := None, value: Option<string> := None)
      requires Valid()
      modifies this`customFields
      ensures Valid()
      ensures customFields == old(customFields) + [Instance(CustomField(name, value))]
    {
      customFields := customFields + [Instance(CustomField(name, value))];
    }

    /** Appends an item; quantity and unit cost are accepted whatever their sign. */
    method AddItem(name: Option<string> := None, quantity: real := 0.0, unitCost: real := 0.0,
                   description: Option<string> := None)
      requires Valid()
      modifies this`items
      ensures Valid()
      ensures items == old(items) + [Instance(Item(name, quantity, unitCost, description))]
    {
      items := items + [Instance(Item(name, quantity, unitCost, description))];
    }

    /**
      Overrides one template label. A key outside the allow-list raises
      ValueError naming the key; an allow-listed key is stored, unless
      serialising has already removed the template attribute.
    */
    method SetTemplateText(key: string, value: string) returns (r: Outcome<Error>)
      requires Valid()
      modifies this`template
      ensures Valid()
      ensures key !in TemplateParameters ==>
                r == Fail(ValueError(InvalidParameterMessage(key))) && template == old(template)
      ensures key in TemplateParameters && old(template).Some? ==>
                r == Pass && template == Some(old(template).value[key := value])
      ensures key in TemplateParameters && old(template).None? ==>
                r == Fail(AttributeError("template")) && template == old(template)
    {
      if key in TemplateParameters {
        if template.Some? {
          template := Some(template.value[key := value]);
          r := Pass;
        } else {
          r := Fail(AttributeError("template"));
        }
      } else {
        r := Fail(ValueError(InvalidParameterMessage(key)));
      }
    }

    /** Replaces the subtotal display record wholesale. */
    method ToggleSubtotal(tax: string := "%", discounts: bool := false, shipping: bool := false)
      requires Valid()
      modifies this`fields
      ensures Valid()
      ensures fields == Fields(tax, discounts, shipping)
    {
      fields := Fields(tax, discounts, shipping);
    }

    /**
      Reshapes the object into the API's request body by rewriting its own
      attributes, and returns the JSON form of the rewritten attribute dictionary.
    */
    method ToJson() returns (r: Result<map<string, Value>, Error>)
      requires Valid()
      modifies this`added, this`date, this`dueDate, this`sender, this`items, this`customFields, this`template
      ensures Valid()
      ensures (State(), r) == Serialize(old(State()))
    {
      var before := State();
      var rewritten;
      rewritten, r := Rewrite(before);
      added, date, dueDate, sender, items, customFields, template :=
        rewritten.added, rewritten.date, rewritten.dueDate, rewritten.sender,
        rewritten.items, rewritten.customFields, rewritten.template;
      assert State() == rewritten;
      SerializeKeepsWellFormed(before);
    }
  }
}
