# Invoice generator, modelled in Dafny

The Python program is a client for the invoice-generator.com API. It has two parts:

- The `InvoiceGenerator` builder. It holds an invoice's header fields, an ordered list of items, an ordered list of custom fields, a subtotal display record and a dictionary of template-label overrides. A key outside the 21-name allow-list is refused with a `ValueError`.
- Serialisation (`_to_json`). It rewrites the builder's own attribute dictionary into the API's request body:
  - the sender goes under "from";
  - dates are written as `"%d %b %Y"` text, and a missing due date stays null;
  - items and custom fields become plain records;
  - template overrides become top-level keys;
  - "sender" and "template" are dropped.

A batch script turns every cleaned transaction whose amount is not negative into one invoice. The invoice is from "EA2 Consulting" to the transaction's description, dated like the transaction, and has one item: one unit of "Consultative services" priced at the amount.

Modules:

- `Wrappers`: Option, Result and Outcome.
- `Json`: JSON values.
- `Dates`: the `"%d %b %Y"` formatter and its inverse.
- `Invoice`: the attribute dictionary as the `Attributes` datatype, with:
  - the pure specification `Serialize`;
  - the step-by-step `Rewrite`, `Flatten` and `MergeOverrides` that implement it;
  - the `InvoiceGenerator` class, whose fields are the attributes and whose methods update them in place.
- `Batch`: the script's filter and loop.

Serialising works on the object itself, as the source does. The model keeps that aliasing:

- `ToJson` leaves the object in the rewritten state and returns the JSON form of that dictionary, a snapshot that later changes to the object do not reach.
- After it, the object has no sender and no template, and its date is text.
- A second `ToJson` therefore first resets "from" to null, then fails with `AttributeError` (`SerializeTwiceFails`).
- `SetTemplateText` with a valid key fails with `AttributeError` once the template is gone.

## Model

| member | source | states |
|---|---|---|
| Dates.FormatDate | invoice_generator.py:15 | the text is 11 characters: a two-digit day, a space, the English month abbreviation, a space and a four-digit year, each part denoting the date's own component |
| Dates.FormatThenParse | invoice_generator.py:15 | the date format loses nothing: parsing the formatted text gives the date back |
| Dates.ParseThenFormat | invoice_generator.py:15 | every text that parses as a date is exactly the formatted text of that date |
| Dates.FormatDateInjective | invoice_generator.py:15 | distinct dates are written as distinct texts |
| Dates.FormatExample | invoice_generator.py:15 | 5 January 2024 is written "05 Jan 2024" |
| Invoice.OverridesShadowNothing | invoice_generator.py:103-104 | the overrides of an allow-listed template land on keys that are neither an attribute nor "from", "sender" or "template", so writing them into the dictionary overwrites none of those |
| Invoice.FormattedDueDateReadsBack | invoice_generator.py:94-97 | a due date that is present is written as text that reads back as that very due date |
| Invoice.TemplateParametersAreNotReserved | invoice_generator.py:19-41 | no allow-listed template label is named like an attribute, "from", "sender" or "template", so merging overrides shadows none of them |
| Invoice.SerializeRewrites | invoice_generator.py:91-105 | on an object not yet serialised, serialising drops sender and template, leaves every attribute JSON-ready, and returns the JSON form of the rewritten dictionary |
| Invoice.SerializeKeepsWellFormed | invoice_generator.py:91-105 | serialising keeps the invariant: template keys and added attribute keys stay within the allow-list plus "from" |
| Invoice.SerializedFrom | invoice_generator.py:92 | the request body carries the sender under "from" |
| Invoice.SerializedWithoutContainers | invoice_generator.py:98 | the request body has no "sender" key and no "template" key |
| Invoice.SerializedDates | invoice_generator.py:93-97 | the body's date is the formatted date; its due date is the formatted due date when there is one and null otherwise |
| Invoice.SerializedLists | invoice_generator.py:99-102 | the body's items and custom fields are arrays of the records of the added entries, same length and same order |
| Invoice.SerializedOverrides | invoice_generator.py:103-104 | every template override is a top-level key of the body with its text |
| Invoice.SerializedAddedKeys | invoice_generator.py:92-104 | serialising inserts exactly "from" and one attribute per template override into the dictionary |
| Invoice.SerializedKeys | invoice_generator.py:91-105 | the request body has exactly the seventeen own attributes, "from" and one key per template override, and nothing else |
| Invoice.SerializedUntouched | invoice_generator.py:91 | the recipient, the currency and the subtotal display record reach the body unchanged |
| Invoice.SerializeTwiceFails | invoice_generator.py:91-93 | serialising rewrites the object itself, so serialising it again sets "from" to null and then raises AttributeError on the date that is already text |
| Invoice.Flatten | invoice_generator.py:99-102 | the index loop replaces every element by its attribute record, in place of the element it was |
| Invoice.MergeOverrides | invoice_generator.py:103-104 | the loop stores every template override under its key and leaves every other attribute as it was |
| Invoice.Rewrite | invoice_generator.py:82-105 | the step-by-step rewrite yields exactly what Serialize specifies, and changes only sender, date, due date, the two lists, template and the inserted attributes |
| Invoice.InvoiceGenerator.constructor | invoice_generator.py:43-80 | the new object holds the given values, empty item and custom-field lists, an empty template and the default subtotal record (tax "%", no discounts, no shipping) |
| Invoice.InvoiceGenerator.AddCustomField | invoice_generator.py:108-110 | exactly one custom field with the given name and value is appended; earlier ones are untouched |
| Invoice.InvoiceGenerator.AddItem | invoice_generator.py:112-121 | exactly one item with the given fields is appended, whatever the sign of quantity and unit cost; earlier items are untouched |
| Invoice.InvoiceGenerator.SetTemplateText | invoice_generator.py:139-148 | an allow-listed key stores its text and leaves the other overrides; any other key raises ValueError naming the key and leaves the template as it was |
| Invoice.InvoiceGenerator.ToggleSubtotal | invoice_generator.py:150-152 | the subtotal display record is replaced wholesale by the given values |
| Invoice.InvoiceGenerator.ToJson | invoice_generator.py:82-105 | the object's new attributes and the returned body are what Serialize gives for its old attributes, and the invariant is kept |
| Batch.Billable | invoice_generator.py:190-192 | only transactions of the file with an amount that is not negative are billed, never more than there are |
| Batch.BillableMembers | invoice_generator.py:190-192 | a transaction is billed exactly when it is in the file and its amount is not negative |
| Batch.BillableAppend | invoice_generator.py:190-192 | billing keeps the file order: the billed part of a concatenation is the concatenation of the billed parts |
| Batch.BillableAll | invoice_generator.py:190-192 | with no negative amount every transaction is billed, in order |
| Batch.BillableExample | invoice_generator.py:190-192 | a negative amount is skipped and a zero amount is billed |
| Batch.Draft | invoice_generator.py:193-198 | the invoice built for a transaction is a fresh, well-formed invoice object |
| Batch.SubmissionBody | invoice_generator.py:193-198 | the body for a transaction is from "EA2 Consulting", is addressed to the description, carries the formatted date and no due date, and holds one item of quantity 1 priced at the amount |
| Batch.RequestBody | invoice_generator.py:123-125 | serialising the invoice of a transaction succeeds, with this body |
| Batch.Bill | invoice_generator.py:193-199 | building the invoice, adding the service item and serialising it yields the transaction's request body |
| Batch.RunBatch | invoice_generator.py:187-199 | the loop produces one request body per billed transaction, in file order |

## Left out

- Sending the request, checking the status code and writing the PDF (`download`, lines 123-137) are network and file I/O. The model stops at the request body. The failure raised for a status other than 200 is not modelled, so in `Batch.RunBatch` every billed row produces a body.
- The request body is modelled as a dictionary. The text that `json.dumps` produces, its key order and the `json.loads` round trip in `download` are not modelled.
- `locale.setlocale` is not modelled. The month abbreviations are the English ones the configured locale gives.
- The `datetime.now` default for the invoice date is not modelled because it reads the clock. The constructor takes the date as a parameter.
- Dates.FormatDate: only years 1000 to 9999 are modelled. Platforms write other years with a varying number of digits.
- Reading the transactions file, the `clean` step (parsing `%m-%d-%Y` dates and amounts) and the errors it raises are not modelled. `Batch.Transaction` holds a row after cleaning.
- The one-second pause between rows and the output path `invoices/<date>.pdf` are not modelled. Both only matter to I/O.
- Numbers are modelled as unbounded reals. The model does not capture the difference between Python ints and floats, floating-point rounding, NaN or infinities. For example, `amount < 0` is false for NaN, and the model has no such value.
- Attributes are typed (`string`, `Option<string>`, `real`). Python accepts a value of any type for every parameter.
- The `""` default of `Item`'s description is not modelled, because `add_item` always passes a description.
- Invoice.SerializedFrom, Invoice.SerializedDates, Invoice.SerializedLists, Invoice.SerializedOverrides, Invoice.SerializedUntouched: these state the body of a first serialisation, while the date is still a date. Later calls are covered only by Invoice.SerializeTwiceFails.
- The class constants `URL`, `LOCALE` and `TIMEZONE` are used only by the parts above.
