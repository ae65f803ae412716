/**
  The script that bills a list of bank transactions: every transaction whose
  amount is not negative becomes one invoice from the consultancy to the
  transaction's description, dated like the transaction, with a single line of
  consultative services worth the amount; the invoice's request body is what
  would be sent to the rendering service.
*/
module Batch {
  import opened Wrappers
  import opened Json
  import opened Dates
  import opened Invoice

  /** One cleaned row of the transactions file. */
  datatype Transaction = Transaction(date: CalendarDate, description: string, amount: real)

  const Sender := "EA2 Consulting"
  const ServiceName := "Consultative services"

  /** The transactions that are billed, in file order: those whose amount is not negative. */
  function Billable(ts: seq<Transaction>): (bs: seq<Transaction>)
    ensures |bs| <= |ts|
    ensures forall t | t in bs :: t in ts && t.amount >= 0.0
  {
    if |ts| == 0 then []
    else
      var last := ts[|ts| - 1];
      Billable(ts[..|ts| - 1]) + (if last.amount < 0.0 then [] else [last])
  }

  /** The single item an invoice of the script carries. */
  function ServiceItem(t: Transaction): Item {
    Item(Some(ServiceName), 1.0, t.amount, None)
  }

  /** The attributes of the invoice built for a transaction, before it is serialised. */
  function Draft(t: Transaction): (a: Attributes)
    ensures WellFormed(a) && Unserialized(a) && a.date.Stamp?
  {
    Attributes(None, Some(Sender), t.description, None, None, "USD", [], Stamp(t.date), None, None,
               [Instance(ServiceItem(t))], DefaultFields, 0.0, 0.0, 0.0, 0.0, None, None,
               Some(map[]), map[])
  }

  /** What serialising the invoice of a transaction yields. */
  function Submission(t: Transaction): Result<map<string, Value>, Error> {
    Serialize(Draft(t)).1
  }

  // ----- Which transactions are billed -----

  /** A transaction is billed exactly when it occurs in the file with an amount that is not negative. */
  lemma {:induction false} BillableMembers(ts: seq<Transaction>, t: Transaction)
    ensures t in Billable(ts) <==> t in ts && t.amount >= 0.0
  {
    if |ts| > 0 {
      var init := ts[..|ts| - 1];
      BillableMembers(init, t);
      assert ts == init + [ts[|ts| - 1]];
    }
  }

  /** Billing a concatenation bills each part in turn: the file order is kept. */
  lemma {:induction false} BillableAppend(ts: seq<Transaction>, us: seq<Transaction>)
    ensures Billable(ts + us) == Billable(ts) + Billable(us)
    decreases |us|
  {
    if |us| == 0 {
      assert ts + us == ts;
    } else {
      var init, last := us[..|us| - 1], us[|us| - 1];
      var tail := if last.amount < 0.0 then [] else [last];
      assert (ts + us)[..|ts + us| - 1] == ts + init;
      calc {
        Billable(ts + us);
        Billable(ts + init) + tail;
        { BillableAppend(ts, init); }
        (Billable(ts) + Billable(init)) + tail;
        Billable(ts) + (Billable(init) + tail);
      }
    }
  }

  /** Billing one more transaction appends it exactly when its amount is not negative. */
  lemma BillableStep(ts: seq<Transaction>, i: nat)
    requires i < |ts|
    ensures ts[i].amount < 0.0 ==> Billable(ts[..i + 1]) == Billable(ts[..i])
    ensures ts[i].amount >= 0.0 ==> Billable(ts[..i + 1]) == Billable(ts[..i]) + [ts[i]]
  {
    assert ts[..i + 1][..i] == ts[..i];
  }

  /** When no amount is negative every transaction is billed, in order. */
  lemma {:induction false} BillableAll(ts: seq<Transaction>)
    requires forall i | 0 <= i < |ts| :: ts[i].amount >= 0.0
    ensures Billable(ts) == ts
  {
    if |ts| > 0 {
      var init := ts[..|ts| - 1];
      BillableAll(init);
      assert ts == init + [ts[|ts| - 1]];
    }
  }

  /** A refund is skipped, while a zero amount is still billed. */
  lemma BillableExample(d: CalendarDate)
    ensures var a := Transaction(d, "A", 10.0);
            var b := Transaction(d, "B", -5.0);
            var c := Transaction(d, "C", 0.0);
            Billable([a, b, c]) == [a, c]
  {
    var a, b, c := Transaction(d, "A", 10.0), Transaction(d, "B", -5.0), Transaction(d, "C", 0.0);
    assert [a][..0] == [];
    assert Billable([a]) == Billable([]) + [a] == [a];
    assert [a, b][..1] == [a];
    assert Billable([a, b]) == Billable([a]) + [] == [a];
    assert [a, b, c][..2] == [a, b];
    assert Billable([a, b, c]) == Billable([a, b]) + [c];
  }

  // ----- What is sent for a billed transaction -----

  /**
    The request body of a billed transaction: it succeeds, comes from the
    consultancy, is addressed to the transaction's description, carries the
    transaction's date as text and no due date, and holds one item of one
    unit of consultative services priced at the amount.
  */
  lemma SubmissionBody(t: Transaction)
    ensures Submission(t).Success?
    ensures var w := Submission(t).value;
      && w["from"] == Str(Sender) && w["to"] == Str(t.description)
      && w["date"] == Str(FormatDate(t.date)) && w["due_date"] == Null
      && w["items"] == Arr([Obj(map["name" := Str(ServiceName), "quantity" := Num(1.0),
                                    "unit_cost" := Num(t.amount), "description" := Null])])
  {
    var a := Draft(t);
    SerializedFrom(a);
    SerializedUntouched(a);
    SerializedDates(a);
    SerializedLists(a);
    var w := Submission(t).value;
    assert |w["items"].elems| == 1;
    assert w["items"].elems == [Obj(ItemRecord(ServiceItem(t)))];
  }

  // ----- The script -----

  /** The request body of a billed transaction. */
  function RequestBody(t: Transaction): (w: map<string, Value>)
    ensures Submission(t) == Success(w)
  {
    SerializeRewrites(Draft(t));
    Submission(t).value
  }

  /** The request bodies of a list of billed transactions, in order. */
  function RequestBodies(bs: seq<Transaction>): seq<map<string, Value>>
  {
    seq(|bs|, k requires 0 <= k < |bs| => RequestBody(bs[k]))
  }

  lemma RequestBodiesAppend(bs: seq<Transaction>, t: Transaction)
    ensures RequestBodies(bs + [t]) == RequestBodies(bs) + [RequestBody(t)]
  {
    assert forall k | 0 <= k < |bs| :: (bs + [t])[k] == bs[k];
  }

  /** Bills one transaction: builds its invoice, adds the service item and serialises it. */
  method Bill(t: Transaction) returns (body: map<string, Value>)
    ensures body == RequestBody(t)
  {
    var invoice := new InvoiceGenerator(Sender, t.description, t.date);
    invoice.AddItem(Some(ServiceName), 1.0, t.amount);
    assert invoice.State() == Draft(t);
    var r := invoice.ToJson();
    body := r.value;
  }

  /**
    Runs the script over the cleaned rows: every billed transaction is billed,
    and the request bodies come out in file order.
  */
  method RunBatch(ts: seq<Transaction>) returns (bodies: seq<map<string, Value>>)
    ensures bodies == RequestBodies(Billable(ts))
  {
    bodies := [];
    var i := 0;
    while i < |ts|
      invariant 0 <= i <= |ts|
      invariant bodies == RequestBodies(Billable(ts[..i]))
    {
      var t := ts[i];
      ghost var billed := Billable(ts[..i]);
      BillableStep(ts, i);
      if t.amount >= 0.0 {
        var body := Bill(t);
        RequestBodiesAppend(billed, t);
        bodies := bodies + [body];
      }
      i := i + 1;
    }
    assert ts[..i] == ts;
  }
}
