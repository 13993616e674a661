/**
 * The CSB 34-01 file sequencer of `account.payment.group`: preparing the
 * payment-order values for the 34-01 variant, then emitting header records 1
 * to 4, recipient records 1 and 2 for each receipt in order, and the record of
 * totals, while counting records and payments.
 *
 * `FileRecords` is the specification: the records the sequencer emits, or the
 * first exception a builder raises. `ProcessCsb3401` is the sequencer itself,
 * a step-by-step method proved to produce the text of exactly those records.
 */
module Sequencer {
  import opened Values
  import Keys
  import opened Records

  // ---------------------------------------------------------------------------
  // Preparation of the payment-order values
  // ---------------------------------------------------------------------------

  /** The only charge detail and expenses options the 34-01 variant implements. */
  function WithCsb3401Options(fields: Dict): (r: Dict)
    ensures r.Keys == fields.Keys + {Keys.WithRelationship, Keys.ExpensesByPayer}
    ensures r[Keys.WithRelationship] == Str("with_relationship")
    ensures r[Keys.ExpensesByPayer] == Str("expenses_by_payer")
    ensures forall k | k in fields && k != Keys.WithRelationship && k != Keys.ExpensesByPayer :: r[k] == fields[k]
  {
    fields[Keys.WithRelationship := Str("with_relationship")][Keys.ExpensesByPayer := Str("expenses_by_payer")]
  }

  /** A receipt as the 34-01 variant sends it: always a transfer, never another identity document. */
  function PrepareReceipt(receipt: Dict): (r: Dict)
    ensures r.Keys == receipt.Keys + {Keys.OperationCode, Keys.AnotherIdDoc}
    ensures r[Keys.OperationCode] == Str("transfer")
    ensures r[Keys.AnotherIdDoc] == Str("")
    ensures forall k | k in receipt && k != Keys.OperationCode && k != Keys.AnotherIdDoc :: r[k] == receipt[k]
  {
    receipt[Keys.OperationCode := Str("transfer")][Keys.AnotherIdDoc := Str("")]
  }

  /** Every receipt prepared, in the same order. */
  function PrepareReceipts(receipts: seq<Dict>): (r: seq<Dict>)
    ensures |r| == |receipts|
    ensures forall i | 0 <= i < |r| :: r[i] == PrepareReceipt(receipts[i])
  {
    if receipts == [] then []
    else PrepareReceipts(receipts[..|receipts| - 1]) + [PrepareReceipt(receipts[|receipts| - 1])]
  }

  /**
   * The values dictionary of one file-generation call: its scalar entries, its
   * list of receipt dictionaries and its two counters.
   */
  class PaymentValues {
    var fields: Dict
    var receipts: seq<Dict>
    var recordCount: nat
    var paymentCount: nat

    /** The dictionary the generic CSB 34 preparation hands over. */
    constructor (fields: Dict, receipts: seq<Dict>)
      ensures this.fields == fields && this.receipts == receipts
      ensures recordCount == 0 && paymentCount == 0
    {
      this.fields := fields;
      this.receipts := receipts;
      recordCount := 0;
      paymentCount := 0;
    }

    /**
     * Fix the two options, make every receipt a transfer without another
     * identity document, and reset both counters.
     */
    method SetDefaultCsb3401Values()
      modifies this
      ensures fields == WithCsb3401Options(old(fields))
      ensures receipts == PrepareReceipts(old(receipts))
      ensures recordCount == 0 && paymentCount == 0
    {
      fields := fields[Keys.WithRelationship := Str("with_relationship")];
      fields := fields[Keys.ExpensesByPayer := Str("expenses_by_payer")];
      var i := 0;
      while i < |receipts|
        invariant fields == WithCsb3401Options(old(fields))
        invariant 0 <= i <= |receipts| == |old(receipts)|
        invariant forall j | 0 <= j < i :: receipts[j] == PrepareReceipt(old(receipts)[j])
        invariant forall j | i <= j < |receipts| :: receipts[j] == old(receipts)[j]
      {
        var receipt := receipts[i];
        receipt := receipt[Keys.OperationCode := Str("transfer")];
        receipt := receipt[Keys.AnotherIdDoc := Str("")];
        receipts := receipts[i := receipt];
        i := i + 1;
      }
      recordCount := 0;
      paymentCount := 0;
    }

    /** Write header records 1 to 4, counting each. */
    method EmitHeaders(write: Record -> string) returns (r: Result<string>)
      modifies `recordCount
      ensures r == FileText(write, HeaderRecords(old(fields)))
      ensures r.Success? ==> recordCount == old(recordCount) + 4
      ensures r.Failure? ==> old(recordCount) <= recordCount < old(recordCount) + 4
    {
      var values := fields;
      var header1 := HeaderRecord1(values);
      if header1.Failure? { return Failure(header1.error); }
      var text := write(header1.value);
      recordCount := recordCount + 1;
      var header2 := HeaderRecord2(values);
      if header2.Failure? { return Failure(header2.error); }
      text := text + write(header2.value);
      recordCount := recordCount + 1;
      var header3 := HeaderRecord3(values);
      if header3.Failure? { return Failure(header3.error); }
      text := text + write(header3.value);
      recordCount := recordCount + 1;
      var header4 := HeaderRecord4(values);
      if header4.Failure? { return Failure(header4.error); }
      text := text + write(header4.value);
      recordCount := recordCount + 1;
      HeadersText(write, header1.value, header2.value, header3.value, header4.value);
      r := Success(text);
    }

    /** Write recipient records 1 and 2 of each receipt in turn, counting records and payments. */
    method EmitRecipients(write: Record -> string) returns (r: Result<string>)
      modifies `recordCount, `paymentCount
      ensures r == FileText(write, RecipientRecords(old(fields), old(receipts)))
      ensures r.Success? ==> recordCount == old(recordCount) + 2 * |receipts|
      ensures r.Success? ==> paymentCount == old(paymentCount) + |receipts|
      ensures r.Failure? ==> old(recordCount) <= recordCount < old(recordCount) + 2 * |receipts|
      ensures r.Failure? ==> old(paymentCount) <= paymentCount < old(paymentCount) + |receipts|
    {
      var values, all := fields, receipts;
      ghost var pairOf := RecipientPairOf(values);
      var text := "";
      ghost var details: seq<Record> := [];
      var i := 0;
      while i < |all|
        invariant 0 <= i <= |all|
        invariant Collect(pairOf, all[..i]) == Success(details)
        invariant text == Concat(write, details)
        invariant recordCount == old(recordCount) + 2 * i
        invariant paymentCount == old(paymentCount) + i
      {
        var receipt := all[i];
        CollectStep(pairOf, all, i);
        var recipient1 := RecipientRecord1(values, receipt);
        if recipient1.Failure? {
          CollectPrefixFailure(pairOf, all, i + 1);
          return Failure(recipient1.error);
        }
        text := text + write(recipient1.value);
        recordCount := recordCount + 1;
        var recipient2 := RecipientRecord2(values, receipt);
        if recipient2.Failure? {
          CollectPrefixFailure(pairOf, all, i + 1);
          return Failure(recipient2.error);
        }
        text := text + write(recipient2.value);
        recordCount := recordCount + 1;
        paymentCount := paymentCount + 1;
        EmitPair(write, details, recipient1.value, recipient2.value);
        details := details + [recipient1.value, recipient2.value];
        i := i + 1;
      }
      assert all[..i] == all;
      r := Success(text);
    }

    /**
     * Write the whole file from the prepared values: the four headers, the
     * recipient records, then the totals, once the record count has been
     * raised by the literal `+= 2` of `process_csb34_01`, so that it counts one record
     * more than the file holds.
     */
    method WriteFile(write: Record -> string) returns (r: Result<string>)
      requires recordCount == 0 && paymentCount == 0
      modifies `recordCount, `paymentCount
      ensures r == FileText(write, FileRecords(old(fields), old(receipts)))
    {
      var values, all := fields, receipts;
      var headers := EmitHeaders(write);
      if headers.Failure? {
        FileRecordsFailure(values, all);
        return Failure(headers.error);
      }
      var details := EmitRecipients(write);
      if details.Failure? {
        FileRecordsFailure(values, all);
        return Failure(details.error);
      }
      recordCount := recordCount + 2;
      var totals := TotalsRecord(values, paymentCount, recordCount);
      if totals.Failure? {
        FileRecordsFailure(values, all);
        return Failure(totals.error);
      }
      assert paymentCount == |all|;
      assert recordCount == 4 + 2 * |all| + 2;
      assert TotalsRecord(values, |all|, 4 + 2 * |all| + 2) == Success(totals.value);
      assert FileText(write, HeaderRecords(values)) == Success(headers.value);
      assert FileText(write, RecipientRecords(values, all)) == Success(details.value);
      FileRecordsSuccess(write, values, all, headers.value, details.value, totals.value);
      r := Success(headers.value + details.value + write(totals.value));
    }
  }

  // ---------------------------------------------------------------------------
  // The records of a file
  // ---------------------------------------------------------------------------

  /** Recipient records 1 and 2 of one receipt, or the first exception. */
  function RecipientPair(values: Dict, receipt: Dict): (r: Result<seq<Record>>)
    ensures r.Success? ==> |r.value| == 2 && r.value[0].Recipient1? && r.value[1].Recipient2?
    ensures r.Failure? ==> RecipientRecord1(values, receipt).Failure? || RecipientRecord2(values, receipt).Failure?
  {
    var first :- RecipientRecord1(values, receipt);
    var second :- RecipientRecord2(values, receipt);
    Success([first, second])
  }

  /** The payment-order values carry everything the header records and the record of totals read. */
  predicate OrderReadable(values: Dict) {
    && Keys.VatNumber in values && Keys.CreationDate in values && Keys.PaymentDate in values
    && IsText(values, Keys.BankAccount)
    && Keys.WithRelationship in values && Keys.ExpensesByPayer in values
    && Keys.Name in values && Keys.Street in values && Keys.City in values
    && Keys.Amount in values
  }

  /** The receipt carries everything recipient records 1 and 2 read. */
  predicate ReceiptReadable(values: Dict, receipt: Dict) {
    && Keys.OperationCode in receipt && Keys.VatNumber in values && Keys.VatNumber in receipt
    && Keys.Amount in receipt && IsText(receipt, Keys.BankAccount)
    && Keys.Name in receipt
  }

  /** The records of each item in turn, or the first exception. */
  function Collect<T>(records: T -> Result<seq<Record>>, items: seq<T>): Result<seq<Record>> {
    if items == [] then Success([])
    else
      var earlier :- Collect(records, items[..|items| - 1]);
      var last :- records(items[|items| - 1]);
      Success(earlier + last)
  }

  /** The records of one receipt, given the payment-order values. */
  function RecipientPairOf(values: Dict): Dict -> Result<seq<Record>> {
    receipt => RecipientPair(values, receipt)
  }

  /**
   * The recipient records of all receipts: records 1 and 2 of the first
   * receipt, then of the second, and so on; or the first exception.
   */
  function RecipientRecords(values: Dict, receipts: seq<Dict>): Result<seq<Record>> {
    Collect(RecipientPairOf(values), receipts)
  }

  /** Header records 1 to 4, or the first exception. */
  function HeaderRecords(values: Dict): (r: Result<seq<Record>>)
    ensures r.Success? ==>
      |r.value| == 4 && r.value[0].Header1? && r.value[1].Header2? && r.value[2].Header3? && r.value[3].Header4?
  {
    var header1 :- HeaderRecord1(values);
    var header2 :- HeaderRecord2(values);
    var header3 :- HeaderRecord3(values);
    var header4 :- HeaderRecord4(values);
    Success([header1, header2, header3, header4])
  }

  /**
   * The records of one file, or the first exception a builder raises: header
   * records 1 to 4, the recipient records, and the record of totals with
   * `len(receipts)` payments and a record count of 4 + 2 * len(receipts) + 2.
   */
  function FileRecords(values: Dict, receipts: seq<Dict>): Result<seq<Record>> {
    var headers :- HeaderRecords(values);
    var details :- RecipientRecords(values, receipts);
    var totals :- TotalsRecord(values, |receipts|, 4 + 2 * |receipts| + 2);
    Success(headers + details + [totals])
  }

  /** The text `write` gives each record, in order. */
  function Concat(write: Record -> string, records: seq<Record>): string {
    if records == [] then "" else Concat(write, records[..|records| - 1]) + write(records[|records| - 1])
  }

  /** The file text of the records, or the exception that stopped the file. */
  function FileText(write: Record -> string, records: Result<seq<Record>>): (r: Result<string>)
    ensures r.Success? <==> records.Success?
    ensures r.Failure? ==> r.error == records.error
  {
    match records
    case Success(rs) => Success(Concat(write, rs))
    case Failure(e) => Failure(e)
  }

  // ---------------------------------------------------------------------------
  // The sequencer
  // ---------------------------------------------------------------------------

  /**
   * Generate the CSB 34-01 file of a payment group, given the values the
   * generic CSB 34 preparation produced and the encoding library's `write`.
   * The text is built in memory; an exception leaves no text at all.
   */
  method ProcessCsb3401(fields: Dict, receipts: seq<Dict>, write: Record -> string)
    returns (r: Result<string>)
    ensures r == FileText(write, FileRecords(WithCsb3401Options(fields), PrepareReceipts(receipts)))
  {
    var values := new PaymentValues(fields, receipts);
    values.SetDefaultCsb3401Values();
    r := values.WriteFile(write);
  }

  /** A file fails with the exception of the first part that fails. */
  lemma FileRecordsFailure(values: Dict, receipts: seq<Dict>)
    ensures HeaderRecords(values).Failure? ==>
      FileRecords(values, receipts) == Failure(HeaderRecords(values).error)
    ensures HeaderRecords(values).Success? && RecipientRecords(values, receipts).Failure? ==>
      FileRecords(values, receipts) == Failure(RecipientRecords(values, receipts).error)
    ensures (HeaderRecords(values).Success? && RecipientRecords(values, receipts).Success?
             && TotalsRecord(values, |receipts|, 4 + 2 * |receipts| + 2).Failure?) ==>
      FileRecords(values, receipts) == Failure(TotalsRecord(values, |receipts|, 4 + 2 * |receipts| + 2).error)
  {
  }

  /** The text of a file is that of its headers, then its recipient records, then its totals. */
  lemma FileRecordsSuccess(write: Record -> string, values: Dict, receipts: seq<Dict>,
                           headersText: string, detailsText: string, totals: Record)
    requires FileText(write, HeaderRecords(values)) == Success(headersText)
    requires FileText(write, RecipientRecords(values, receipts)) == Success(detailsText)
    requires TotalsRecord(values, |receipts|, 4 + 2 * |receipts| + 2) == Success(totals)
    ensures FileText(write, FileRecords(values, receipts)) == Success(headersText + detailsText + write(totals))
  {
    var headers, details := HeaderRecords(values).value, RecipientRecords(values, receipts).value;
    ConcatAppend(write, headers, details);
    ConcatPush(write, headers + details, totals);
  }

  /** The text of the four header records. */
  lemma HeadersText(write: Record -> string, h1: Record, h2: Record, h3: Record, h4: Record)
    ensures Concat(write, [h1, h2, h3, h4]) == write(h1) + write(h2) + write(h3) + write(h4)
  {
    ConcatPush(write, [], h1);
    assert [] + [h1] == [h1];
    ConcatPush(write, [h1], h2);
    assert [h1] + [h2] == [h1, h2];
    ConcatPush(write, [h1, h2], h3);
    assert [h1, h2] + [h3] == [h1, h2, h3];
    ConcatPush(write, [h1, h2, h3], h4);
    assert [h1, h2, h3] + [h4] == [h1, h2, h3, h4];
  }

  /** Emitting the two recipient records of a receipt appends their two texts. */
  lemma EmitPair(write: Record -> string, records: seq<Record>, r1: Record, r2: Record)
    ensures Concat(write, records + [r1, r2]) == Concat(write, records) + write(r1) + write(r2)
  {
    assert records + [r1, r2] == records + [r1] + [r2];
    ConcatPush(write, records, r1);
    ConcatPush(write, records + [r1], r2);
  }

  /** Collecting the items up to `i + 1` extends the records of those up to `i` by those of item `i`. */
  lemma CollectStep<T>(records: T -> Result<seq<Record>>, items: seq<T>, i: nat)
    requires i < |items|
    ensures Collect(records, items[..i + 1]) ==
      match Collect(records, items[..i])
      case Failure(e) => Failure(e)
      case Success(earlier) =>
        match records(items[i])
        case Failure(e) => Failure(e)
        case Success(last) => Success(earlier + last)
  {
    var prefix := items[..i + 1];
    assert prefix[..|prefix| - 1] == items[..i];
    assert prefix[|prefix| - 1] == items[i];
  }

  /** Appending one record appends its text. */
  lemma ConcatPush(write: Record -> string, records: seq<Record>, rec: Record)
    ensures Concat(write, records + [rec]) == Concat(write, records) + write(rec)
  {
    assert (records + [rec])[..|records|] == records;
  }

  /** The text of two runs of records is the text of the first followed by that of the second. */
  lemma {:induction false} ConcatAppend(write: Record -> string, first: seq<Record>, second: seq<Record>)
    ensures Concat(write, first + second) == Concat(write, first) + Concat(write, second)
    decreases |second|
  {
    if second == [] {
      assert first + second == first;
    } else {
      var init := second[..|second| - 1];
      var last := second[|second| - 1];
      assert second == init + [last];
      assert first + second == (first + init) + [last];
      ConcatAppend(write, first, init);
      ConcatPush(write, first + init, last);
      ConcatPush(write, init, last);
    }
  }

  /** Once the items up to `k` fail, all items fail with the same exception. */
  lemma {:induction false} CollectPrefixFailure<T>(records: T -> Result<seq<Record>>, items: seq<T>, k: nat)
    requires k <= |items|
    requires Collect(records, items[..k]).Failure?
    ensures Collect(records, items) == Collect(records, items[..k])
    decreases |items| - k
  {
    if k < |items| {
      var prefix := items[..k + 1];
      assert prefix[..|prefix| - 1] == items[..k];
      CollectPrefixFailure(records, items, k + 1);
    } else {
      assert items[..k] == items;
    }
  }
}
