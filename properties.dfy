/**
 * What the sequencer promises about the file it writes: the order of the
 * records, the two counters in the record of totals, when a file can be
 * written at all and which exception stops it, and what the 34-01
 * preparation guarantees about every recipient record.
 */
module Properties {
  import opened Values
  import Keys
  import opened Records
  import opened Sequencer

  // ---------------------------------------------------------------------------
  // Collecting records item by item
  // ---------------------------------------------------------------------------

  /**
   * When every item yields exactly two records, the records of item `i` sit
   * at positions `2 * i` and `2 * i + 1`: items keep their input order.
   */
  lemma {:induction false} CollectLayout<T>(records: T -> Result<seq<Record>>, items: seq<T>)
    requires forall x :: records(x).Success? ==> |records(x).value| == 2
    requires Collect(records, items).Success?
    ensures |Collect(records, items).value| == 2 * |items|
    ensures forall i | 0 <= i < |items| ::
      && records(items[i]).Success?
      && Collect(records, items).value[2 * i] == records(items[i]).value[0]
      && Collect(records, items).value[2 * i + 1] == records(items[i]).value[1]
  {
    if items != [] {
      var n := |items| - 1;
      var earlier := items[..n];
      CollectLayout(records, earlier);
      var all := Collect(records, items).value;
      forall i | 0 <= i < |items|
        ensures records(items[i]).Success?
        ensures all[2 * i] == records(items[i]).value[0]
        ensures all[2 * i + 1] == records(items[i]).value[1]
      {
        if i < n {
          assert items[i] == earlier[i];
        }
      }
    }
  }

  /** Collecting succeeds exactly when every item succeeds. */
  lemma {:induction false} CollectSucceeds<T>(records: T -> Result<seq<Record>>, items: seq<T>)
    ensures Collect(records, items).Success? <==> forall i | 0 <= i < |items| :: records(items[i]).Success?
  {
    if items != [] {
      var n := |items| - 1;
      var earlier := items[..n];
      CollectSucceeds(records, earlier);
      assert forall i | 0 <= i < n :: earlier[i] == items[i];
    }
  }

  /**
   * A failed collection raises the exception of the first item that fails:
   * every item before it succeeded.
   */
  lemma {:induction false} CollectFirstFailure<T>(records: T -> Result<seq<Record>>, items: seq<T>)
    requires Collect(records, items).Failure?
    ensures exists k | 0 <= k < |items| ::
      && (forall i | 0 <= i < k :: records(items[i]).Success?)
      && records(items[k]) == Failure(Collect(records, items).error)
  {
    var n := |items| - 1;
    var earlier := items[..n];
    if Collect(records, earlier).Failure? {
      CollectFirstFailure(records, earlier);
      var k :| 0 <= k < |earlier|
        && (forall i | 0 <= i < k :: records(earlier[i]).Success?)
        && records(earlier[k]) == Failure(Collect(records, earlier).error);
      assert forall i | 0 <= i <= k :: earlier[i] == items[i];
    } else {
      CollectSucceeds(records, earlier);
      assert forall i | 0 <= i < n :: earlier[i] == items[i];
      assert records(items[n]) == Failure(Collect(records, items).error);
    }
  }

  // ---------------------------------------------------------------------------
  // Recipient records
  // ---------------------------------------------------------------------------

  /** Recipient records 1 and 2 of a receipt can both be built exactly when the receipt is readable. */
  lemma RecipientPairSucceeds(values: Dict, receipt: Dict)
    ensures RecipientPair(values, receipt).Success? <==> ReceiptReadable(values, receipt)
    ensures RecipientPair(values, receipt).Success? ==>
      RecipientPair(values, receipt).value == [RecipientRecord1(values, receipt).value, RecipientRecord2(values, receipt).value]
  {
    if ReceiptReadable(values, receipt) {
      assert RecipientRecord1(values, receipt).Success?;
    }
  }

  /**
   * The recipient records: record 1 then record 2 of the first receipt, then
   * of the second, and so on, two per receipt.
   */
  lemma RecipientRecordsLayout(values: Dict, receipts: seq<Dict>)
    requires RecipientRecords(values, receipts).Success?
    ensures |RecipientRecords(values, receipts).value| == 2 * |receipts|
    ensures forall i | 0 <= i < |receipts| ::
      && RecipientRecord1(values, receipts[i]).Success?
      && RecipientRecords(values, receipts).value[2 * i] == RecipientRecord1(values, receipts[i]).value
      && RecipientRecord2(values, receipts[i]).Success?
      && RecipientRecords(values, receipts).value[2 * i + 1] == RecipientRecord2(values, receipts[i]).value
  {
    CollectLayout(RecipientPairOf(values), receipts);
  }

  /** The recipient records can be built exactly when every receipt is readable. */
  lemma RecipientRecordsSucceed(values: Dict, receipts: seq<Dict>)
    ensures RecipientRecords(values, receipts).Success? <==>
      forall i | 0 <= i < |receipts| :: ReceiptReadable(values, receipts[i])
  {
    CollectSucceeds(RecipientPairOf(values), receipts);
    forall i | 0 <= i < |receipts| {
      RecipientPairSucceeds(values, receipts[i]);
    }
  }

  /**
   * When the recipient records cannot be built, the exception is the one
   * raised for the first receipt that is not readable.
   */
  lemma RecipientRecordsFirstFailure(values: Dict, receipts: seq<Dict>)
    requires RecipientRecords(values, receipts).Failure?
    ensures exists k | 0 <= k < |receipts| ::
      && (forall i | 0 <= i < k :: ReceiptReadable(values, receipts[i]))
      && !ReceiptReadable(values, receipts[k])
      && RecipientPair(values, receipts[k]) == Failure(RecipientRecords(values, receipts).error)
  {
    CollectFirstFailure(RecipientPairOf(values), receipts);
    var k :| 0 <= k < |receipts|
      && (forall i | 0 <= i < k :: RecipientPairOf(values)(receipts[i]).Success?)
      && RecipientPairOf(values)(receipts[k]) == Failure(RecipientRecords(values, receipts).error);
    forall i | 0 <= i <= k {
      RecipientPairSucceeds(values, receipts[i]);
    }
  }

  // ---------------------------------------------------------------------------
  // The file
  // ---------------------------------------------------------------------------

  /** The four header records can be built exactly when the values carry what they read. */
  lemma HeaderRecordsSucceed(values: Dict)
    ensures HeaderRecords(values).Success? <==>
      && Keys.VatNumber in values && Keys.CreationDate in values && Keys.PaymentDate in values
      && IsText(values, Keys.BankAccount)
      && Keys.WithRelationship in values && Keys.ExpensesByPayer in values
      && Keys.Name in values && Keys.Street in values && Keys.City in values
    ensures HeaderRecords(values).Success? ==>
      var headers := HeaderRecords(values).value;
      && |headers| == 4
      && HeaderRecord1(values) == Success(headers[0])
      && HeaderRecord2(values) == Success(headers[1])
      && HeaderRecord3(values) == Success(headers[2])
      && HeaderRecord4(values) == Success(headers[3])
  {
  }

  /**
   * A file can be written exactly when the payment-order values and every
   * receipt carry what the builders read.
   */
  lemma FileSucceeds(values: Dict, receipts: seq<Dict>)
    ensures FileRecords(values, receipts).Success? <==>
      OrderReadable(values) && forall i | 0 <= i < |receipts| :: ReceiptReadable(values, receipts[i])
  {
    HeaderRecordsSucceed(values);
    RecipientRecordsSucceed(values, receipts);
  }

  /** A file's records are its header records, then its recipient records, then its record of totals. */
  lemma FileParts(values: Dict, receipts: seq<Dict>)
    requires FileRecords(values, receipts).Success?
    ensures HeaderRecords(values).Success? && RecipientRecords(values, receipts).Success?
    ensures TotalsRecord(values, |receipts|, 4 + 2 * |receipts| + 2).Success?
    ensures FileRecords(values, receipts).value ==
      HeaderRecords(values).value + RecipientRecords(values, receipts).value
      + [TotalsRecord(values, |receipts|, 4 + 2 * |receipts| + 2).value]
  {
  }

  /**
   * `recs` are header records 1 to 4 built from `values`, then recipient
   * records 1 and 2 of each receipt in input order, then the record of totals
   * counting the receipts.
   */
  predicate Laid(recs: seq<Record>, values: Dict, receipts: seq<Dict>) {
    && |recs| == 2 * |receipts| + 5
    && HeaderRecord1(values) == Success(recs[0])
    && HeaderRecord2(values) == Success(recs[1])
    && HeaderRecord3(values) == Success(recs[2])
    && HeaderRecord4(values) == Success(recs[3])
    && (forall i | 0 <= i < |receipts| ::
          && RecipientRecord1(values, receipts[i]) == Success(recs[4 + 2 * i])
          && RecipientRecord2(values, receipts[i]) == Success(recs[5 + 2 * i]))
    && TotalsRecord(values, |receipts|, 4 + 2 * |receipts| + 2) == Success(recs[|recs| - 1])
  }

  /**
   * The records of a file: header records 1 to 4, then recipient records 1
   * and 2 of each receipt in input order, then the record of totals.
   */
  lemma FileLayout(values: Dict, receipts: seq<Dict>)
    requires FileRecords(values, receipts).Success?
    ensures Laid(FileRecords(values, receipts).value, values, receipts)
  {
    FileParts(values, receipts);
    HeaderRecordsSucceed(values);
    RecipientRecordsLayout(values, receipts);
    var recs := FileRecords(values, receipts).value;
    var headers := HeaderRecords(values).value;
    var details := RecipientRecords(values, receipts).value;
    assert forall j | 0 <= j < 4 :: recs[j] == headers[j];
    assert forall j | 0 <= j < |details| :: recs[4 + j] == details[j];
  }

  /** Recipient records 1 and 2 built from a receipt are of their kinds and belong to that receipt. */
  lemma PairOf(values: Dict, receipt: Dict, first: Record, second: Record)
    requires RecipientRecord1(values, receipt) == Success(first)
    requires RecipientRecord2(values, receipt) == Success(second)
    ensures first.Recipient1? && RecipientOf(first, values, receipt)
    ensures second.Recipient2? && RecipientOf(second, values, receipt)
  {
  }

  /** The headers of a laid-out file: header records 1 to 4 of the ordering company, record 1 with its options. */
  lemma LaidHeaders(recs: seq<Record>, values: Dict, receipts: seq<Dict>)
    requires Laid(recs, values, receipts)
    ensures recs[0].Header1? && recs[1].Header2? && recs[2].Header3? && recs[3].Header4?
    ensures forall j | 0 <= j < 4 :: OrderRecordOf(recs[j], values)
    ensures Copied(recs[0].chargeDetail, values, Keys.WithRelationship)
    ensures Copied(recs[0].expenses, values, Keys.ExpensesByPayer)
  {
    forall j | 0 <= j < 4
      ensures OrderRecordOf(recs[j], values)
    {
      assert j == 0 || j == 1 || j == 2 || j == 3;
    }
  }

  /** The recipient records of a laid-out file: records 1 and 2 of each receipt, in input order. */
  lemma LaidPairs(recs: seq<Record>, values: Dict, receipts: seq<Dict>)
    requires Laid(recs, values, receipts)
    ensures forall i | 0 <= i < |receipts| ::
      && recs[4 + 2 * i].Recipient1? && RecipientOf(recs[4 + 2 * i], values, receipts[i])
      && recs[5 + 2 * i].Recipient2? && RecipientOf(recs[5 + 2 * i], values, receipts[i])
  {
    forall i | 0 <= i < |receipts|
      ensures recs[4 + 2 * i].Recipient1? && RecipientOf(recs[4 + 2 * i], values, receipts[i])
      ensures recs[5 + 2 * i].Recipient2? && RecipientOf(recs[5 + 2 * i], values, receipts[i])
    {
      PairOf(values, receipts[i], recs[4 + 2 * i], recs[5 + 2 * i]);
    }
  }

  /** The last record of a laid-out file: the totals of the order, with its two counters. */
  lemma LaidTotals(recs: seq<Record>, values: Dict, receipts: seq<Dict>)
    requires Laid(recs, values, receipts)
    ensures recs[|recs| - 1].Totals? && OrderRecordOf(recs[|recs| - 1], values)
    ensures recs[|recs| - 1].paymentLineCount == Str(DecimalString(|receipts|))
    ensures recs[|recs| - 1].recordCount == Str(DecimalString(4 + 2 * |receipts| + 2))
  {
    var n := |receipts|;
    assert TotalsRecord(values, n, 4 + 2 * n + 2) == Success(recs[|recs| - 1]);
  }

  /**
   * What the records of a file carry, position by position: the company's
   * header records 1 to 4 (record 1 with the order's options), recipient
   * records 1 and 2 of each receipt, and the totals with both counters.
   */
  predicate Shaped(recs: seq<Record>, values: Dict, receipts: seq<Dict>) {
    && |recs| == 2 * |receipts| + 5
    && recs[0].Header1? && recs[1].Header2? && recs[2].Header3? && recs[3].Header4?
    && (forall j | 0 <= j < 4 :: OrderRecordOf(recs[j], values))
    && Copied(recs[0].chargeDetail, values, Keys.WithRelationship)
    && Copied(recs[0].expenses, values, Keys.ExpensesByPayer)
    && (forall i | 0 <= i < |receipts| ::
          && recs[4 + 2 * i].Recipient1? && RecipientOf(recs[4 + 2 * i], values, receipts[i])
          && recs[5 + 2 * i].Recipient2? && RecipientOf(recs[5 + 2 * i], values, receipts[i]))
    && recs[|recs| - 1].Totals? && OrderRecordOf(recs[|recs| - 1], values)
    && recs[|recs| - 1].paymentLineCount == Str(DecimalString(|receipts|))
    && recs[|recs| - 1].recordCount == Str(DecimalString(4 + 2 * |receipts| + 2))
  }

  /** The records of a file carry, position by position, what the builders promise. */
  lemma FileShape(values: Dict, receipts: seq<Dict>)
    requires FileRecords(values, receipts).Success?
    ensures Shaped(FileRecords(values, receipts).value, values, receipts)
  {
    FileLayout(values, receipts);
    var recs := FileRecords(values, receipts).value;
    LaidHeaders(recs, values, receipts);
    LaidPairs(recs, values, receipts);
    LaidTotals(recs, values, receipts);
  }

  /** Every natural number is twice some `i`, or one more than that. */
  lemma Halve(k: nat) returns (i: nat)
    ensures k == 2 * i || k == 2 * i + 1
  {
    i := k / 2;
  }

  /**
   * Record `j` of a file that is neither a header nor the totals is
   * recipient record 1 or 2 of some receipt `i`.
   */
  lemma ShapedRecipient(recs: seq<Record>, values: Dict, receipts: seq<Dict>, j: int) returns (i: nat)
    requires Shaped(recs, values, receipts) && 4 <= j < |recs| - 1
    ensures i < |receipts| && (j == 4 + 2 * i || j == 5 + 2 * i)
    ensures recs[j].Recipient1? || recs[j].Recipient2?
    ensures RecipientOf(recs[j], values, receipts[i])
  {
    i := Halve(j - 4);
  }

  /** A record of a kind the sequencer emits: a header, recipient record 1 or 2, or the totals. */
  predicate Emitted(rec: Record) {
    IsHeader(rec) || rec.Recipient1? || rec.Recipient2? || rec.Totals?
  }

  /** Every record of a file is of a kind the sequencer emits. */
  lemma ShapedOnlyEmitted(recs: seq<Record>, values: Dict, receipts: seq<Dict>)
    requires Shaped(recs, values, receipts)
    ensures forall j | 0 <= j < |recs| :: Emitted(recs[j])
  {
    forall j | 0 <= j < |recs|
      ensures Emitted(recs[j])
    {
      if j < 4 {
        assert j == 0 || j == 1 || j == 2 || j == 3;
      } else if j < |recs| - 1 {
        var _ := ShapedRecipient(recs, values, receipts, j);
      }
    }
  }

  /** Every record of a file conforms to its kind and names the ordering company. */
  lemma ShapedConforms(recs: seq<Record>, values: Dict, receipts: seq<Dict>)
    requires Shaped(recs, values, receipts)
    ensures forall j | 0 <= j < |recs| :: Conforms(recs[j]) && Copied(recs[j].nif, values, Keys.VatNumber)
  {
    forall j | 0 <= j < |recs|
      ensures Conforms(recs[j]) && Copied(recs[j].nif, values, Keys.VatNumber)
    {
      if 4 <= j < |recs| - 1 {
        var _ := ShapedRecipient(recs, values, receipts, j);
      }
    }
  }

  /**
   * The kinds of the records of a file: header records 1 to 4, recipient
   * records 1 and 2 of each receipt, and the record of totals last. Recipient
   * records 3 to 9 never appear.
   */
  lemma FileKinds(values: Dict, receipts: seq<Dict>)
    requires FileRecords(values, receipts).Success?
    ensures var recs := FileRecords(values, receipts).value;
      && |recs| == 2 * |receipts| + 5
      && recs[0].Header1? && recs[1].Header2? && recs[2].Header3? && recs[3].Header4?
      && (forall i | 0 <= i < |receipts| :: recs[4 + 2 * i].Recipient1? && recs[5 + 2 * i].Recipient2?)
      && recs[|recs| - 1].Totals?
      && (forall j | 0 <= j < |recs| :: Emitted(recs[j]))
  {
    FileShape(values, receipts);
    ShapedOnlyEmitted(FileRecords(values, receipts).value, values, receipts);
  }

  /**
   * Each pair of recipient records in a file belongs to its receipt: both name
   * the ordering company and the receipt's party by their VAT numbers and
   * carry the receipt's operation code.
   */
  lemma FileRecipients(values: Dict, receipts: seq<Dict>)
    requires FileRecords(values, receipts).Success?
    ensures var recs := FileRecords(values, receipts).value;
      && |recs| == 2 * |receipts| + 5
      && forall i | 0 <= i < |receipts| ::
           RecipientOf(recs[4 + 2 * i], values, receipts[i]) && RecipientOf(recs[5 + 2 * i], values, receipts[i])
  {
    FileShape(values, receipts);
  }

  /**
   * Every record of a file carries its kind's record code and data number,
   * and names the ordering company by its VAT number; the header records and
   * the record of totals carry operation code '56'.
   */
  lemma FileConforms(values: Dict, receipts: seq<Dict>)
    requires FileRecords(values, receipts).Success?
    ensures var recs := FileRecords(values, receipts).value;
      forall j | 0 <= j < |recs| :: Conforms(recs[j]) && Copied(recs[j].nif, values, Keys.VatNumber)
  {
    FileShape(values, receipts);
    ShapedConforms(FileRecords(values, receipts).value, values, receipts);
  }

  /**
   * The record of totals counts the receipts as payments, and counts
   * 4 + 2 * N + 2 records: one more than the file holds. Both counters are
   * written as decimal strings that read back as those numbers.
   */
  lemma TotalsCounts(values: Dict, receipts: seq<Dict>)
    requires FileRecords(values, receipts).Success?
    ensures var recs := FileRecords(values, receipts).value;
      var totals := recs[|recs| - 1];
      && totals.Totals?
      && totals.paymentLineCount == Str(DecimalString(|receipts|))
      && totals.recordCount == Str(DecimalString(4 + 2 * |receipts| + 2))
      && DecimalValue(totals.paymentLineCount.s) == |receipts|
      && DecimalValue(totals.recordCount.s) == |recs| + 1
  {
    FileShape(values, receipts);
    var recs := FileRecords(values, receipts).value;
    CountersReadBack(recs[|recs| - 1], |receipts|);
  }

  /** The two counters of a record of totals for `n` payments read back as `n` and 4 + 2 * n + 2. */
  lemma CountersReadBack(totals: Record, n: nat)
    requires totals.Totals?
    requires totals.paymentLineCount == Str(DecimalString(n))
    requires totals.recordCount == Str(DecimalString(4 + 2 * n + 2))
    ensures DecimalValue(totals.paymentLineCount.s) == n
    ensures DecimalValue(totals.recordCount.s) == 4 + 2 * n + 2
  {
    DecimalRoundTrip(n);
    DecimalRoundTrip(4 + 2 * n + 2);
  }

  /** An order without receipts gives the four header records and the totals, counting 0 payments and 6 records. */
  lemma EmptyOrder(values: Dict)
    requires OrderReadable(values)
    ensures FileRecords(values, []).Success?
    ensures var recs := FileRecords(values, []).value;
      && |recs| == 5 && recs[4].Totals?
      && recs[4].paymentLineCount == Str("0")
      && recs[4].recordCount == Str("6")
  {
    FileSucceeds(values, []);
    FileShape(values, []);
    ShapedEmpty(FileRecords(values, []).value, values);
  }

  /** The five records of an order without receipts, and the counters its totals carry. */
  lemma ShapedEmpty(recs: seq<Record>, values: Dict)
    requires Shaped(recs, values, [])
    ensures |recs| == 5 && recs[4].Totals?
    ensures recs[4].paymentLineCount == Str("0") && recs[4].recordCount == Str("6")
  {
    assert DecimalString(6) == "6";
  }

  /** The reads of header records 1 to 4, in the order the sequencer makes them. */
  const HeaderReads: seq<Read> := Header1Reads + Header2Reads + Header3Reads + Header4Reads

  /** The reads of recipient records 1 and 2 of one receipt, in the order the sequencer makes them. */
  const PairReads: seq<Read> := Recipient1Reads + Recipient2Reads

  /** The header records succeed, or fail with the exception of the first of their reads that fails. */
  lemma HeaderRecordsReadOrder(values: Dict)
    ensures Outcome(HeaderRecords(values)) == FirstFailure(values, map[], HeaderReads)
  {
    HeaderReadOrder(values);
    FirstFailureAppend(values, map[], Header1Reads, Header2Reads);
    FirstFailureAppend(values, map[], Header1Reads + Header2Reads, Header3Reads);
    FirstFailureAppend(values, map[], Header1Reads + Header2Reads + Header3Reads, Header4Reads);
  }

  /** A receipt's two records succeed, or fail with the exception of the first of their reads that fails. */
  lemma RecipientPairReadOrder(values: Dict, receipt: Dict)
    ensures Outcome(RecipientPair(values, receipt)) == FirstFailure(values, receipt, PairReads)
  {
    RecipientReadOrder(values, receipt);
    FirstFailureAppend(values, receipt, Recipient1Reads, Recipient2Reads);
  }

  /**
   * A file that cannot be written fails with the exception of the first read
   * that fails: the first failing read of the header records, or else the
   * first failing read of the first unreadable receipt, or else the missing
   * amount of the order, read by the record of totals.
   */
  lemma FileError(values: Dict, receipts: seq<Dict>)
    requires FileRecords(values, receipts).Failure?
    ensures var e := FileRecords(values, receipts).error;
      || FirstFailure(values, map[], HeaderReads) == Failure(e)
      || (&& FirstFailure(values, map[], HeaderReads).Success?
          && exists k | 0 <= k < |receipts| ::
               && (forall i | 0 <= i < k :: ReceiptReadable(values, receipts[i]))
               && !ReceiptReadable(values, receipts[k])
               && RecipientPair(values, receipts[k]) == Failure(e)
               && FirstFailure(values, receipts[k], PairReads) == Failure(e))
      || (&& FirstFailure(values, map[], HeaderReads).Success?
          && (forall i | 0 <= i < |receipts| :: ReceiptReadable(values, receipts[i]))
          && e == KeyError(Keys.Amount) && Keys.Amount !in values)
  {
    var e := FileRecords(values, receipts).error;
    FileRecordsFailure(values, receipts);
    HeaderRecordsReadOrder(values);
    if HeaderRecords(values).Success? {
      if RecipientRecords(values, receipts).Failure? {
        RecipientRecordsFirstFailure(values, receipts);
        var k :| 0 <= k < |receipts|
          && (forall i | 0 <= i < k :: ReceiptReadable(values, receipts[i]))
          && !ReceiptReadable(values, receipts[k])
          && RecipientPair(values, receipts[k]) == Failure(e);
        RecipientPairReadOrder(values, receipts[k]);
      } else {
        RecipientRecordsSucceed(values, receipts);
        HeaderRecordsSucceed(values);
      }
    }
  }

  /**
   * When the header records cannot be built, the exception is that of the
   * first failing read of the payment-order values, in the order vat_number,
   * creation_date, payment_date, bank_account, with_relationship,
   * expenses_by_payer, vat_number, name, vat_number, street, vat_number, city.
   */
  lemma HeaderRecordsFail(values: Dict)
    requires HeaderRecords(values).Failure?
    ensures FirstFailure(values, map[], HeaderReads) == Failure(HeaderRecords(values).error)
    ensures Explains(values, {Keys.VatNumber, Keys.CreationDate, Keys.PaymentDate, Keys.WithRelationship,
                              Keys.ExpensesByPayer, Keys.Name, Keys.Street, Keys.City}, {Keys.BankAccount},
                     HeaderRecords(values).error)
  {
    HeaderRecordsReadOrder(values);
    var e := HeaderRecords(values).error;
    if HeaderRecord1(values).Failure? {
      assert Explains(values, {Keys.VatNumber, Keys.CreationDate, Keys.PaymentDate, Keys.WithRelationship,
                               Keys.ExpensesByPayer}, {Keys.BankAccount}, e);
    } else if HeaderRecord2(values).Failure? {
      assert Explains(values, {Keys.VatNumber, Keys.Name}, {}, e);
    } else if HeaderRecord3(values).Failure? {
      assert Explains(values, {Keys.VatNumber, Keys.Street}, {}, e);
    } else {
      assert Explains(values, {Keys.VatNumber, Keys.City}, {}, e);
    }
  }

  /** Payment-order values without a VAT number abort the file, before any record, with KeyError('vat_number'). */
  lemma MissingVatNumber(values: Dict, receipts: seq<Dict>)
    requires Keys.VatNumber !in values
    ensures FileRecords(values, receipts) == Failure(KeyError(Keys.VatNumber))
  {
  }

  // ---------------------------------------------------------------------------
  // The file of a prepared order
  // ---------------------------------------------------------------------------

  /**
   * The payment-order values carry, besides the two options the preparation
   * fixes, everything the header records and the record of totals read.
   */
  predicate CompanyGiven(fields: Dict) {
    && Keys.VatNumber in fields && Keys.CreationDate in fields && Keys.PaymentDate in fields
    && IsText(fields, Keys.BankAccount)
    && Keys.Name in fields && Keys.Street in fields && Keys.City in fields
    && Keys.Amount in fields
  }

  /** A receipt carries, besides the operation code the preparation fixes, everything recipient records 1 and 2 read. */
  predicate PartyGiven(receipt: Dict) {
    Keys.VatNumber in receipt && Keys.Amount in receipt && IsText(receipt, Keys.BankAccount) && Keys.Name in receipt
  }

  /**
   * Once prepared for 34-01, an order can be written exactly when its values
   * carry what the company's records read and every receipt what its
   * recipient records read: the preparation supplies the options and the
   * operation codes.
   */
  lemma PreparedFileSucceeds(fields: Dict, receipts: seq<Dict>)
    ensures FileRecords(WithCsb3401Options(fields), PrepareReceipts(receipts)).Success? <==>
      CompanyGiven(fields) && forall i | 0 <= i < |receipts| :: PartyGiven(receipts[i])
  {
    FileSucceeds(WithCsb3401Options(fields), PrepareReceipts(receipts));
    PreparedOrderReadable(fields);
    if Keys.VatNumber in fields {
      PreparedReceiptsReadable(fields, receipts);
    }
  }

  /** Given the company's VAT number, all prepared receipts are readable exactly when every original carries its party data. */
  lemma PreparedReceiptsReadable(fields: Dict, receipts: seq<Dict>)
    requires Keys.VatNumber in fields
    ensures (forall i | 0 <= i < |PrepareReceipts(receipts)| ::
               ReceiptReadable(WithCsb3401Options(fields), PrepareReceipts(receipts)[i]))
      <==> forall i | 0 <= i < |receipts| :: PartyGiven(receipts[i])
  {
    var values, prepared := WithCsb3401Options(fields), PrepareReceipts(receipts);
    assert |prepared| == |receipts|;
    forall i | 0 <= i < |receipts|
      ensures ReceiptReadable(values, prepared[i]) <==> PartyGiven(receipts[i])
    {
      assert prepared[i] == PrepareReceipt(receipts[i]);
      PreparedReceiptReadable(values, receipts[i]);
    }
  }

  /** The prepared values carry what the headers and totals read exactly when the original values carry all but the two options. */
  lemma PreparedOrderReadable(fields: Dict)
    ensures OrderReadable(WithCsb3401Options(fields)) <==> CompanyGiven(fields)
  {
  }

  /** A prepared receipt is readable exactly when the original carries its VAT number, amount, name and a string account. */
  lemma PreparedReceiptReadable(values: Dict, receipt: Dict)
    ensures ReceiptReadable(values, PrepareReceipt(receipt)) <==> Keys.VatNumber in values && PartyGiven(receipt)
  {
  }

  /**
   * In the file of a prepared order, header record 1 carries the fixed charge
   * detail and expenses options, and every recipient record the operation code
   * 'transfer'.
   */
  lemma PreparedFile(fields: Dict, receipts: seq<Dict>)
    requires FileRecords(WithCsb3401Options(fields), PrepareReceipts(receipts)).Success?
    ensures var recs := FileRecords(WithCsb3401Options(fields), PrepareReceipts(receipts)).value;
      forall j | 0 <= j < |recs| :: PreparedRecord(recs[j])
  {
    PreparedCopies(fields, receipts);
    FileOfPrepared(WithCsb3401Options(fields), PrepareReceipts(receipts));
  }

  /** Prepared values hold the two fixed options, and every prepared receipt the operation code 'transfer'. */
  lemma PreparedCopies(fields: Dict, receipts: seq<Dict>)
    ensures Copied(Str("with_relationship"), WithCsb3401Options(fields), Keys.WithRelationship)
    ensures Copied(Str("expenses_by_payer"), WithCsb3401Options(fields), Keys.ExpensesByPayer)
    ensures forall i | 0 <= i < |PrepareReceipts(receipts)| ::
      Copied(Str("transfer"), PrepareReceipts(receipts)[i], Keys.OperationCode)
  {
  }

  /** Header record 1 carries the fixed options and a recipient record the operation code 'transfer'. */
  predicate PreparedRecord(rec: Record) {
    && (rec.Header1? ==>
          rec.chargeDetail == Str("with_relationship") && rec.expenses == Str("expenses_by_payer"))
    && (IsRecipient(rec) ==> rec.operationCode == Str("transfer"))
  }

  /** The file of values carrying the two fixed options and of receipts that are all transfers. */
  lemma FileOfPrepared(values: Dict, receipts: seq<Dict>)
    requires FileRecords(values, receipts).Success?
    requires Copied(Str("with_relationship"), values, Keys.WithRelationship)
    requires Copied(Str("expenses_by_payer"), values, Keys.ExpensesByPayer)
    requires forall i | 0 <= i < |receipts| :: Copied(Str("transfer"), receipts[i], Keys.OperationCode)
    ensures var recs := FileRecords(values, receipts).value;
      forall j | 0 <= j < |recs| :: PreparedRecord(recs[j])
  {
    FileShape(values, receipts);
    var recs := FileRecords(values, receipts).value;
    forall j | 0 <= j < |recs|
      ensures PreparedRecord(recs[j])
    {
      if j < 4 {
        assert j == 0 || j == 1 || j == 2 || j == 3;
      } else if j < |recs| - 1 {
        var _ := ShapedRecipient(recs, values, receipts, j);
      }
    }
  }
}
