/**
 * The fourteen CSB 34-01 record builders: four header records, nine recipient
 * records and the record of totals. A record is one constructor per record
 * kind, carrying the fields the builder of that kind sets, in the order it
 * sets them; laying those fields out in fixed columns is the job of the
 * encoding library's `write`, which this model takes as a parameter of the
 * sequencer and does not look into.
 */
module Records {
  import opened Values
  import Keys

  /** A record of each kind, with exactly the fields its builder sets. */
  datatype Record =
    | Header1(recordCode: Value, operationCode: Value, nif: Value, notebookVersion: Value, dataNumber: Value,
              sendDate: Value, creationDate: Value, bankCode: Value, bankOffice: Value, bankAccountNum: Value,
              chargeDetail: Value, expenses: Value, bankAccountDc: Value)
    | Header2(recordCode: Value, operationCode: Value, nif: Value, dataNumber: Value, name: Value)
    | Header3(recordCode: Value, operationCode: Value, nif: Value, dataNumber: Value, address: Value)
    | Header4(recordCode: Value, operationCode: Value, nif: Value, dataNumber: Value, city: Value)
    | Recipient1(recordCode: Value, operationCode: Value, nif: Value, recipientNif: Value, dataNumber: Value,
                 amount: Value, bankCode: Value, bankOffice: Value, bankAccountNum: Value, concept: Value,
                 bankAccountDc: Value)
    | Recipient2(recordCode: Value, operationCode: Value, nif: Value, recipientNif: Value, dataNumber: Value,
                 name: Value)
    | Recipient3(recordCode: Value, operationCode: Value, nif: Value, recipientNif: Value, dataNumber: Value,
                 address: Value)
    | Recipient4(recordCode: Value, operationCode: Value, nif: Value, recipientNif: Value, dataNumber: Value,
                 address2: Value)
    | Recipient5(recordCode: Value, operationCode: Value, nif: Value, recipientNif: Value, dataNumber: Value,
                 zipCity: Value)
    | Recipient6(recordCode: Value, operationCode: Value, nif: Value, recipientNif: Value, dataNumber: Value,
                 province: Value)
    | Recipient7(recordCode: Value, operationCode: Value, nif: Value, recipientNif: Value, dataNumber: Value,
                 concept: Value)
    | Recipient8(recordCode: Value, operationCode: Value, nif: Value, recipientNif: Value, dataNumber: Value,
                 concept2: Value)
    | Recipient9(recordCode: Value, operationCode: Value, nif: Value, recipientNif: Value, dataNumber: Value,
                 beneficiaryNif: Value, anotherIdDoc: Value)
    | Totals(recordCode: Value, operationCode: Value, nif: Value, amount: Value,
             paymentLineCount: Value, recordCount: Value)

  predicate IsHeader(rec: Record) {
    rec.Header1? || rec.Header2? || rec.Header3? || rec.Header4?
  }

  predicate IsRecipient(rec: Record) {
    !IsHeader(rec) && !rec.Totals?
  }

  // ---------------------------------------------------------------------------
  // The record table: the constants of each kind of record.
  // ---------------------------------------------------------------------------

  /** '03' for a header record, '06' for a recipient record, '08' for the totals. */
  function KindCode(rec: Record): string {
    if IsHeader(rec) then "03" else if rec.Totals? then "08" else "06"
  }

  /**
   * The data number of every record but the totals. Recipient records 8 and 9
   * reuse '011', the number of recipient record 2.
   */
  function KindDataNumber(rec: Record): string
    requires !rec.Totals?
  {
    match rec
    case Header1(_, _, _, _, _, _, _, _, _, _, _, _, _) => "001"
    case Header2(_, _, _, _, _) => "002"
    case Header3(_, _, _, _, _) => "003"
    case Header4(_, _, _, _, _) => "004"
    case Recipient1(_, _, _, _, _, _, _, _, _, _, _) => "010"
    case Recipient2(_, _, _, _, _, _) => "011"
    case Recipient3(_, _, _, _, _, _) => "012"
    case Recipient4(_, _, _, _, _, _) => "013"
    case Recipient5(_, _, _, _, _, _) => "014"
    case Recipient6(_, _, _, _, _, _) => "015"
    case Recipient7(_, _, _, _, _, _) => "016"
    case Recipient8(_, _, _, _, _, _) => "011"
    case Recipient9(_, _, _, _, _, _, _) => "011"
  }

  /**
   * A record carries its kind's record code and data number, and, unless it
   * is a recipient record (whose operation code is the receipt's), the
   * operation code '56'.
   */
  predicate Conforms(rec: Record) {
    && rec.recordCode == Str(KindCode(rec))
    && (!IsRecipient(rec) ==> rec.operationCode == Str("56"))
    && (!rec.Totals? ==> rec.dataNumber == Str(KindDataNumber(rec)))
  }

  /** `v` is the value dictionary `m` holds under `key`. */
  predicate Copied(v: Value, m: Dict, key: Keys.Key) {
    key in m && m[key] == v
  }

  /** A header or totals record conforms and names the ordering company by its VAT number. */
  predicate OrderRecordOf(rec: Record, values: Dict) {
    && !IsRecipient(rec) && Conforms(rec)
    && Copied(rec.nif, values, Keys.VatNumber)
  }

  /**
   * A recipient record conforms, names the ordering company and the
   * receipt's party by their VAT numbers and carries the receipt's operation code.
   */
  predicate RecipientOf(rec: Record, values: Dict, receipt: Dict) {
    && IsRecipient(rec) && Conforms(rec)
    && Copied(rec.nif, values, Keys.VatNumber)
    && Copied(rec.recipientNif, receipt, Keys.VatNumber)
    && Copied(rec.operationCode, receipt, Keys.OperationCode)
  }

  /** Header record 1 and recipient record 1 carry a bank account. */
  predicate HasAccount(rec: Record) {
    rec.Header1? || rec.Recipient1?
  }

  /** The record splits `account` into bank code [0:4], office [4:8], check digits [8:10] and number [10:20]. */
  predicate SplitsAccount(rec: Record, account: string) {
    && HasAccount(rec)
    && rec.bankCode == Str(Slice(account, 0, 4))
    && rec.bankOffice == Str(Slice(account, 4, 8))
    && rec.bankAccountDc == Str(Slice(account, 8, 10))
    && rec.bankAccountNum == Str(Slice(account, 10, 20))
  }

  /** The four account fields of a record, concatenated back into one string. */
  function JoinedAccount(rec: Record): string
    requires HasAccount(rec)
  {
    TextOf(rec.bankCode) + TextOf(rec.bankOffice) + TextOf(rec.bankAccountDc) + TextOf(rec.bankAccountNum)
  }

  function TextOf(v: Value): string {
    if v.Str? then v.s else ""
  }

  /** A record that splits a 20-character account joins back into exactly that account. */
  lemma AccountRoundTrip(rec: Record, account: string)
    requires SplitsAccount(rec, account) && |account| == 20
    ensures JoinedAccount(rec) == account
  {
    AccountSlicesJoin(account);
  }

  // ---------------------------------------------------------------------------
  // Header records. Each reads the payment-order values in the order in which
  // payment.py assigns the fields, so a missing key raises at the first read.
  // ---------------------------------------------------------------------------

  /** Header record 1: the company, the two dates, its account and the charge options. */
  function HeaderRecord1(values: Dict): (r: Result<Record>)
    ensures r.Success? <==>
      && Keys.VatNumber in values && Keys.CreationDate in values && Keys.PaymentDate in values
      && IsText(values, Keys.BankAccount)
      && Keys.WithRelationship in values && Keys.ExpensesByPayer in values
    ensures r.Failure? ==>
      Explains(values, {Keys.VatNumber, Keys.CreationDate, Keys.PaymentDate, Keys.WithRelationship, Keys.ExpensesByPayer},
               {Keys.BankAccount}, r.error)
    ensures r.Success? ==>
      && r.value.Header1? && OrderRecordOf(r.value, values)
      && r.value.notebookVersion == Str("34016")
      && Copied(r.value.sendDate, values, Keys.CreationDate)
      && Copied(r.value.creationDate, values, Keys.PaymentDate)
      && IsText(values, Keys.BankAccount) && SplitsAccount(r.value, values[Keys.BankAccount].s)
      && Copied(r.value.chargeDetail, values, Keys.WithRelationship)
      && Copied(r.value.expenses, values, Keys.ExpensesByPayer)
  {
    var nif :- Lookup(values, Keys.VatNumber);
    var sendDate :- Lookup(values, Keys.CreationDate);
    var creationDate :- Lookup(values, Keys.PaymentDate);
    var account :- LookupText(values, Keys.BankAccount);
    var chargeDetail :- Lookup(values, Keys.WithRelationship);
    var expenses :- Lookup(values, Keys.ExpensesByPayer);
    Success(Header1(
      recordCode := Str("03"),
      operationCode := Str("56"),
      nif := nif,
      notebookVersion := Str("34016"),
      dataNumber := Str("001"),
      sendDate := sendDate,
      creationDate := creationDate,
      bankCode := Str(Slice(account, 0, 4)),
      bankOffice := Str(Slice(account, 4, 8)),
      bankAccountNum := Str(Slice(account, 10, 20)),
      chargeDetail := chargeDetail,
      expenses := expenses,
      bankAccountDc := Str(Slice(account, 8, 10))))
  }

  /** Header record 2: the company's name. */
  function HeaderRecord2(values: Dict): (r: Result<Record>)
    ensures r.Success? <==> Keys.VatNumber in values && Keys.Name in values
    ensures r.Failure? ==> Explains(values, {Keys.VatNumber, Keys.Name}, {}, r.error)
    ensures r.Success? ==>
      r.value.Header2? && OrderRecordOf(r.value, values) && Copied(r.value.name, values, Keys.Name)
  {
    var nif :- Lookup(values, Keys.VatNumber);
    var name :- Lookup(values, Keys.Name);
    Success(Header2(
      recordCode := Str("03"),
      operationCode := Str("56"),
      nif := nif,
      dataNumber := Str("002"),
      name := name))
  }

  /** Header record 3: the company's street. */
  function HeaderRecord3(values: Dict): (r: Result<Record>)
    ensures r.Success? <==> Keys.VatNumber in values && Keys.Street in values
    ensures r.Failure? ==> Explains(values, {Keys.VatNumber, Keys.Street}, {}, r.error)
    ensures r.Success? ==>
      r.value.Header3? && OrderRecordOf(r.value, values) && Copied(r.value.address, values, Keys.Street)
  {
    var nif :- Lookup(values, Keys.VatNumber);
    var street :- Lookup(values, Keys.Street);
    Success(Header3(
      recordCode := Str("03"),
      operationCode := Str("56"),
      nif := nif,
      dataNumber := Str("003"),
      address := street))
  }

  /** Header record 4: the company's city. */
  function HeaderRecord4(values: Dict): (r: Result<Record>)
    ensures r.Success? <==> Keys.VatNumber in values && Keys.City in values
    ensures r.Failure? ==> Explains(values, {Keys.VatNumber, Keys.City}, {}, r.error)
    ensures r.Success? ==>
      r.value.Header4? && OrderRecordOf(r.value, values) && Copied(r.value.city, values, Keys.City)
  {
    var nif :- Lookup(values, Keys.VatNumber);
    var city :- Lookup(values, Keys.City);
    Success(Header4(
      recordCode := Str("03"),
      operationCode := Str("56"),
      nif := nif,
      dataNumber := Str("004"),
      city := city))
  }

  // ---------------------------------------------------------------------------
  // Recipient records. Each reads the receipt's operation code, the company's
  // VAT number and the receipt's VAT number first, then its own data.
  // ---------------------------------------------------------------------------

  /** Recipient record 1: the amount and the recipient's account; the concept is 'others'. */
  function RecipientRecord1(values: Dict, receipt: Dict): (r: Result<Record>)
    ensures r.Success? <==>
      && Keys.OperationCode in receipt && Keys.VatNumber in values && Keys.VatNumber in receipt
      && Keys.Amount in receipt && IsText(receipt, Keys.BankAccount)
    ensures r.Failure? ==>
      Explains(values, {Keys.VatNumber}, {}, r.error)
      || Explains(receipt, {Keys.OperationCode, Keys.VatNumber, Keys.Amount}, {Keys.BankAccount}, r.error)
    ensures r.Success? ==>
      && r.value.Recipient1? && RecipientOf(r.value, values, receipt)
      && Copied(r.value.amount, receipt, Keys.Amount)
      && IsText(receipt, Keys.BankAccount) && SplitsAccount(r.value, receipt[Keys.BankAccount].s)
      && r.value.concept == Str("others")
  {
    var operationCode :- Lookup(receipt, Keys.OperationCode);
    var nif :- Lookup(values, Keys.VatNumber);
    var recipientNif :- Lookup(receipt, Keys.VatNumber);
    var amount :- Lookup(receipt, Keys.Amount);
    var account :- LookupText(receipt, Keys.BankAccount);
    Success(Recipient1(
      recordCode := Str("06"),
      operationCode := operationCode,
      nif := nif,
      recipientNif := recipientNif,
      dataNumber := Str("010"),
      amount := amount,
      bankCode := Str(Slice(account, 0, 4)),
      bankOffice := Str(Slice(account, 4, 8)),
      bankAccountNum := Str(Slice(account, 10, 20)),
      concept := Str("others"),
      bankAccountDc := Str(Slice(account, 8, 10))))
  }

  /** Recipient record 2: the recipient's name. */
  function RecipientRecord2(values: Dict, receipt: Dict): (r: Result<Record>)
    ensures r.Success? <==>
      Keys.OperationCode in receipt && Keys.VatNumber in values && Keys.VatNumber in receipt && Keys.Name in receipt
    ensures r.Failure? ==>
      Explains(values, {Keys.VatNumber}, {}, r.error)
      || Explains(receipt, {Keys.OperationCode, Keys.VatNumber, Keys.Name}, {}, r.error)
    ensures r.Success? ==>
      r.value.Recipient2? && RecipientOf(r.value, values, receipt) && Copied(r.value.name, receipt, Keys.Name)
  {
    var operationCode :- Lookup(receipt, Keys.OperationCode);
    var nif :- Lookup(values, Keys.VatNumber);
    var recipientNif :- Lookup(receipt, Keys.VatNumber);
    var name :- Lookup(receipt, Keys.Name);
    Success(Recipient2(
      recordCode := Str("06"),
      operationCode := operationCode,
      nif := nif,
      recipientNif := recipientNif,
      dataNumber := Str("011"),
      name := name))
  }

  /** Recipient records 3 to 8 each copy one receipt entry into one field. */
  predicate SingleEntry(rec: Record) {
    rec.Recipient3? || rec.Recipient4? || rec.Recipient5? || rec.Recipient6? || rec.Recipient7? || rec.Recipient8?
  }

  /** The one receipt entry a recipient record 3 to 8 carries. */
  function EntryOf(rec: Record): Value
    requires SingleEntry(rec)
  {
    match rec
    case Recipient3(_, _, _, _, _, address) => address
    case Recipient4(_, _, _, _, _, address2) => address2
    case Recipient5(_, _, _, _, _, zipCity) => zipCity
    case Recipient6(_, _, _, _, _, province) => province
    case Recipient7(_, _, _, _, _, concept) => concept
    case Recipient8(_, _, _, _, _, concept2) => concept2
  }

  /** What recipient records 3 to 8 have in common: they read `entry` after the three common keys. */
  predicate SingleEntryRecord(r: Result<Record>, values: Dict, receipt: Dict, entry: Keys.Key) {
    && (r.Success? <==>
          Keys.OperationCode in receipt && Keys.VatNumber in values && Keys.VatNumber in receipt && entry in receipt)
    && (r.Failure? ==>
          Explains(values, {Keys.VatNumber}, {}, r.error)
          || Explains(receipt, {Keys.OperationCode, Keys.VatNumber, entry}, {}, r.error))
    && (r.Success? ==>
          && SingleEntry(r.value) && RecipientOf(r.value, values, receipt)
          && Copied(EntryOf(r.value), receipt, entry))
  }

  /** Recipient record 3: the recipient's street. Never emitted by the sequencer. */
  function RecipientRecord3(values: Dict, receipt: Dict): (r: Result<Record>)
    ensures SingleEntryRecord(r, values, receipt, Keys.Street) && (r.Success? ==> r.value.Recipient3?)
  {
    var operationCode :- Lookup(receipt, Keys.OperationCode);
    var nif :- Lookup(values, Keys.VatNumber);
    var recipientNif :- Lookup(receipt, Keys.VatNumber);
    var street :- Lookup(receipt, Keys.Street);
    Success(Recipient3(
      recordCode := Str("06"),
      operationCode := operationCode,
      nif := nif,
      recipientNif := recipientNif,
      dataNumber := Str("012"),
      address := street))
  }

  /** Recipient record 4: the second street line. Never emitted by the sequencer. */
  function RecipientRecord4(values: Dict, receipt: Dict): (r: Result<Record>)
    ensures SingleEntryRecord(r, values, receipt, Keys.Street2) && (r.Success? ==> r.value.Recipient4?)
  {
    var operationCode :- Lookup(receipt, Keys.OperationCode);
    var nif :- Lookup(values, Keys.VatNumber);
    var recipientNif :- Lookup(receipt, Keys.VatNumber);
    var street2 :- Lookup(receipt, Keys.Street2);
    Success(Recipient4(
      recordCode := Str("06"),
      operationCode := operationCode,
      nif := nif,
      recipientNif := recipientNif,
      dataNumber := Str("013"),
      address2 := street2))
  }

  /** Recipient record 5: postcode and city. Never emitted by the sequencer. */
  function RecipientRecord5(values: Dict, receipt: Dict): (r: Result<Record>)
    ensures SingleEntryRecord(r, values, receipt, Keys.ZipCity) && (r.Success? ==> r.value.Recipient5?)
  {
    var operationCode :- Lookup(receipt, Keys.OperationCode);
    var nif :- Lookup(values, Keys.VatNumber);
    var recipientNif :- Lookup(receipt, Keys.VatNumber);
    var zipCity :- Lookup(receipt, Keys.ZipCity);
    Success(Recipient5(
      recordCode := Str("06"),
      operationCode := operationCode,
      nif := nif,
      recipientNif := recipientNif,
      dataNumber := Str("014"),
      zipCity := zipCity))
  }

  /** Recipient record 6: the province. Never emitted by the sequencer. */
  function RecipientRecord6(values: Dict, receipt: Dict): (r: Result<Record>)
    ensures SingleEntryRecord(r, values, receipt, Keys.Province) && (r.Success? ==> r.value.Recipient6?)
  {
    var operationCode :- Lookup(receipt, Keys.OperationCode);
    var nif :- Lookup(values, Keys.VatNumber);
    var recipientNif :- Lookup(receipt, Keys.VatNumber);
    var province :- Lookup(receipt, Keys.Province);
    Success(Recipient6(
      recordCode := Str("06"),
      operationCode := operationCode,
      nif := nif,
      recipientNif := recipientNif,
      dataNumber := Str("015"),
      province := province))
  }

  /** Recipient record 7: the payment concept. Never emitted by the sequencer. */
  function RecipientRecord7(values: Dict, receipt: Dict): (r: Result<Record>)
    ensures SingleEntryRecord(r, values, receipt, Keys.Concept) && (r.Success? ==> r.value.Recipient7?)
  {
    var operationCode :- Lookup(receipt, Keys.OperationCode);
    var nif :- Lookup(values, Keys.VatNumber);
    var recipientNif :- Lookup(receipt, Keys.VatNumber);
    var concept :- Lookup(receipt, Keys.Concept);
    Success(Recipient7(
      recordCode := Str("06"),
      operationCode := operationCode,
      nif := nif,
      recipientNif := recipientNif,
      dataNumber := Str("016"),
      concept := concept))
  }

  /** Recipient record 8: the second concept line, with data number '011'. Never emitted by the sequencer. */
  function RecipientRecord8(values: Dict, receipt: Dict): (r: Result<Record>)
    ensures SingleEntryRecord(r, values, receipt, Keys.Concept2) && (r.Success? ==> r.value.Recipient8?)
  {
    var operationCode :- Lookup(receipt, Keys.OperationCode);
    var nif :- Lookup(values, Keys.VatNumber);
    var recipientNif :- Lookup(receipt, Keys.VatNumber);
    var concept2 :- Lookup(receipt, Keys.Concept2);
    Success(Recipient8(
      recordCode := Str("06"),
      operationCode := operationCode,
      nif := nif,
      recipientNif := recipientNif,
      dataNumber := Str("011"),
      concept2 := concept2))
  }

  /**
   * Recipient record 9: the beneficiary (the receipt's VAT number once more) and
   * its other identity document, with data number '011'. Never emitted by the sequencer.
   */
  function RecipientRecord9(values: Dict, receipt: Dict): (r: Result<Record>)
    ensures r.Success? <==>
      Keys.OperationCode in receipt && Keys.VatNumber in values && Keys.VatNumber in receipt && Keys.AnotherIdDoc in receipt
    ensures r.Failure? ==>
      Explains(values, {Keys.VatNumber}, {}, r.error)
      || Explains(receipt, {Keys.OperationCode, Keys.VatNumber, Keys.AnotherIdDoc}, {}, r.error)
    ensures r.Success? ==>
      && r.value.Recipient9? && RecipientOf(r.value, values, receipt)
      && Copied(r.value.beneficiaryNif, receipt, Keys.VatNumber)
      && Copied(r.value.anotherIdDoc, receipt, Keys.AnotherIdDoc)
  {
    var operationCode :- Lookup(receipt, Keys.OperationCode);
    var nif :- Lookup(values, Keys.VatNumber);
    var recipientNif :- Lookup(receipt, Keys.VatNumber);
    var anotherIdDoc :- Lookup(receipt, Keys.AnotherIdDoc);
    Success(Recipient9(
      recordCode := Str("06"),
      operationCode := operationCode,
      nif := nif,
      recipientNif := recipientNif,
      dataNumber := Str("011"),
      beneficiaryNif := recipientNif,  // payment.py reads the same key a second time
      anotherIdDoc := anotherIdDoc))
  }

  // ---------------------------------------------------------------------------
  // The record of totals.
  // ---------------------------------------------------------------------------

  /**
   * The record of totals: the order's amount and the two counters, each
   * written as its decimal string.
   */
  function TotalsRecord(values: Dict, paymentCount: nat, recordCount: nat): (r: Result<Record>)
    ensures r.Success? <==> Keys.VatNumber in values && Keys.Amount in values
    ensures r.Failure? ==> Explains(values, {Keys.VatNumber, Keys.Amount}, {}, r.error)
    ensures r.Success? ==>
      && r.value.Totals? && OrderRecordOf(r.value, values)
      && Copied(r.value.amount, values, Keys.Amount)
      && r.value.paymentLineCount == Str(DecimalString(paymentCount))
      && r.value.recordCount == Str(DecimalString(recordCount))
  {
    var nif :- Lookup(values, Keys.VatNumber);
    var amount :- Lookup(values, Keys.Amount);
    Success(Totals(
      recordCode := Str("08"),
      operationCode := Str("56"),
      nif := nif,
      amount := amount,
      paymentLineCount := Str(DecimalString(paymentCount)),
      recordCount := Str(DecimalString(recordCount))))
  }

  // ---------------------------------------------------------------------------
  // Read order. A builder raises the exception of its first read that fails:
  // each read list below is the order in which payment.py reads the keys.
  // ---------------------------------------------------------------------------

  /** The reads of header record 1. */
  const Header1Reads: seq<Read> := [
    Read(Order, Keys.VatNumber, false), Read(Order, Keys.CreationDate, false), Read(Order, Keys.PaymentDate, false),
    Read(Order, Keys.BankAccount, true), Read(Order, Keys.WithRelationship, false),
    Read(Order, Keys.ExpensesByPayer, false)]

  /** The reads of header record 2: the company's VAT number, then its name. */
  const Header2Reads: seq<Read> := [Read(Order, Keys.VatNumber, false), Read(Order, Keys.Name, false)]

  /** The reads of header record 3: the company's VAT number, then its street. */
  const Header3Reads: seq<Read> := [Read(Order, Keys.VatNumber, false), Read(Order, Keys.Street, false)]

  /** The reads of header record 4: the company's VAT number, then its city. */
  const Header4Reads: seq<Read> := [Read(Order, Keys.VatNumber, false), Read(Order, Keys.City, false)]

  /** The reads of the record of totals: the company's VAT number, then its amount. */
  const TotalsReads: seq<Read> := [Read(Order, Keys.VatNumber, false), Read(Order, Keys.Amount, false)]

  /** The reads of recipient record 1. */
  const Recipient1Reads: seq<Read> := [
    Read(Receipt, Keys.OperationCode, false), Read(Order, Keys.VatNumber, false), Read(Receipt, Keys.VatNumber, false),
    Read(Receipt, Keys.Amount, false), Read(Receipt, Keys.BankAccount, true)]

  /** The reads of recipient record 2: operation code, both VAT numbers, then the receipt's name. */
  const Recipient2Reads: seq<Read> := [
    Read(Receipt, Keys.OperationCode, false), Read(Order, Keys.VatNumber, false), Read(Receipt, Keys.VatNumber, false),
    Read(Receipt, Keys.Name, false)]

  /** The reads of recipient record 3: operation code, both VAT numbers, then the receipt's street. */
  const Recipient3Reads: seq<Read> := [
    Read(Receipt, Keys.OperationCode, false), Read(Order, Keys.VatNumber, false), Read(Receipt, Keys.VatNumber, false),
    Read(Receipt, Keys.Street, false)]

  /** The reads of recipient record 4: operation code, both VAT numbers, then the receipt's street2. */
  const Recipient4Reads: seq<Read> := [
    Read(Receipt, Keys.OperationCode, false), Read(Order, Keys.VatNumber, false), Read(Receipt, Keys.VatNumber, false),
    Read(Receipt, Keys.Street2, false)]

  /** The reads of recipient record 5: operation code, both VAT numbers, then the receipt's zip_city. */
  const Recipient5Reads: seq<Read> := [
    Read(Receipt, Keys.OperationCode, false), Read(Order, Keys.VatNumber, false), Read(Receipt, Keys.VatNumber, false),
    Read(Receipt, Keys.ZipCity, false)]

  /** The reads of recipient record 6: operation code, both VAT numbers, then the receipt's province. */
  const Recipient6Reads: seq<Read> := [
    Read(Receipt, Keys.OperationCode, false), Read(Order, Keys.VatNumber, false), Read(Receipt, Keys.VatNumber, false),
    Read(Receipt, Keys.Province, false)]

  /** The reads of recipient record 7: operation code, both VAT numbers, then the receipt's concept. */
  const Recipient7Reads: seq<Read> := [
    Read(Receipt, Keys.OperationCode, false), Read(Order, Keys.VatNumber, false), Read(Receipt, Keys.VatNumber, false),
    Read(Receipt, Keys.Concept, false)]

  /** The reads of recipient record 8: operation code, both VAT numbers, then the receipt's concept2. */
  const Recipient8Reads: seq<Read> := [
    Read(Receipt, Keys.OperationCode, false), Read(Order, Keys.VatNumber, false), Read(Receipt, Keys.VatNumber, false),
    Read(Receipt, Keys.Concept2, false)]

  /** The reads of recipient record 9, which reads the receipt's VAT number twice. */
  const Recipient9Reads: seq<Read> := [
    Read(Receipt, Keys.OperationCode, false), Read(Order, Keys.VatNumber, false), Read(Receipt, Keys.VatNumber, false),
    Read(Receipt, Keys.VatNumber, false), Read(Receipt, Keys.AnotherIdDoc, false)]

  /** Each header record succeeds, or fails with the exception of its first failing read. */
  lemma HeaderReadOrder(values: Dict)
    ensures Outcome(HeaderRecord1(values)) == FirstFailure(values, map[], Header1Reads)
    ensures Outcome(HeaderRecord2(values)) == FirstFailure(values, map[], Header2Reads)
    ensures Outcome(HeaderRecord3(values)) == FirstFailure(values, map[], Header3Reads)
    ensures Outcome(HeaderRecord4(values)) == FirstFailure(values, map[], Header4Reads)
  {
    FailureSteps(values, map[], Header1Reads);
    FailureSteps(values, map[], Header2Reads);
    FailureSteps(values, map[], Header3Reads);
    FailureSteps(values, map[], Header4Reads);
  }

  /** Recipient records 1 and 2 succeed, or fail with the exception of their first failing read. */
  lemma RecipientReadOrder(values: Dict, receipt: Dict)
    ensures Outcome(RecipientRecord1(values, receipt)) == FirstFailure(values, receipt, Recipient1Reads)
    ensures Outcome(RecipientRecord2(values, receipt)) == FirstFailure(values, receipt, Recipient2Reads)
  {
    FailureSteps(values, receipt, Recipient1Reads);
    FailureSteps(values, receipt, Recipient2Reads);
  }

  /** Recipient records 3 to 6 succeed, or fail with the exception of their first failing read. */
  lemma AddressReadOrder(values: Dict, receipt: Dict)
    ensures Outcome(RecipientRecord3(values, receipt)) == FirstFailure(values, receipt, Recipient3Reads)
    ensures Outcome(RecipientRecord4(values, receipt)) == FirstFailure(values, receipt, Recipient4Reads)
    ensures Outcome(RecipientRecord5(values, receipt)) == FirstFailure(values, receipt, Recipient5Reads)
    ensures Outcome(RecipientRecord6(values, receipt)) == FirstFailure(values, receipt, Recipient6Reads)
  {
    FailureSteps(values, receipt, Recipient3Reads);
    FailureSteps(values, receipt, Recipient4Reads);
    FailureSteps(values, receipt, Recipient5Reads);
    FailureSteps(values, receipt, Recipient6Reads);
  }

  /** Recipient records 7 to 9 succeed, or fail with the exception of their first failing read. */
  lemma ConceptReadOrder(values: Dict, receipt: Dict)
    ensures Outcome(RecipientRecord7(values, receipt)) == FirstFailure(values, receipt, Recipient7Reads)
    ensures Outcome(RecipientRecord8(values, receipt)) == FirstFailure(values, receipt, Recipient8Reads)
    ensures Outcome(RecipientRecord9(values, receipt)) == FirstFailure(values, receipt, Recipient9Reads)
  {
    FailureSteps(values, receipt, Recipient7Reads);
    FailureSteps(values, receipt, Recipient8Reads);
    FailureSteps(values, receipt, Recipient9Reads);
  }

  /** The record of totals succeeds, or fails with the exception of its first failing read. */
  lemma TotalsReadOrder(values: Dict, paymentCount: nat, recordCount: nat)
    ensures Outcome(TotalsRecord(values, paymentCount, recordCount)) == FirstFailure(values, map[], TotalsReads)
  {
    FailureSteps(values, map[], TotalsReads);
  }
}
