# CSB 34-01 transfer-order file sequencer, modelled in Dafny

This project models the core of the Tryton module `account_payment_es_csb_34_01`.
The module writes a payment group's transfer orders as a CSB 34-01 file. CSB 34-01
is Cuaderno 34, version 34-01, of the Spanish banking association's fixed-width
transfer-order format. The model covers four parts of `payment.py`.

- **Preparation** (`Group.set_default_csb34_01_payment_values`). It fixes the
  charge-detail and expenses options, makes every receipt a transfer with no
  other identity document, and resets the record and payment counters.
  Modelled by the spec functions `Sequencer.WithCsb3401Options`,
  `Sequencer.PrepareReceipt` and `Sequencer.PrepareReceipts`, and by the method
  `Sequencer.PaymentValues.SetDefaultCsb3401Values`, which updates the
  `PaymentValues` object's fields and receipts in place in a loop.
- **The fourteen record builders**, nested in `Group.process_csb34_01`: header
  records 1–4, recipient records 1–9 and the record of totals. Each is a pure
  function (`Records.HeaderRecord1` … `Records.TotalsRecord`) from the
  payment-order values (and the receipt) to a `Record`, or to the first
  `KeyError`/`TypeError` its reads raise. Reads happen in the order payment.py makes them.
- **The sequencer**, the body of `process_csb34_01`. It writes headers 1–4,
  then recipient records 1 and 2 of each receipt in input order, then the
  record of totals, counting records and payments on the way. Its
  specification is `Sequencer.FileRecords`: the emitted record sequence, or the
  first exception. `Sequencer.ProcessCsb3401` and the `PaymentValues` methods
  it calls are imperative and are proved to produce `write` of exactly those
  records. The record count includes the literal `+= 2` before the totals
  (payment.py:242), so the totals record counts 4 + 2·N + 2 records, one more
  than the N-receipt file holds. The model keeps that value.
- **Selection registration** (`Journal.__setup__`). It extends the journal's
  process-method selection with `('csb34_01', 'CSB 34-01')` only when the
  option is absent. Modelled by `Journal.ProcessMethodField.Setup` and its
  spec function `Journal.WithCsb3401`.

The field layout of a record (widths, padding, formats) belongs to the external
`retrofix` library. So `write: Record -> string` is a parameter, and the file
text is the concatenation of `write` over the emitted records (`Sequencer.FileText`).

Design choices:

- **Keys.** Dictionary keys are the enumeration `Keys.Key`, one constructor per
  Python string key the builders and the preparation read or write.
- **Values.** Stored values are `Values.Value`. Only a `Str` value can be sliced;
  slicing anything else raises `TypeError`.
- **Records.** A `Record` has one constructor per record kind. Its fields are
  exactly those the builder of that kind assigns, in assignment order. So "a
  record carries exactly its kind's fields" holds by construction.
- **The values dictionary.** The keys `receipts`, `record_count` and
  `payment_count` are the fields `receipts`, `recordCount` and `paymentCount`
  of class `Sequencer.PaymentValues`, next to `fields`, which holds the other
  entries.
- **One function, three methods.** `process_csb34_01` is one Python function.
  The model splits it into `EmitHeaders`, `EmitRecipients` and `WriteFile`, so
  that each proof stays small. Statement by statement, they do what lines
  228–243 do; line 227, the preparation, is `SetDefaultCsb3401Values`, which
  `ProcessCsb3401` calls first.

Files: `keys.dfy`, `values.dfy` (Python values, exceptions, slicing, `str` of a
natural number), `records.dfy`, `sequencer.dfy`, `properties.dfy` (the file-level
properties) and `journal.dfy`.

## Model

| member | source | states |
|---|---|---|
| Values.Slice | payment.py:86-91 | Python `s[lo:hi]`: both bounds clamped to the length; the result is the characters of `s` from `lo` |
| Values.Lookup | payment.py:81 | Python `m[key]`: succeeds exactly when the key is present, with its value; otherwise KeyError of that key |
| Values.LookupText | payment.py:86-91 | `m[key]` then a slice: succeeds exactly when the key holds a string; KeyError when it is absent, TypeError when it holds anything else |
| Values.FirstFailure | payment.py:77-225 | the exception that making a list of reads in turn raises: that of the first missing key or unsliceable value, or none when every read succeeds |
| Values.FirstFailureAppend | payment.py:227-241 | reads made one list after another fail where the first list fails, and otherwise where the second does |
| Values.AccountSlicesJoin | payment.py:86-91 | slices [0:4], [4:8], [8:10], [10:20] of an account put back together give its first 20 characters, so the whole of a 20-character account |
| Values.DecimalString | payment.py:223-224 | `str(n)` of a count: at least one decimal digit, no leading zero unless n is 0 |
| Values.DecimalRoundTrip | payment.py:223-224 | the digits written for a count read back as that count |
| Values.DecimalStringInjective | payment.py:223-224 | different counts are written differently |
| Records.AccountRoundTrip | payment.py:129-133 | a record that splits a 20-character account into code, office, check digits and number joins back to exactly that account |
| Records.HeaderRecord1 | payment.py:77-92 | header record 1 succeeds iff vat_number, creation_date, payment_date, a string bank_account, with_relationship and expenses_by_payer are present; otherwise the exception names a missing key or the unsliceable account; on success codes '03'/'56'/'001', notebook version '34016', nif = vat_number, send date = creation_date, creation date = payment_date, account split [0:4]/[4:8]/[8:10]/[10:20], the two options copied |
| Records.HeaderRecord2 | payment.py:94-101 | succeeds iff vat_number and name are present, else KeyError of a missing one; '03'/'56'/'002', the company nif and name |
| Records.HeaderRecord3 | payment.py:103-110 | succeeds iff vat_number and street are present; '03'/'56'/'003', the company nif and street as address |
| Records.HeaderRecord4 | payment.py:112-119 | succeeds iff vat_number and city are present; '03'/'56'/'004', the company nif and city |
| Records.RecipientRecord1 | payment.py:121-134 | succeeds iff the receipt has operation_code, vat_number, amount and a string bank_account and the values have vat_number; '06'/'010', the receipt's operation code, company nif, recipient nif, amount, account split as in header 1, concept 'others' |
| Records.RecipientRecord2 | payment.py:136-144 | succeeds iff operation_code, vat_number, name (receipt) and vat_number (values) are present; '06'/'011', the receipt's name |
| Records.RecipientRecord3 | payment.py:146-154 | as record 2 but '012' and the receipt's street as address |
| Records.RecipientRecord4 | payment.py:156-164 | as record 2 but '013' and street2 as address2 |
| Records.RecipientRecord5 | payment.py:166-174 | as record 2 but '014' and zip_city |
| Records.RecipientRecord6 | payment.py:176-184 | as record 2 but '015' and province |
| Records.RecipientRecord7 | payment.py:186-194 | as record 2 but '016' and concept |
| Records.RecipientRecord8 | payment.py:196-204 | as record 2, with data number '011' again, and concept2 |
| Records.RecipientRecord9 | payment.py:206-215 | as record 2, with data number '011', beneficiary nif = the receipt's vat_number again, and another_id_doc |
| Records.TotalsRecord | payment.py:217-225 | succeeds iff vat_number and amount are present; '08'/'56', company nif, the order's amount, payment_line_count and record_count as the decimal strings of the two counters |
| Records.HeaderReadOrder | payment.py:77-119 | each header record succeeds exactly when none of its reads fails, else with the exception of the first failing read: vat_number, creation_date, payment_date, bank_account (sliced), with_relationship, expenses_by_payer for record 1; vat_number then name, street or city for records 2–4 |
| Records.RecipientReadOrder | payment.py:121-144 | records 1 and 2 succeed exactly when none of their reads fails, else with the first failing read's exception: the receipt's operation_code, the company's vat_number, the receipt's vat_number, then amount and bank_account (sliced), or name |
| Records.AddressReadOrder | payment.py:146-184 | the same for records 3–6, whose last read is street, street2, zip_city or province |
| Records.ConceptReadOrder | payment.py:186-215 | the same for records 7–9, whose last reads are concept, concept2, or the receipt's vat_number again and another_id_doc |
| Records.TotalsReadOrder | payment.py:217-225 | the totals succeed exactly when vat_number and amount are present, else with KeyError of the first one missing |
| Sequencer.WithCsb3401Options | payment.py:55-60 | the values gain with_relationship = 'with_relationship' and expenses_by_payer = 'expenses_by_payer'; every other entry is unchanged |
| Sequencer.PrepareReceipt | payment.py:64-70 | a receipt gains operation_code = 'transfer' and another_id_doc = ''; no other key changes |
| Sequencer.PrepareReceipts | payment.py:64-70 | every receipt prepared, same number, same order |
| Sequencer.PaymentValues.constructor | payment.py:52 | the values the generic CSB 34 preparation returns, with both counters at zero |
| Sequencer.PaymentValues.SetDefaultCsb3401Values | payment.py:51-73 | in place: the values get the two options, every receipt is prepared, both counters become 0 |
| Sequencer.PaymentValues.EmitHeaders | payment.py:228-235 | writes header records 1–4 of the values (or fails with the first exception) and raises the record count by 4; after an exception the count has been raised by fewer than 4, as Python's `values` is left |
| Sequencer.PaymentValues.EmitRecipients | payment.py:236-241 | writes recipient records 1 and 2 of each receipt in order (or the first exception), raising the record count by 2 and the payment count by 1 per receipt; after an exception both have been raised by less than for the whole list |
| Sequencer.PaymentValues.WriteFile | payment.py:227-243 | with counters starting at zero, the text is `write` of exactly `FileRecords` of the values and receipts, or that exception |
| Sequencer.ProcessCsb3401 | payment.py:227-243 | the file text is `write` of the records of the prepared values and receipts, in sequence order, or the first exception a builder raises |
| Sequencer.HeaderRecords | payment.py:228-235 | header records 1 to 4, or the exception of the first that fails; a success is four records, of kinds 1, 2, 3 and 4 in that order |
| Sequencer.RecipientPair | payment.py:236-241 | recipient records 1 then 2 of one receipt, or the exception of the first that fails; a success is those two records in that order |
| Sequencer.RecipientRecords | payment.py:236-241 | the definition of the recipient records: the pairs of all receipts in input order, or the first failing receipt's exception; what it holds is stated by the `Properties.RecipientRecords*` lemmas |
| Sequencer.FileRecords | payment.py:227-243 | the definition of the records `process_csb34_01` writes: headers, recipient pairs, totals with N payments and 4 + 2N + 2 records, or the first exception; `ProcessCsb3401` is proved equal to it and the `Properties` lemmas state what it holds |
| Sequencer.Concat | payment.py:228-243 | the `text +=` accumulation: the texts `write` gives each record, in order; `ConcatPush` and `ConcatAppend` state how it grows |
| Sequencer.FileText | payment.py:228-243 | the file text succeeds exactly when the records do, and otherwise fails with the records' exception |
| Sequencer.FileRecordsFailure | payment.py:227-243 | a file fails with the headers' exception, else the recipients', else the totals' |
| Sequencer.FileRecordsSuccess | payment.py:227-243 | the file text is the header text, then the recipient text, then the totals text |
| Sequencer.EmitPair | payment.py:236-241 | writing a receipt's two records appends their two texts |
| Sequencer.CollectPrefixFailure | payment.py:236-241 | once a receipt fails, the whole recipient sequence fails with that exception |
| Properties.RecipientPairSucceeds | payment.py:236-241 | a receipt's records 1 and 2 can both be built iff the receipt is readable |
| Properties.RecipientRecordsLayout | payment.py:236-241 | recipient record 1 of receipt i is at 2i, record 2 at 2i + 1, two per receipt, input order kept |
| Properties.RecipientRecordsSucceed | payment.py:236-241 | the recipient records can be built iff every receipt is readable |
| Properties.RecipientRecordsFirstFailure | payment.py:236-241 | on failure, the exception is that of the first unreadable receipt, all before it readable |
| Properties.HeaderRecordsSucceed | payment.py:228-235 | the four headers can be built iff the values carry what they read; they are header records 1, 2, 3, 4 in that order |
| Properties.HeaderRecordsFail | payment.py:77-119 | when the headers fail, the exception is that of the first failing read, in the order headers 1 to 4 make them; so it names a missing key of the values or an account that is not a string |
| Properties.HeaderRecordsReadOrder | payment.py:77-119 | the four headers succeed exactly when none of their reads fails, and otherwise fail with the exception of the first failing read |
| Properties.RecipientPairReadOrder | payment.py:121-144 | a receipt's records 1 and 2 succeed exactly when none of their reads fails, and otherwise fail with the exception of the first failing read |
| Properties.MissingVatNumber | payment.py:81 | values without vat_number make the file fail with KeyError('vat_number') before any record, whatever the receipts |
| Properties.FileSucceeds | payment.py:227-243 | a file can be written iff the values and every receipt carry what the builders read |
| Properties.FileParts | payment.py:227-243 | a file is its headers, then its recipient records, then one totals record |
| Properties.FileLayout | payment.py:227-243 | the records are 2N + 5: builders H1–H4 at 0–3, R1/R2 of receipt i at 4 + 2i / 5 + 2i, and the totals of N payments and 4 + 2N + 2 records last |
| Properties.LaidHeaders | payment.py:77-119 | the first four records are header records 1–4 of the ordering company, record 1 carrying the values' options |
| Properties.LaidPairs | payment.py:236-241 | records 4 + 2i and 5 + 2i are recipient records 1 and 2 of receipt i |
| Properties.LaidTotals | payment.py:217-224 | the last record is the totals, with the decimal strings of N and 4 + 2N + 2 |
| Properties.FileShape | payment.py:227-243 | the records of a file carry, position by position, what the builders promise |
| Properties.ShapedRecipient | payment.py:236-241 | any record between the headers and the totals is recipient record 1 or 2 of some receipt, and belongs to it |
| Properties.ShapedOnlyEmitted | payment.py:227-243 | every record is a header, recipient record 1 or 2, or the totals |
| Properties.ShapedConforms | payment.py:78-224 | every record carries its kind's record code and data number and the company nif |
| Properties.FileKinds | payment.py:227-243 | order of kinds: H1, H2, H3, H4, then R1, R2 per receipt, then the totals last; recipient records 3–9 never appear |
| Properties.FileRecipients | payment.py:124-141 | both recipient records of receipt i carry the company nif, receipt i's vat_number as recipient nif and its operation code |
| Properties.FileConforms | payment.py:78-224 | every record has its kind's record code ('03', '06', '08') and data number, the headers and totals '56', and the company vat_number as nif |
| Properties.TotalsCounts | payment.py:223-242 | payment_line_count is str(N) and record_count is str(4 + 2N + 2); they read back as N and one more than the number of records |
| Properties.CountersReadBack | payment.py:223-224 | the two counter strings of a totals record read back as N and 4 + 2N + 2 |
| Properties.EmptyOrder | payment.py:227-243 | an order with no receipts gives 5 records, payment count '0' and record count '6' |
| Properties.ShapedEmpty | payment.py:227-243 | with no receipts: five records, the totals last with counters '0' and '6' |
| Properties.FileError | payment.py:227-243 | a failed file's exception is that of the headers' first failing read; or, when the headers read everything, that of the first failing read of the first unreadable receipt; or, when every receipt is readable, KeyError('amount') from the totals |
| Properties.PreparedFileSucceeds | payment.py:51-73 | after preparation, a file can be written iff the values carry the company's data and every receipt its party's data; options and operation codes are always supplied |
| Properties.PreparedOrderReadable | payment.py:55-60 | prepared values carry what the headers and totals read iff the original values carry all but the two options |
| Properties.PreparedReceiptReadable | payment.py:64-70 | a prepared receipt is readable iff the original has vat_number, amount, name and a string account |
| Properties.PreparedReceiptsReadable | payment.py:64-70 | given the company's vat_number, every prepared receipt is readable iff every original has vat_number, amount, name and a string account |
| Properties.PreparedCopies | payment.py:57-70 | prepared values hold the two fixed options and every prepared receipt the operation code 'transfer' |
| Properties.PreparedFile | payment.py:51-73 | in the file of a prepared order, header record 1 carries the fixed options and every recipient record operation code 'transfer' |
| Properties.FileOfPrepared | payment.py:89-124 | values carrying the fixed options and transfer receipts give records carrying them |
| Journal.WithCsb3401 | payment.py:28-31 | the option is present afterwards; the old list is kept as a prefix; at most one entry added; unchanged iff the option was already present; nothing else is added |
| Journal.WithCsb3401Idempotent | payment.py:28-31 | registering twice equals registering once |
| Journal.ProcessMethodField.Setup | payment.py:28-31 | in place: the selection becomes `WithCsb3401` of the old selection |

## Left out

- The `retrofix` encoding (`Record`, `write`, `c34_01`: field widths, padding, number and date formatting). It is a foreign library. `write` is a parameter, so any validation error it raises is not modelled.
- `set_default_csb34_payment_values` (payment.py:52) comes from another module. Its result is the input of `PaymentValues.constructor` and `ProcessCsb3401`.
- Sequencer.PaymentValues.constructor: `receipts` is a field of `PaymentValues`, so the `KeyError` that payment.py:64 raises when the generic preparation's dictionary has no `receipts` entry cannot arise in the model.
- `group.attach_file(text)` (payment.py:244) is ERP persistence. `ProcessCsb3401` returns the text instead.
- The `_error_messages` table (payment.py:40-49): no code shown raises these messages.
- `PoolMeta`, the ImportError guard and logging (payment.py:5-19): framework plumbing.
- tests/test_account_payment_es_csb_34_01.py runs only the framework's dependency test.
- Sequencer.PaymentValues.SetDefaultCsb3401Values: the receipts are values in a `seq` that the method reassigns. So aliasing of a receipt dictionary shared with the caller, which Python mutates in place, is not modelled.
- Python values other than strings, integers, decimals, dates and `None` are not modelled. Slicing a list or tuple is not modelled either: only a string slices, anything else raises `TypeError`.
- Dictionary keys that neither the builders nor the preparation use are not modelled.
- The two counters are natural numbers with no overflow, as in Python.
