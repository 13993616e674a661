/**
 * The dictionary keys the CSB 34-01 sequencer reads, each standing for the
 * Python string key of the same name in snake case ('vat_number' for
 * `VatNumber`). Keys the sequencer never reads play no part in the model.
 */
module Keys {
  datatype Key =
    | VatNumber | Name | Street | City                     // the ordering company, or the receipt's party
    | CreationDate | PaymentDate | BankAccount | Amount
    | WithRelationship | ExpensesByPayer                   // the two 34-01 options
    | OperationCode | Street2 | ZipCity | Province | Concept | Concept2 | AnotherIdDoc
}
