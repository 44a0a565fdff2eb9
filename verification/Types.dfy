/** Types shared by the accounting library and the services. */
module Types {
  datatype Direction = Debit | Credit

  /** An account id, as its rank in the collation order; rank 0 is the empty string. */
  type AccountId = nat
}
