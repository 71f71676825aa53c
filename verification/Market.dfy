/** Identifiers of the market module that several provider services share. */
module Market {

  datatype Option<+T> = None | Some(value: T)

  datatype GroupID = GroupID(owner: string, dseq: nat, gseq: nat)

  datatype OrderID = OrderID(group: GroupID, oseq: nat)

  datatype LeaseID = LeaseID(order: OrderID, provider: string) {
    function Group(): GroupID { order.group }
  }

  /** The reason a lease closure event carries. */
  datatype ClosedReason = Unspecified | Owner | InsufficientFunds | OtherReason
}
