/** The states of a return (apps/orders/models.py). */
module ReturnStates {
  datatype ReturnStatus = REQUESTED | APPROVED | REFUNDING | REJECTED | REFUNDED
}
