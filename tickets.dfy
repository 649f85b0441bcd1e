/**
 * Purchase receipts: the ticket collection that `purchaseCart`
 * (src/dao/models/cartDAO.js:106-111) writes to. A ticket is never changed
 * or removed once issued.
 */
module Tickets {

  datatype Ticket = Ticket(code: string, amount: int, purchaser: string)

  class TicketStore {
    var tickets: seq<Ticket>

    /** Every issued ticket has its own code. */
    ghost predicate Valid()
      reads this
    {
      forall i, j :: 0 <= i < j < |tickets| ==> tickets[i].code != tickets[j].code
    }

    ghost predicate Fresh(code: string)
      reads this
    {
      forall i :: 0 <= i < |tickets| ==> tickets[i].code != code
    }

    constructor ()
      ensures Valid() && tickets == []
    {
      tickets := [];
    }

    /** Saves a new ticket; `code` stands for the `uuidv4()` value, which no earlier ticket carries. */
    method Issue(code: string, amount: int, purchaser: string) returns (t: Ticket)
      requires Valid() && Fresh(code)
      modifies this
      ensures Valid()
      ensures t == Ticket(code, amount, purchaser)
      ensures tickets == old(tickets) + [t]
    {
      t := Ticket(code, amount, purchaser);
      tickets := tickets + [t];
    }
  }
}
