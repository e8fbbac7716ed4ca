/**
 * The records the data-access layer of the dashboard reads and builds:
 * invoices and customers as they arrive from the invoices and customers
 * resources, and the joined "latest invoice" row shown on the dashboard.
 */
module Definitions {

  /** Record identifiers are opaque strings. */
  type Id = string

  /**
   * An invoice. `amount` is in cents; `date` is the invoice date as a
   * timestamp, standing for `new Date(date).getTime()`; `status` is the
   * status text ("paid" or "pending" in well-formed data).
   */
  datatype Invoice = Invoice(id: Id, customerId: Id, amount: int, date: int, status: string)

  datatype Customer = Customer(id: Id, name: string, email: string, imageUrl: string)

  /**
   * One row of the latest-invoices list: the invoice's id, amount (already
   * formatted as currency) and date, with the owning customer's name,
   * email and image.
   */
  datatype LatestInvoice = LatestInvoice(
    id: Id, name: string, email: string, imageUrl: string, amount: string, date: int)

  datatype Option<+T> = None | Some(value: T)

  /** The outcome of an operation that may throw. */
  datatype Result<+T, +E> = Ok(value: T) | Err(error: E)

  function Min(a: int, b: int): int { if a <= b then a else b }
}
