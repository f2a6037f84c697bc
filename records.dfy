/**
 * The ledger's records. A purchase and a sale have the same shape: the total
 * price `originalAmount` for `quantity` units in `currency`, a day and an
 * optional clock time (the empty string when the form left it blank).
 */
module Records {
  import opened Dates

  datatype Option<T> = None | Some(value: T)

  /** The two currencies; anything that is not RUB is valued through a rate. */
  datatype Currency = RUB | CNY

  /** Quantities are positive whole numbers of units. */
  type Qty = n: nat | n > 0 witness 1

  /** A purchase or a sale. `id` is the numeric id the entry forms assign. */
  datatype Tx = Tx(
    id: nat,
    itemType: string,
    currency: Currency,
    originalAmount: real,
    quantity: Qty,
    date: Date,
    time: string)

  /** A CNY to RUB rate valid from `date` on. */
  datatype Rate = Rate(value: real, date: Date)

  /** The transactions and rates a pass reads. */
  datatype Books = Books(purchases: seq<Tx>, sales: seq<Tx>, rates: seq<Rate>)
}
