/** Record shapes of the `prices` table (src/types/supabase.ts).
    Prices are exact reals: the floating-point behaviour of JavaScript
    numbers is not modelled. */
module PriceTypes {

  /** A row as read back from the remote store (`Row`). */
  datatype PriceEntry = PriceEntry(
    id: int,
    created_at: string,
    item_name: string,
    supplier: string,
    price: real,
    date: string,
    shopkeeper_id: string)

  /** What the form edits (`NewPriceEntry`: the insert shape without
      `date` and `shopkeeper_id`). */
  datatype NewPriceEntry = NewPriceEntry(item_name: string, supplier: string, price: real)

  /** The object the form hands to the remote insert or to the offline
      queue: the form fields plus the submitter and the submission date. */
  datatype Payload = Payload(
    item_name: string,
    supplier: string,
    price: real,
    shopkeeper_id: string,
    date: string)
}
