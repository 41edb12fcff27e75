/** The records a client submits and the record the store keeps, as in internal/models/receipt.go. */
module Models {

  /** One line of a receipt; the price stays the string the client sent. */
  datatype Item = Item(shortDescription: string, price: string)

  /** A submitted receipt; date, time and total stay the strings the client sent, and an absent field is the empty string. */
  datatype Receipt = Receipt(
    retailer: string,
    purchaseDate: string,
    purchaseTime: string,
    items: seq<Item>,
    total: string)

  /** What the store keeps per identifier. */
  datatype ProcessedReceipt = ProcessedReceipt(id: string, points: int)
}
