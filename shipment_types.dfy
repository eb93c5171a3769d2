/** The shipment records the front end works with. */
module ShipmentTypes {
  import opened Wrappers

  /** The four values of the `ShipmentStatus` enum. */
  datatype ShipmentStatus = Created | InTransit | Delivered | Cancelled
  {
    /** The enum member's string value. */
    function Text(): string
    {
      match this
      case Created => "CREATED"
      case InTransit => "IN_TRANSIT"
      case Delivered => "DELIVERED"
      case Cancelled => "CANCELLED"
    }
  }

  /** A shipment as the shipment table shows it. `status` holds the string value of a
      `ShipmentStatus` member; it is kept as a string because the data reaches the table
      untyped and the table has a branch for any other value. Dates are millisecond timestamps. */
  datatype Shipment = Shipment(
    id: string,
    tokenName: string,
    tokenSymbol: string,
    shipmentId: string,
    from: string,
    to: string,
    contents: string,
    receiverAccountId: string,
    status: string,
    createdAt: int,
    updatedAt: int)

  /** The seven fields of the create-shipment form, in declaration order. */
  datatype CreateShipmentData = CreateShipmentData(
    tokenName: string,
    tokenSymbol: string,
    shipmentId: string,
    from: string,
    to: string,
    contents: string,
    receiverAccountId: string)

  /** A shipment as the backend's all-shipments listing returns it (snake_case fields).
      `created_at` is the parsed creation time in milliseconds, or `None` when the date
      string does not parse. */
  datatype ShipmentData = ShipmentData(
    shipment_id: string,
    sender: string,
    receiver: string,
    contents: string,
    current_location: string,
    current_owner: string,
    status: string,
    created_at: Option<int>)

  /** The paging block of the all-shipments response. */
  datatype Pagination = Pagination(currentPage: int, totalPages: int, totalItems: int, hasNextPage: bool, hasPrevPage: bool)

  /** What the GET of the all-shipments endpoint gives the page: a thrown request error, or a
      response whose `success` flag says whether `data` and `pagination` are meaningful. */
  datatype FetchReply =
    | RequestThrew
    | Answered(success: bool, data: seq<ShipmentData>, pagination: Pagination)
}
