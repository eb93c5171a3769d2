/** The create-shipment route: validates the body, builds the NFT metadata and mints it. */
module CreateRoute {
  import opened Wrappers
  import opened Json
  import opened Http
  import opened Hedera

  const TokenVar := "HEDERA_NFT_TOKEN_ID"
  const RequiredError := "shipmentId is required"
  const DefaultError := "Failed to mint NFT"

  /** The fields of the request body the route reads. */
  datatype CreateRequest = CreateRequest(description: JsonValue, cid: JsonValue, shipmentId: JsonValue)

  /** The metadata object that is serialised into the NFT; `createdAt` is the ISO-8601 time. */
  datatype Metadata = Metadata(shipmentId: JsonValue, description: JsonValue, cid: JsonValue, createdAt: string)

  /** What the mint transaction gave back: an optional transaction id and the receipt's serials,
      or a thrown error with an optional message. */
  datatype MintReply = MintReceipt(transactionId: Option<string>, serials: seq<int>) | MintThrew(message: Option<string>)

  datatype CreateBody =
    | Minted(tokenId: string, serial: Option<int>, transactionId: string, metadata: Metadata)
    | ErrorBody(error: string)

  /** The ledger call the route made: token, operator and the metadata minted. */
  datatype Minting = Minting(tokenId: string, client: Client, metadata: Metadata)

  datatype Handled = Handled(response: Response<CreateBody>, minted: Option<Minting>)

  /** The metadata object: `shipmentId` as given, a falsy description as "", a falsy cid as null. */
  function BuildMetadata(req: CreateRequest, now: string): (m: Metadata)
    ensures m.shipmentId == req.shipmentId
    ensures m.description == if Truthy(req.description) then req.description else Str("")
    ensures m.cid == if Truthy(req.cid) then req.cid else Null
    ensures m.createdAt == now
  {
    Metadata(req.shipmentId, OrElse(req.description, Str("")), OrElse(req.cid, Null), now)
  }

  /** The serial reported: the first serial of the receipt, absent when the list is empty. */
  function FirstSerial(serials: seq<int>): (r: Option<int>)
    ensures r.Some? <==> |serials| > 0
    ensures r.Some? ==> r.value == serials[0]
  {
    if |serials| > 0 then Some(serials[0]) else None
  }

  /** `POST /api/shipment/create`, with `now` the clock reading and `reply` the mint's outcome. */
  function Post(req: CreateRequest, env: Env, now: string, reply: MintReply): (h: Handled)
    ensures !Truthy(req.shipmentId) ==> h == Handled(Response(StatusBadRequest, ErrorBody(RequiredError)), None)
    ensures h.response.status == StatusBadRequest <==> !Truthy(req.shipmentId)
    ensures Truthy(req.shipmentId) && GetRequiredEnv(env, TokenVar).Err? ==>
      h == Handled(Response(StatusServerError, ErrorBody(GetRequiredEnv(env, TokenVar).error)), None)
    ensures Truthy(req.shipmentId) && GetRequiredEnv(env, TokenVar).Ok? && GetHederaClient(env).Err? ==>
      h == Handled(Response(StatusServerError, ErrorBody(MissingOperatorMessage)), None)
    ensures h.minted.Some? <==> Truthy(req.shipmentId) && GetRequiredEnv(env, TokenVar).Ok? && GetHederaClient(env).Ok?
    ensures h.minted.Some? ==> h.minted.value.metadata == BuildMetadata(req, now) && h.minted.value.tokenId == env[TokenVar]
    ensures h.response.status == StatusOk <==> h.minted.Some? && reply.MintReceipt?
    ensures h.response.status == StatusOk ==>
      h.response.body == Minted(env[TokenVar], FirstSerial(reply.serials), OrDefault(reply.transactionId, ""),
                                h.minted.value.metadata)
    ensures h.minted.Some? && reply.MintThrew? ==>
      h.response == Response(StatusServerError, ErrorBody(MessageOr(reply.message, DefaultError)))
  {
    if !Truthy(req.shipmentId) then
      Handled(Response(StatusBadRequest, ErrorBody(RequiredError)), None)
    else
      match GetRequiredEnv(env, TokenVar)
      case Err(e) => Handled(Response(StatusServerError, ErrorBody(MessageOr(Some(e), DefaultError))), None)
      case Ok(tokenId) =>
        var metadata := BuildMetadata(req, now);
        match GetHederaClient(env)
        case Err(e) => Handled(Response(StatusServerError, ErrorBody(MessageOr(Some(e), DefaultError))), None)
        case Ok(client) =>
          var minting := Some(Minting(tokenId, client, metadata));
          match reply
          case MintThrew(m) => Handled(Response(StatusServerError, ErrorBody(MessageOr(m, DefaultError))), minting)
          case MintReceipt(txId, serials) =>
            Handled(Response(StatusOk, Minted(tokenId, FirstSerial(serials), OrDefault(txId, ""), metadata)), minting)
  }

  /** Validation comes first: a missing shipment id gives 400 whatever the configuration. */
  lemma ValidationBeforeConfiguration(req: CreateRequest, env1: Env, env2: Env, now: string, reply: MintReply)
    requires !Truthy(req.shipmentId)
    ensures Post(req, env1, now, reply) == Post(req, env2, now, reply)
  {
  }
}
