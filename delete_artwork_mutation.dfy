/**
 * How the My Collection artwork deletion turns what the mutation completes with
 * into the promise's outcome, and the variables it sends.
 */
module DeleteArtworkMutation {
  import opened JsValues

  /** One entry of the GraphQL `errors` list. */
  datatype PayloadError = PayloadError(message: string)

  datatype MutationError = MutationError(message: string)

  /** The `artworkOrError` union: a success, a failure, or a type the query does not select from. */
  datatype ArtworkOrError =
    | DeleteSuccess(success: Option<bool>)
    | DeleteFailure(mutationError: Option<MutationError>)
    | OtherType

  datatype DeletePayload = DeletePayload(artworkOrError: Option<ArtworkOrError>)

  datatype Response = Response(myCollectionDeleteArtwork: Option<DeletePayload>)

  /** What the promise is rejected with. */
  datatype Rejection =
    | GraphQLErrors(errors: seq<PayloadError>)
    | MutationFailed(message: string)
    | TransportFailure(error: string)

  datatype Outcome = Resolve(response: Response) | Reject(reason: Rejection)

  datatype DeleteInput = DeleteInput(artworkId: string)

  datatype Variables = Variables(input: DeleteInput)

  /** The mutation's variables: the artwork id, passed through. */
  function MutationVariables(artworkId: string): (v: Variables)
    ensures v.input.artworkId == artworkId
  {
    Variables(DeleteInput(artworkId))
  }

  /** `errors?.length` is truthy: the list is there and not empty. */
  function HasErrors(errors: Option<seq<PayloadError>>): (has: bool)
    ensures !has <==> errors == None || errors == Some([])
  {
    errors.Some? && |errors.value| > 0
  }

  /** `response.myCollectionDeleteArtwork?.artworkOrError?.mutationError` */
  function MutationErrorOf(response: Response): (e: Option<MutationError>)
    ensures e.Some? <==>
      response.myCollectionDeleteArtwork.Some? &&
      response.myCollectionDeleteArtwork.value.artworkOrError.Some? &&
      response.myCollectionDeleteArtwork.value.artworkOrError.value.DeleteFailure? &&
      response.myCollectionDeleteArtwork.value.artworkOrError.value.mutationError.Some?
  {
    match response.myCollectionDeleteArtwork
    case None => None
    case Some(payload) =>
      match payload.artworkOrError
      case Some(DeleteFailure(e)) => e
      case _ => None
  }

  /** `onCompleted(response, errors)` */
  function OnCompleted(response: Response, errors: Option<seq<PayloadError>>): (o: Outcome)
    ensures HasErrors(errors) ==> o == Reject(GraphQLErrors(errors.value))
    ensures !HasErrors(errors) && MutationErrorOf(response).Some? ==>
      o == Reject(MutationFailed(MutationErrorOf(response).value.message))
    ensures o.Resolve? <==> !HasErrors(errors) && MutationErrorOf(response).None?
    ensures o.Resolve? ==> o.response == response
    ensures o.Reject? ==> !o.reason.TransportFailure?
  {
    if HasErrors(errors) then Reject(GraphQLErrors(errors.value))
    else
      match MutationErrorOf(response)
      case Some(e) => Reject(MutationFailed(e.message))
      case None => Resolve(response)
  }

  /** `onError: reject` */
  function OnError(error: string): (o: Outcome)
    ensures o == Reject(TransportFailure(error))
  {
    Reject(TransportFailure(error))
  }

  /** The `errors` list wins over any `mutationError` in the response. */
  lemma ErrorsTakePriority(response: Response, errors: seq<PayloadError>)
    requires |errors| > 0
    ensures OnCompleted(response, Some(errors)) == Reject(GraphQLErrors(errors))
    ensures forall other: Response :: OnCompleted(other, Some(errors)) == OnCompleted(response, Some(errors))
  {
  }

  /** An absent and an empty `errors` list classify the same completion the same way. */
  lemma EmptyErrorsLikeNone(response: Response)
    ensures OnCompleted(response, Some([])) == OnCompleted(response, None)
  {
  }

  /**
   * The three branches of `onCompleted` are exclusive and exhaustive: every
   * completion is exactly one of a GraphQL-error rejection, a mutation-error
   * rejection, or a resolution; and a transport error always rejects.
   */
  lemma CompletionClassified(response: Response, errors: Option<seq<PayloadError>>, error: string)
    ensures var o := OnCompleted(response, errors);
      (o.Reject? && o.reason.GraphQLErrors?) <==> HasErrors(errors)
    ensures var o := OnCompleted(response, errors);
      (o.Reject? && o.reason.MutationFailed?) <==> !HasErrors(errors) && MutationErrorOf(response).Some?
    ensures var o := OnCompleted(response, errors);
      o.Resolve? <==> !HasErrors(errors) && MutationErrorOf(response).None?
    ensures OnError(error).Reject?
  {
  }
}
