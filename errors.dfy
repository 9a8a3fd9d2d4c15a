/** The errors the core can return. Go errors are opaque values; the model
    keeps only the distinctions the core's behaviour depends on. */
module Errors {

  datatype Error =
    | InvalidUserId       // "userId should be greater than zero" from the use case
    | Canceled            // ctx.Err() after the worker's context is done
    | NotFound            // the store has no record with the given id
    | DuplicateId         // the store already has a record with the given id
    | Backend(reason: string)  // any other failure reported by the store or the cache
}
