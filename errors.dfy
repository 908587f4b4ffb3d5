/** The error values the handlers report, named after the bot's own error variables. */
module Errors {

  datatype Err =
    | ErrCacheLost             // a cache store miss (kurohelper-core ErrCacheLost)
    | ErrCIDWrongFormat        // an inbound custom ID that is not a usable token
    | ErrCIDBehaviorMismatch   // a token whose behavior the feature does not handle
    | ErrOptionTranslateFail   // a slash-command option that could not be read
    | OptionMissing            // utils.GetOptions found no such option
    | BehaviorIdError          // "handlers: cid behavior id error"
    | BadBehaviorId            // "error behavior id" (creator routing default)
    | NilResult                // "handlers: creator res is nil" and the list variant
    | AtoiSyntax               // strconv.Atoi: not a decimal integer
    | AtoiRange                // strconv.Atoi: outside the 64-bit range
    | Upstream(code: string)   // an error returned by an external data client
}
