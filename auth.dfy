/**
 * The key check inside APIKeyMiddleware (internal/handler/middleware/auth.go).
 * The value of the X-API-KEY header is a parameter ("" when the header is
 * absent, as gin's GetHeader gives); the outcome is either "go on to the
 * next handler" or "answer with this JSON body and abort".
 */
module Middleware {

  const APIKeyHeader := "X-API-KEY"

  /** What the middleware does with the request. */
  datatype Decision =
    | Next
    | Abort(code: int, status: string, message: string)

  /** auth.go APIKeyMiddleware: rejects a missing key, then looks the key up in the configured list. */
  method CheckAPIKey(apiKey: string, validAPIKeys: seq<string>) returns (d: Decision)
    ensures apiKey == "" ==> d == Abort(401, "error", "API key is required")
    ensures apiKey != "" && apiKey in validAPIKeys ==> d == Next
    ensures apiKey != "" && apiKey !in validAPIKeys ==> d == Abort(401, "error", "Invalid API key")
    ensures d == Next <==> apiKey != "" && apiKey in validAPIKeys
    ensures validAPIKeys == [] ==> d.Abort?
  {
    if apiKey == "" {
      return Abort(401, "error", "API key is required");
    }

    var isValid := false;
    var i := 0;
    while i < |validAPIKeys|
      invariant 0 <= i <= |validAPIKeys|
      invariant !isValid
      invariant forall j | 0 <= j < i :: validAPIKeys[j] != apiKey
    {
      if apiKey == validAPIKeys[i] {
        isValid := true;
        break;
      }
      i := i + 1;
    }

    if !isValid {
      return Abort(401, "error", "Invalid API key");
    }
    return Next;
  }
}
