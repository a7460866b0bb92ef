/**
 * What the route handlers share: the JSON reply they return, the bearer-token
 * extraction both the middleware and the conversation handlers perform, and
 * the mapping their `catch` blocks apply to a thrown error.
 */
module Http {
  import opened Wrappers
  import Text

  datatype Body<T> = Data(value: T) | Error(message: string)

  /** `NextResponse.json(body, { status })`. */
  datatype Reply<T> = Reply(status: int, body: Body<T>)

  const AuthenticationRequired := "Authentication required"
  const InvalidInputData := "Invalid input data"
  const InternalServerError := "Internal server error"

  function ErrorReply<T>(status: int, message: string): Reply<T>
  {
    Reply(status, Error(message))
  }

  /**
   * `request.headers.get('authorization')?.split(' ')[1]` followed by the
   * `if (!token)` test: the second space-separated field of the header, when
   * there is one and it is not empty. The first field is never looked at.
   */
  function BearerToken(authorization: Option<string>): (token: Option<string>)
    ensures authorization.None? ==> token.None?
    ensures token.Some? ==> token.value != [] && ' ' !in token.value
  {
    match authorization
    case None => None
    case Some(header) =>
      var fields := Text.Split(header, ' ');
      if |fields| >= 2 && fields[1] != [] then Some(fields[1]) else None
  }

  /** A header without a space has no second field, so no token. */
  lemma {:induction false} NoSpaceNoToken(header: string)
    requires ' ' !in header
    ensures BearerToken(Some(header)) == None
  {
    Text.SplitWithoutSeparator(header, ' ');
  }

  /**
   * With a space, the token is the first field after the first space, whatever
   * the scheme word before it is; an empty field there (two spaces in a row, or
   * a trailing space) means no token.
   */
  lemma {:induction false} TokenFollowsFirstSpace(scheme: string, rest: string)
    requires ' ' !in scheme
    ensures var field := Text.Split(rest, ' ')[0];
            BearerToken(Some(scheme + " " + rest)) == if field == [] then None else Some(field)
  {
    Text.SplitAtFirst(scheme, ' ', rest);
    assert scheme + " " + rest == scheme + [' '] + rest;
  }

  /** The scheme word is never checked: `Bearer t`, `Basic t` and `x t` yield the same token. */
  lemma SchemeIsNotChecked(scheme1: string, scheme2: string, rest: string)
    requires ' ' !in scheme1 && ' ' !in scheme2
    ensures BearerToken(Some(scheme1 + " " + rest)) == BearerToken(Some(scheme2 + " " + rest))
  {
    TokenFollowsFirstSpace(scheme1, rest);
    TokenFollowsFirstSpace(scheme2, rest);
  }

  /** `<scheme> <token>`, optionally followed by more space-separated text, yields `<token>`. */
  lemma {:induction false} WellFormedHeader(scheme: string, token: string, tail: string)
    requires ' ' !in scheme && ' ' !in token && token != []
    requires tail == [] || tail[0] == ' '
    ensures BearerToken(Some(scheme + " " + token + tail)) == Some(token)
  {
    assert scheme + " " + token + tail == scheme + " " + (token + tail);
    TokenFollowsFirstSpace(scheme, token + tail);
    if tail == [] {
      assert token + tail == token;
      Text.SplitWithoutSeparator(token, ' ');
    } else {
      assert token + tail == token + [' '] + tail[1..];
      Text.SplitAtFirst(token, ' ', tail[1..]);
    }
  }

  /** What a handler's `catch` was given: a `ZodError` from a schema, or anything else. */
  datatype Thrown = ZodError | OtherError

  /**
   * The `catch` block of the signup, signin and conversation POST handlers:
   * a schema failure is the client's fault (400), everything else is 500.
   */
  function Caught<T>(e: Thrown): (r: Reply<T>)
    ensures r.status == 400 <==> e.ZodError?
    ensures e.ZodError? ==> r == ErrorReply(400, InvalidInputData)
    ensures e.OtherError? ==> r == ErrorReply(500, InternalServerError)
  {
    match e
    case ZodError => ErrorReply(400, InvalidInputData)
    case OtherError => ErrorReply(500, InternalServerError)
  }
}
