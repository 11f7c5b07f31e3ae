/**
  Vocabulary shared by the three controllers: optional values, the
  controllers' error answers, the verified identity of the caller and
  JavaScript truthiness of the request values the controllers test with `||`
  and `if (...)`.
*/
module Common {

  datatype Option<+T> = None | Some(value: T)
  {
    /** `x || d` on a value that is either absent or present. */
    function GetOr(default: T): T
    {
      match this
      case Some(v) => v
      case None => default
    }
  }

  /** The answers a controller sends instead of a body. */
  datatype Error =
    | Forbidden        // 403 'No autorizado'
    | NotFound         // 404
    | ServerError      // 500 from the catch-all: validation and cast failures, duplicate keys, exceptions

  datatype Result<+T> = Ok(value: T) | Err(error: Error)

  /** HTTP status code each error is rendered with. */
  function StatusCode(e: Error): (code: int)
    ensures 400 <= code < 600
    ensures code == 403 <==> e == Forbidden
    ensures code == 404 <==> e == NotFound
  {
    match e
    case Forbidden => 403
    case NotFound => 404
    case ServerError => 500
  }

  /** The two values of the `role` enumeration of a user account. */
  datatype Role = Admin | Client

  /**
    The identity the authentication middleware attaches to a request:
    the account id (as its hex string), the verified role and the account name.
  */
  datatype Caller = Caller(id: string, role: Role, name: string)

  /** JavaScript truthiness of an optional string: present and not "". */
  predicate Truthy(s: Option<string>)
  {
    s.Some? && s.value != ""
  }

  /** `s || d` for an optional string. */
  function OrElse(s: Option<string>, d: string): (r: string)
    ensures Truthy(s) ==> r == s.value
    ensures !Truthy(s) ==> r == d
  {
    if Truthy(s) then s.value else d
  }

  /** `x || d` for an optional number: both absence and 0 are falsy. */
  function OrNumber(x: Option<real>, d: real): (r: real)
    ensures x.Some? && x.value != 0.0 ==> r == x.value
    ensures x.None? || x.value == 0.0 ==> r == d
  {
    if x.Some? && x.value != 0.0 then x.value else d
  }

  /** `findById`: the position of the record whose id, as `idOf` reads it, is `id`, if any. */
  function IndexOf<T>(s: seq<T>, idOf: T -> string, id: string): (k: Option<nat>)
    ensures k.Some? ==> k.value < |s| && idOf(s[k.value]) == id
    ensures k.None? <==> forall x :: x in s ==> idOf(x) != id
  {
    if s == [] then None
    else if idOf(s[0]) == id then Some(0)
    else
      var k := IndexOf(s[1..], idOf, id);
      if k.Some? then Some(k.value + 1)
      else
        assert s == [s[0]] + s[1..];
        None
  }
}
