/** Values shared by every part of the model: optional values, the JSON values
    a request body carries (with JavaScript truthiness), HTTP responses and the
    four role names the server recognises. */
module Common {

  datatype Option<+T> = None | Some(value: T) {
    /** `x || d` for a field that is either absent or truthy. */
    function GetOr(default: T): T {
      match this
      case Some(v) => v
      case None => default
    }
  }

  /** A value taken from a JSON request body. `Undefined` is a field the body
      does not have; `Compound` is an array or an object. */
  datatype Json = Undefined | Null | Bool(b: bool) | Number(n: real) | Text(s: string) | Compound

  /** JavaScript truthiness of a JSON value (NaN is not modelled). */
  predicate Truthy(j: Json) {
    match j
    case Undefined => false
    case Null => false
    case Bool(b) => b
    case Number(n) => n != 0.0
    case Text(s) => s != ""
    case Compound => true
  }

  /** An HTTP response: a status code with the handler's JSON payload, or a
      status code with the `error` string of the JSON error body. */
  datatype Response<+T> = Success(code: nat, value: T) | Failure(code: nat, error: string)

  const UserRole: string := "user"
  const PatrolRole: string := "patrol"
  const AdminRole: string := "admin"
  const SuperAdminRole: string := "superAdmin"

  /** The list `['admin', 'superAdmin']` the handlers test roles against. */
  const AdminRoles: seq<string> := [AdminRole, SuperAdminRole]

  predicate IsAdminRole(role: string) {
    role in AdminRoles
  }
}
