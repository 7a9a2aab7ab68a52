/** Values shared by every page: optional values, results, and the signed-in user. */
module Common {

  datatype Option<+T> = None | Some(value: T) {
    function GetOr(default: T): T {
      match this
      case Some(v) => v
      case None => default
    }
  }

  datatype Result<+T, +E> = Success(value: T) | Failure(error: E)

  /** The role a signed-in account carries (src/types/index.ts). */
  datatype Role = Regular | Government | Admin

  /** The signed-in user, as far as the modelled handlers look at it. */
  datatype User = User(id: int, name: string, role: Role)

  /** JavaScript truthiness of an optional string: absent and empty are both falsy. */
  predicate Present(s: Option<string>) {
    s.Some? && s.value != ""
  }

  /** JavaScript truthiness of an optional number: absent and zero are both falsy. */
  predicate NonZero(n: Option<int>) {
    n.Some? && n.value != 0
  }
}
