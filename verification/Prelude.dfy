/** The optional value shared by every model: a nullable column, an absent
    query parameter or an `undefined` field. */
module Prelude {
  datatype Option<+T> = None | Some(value: T) {
    function GetOr(default: T): T {
      if Some? then value else default
    }
  }

  /** How a statement or a remote call went: it took effect and answered, it
      threw without effect, or it took effect but the caller saw it throw. */
  datatype Fate = Heard | Aborted | Unheard

  /** JavaScript truthiness of an optional string: present and not empty. */
  predicate Truthy(s: Option<string>) {
    s.Some? && s.value != ""
  }

  lemma ConcatAssociates<T>(a: seq<T>, b: seq<T>, c: seq<T>)
    ensures a + b + c == a + (b + c)
  {
  }

  lemma ConcatNothing<T>(a: seq<T>)
    ensures a + [] == a
  {
  }
}
