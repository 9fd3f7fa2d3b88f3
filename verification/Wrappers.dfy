/** Stock definitions every model shares. */
module Wrappers {
  datatype Option<+T> = None | Some(value: T)

  function Last<T>(s: seq<T>): T
    requires s != []
  {
    s[|s| - 1]
  }

  function Front<T>(s: seq<T>): seq<T>
    requires s != []
  {
    s[..|s| - 1]
  }

  /** One more element of a prefix. */
  lemma Extends<T>(s: seq<T>, k: nat)
    requires k < |s|
    ensures s[..k + 1] != [] && Front(s[..k + 1]) == s[..k] && Last(s[..k + 1]) == s[k]
  {
  }
}
