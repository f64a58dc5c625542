/**
 * The argument tokens and the FIFO queue (`Queue<string>`) both parsers drain.
 * A token may be C#'s `null`, which every dequeue site turns into `""`.
 */
module Tokens {
  import opened Wrappers

  type Token = Option<string>

  /** `token ?? ""`. */
  function Coerce(t: Token): (s: string)
    ensures t.Some? ==> s == t.value
    ensures t.None? ==> s == ""
  {
    t.GetOr("")
  }

  /** The tokens with `null` read as `""`. */
  function Values(ts: seq<Token>): (r: seq<string>)
    ensures |r| == |ts|
  {
    if ts == [] then [] else [Coerce(ts[0])] + Values(ts[1..])
  }

  /** `new Queue<string>(args)` with its `Count` and `Dequeue`. */
  class TokenQueue {
    var items: seq<Token>

    constructor (args: seq<Token>)
      ensures items == args
    {
      items := args;
    }

    function Count(): (n: nat)
      reads this
      ensures n == |items|
    {
      |items|
    }

    /** Removes and returns the oldest token; the callers only dequeue after checking `Count > 0`. */
    method Dequeue() returns (t: Token)
      requires items != []
      modifies this
      ensures t == old(items)[0] && items == old(items)[1..]
    {
      t := items[0];
      items := items[1..];
    }
  }
}
