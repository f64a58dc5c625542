/**
 * The part of `GetPossiblyQuotedString` that both parsers share once their own
 * switch-name stripping is done: a value without `"` is taken as it is, a value
 * holding two or more `"` loses them, and a value holding exactly one `"` opens a
 * quoted value that the shell split on spaces, which is rebuilt from the tokens
 * that follow, up to and including the first one that holds a `"`.
 */
module QuotedValues {
  import opened Text
  import opened Tokens

  const Quote: char := '"'

  /**
   * How many tokens the rebuilding of an opened quote dequeues: up to and
   * including the first that holds a quote, or all of them when none does.
   */
  function ClosingIndex(rest: seq<Token>): (n: nat)
    ensures n <= |rest|
    ensures rest != [] ==> 0 < n
    ensures forall i :: 0 <= i < n - 1 ==> Quote !in Coerce(rest[i])
    ensures 0 < n < |rest| ==> Quote in Coerce(rest[n - 1])
  {
    if rest == [] then 0
    else if Quote in Coerce(rest[0]) then 1
    else 1 + ClosingIndex(rest[1..])
  }

  /** The characterisation above determines the count. */
  lemma {:induction false} ClosingIndexAt(rest: seq<Token>, k: nat)
    requires k <= |rest| && (rest != [] ==> 0 < k)
    requires forall i :: 0 <= i < k - 1 ==> Quote !in Coerce(rest[i])
    requires k == |rest| || Quote in Coerce(rest[k - 1])
    ensures ClosingIndex(rest) == k
  {
    if rest != [] && Quote !in Coerce(rest[0]) {
      assert k != 1 || k == |rest|;
      if k == 1 {
        assert ClosingIndex(rest[1..]) == 0;
      } else {
        ClosingIndexAt(rest[1..], k - 1);
      }
    }
  }

  /** An opened quote that no later token closes takes every remaining token. */
  lemma {:induction false} UnclosedTakesAll(rest: seq<Token>)
    requires forall i :: 0 <= i < |rest| ==> Quote !in Coerce(rest[i])
    ensures ClosingIndex(rest) == |rest|
    decreases |rest|
  {
    if rest != [] {
      assert Quote !in Coerce(rest[0]);
      UnclosedTakesAll(rest[1..]);
    }
  }

  /** The dequeued tokens, each appended after one space with its quotes removed. */
  function Continuation(ts: seq<Token>): (r: string)
    ensures Quote !in r
  {
    if ts == [] then ""
    else Continuation(ts[..|ts| - 1]) + " " + RemoveAll(Coerce(ts[|ts| - 1]), Quote)
  }

  lemma AppendAssociates(a: string, b: string, c: string)
    ensures (a + b) + c == a + (b + c)
  {
  }

  lemma ContinuationStep(ts: seq<Token>, k: nat)
    requires k < |ts|
    ensures Continuation(ts[..k + 1]) == Continuation(ts[..k]) + (" " + RemoveAll(Coerce(ts[k]), Quote))
  {
    assert ts[..k + 1][..k] == ts[..k];
  }

  /**
   * The value read from `first` (the token with its switch name already stripped)
   * and how many tokens of `rest` it consumes.
   */
  function ReadQuoted(first: string, rest: seq<Token>): (r: (string, nat))
    ensures Quote !in r.0
    ensures r.1 <= |rest|
    ensures Quote !in first ==> r == (first, 0)
    ensures Occurrences(first, Quote) >= 2 ==> r == (RemoveAll(first, Quote), 0)
    ensures Occurrences(first, Quote) == 1 ==>
      r.1 == ClosingIndex(rest) && r.0 == RemoveAll(first, Quote) + Continuation(rest[..r.1])
  {
    OccurrencesAbsent(first, Quote);
    if Quote !in first then (first, 0)
    else
      var firstIdx, lastIdx := IndexOf(first, Quote), LastIndexOf(first, Quote);
      IndicesDistinctIffTwice(first, Quote);
      if firstIdx != lastIdx && lastIdx != -1 then (RemoveAll(first, Quote), 0)
      else
        var n := ClosingIndex(rest);
        (RemoveAll(first, Quote) + Continuation(rest[..n]), n)
  }

  /** The imperative reader: returns the value and leaves the queue past what it consumed. */
  method ReadFrom(first: string, args: TokenQueue) returns (value: string)
    modifies args
    ensures value == ReadQuoted(first, old(args.items)).0
    ensures args.items == old(args.items)[ReadQuoted(first, old(args.items)).1..]
  {
    if Quote !in first {
      return first;
    }
    var firstIdx := IndexOf(first, Quote);
    var lastIdx := LastIndexOf(first, Quote);
    IndicesDistinctIffTwice(first, Quote);
    if firstIdx != lastIdx && lastIdx != -1 {
      return RemoveAll(first, Quote);
    }
    value := AppendContinuation(RemoveAll(first, Quote), args);
  }

  /**
   * The rebuilding loop of an opened quote: starting from `prefix`, dequeues
   * tokens and appends each after a space with its quotes removed, until one
   * held a quote or the queue is empty.
   */
  method AppendContinuation(prefix: string, args: TokenQueue) returns (value: string)
    modifies args
    ensures value == prefix + Continuation(old(args.items)[..ClosingIndex(old(args.items))])
    ensures args.items == old(args.items)[ClosingIndex(old(args.items))..]
  {
    var finished := false;
    value := prefix;
    ghost var start := args.items;
    ghost var k: nat := 0;
    assert start[..0] == [] && Continuation([]) == "";
    while !finished && args.Count() > 0
      invariant k <= |start| && args.items == start[k..]
      invariant value == prefix + Continuation(start[..k])
      invariant forall i :: 0 <= i < k - 1 ==> Quote !in Coerce(start[i])
      invariant finished <==> 0 < k && Quote in Coerce(start[k - 1])
      decreases |args.items|
    {
      var t := args.Dequeue();
      var current := Coerce(t);
      ContinuationStep(start, k);
      assert t == start[k];
      finished := Quote in current;
      value := value + (" " + RemoveAll(current, Quote));
      AppendAssociates(prefix, Continuation(start[..k]), " " + RemoveAll(current, Quote));
      k := k + 1;
      assert current == Coerce(start[k - 1]);
    }
    assert finished || k == |start|;
    ClosingIndexAt(start, k);
  }
}
