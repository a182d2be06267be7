/** The scan of an engine's `bench` output for its node count (`ArasanEngine::bench` in
    examples/plenty.rs). The output has already been split into whitespace-separated tokens;
    the number wanted is the token two places after the word "Nodes". */
module Bench {
  import opened Wrappers

  const NodesWord: string := "Nodes"

  /** The target index before any "Nodes" token has been seen. */
  const InitialTarget: nat := 10000000

  /** `usize::MAX + 1` on a 64-bit target. */
  const UsizeLimit: nat := 0x1_0000_0000_0000_0000

  const ParseFailure: string := "Failed to parse bench output!"

  predicate IsDigit(c: char) {
    '0' <= c <= '9'
  }

  predicate AllDigits(s: string) {
    forall i :: 0 <= i < |s| ==> IsDigit(s[i])
  }

  /** The value of a string of decimal digits, most significant first. */
  function DigitsValue(s: string): nat
    requires AllDigits(s)
  {
    if s == [] then 0 else DigitsValue(s[..|s| - 1]) * 10 + (s[|s| - 1] as int - '0' as int)
  }

  /** Rust's `str::parse::<usize>`: an optional '+', then one or more decimal digits whose
      value fits in 64 bits; anything else (empty, a lone '+', a '-', another character, an
      overflow) fails. */
  function ParseUsize(s: string): (r: Option<nat>)
    ensures r.Some? ==> r.value < UsizeLimit
    ensures r.Some? ==> s != [] && s != "+"
  {
    var digits := if |s| > 0 && s[0] == '+' then s[1..] else s;
    if digits != [] && AllDigits(digits) && DigitsValue(digits) < UsizeLimit then
      Some(DigitsValue(digits))
    else
      None
  }

  /** The decimal rendering of n, without sign or leading zeros: the inverse of parsing. */
  function Decimal(n: nat): (s: string)
    ensures s != [] && AllDigits(s)
  {
    var d := ['0' + (n % 10) as char];
    if n < 10 then d else Decimal(n / 10) + d
  }

  lemma {:induction false} DecimalValue(n: nat)
    ensures DigitsValue(Decimal(n)) == n
  {
    var d := ['0' + (n % 10) as char];
    if n >= 10 {
      DecimalValue(n / 10);
      var s := Decimal(n / 10) + d;
      assert s[..|s| - 1] == Decimal(n / 10);
    }
  }

  /** Parsing is a left inverse of rendering, with and without a leading '+'. */
  lemma ParseDecimal(n: nat)
    requires n < UsizeLimit
    ensures ParseUsize(Decimal(n)) == Some(n)
    ensures ParseUsize("+" + Decimal(n)) == Some(n)
  {
    DecimalValue(n);
    assert ("+" + Decimal(n))[1..] == Decimal(n);
  }

  /** The value of `target` once the loop has looked at token i: two past the last "Nodes"
      at or before i, or the initial value when there is none. */
  function TargetAfter(tokens: seq<string>, i: nat): nat
    requires i < |tokens|
  {
    if tokens[i] == NodesWord then i + 2
    else if i == 0 then InitialTarget
    else TargetAfter(tokens, i - 1)
  }

  /** The loop breaks at token i when its index equals the target in force there. */
  predicate StopsAt(tokens: seq<string>, i: nat)
    requires i < |tokens|
  {
    i == TargetAfter(tokens, i)
  }

  /** The first index at or after `from` where the loop stops, if any. */
  function FirstStop(tokens: seq<string>, from: nat): (r: Option<nat>)
    decreases |tokens| - from
  {
    if from >= |tokens| then None
    else if StopsAt(tokens, from) then Some(from)
    else FirstStop(tokens, from + 1)
  }

  /** FirstStop finds the least stopping index, and None means there is none. */
  lemma {:induction false} FirstStopIsLeast(tokens: seq<string>, from: nat)
    requires forall j :: 0 <= j < from && j < |tokens| ==> !StopsAt(tokens, j)
    ensures match FirstStop(tokens, from)
      case Some(k) =>
        k < |tokens| && StopsAt(tokens, k) && forall j :: 0 <= j < k ==> !StopsAt(tokens, j)
      case None =>
        forall j :: 0 <= j < |tokens| ==> !StopsAt(tokens, j)
    decreases |tokens| - from
  {
    if from < |tokens| && !StopsAt(tokens, from) {
      FirstStopIsLeast(tokens, from + 1);
    }
  }

  /** A "Nodes" at index k sets the target to k + 2, and the last one seen wins. */
  lemma {:induction false} TargetIsTwoPastLastNodes(tokens: seq<string>, i: nat, k: nat)
    requires k <= i < |tokens| && tokens[k] == NodesWord
    requires forall j :: k < j <= i ==> tokens[j] != NodesWord
    ensures TargetAfter(tokens, i) == k + 2
    decreases i
  {
    if i > k {
      TargetIsTwoPastLastNodes(tokens, i - 1, k);
    }
  }

  /** Without any "Nodes" the target keeps its initial value. */
  lemma {:induction false} TargetWithoutNodes(tokens: seq<string>, i: nat)
    requires i < |tokens|
    requires forall j :: 0 <= j <= i ==> tokens[j] != NodesWord
    ensures TargetAfter(tokens, i) == InitialTarget
    decreases i
  {
    if i > 0 {
      TargetWithoutNodes(tokens, i - 1);
    }
  }

  /** Output without the word "Nodes" (for instance the empty output left after an I/O error)
      and with at most InitialTarget tokens never stops the loop. */
  lemma NoNodesNoStop(tokens: seq<string>)
    requires |tokens| <= InitialTarget
    requires forall j :: 0 <= j < |tokens| ==> tokens[j] != NodesWord
    ensures FirstStop(tokens, 0) == None
  {
    forall j | 0 <= j < |tokens|
      ensures !StopsAt(tokens, j)
    {
      TargetWithoutNodes(tokens, j);
    }
    FirstStopIsLeast(tokens, 0);
  }

  /** The node count of a bench run: the token at the first stopping index, parsed.
      Ok exactly when the loop stops and that token parses; every other case is the one
      error the source reports. */
  method BenchNodes(tokens: seq<string>) returns (r: Result<nat, string>)
    ensures match FirstStop(tokens, 0)
      case Some(k) =>
        k < |tokens| && (
          match ParseUsize(tokens[k])
          case Some(n) => r == Ok(n)
          case None => r == Err(ParseFailure))
      case None => r == Err(ParseFailure)
  {
    var bench: Option<nat> := None;
    var idx: nat := 0;
    var target: nat := InitialTarget;
    FirstStopIsLeast(tokens, 0);
    while idx < |tokens|
      invariant idx <= |tokens|
      invariant target == if idx == 0 then InitialTarget else TargetAfter(tokens, idx - 1)
      invariant forall j :: 0 <= j < idx ==> !StopsAt(tokens, j)
      invariant bench == None
    {
      var word := tokens[idx];
      if word == NodesWord {
        target := idx + 2;
      }
      if idx == target {
        assert StopsAt(tokens, idx);
        assert FirstStop(tokens, 0) == Some(idx);
        bench := ParseUsize(word);
        break;
      }
      idx := idx + 1;
    }
    if bench.Some? {
      r := Ok(bench.value);
    } else {
      r := Err(ParseFailure);
    }
  }
}
