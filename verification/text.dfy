/**
 * ASCII text helpers shared by the configuration getter and the compose
 * templates: the case mappings of Go's `strings.ToUpper`/`strings.ToLower`
 * restricted to ASCII, `strings.Join`, and the suffix relation, unwrapping
 * and splitting the template lemmas are stated with.
 */
module Text {
  import opened Wrappers

  /** Upper-cases an ASCII letter; every other character is unchanged. */
  function UpperChar(c: char): char
  {
    if 'a' <= c <= 'z' then (c as int - 32) as char else c
  }

  /** Lower-cases an ASCII letter; every other character is unchanged. */
  function LowerChar(c: char): char
  {
    if 'A' <= c <= 'Z' then (c as int + 32) as char else c
  }

  /** `strings.ToLower`: every character lower-cased, nothing added or removed. */
  function ToLower(s: string): (r: string)
    ensures |r| == |s|
    ensures forall i :: 0 <= i < |s| ==> r[i] == LowerChar(s[i])
  {
    if s == [] then [] else [LowerChar(s[0])] + ToLower(s[1..])
  }

  /** `strings.Join`: the parts separated by `sep`; no separator around a single part. */
  function Join(parts: seq<string>, sep: string): string
  {
    if |parts| == 0 then ""
    else if |parts| == 1 then parts[0]
    else parts[0] + sep + Join(parts[1..], sep)
  }

  predicate EndsWith(s: string, suffix: string)
  {
    |suffix| <= |s| && s[|s| - |suffix|..] == suffix
  }

  /**
   * The text strictly between `prefix` and `suffix` when `text` starts with
   * the one and ends with the other: the inverse of the template shape
   * prefix + value + suffix.
   */
  function Unwrap(text: string, prefix: string, suffix: string): (r: Option<string>)
    ensures r.Some? ==> text == prefix + r.value + suffix
  {
    if |prefix| + |suffix| <= |text| && text[..|prefix|] == prefix && text[|text| - |suffix|..] == suffix
    then Some(text[|prefix|..|text| - |suffix|])
    else None
  }

  /** The part before and the part after the last occurrence of `c`. */
  function SplitAtLast(s: string, c: char): (r: Option<(string, string)>)
    ensures r.Some? ==> s == r.value.0 + [c] + r.value.1 && c !in r.value.1
    ensures r.None? <==> c !in s
    decreases |s|
  {
    if s == [] then None
    else if s[|s| - 1] == c then Some((s[..|s| - 1], []))
    else match SplitAtLast(s[..|s| - 1], c)
      case None => None
      case Some((before, after)) =>
        assert s == s[..|s| - 1] + [s[|s| - 1]];
        Some((before, after + [s[|s| - 1]]))
  }

  /** How many times `c` occurs in `s`. */
  function CountChar(s: string, c: char): nat
  {
    if s == [] then 0 else (if s[0] == c then 1 else 0) + CountChar(s[1..], c)
  }

  lemma {:induction false} CountCharAppend(a: string, b: string, c: char)
    ensures CountChar(a + b, c) == CountChar(a, c) + CountChar(b, c)
  {
    if a == [] {
      assert a + b == b;
    } else {
      assert (a + b)[1..] == a[1..] + b;
      CountCharAppend(a[1..], b, c);
    }
  }

  lemma {:induction false} CountCharAbsent(s: string, c: char)
    requires c !in s
    ensures CountChar(s, c) == 0
  {
    if s != [] {
      CountCharAbsent(s[1..], c);
    }
  }

  lemma ToLowerAppend(a: string, b: string)
    ensures ToLower(a + b) == ToLower(a) + ToLower(b)
  {
  }

  /** Joining parts that agree up to case gives texts that agree up to case. */
  lemma {:induction false} ToLowerJoin(xs: seq<string>, ys: seq<string>, sep: string)
    requires |xs| == |ys|
    requires forall i :: 0 <= i < |xs| ==> ToLower(xs[i]) == ToLower(ys[i])
    ensures ToLower(Join(xs, sep)) == ToLower(Join(ys, sep))
  {
    if |xs| > 1 {
      ToLowerJoin(xs[1..], ys[1..], sep);
      ToLowerAppend(xs[0] + sep, Join(xs[1..], sep));
      ToLowerAppend(ys[0] + sep, Join(ys[1..], sep));
      ToLowerAppend(xs[0], sep);
      ToLowerAppend(ys[0], sep);
    }
  }

  /** Unwrapping a wrapped value gives the value back. */
  lemma UnwrapWrap(prefix: string, x: string, suffix: string)
    ensures Unwrap(prefix + x + suffix, prefix, suffix) == Some(x)
  {
    var t := prefix + x + suffix;
    assert t[..|prefix|] == prefix;
    assert t[|t| - |suffix|..] == suffix;
    assert t[|prefix|..|t| - |suffix|] == x;
  }

  /** Splitting at the last `c` undoes joining two parts with `c` when the second part has none. */
  lemma {:induction false} SplitAtLastJoin(a: string, c: char, b: string)
    requires c !in b
    ensures SplitAtLast(a + [c] + b, c) == Some((a, b))
    decreases |b|
  {
    var s := a + [c] + b;
    if b == [] {
      assert s[..|s| - 1] == a;
    } else {
      var init := b[..|b| - 1];
      assert s[|s| - 1] == b[|b| - 1] != c;
      assert s[..|s| - 1] == a + [c] + init;
      SplitAtLastJoin(a, c, init);
      assert init + [b[|b| - 1]] == b;
    }
  }

  /** A text ends with whatever was appended last. */
  lemma EndsWithAppend(a: string, b: string)
    ensures EndsWith(a + b, b)
  {
    assert (a + b)[|a|..] == b;
  }
}
