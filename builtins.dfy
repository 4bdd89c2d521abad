/** The few Python built-ins the scripts rely on: optional values, `str(n)` and
    `int(s)` on decimal text, list indexing, and dictionaries whose iteration
    order is their insertion order. */
module Builtins {

  datatype Option<+T> = None | Some(value: T)

  datatype Result<+T, +E> = Ok(value: T) | Err(error: E)

  // ---------------------------------------------------------------------------
  // Decimal text: str(n) and int(s)
  // ---------------------------------------------------------------------------

  predicate IsDigit(c: char) { '0' <= c <= '9' }

  predicate AllDigits(s: string) { forall i :: 0 <= i < |s| ==> IsDigit(s[i]) }

  function DigitChar(d: nat): (c: char)
    requires d < 10
    ensures IsDigit(c) && c as int - '0' as int == d
  {
    (d + '0' as int) as char
  }

  /** The decimal digits of n, without leading zeros. */
  function Digits(n: nat): (s: string)
    ensures |s| >= 1 && AllDigits(s)
    ensures s[0] == '0' ==> n == 0
    decreases n
  {
    if n < 10 then [DigitChar(n)] else Digits(n / 10) + [DigitChar(n % 10)]
  }

  /** The number a string of decimal digits denotes (leading zeros allowed). */
  function DigitsValue(s: string): nat
    requires AllDigits(s)
  {
    if s == [] then 0 else DigitsValue(s[..|s| - 1]) * 10 + (s[|s| - 1] as int - '0' as int)
  }

  /** Python's `str(n)` for an integer. */
  function Str(n: int): (s: string)
    ensures |s| >= 1
    ensures n < 0 <==> s[0] == '-'
    ensures n >= 0 ==> AllDigits(s)
    ensures n < 0 ==> |s| >= 2 && AllDigits(s[1..])
  {
    if n < 0 then "-" + Digits(-n) else Digits(n)
  }

  /** Python's `int(s)`: an optional sign followed by at least one ASCII digit;
      anything else is a ValueError (None). */
  function ParseInt(s: string): (r: Option<int>)
    ensures r.Some? <==> (s != [] && AllDigits(s))
                         || (|s| >= 2 && (s[0] == '-' || s[0] == '+') && AllDigits(s[1..]))
    ensures r.Some? && s[0] == '-' ==> r.value <= 0
    ensures r.Some? && s[0] != '-' ==> r.value >= 0
  {
    if |s| >= 1 && (s[0] == '-' || s[0] == '+') then
      var body := s[1..];
      if body != [] && AllDigits(body) then
        var m: int := DigitsValue(body);
        Some(if s[0] == '-' then -m else m)
      else None
    else if s != [] && AllDigits(s) then Some(DigitsValue(s))
    else None
  }

  lemma {:induction false} DigitsRoundTrip(n: nat)
    ensures DigitsValue(Digits(n)) == n
    decreases n
  {
    if n >= 10 {
      var s := Digits(n);
      DigitsRoundTrip(n / 10);
      assert s[..|s| - 1] == Digits(n / 10);
      assert s[|s| - 1] == DigitChar(n % 10);
    }
  }

  /** `int(str(n)) == n`: the decimal text of an integer reads back as it. */
  lemma StrRoundTrip(n: int)
    ensures ParseInt(Str(n)) == Some(n)
  {
    var s := Str(n);
    if n < 0 {
      assert s[1..] == Digits(-n);
      DigitsRoundTrip(-n);
    } else {
      DigitsRoundTrip(n);
    }
  }

  // ---------------------------------------------------------------------------
  // Lists
  // ---------------------------------------------------------------------------

  /** Python's `xs[i]`: negative indices count from the end; an index outside
      `-len(xs) .. len(xs) - 1` is an IndexError (None). */
  function ListIndex<T>(xs: seq<T>, i: int): (r: Option<T>)
    ensures r.Some? <==> -|xs| <= i < |xs|
    ensures 0 <= i < |xs| ==> r == Some(xs[i])
    ensures -|xs| <= i < 0 ==> r == Some(xs[|xs| + i])
  {
    if 0 <= i < |xs| then Some(xs[i])
    else if -|xs| <= i < 0 then Some(xs[|xs| + i])
    else None
  }

  /** `[f(x) for x in xs]`. */
  function MapSeq<A, B>(f: A -> B, xs: seq<A>): seq<B>
  {
    seq(|xs|, i requires 0 <= i < |xs| => f(xs[i]))
  }

  lemma MapSeqPrefix<A, B>(f: A -> B, xs: seq<A>, i: int)
    requires 0 <= i < |xs|
    ensures MapSeq(f, xs[..i + 1]) == MapSeq(f, xs[..i]) + [f(xs[i])]
  {
  }

  /** The concatenation of a list of lists, in order. */
  function Flatten<T>(xss: seq<seq<T>>): seq<T>
  {
    if xss == [] then [] else Flatten(xss[..|xss| - 1]) + xss[|xss| - 1]
  }

  lemma FlattenSnoc<T>(xss: seq<seq<T>>, xs: seq<T>)
    ensures Flatten(xss + [xs]) == Flatten(xss) + xs
  {
    assert (xss + [xs])[..|xss|] == xss;
  }

  // ---------------------------------------------------------------------------
  // Dictionaries, as the ordered list of their items
  // ---------------------------------------------------------------------------

  predicate DistinctKeys<K(==), V>(d: seq<(K, V)>)
  {
    forall i, j :: 0 <= i < j < |d| ==> d[i].0 != d[j].0
  }

  function Keys<K(==), V>(d: seq<(K, V)>): set<K>
  {
    set i | 0 <= i < |d| :: d[i].0
  }

  /** `d.get(k)`: the value stored under k, or None. */
  function Get<K(==), V>(d: seq<(K, V)>, k: K): (r: Option<V>)
    ensures r.None? <==> k !in Keys(d)
    ensures r.Some? ==> exists i :: 0 <= i < |d| && d[i] == (k, r.value)
  {
    if d == [] then None
    else if d[|d| - 1].0 == k then Some(d[|d| - 1].1)
    else Get(d[..|d| - 1], k)
  }

  lemma {:induction false} GetAt<K, V>(d: seq<(K, V)>, i: int)
    requires DistinctKeys(d) && 0 <= i < |d|
    ensures Get(d, d[i].0) == Some(d[i].1)
  {
    if i < |d| - 1 {
      assert d[|d| - 1].0 != d[i].0;
      GetAt(d[..|d| - 1], i);
    }
  }

  lemma KeysCons<K, V>(h: (K, V), t: seq<(K, V)>)
    ensures Keys([h] + t) == {h.0} + Keys(t)
  {
    forall x | x in Keys([h] + t)
      ensures x in {h.0} + Keys(t)
    {
      var i :| 0 <= i < |t| + 1 && ([h] + t)[i].0 == x;
      if i > 0 {
        assert t[i - 1].0 == x;
      }
    }
    forall x | x in Keys(t)
      ensures x in Keys([h] + t)
    {
      var i :| 0 <= i < |t| && t[i].0 == x;
      assert ([h] + t)[i + 1].0 == x;
    }
    assert ([h] + t)[0].0 == h.0;
  }

  /** `d[k] = v`: an existing key keeps its place and takes the new value, a new
      key goes at the end. */
  function DictSet<K(==), V>(d: seq<(K, V)>, k: K, v: V): (r: seq<(K, V)>)
    ensures |r| == if k in Keys(d) then |d| else |d| + 1
    ensures forall i :: 0 <= i < |d| ==> r[i].0 == d[i].0
    ensures forall i :: 0 <= i < |d| && d[i].0 != k ==> r[i] == d[i]
    ensures k !in Keys(d) ==> r[|d|] == (k, v)
    ensures Keys(r) == Keys(d) + {k}
    ensures exists i :: 0 <= i < |r| && r[i] == (k, v)
  {
    if d == [] then [(k, v)]
    else
      assert d == [d[0]] + d[1..];
      KeysCons(d[0], d[1..]);
      if d[0].0 == k then
        KeysCons((k, v), d[1..]);
        [(k, v)] + d[1..]
      else
        var rest := DictSet(d[1..], k, v);
        KeysCons(d[0], rest);
        [d[0]] + rest
  }

  lemma DictSetKeepsDistinct<K, V>(d: seq<(K, V)>, k: K, v: V)
    requires DistinctKeys(d)
    ensures DistinctKeys(DictSet(d, k, v))
  {
  }

  /** `{int(k): v for k, v in items}`: the keys are converted in order, the first
      key that is not decimal text raising a ValueError (Err carries it); a later
      item whose key converts to the same integer overwrites the value in place. */
  function IntKeyed<V>(items: seq<(string, V)>): (r: Result<seq<(int, V)>, string>)
    ensures r.Ok? <==> forall i :: 0 <= i < |items| ==> ParseInt(items[i].0).Some?
    ensures r.Ok? ==> DistinctKeys(r.value)
  {
    if items == [] then Ok([])
    else
      var front := IntKeyed(items[..|items| - 1]);
      var last := items[|items| - 1];
      if front.Err? then
        Err(front.error)
      else if ParseInt(last.0).None? then
        Err(last.0)
      else
        var k := ParseInt(last.0).value;
        DictSetKeepsDistinct(front.value, k, last.1);
        Ok(DictSet(front.value, k, last.1))
  }

  /** A failed conversion reports the first key that is not decimal text. */
  lemma {:induction false} IntKeyedFirstError<V>(items: seq<(string, V)>)
    requires IntKeyed(items).Err?
    ensures exists i :: 0 <= i < |items| && ParseInt(items[i].0).None? && IntKeyed(items).error == items[i].0
                        && forall j :: 0 <= j < i ==> ParseInt(items[j].0).Some?
  {
    var n := |items|;
    var pre := items[..n - 1];
    if IntKeyed(pre).Err? {
      IntKeyedFirstError(pre);
      var i :| 0 <= i < |pre| && ParseInt(pre[i].0).None? && IntKeyed(pre).error == pre[i].0
               && forall j :: 0 <= j < i ==> ParseInt(pre[j].0).Some?;
      assert items[i] == pre[i];
      assert forall j :: 0 <= j < i ==> items[j] == pre[j];
    } else {
      assert forall j :: 0 <= j < n - 1 ==> items[j] == pre[j];
      assert ParseInt(items[n - 1].0).None? && IntKeyed(items).error == items[n - 1].0;
    }
  }

  /** The converted dictionary's keys are exactly the converted item keys. */
  lemma {:induction false} IntKeyedKeys<V>(items: seq<(string, V)>)
    requires IntKeyed(items).Ok?
    ensures Keys(IntKeyed(items).value) == set i | 0 <= i < |items| :: ParseInt(items[i].0).value
  {
    if items != [] {
      var pre := items[..|items| - 1];
      IntKeyedKeys(pre);
      assert Keys(IntKeyed(items).value) == Keys(IntKeyed(pre).value) + {ParseInt(items[|items| - 1].0).value};
      ParsedKeysSnoc(items);
    }
  }

  function ParsedKeys<V>(items: seq<(string, V)>): set<int>
    requires forall i :: 0 <= i < |items| ==> ParseInt(items[i].0).Some?
  {
    set i | 0 <= i < |items| :: ParseInt(items[i].0).value
  }

  lemma ParsedKeysSnoc<V>(items: seq<(string, V)>)
    requires items != [] && forall i :: 0 <= i < |items| ==> ParseInt(items[i].0).Some?
    ensures ParsedKeys(items) == ParsedKeys(items[..|items| - 1]) + {ParseInt(items[|items| - 1].0).value}
  {
    var n := |items|;
    var pre := items[..n - 1];
    var kLast := ParseInt(items[n - 1].0).value;
    var want := set i | 0 <= i < n :: ParseInt(items[i].0).value;
    var wantPre := set i | 0 <= i < n - 1 :: ParseInt(pre[i].0).value;
    forall x | x in want
      ensures x in wantPre + {kLast}
    {
      var i :| 0 <= i < n && ParseInt(items[i].0).value == x;
      if i < n - 1 {
        assert pre[i] == items[i];
      }
    }
    forall x | x in wantPre
      ensures x in want
    {
      var i :| 0 <= i < n - 1 && ParseInt(pre[i].0).value == x;
      assert pre[i] == items[i];
    }
    assert kLast in want;
  }



  /** The value stored under a converted key is that of the last item whose key
      converts to it. */
  lemma {:induction false} IntKeyedLastWins<V>(items: seq<(string, V)>, i: int)
    requires IntKeyed(items).Ok? && 0 <= i < |items|
    requires forall j :: i < j < |items| ==> ParseInt(items[j].0) != ParseInt(items[i].0)
    ensures Get(IntKeyed(items).value, ParseInt(items[i].0).value) == Some(items[i].1)
  {
    var n := |items|;
    var front := IntKeyed(items[..n - 1]);
    var d := IntKeyed(items).value;
    var k := ParseInt(items[i].0).value;
    var kLast := ParseInt(items[n - 1].0).value;
    assert d == DictSet(front.value, kLast, items[n - 1].1);
    if i == n - 1 {
      var j :| 0 <= j < |d| && d[j] == (k, items[i].1);
      GetAt(d, j);
    } else {
      assert items[..n - 1][i] == items[i];
      IntKeyedLastWins(items[..n - 1], i);
      assert kLast != k;
      var fd := front.value;
      assert Get(fd, k).Some?;
      var j :| 0 <= j < |fd| && fd[j] == (k, items[i].1);
      assert d[j] == fd[j];
      GetAt(d, j);
    }
  }

  /** When every key converts and no two convert to the same integer, the result
      holds the items in their order with their keys converted. */
  lemma {:induction false} IntKeyedPointwise<V>(items: seq<(string, V)>)
    requires forall i :: 0 <= i < |items| ==> ParseInt(items[i].0).Some?
    requires forall i, j :: 0 <= i < j < |items| ==> ParseInt(items[i].0) != ParseInt(items[j].0)
    ensures IntKeyed(items).Ok?
    ensures |IntKeyed(items).value| == |items|
    ensures forall i :: 0 <= i < |items| ==>
              IntKeyed(items).value[i] == (ParseInt(items[i].0).value, items[i].1)
  {
    if items != [] {
      var n := |items|;
      var pre := items[..n - 1];
      assert forall i :: 0 <= i < |pre| ==> pre[i] == items[i];
      IntKeyedPointwise(pre);
      var front := IntKeyed(pre).value;
      var last := items[n - 1];
      var k := ParseInt(last.0).value;
      assert k !in Keys(front);
      var r := DictSet(front, k, last.1);
      assert IntKeyed(items).value == r;
      forall i | 0 <= i < n
        ensures r[i] == (ParseInt(items[i].0).value, items[i].1)
      {
        if i < n - 1 {
          assert front[i] == (ParseInt(items[i].0).value, items[i].1);
          assert ParseInt(items[i].0) != ParseInt(items[n - 1].0);
        }
      }
    }
  }
}
