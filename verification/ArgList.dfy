/** The argument list of a request: character buffers split and decoded in place. */
module ArgLists {
  import opened Wrappers
  import opened QueryStrings

  /** The length of the string in a buffer, up to its terminator. */
  function StrLen(a: seq<char>): (n: nat)
    ensures n <= |a|
    ensures forall k :: 0 <= k < n ==> a[k] != NUL
    ensures n < |a| ==> a[n] == NUL
  {
    if a == [] || a[0] == NUL then 0 else 1 + StrLen(a[1..])
  }

  function Str(a: seq<char>): string {
    a[..StrLen(a)]
  }

  predicate Terminated(a: seq<char>) {
    StrLen(a) < |a|
  }

  /** The terminator determines the string. */
  lemma {:induction false} StrIs(a: seq<char>, n: nat)
    requires n < |a| && a[n] == NUL && NUL !in a[..n]
    ensures StrLen(a) == n && Str(a) == a[..n]
  {
    assert forall k :: 0 <= k < n ==> a[..n][k] == a[k];
  }

  method Terminate(a: array<char>, n: nat, ghost s: string)
    requires n == |s| < a.Length && NUL !in s
    requires forall k :: 0 <= k < n ==> a[k] == s[k]
    modifies a
    ensures Terminated(a[..]) && Str(a[..]) == s
  {
    a[n] := NUL;
    assert a[..][..n] == s;
    StrIs(a[..], n);
  }

  /** Splits a string at the first delimiter. The value may be written into the buffer that is read:
      what is written is always behind what is still to be read. */
  method SplitPair(par: array<char>, delimiter: char, key: array<char>, value: array<char>)
    requires Terminated(par[..]) && delimiter != NUL
    requires key != par && key != value
    requires key.Length > StrLen(par[..]) && value.Length > StrLen(par[..])
    modifies key, value
    ensures Terminated(key[..]) && Str(key[..]) == Before(old(Str(par[..])), delimiter)
    ensures Terminated(value[..]) && Str(value[..]) == After(old(Str(par[..])), delimiter)
    ensures par != value ==> par[..] == old(par[..])
  {
    hide StrLen, Before, After;
    ghost var s := Str(par[..]);
    ghost var first, rest := Before(s, delimiter), After(s, delimiter);
    ghost var n, m := |s|, |first|;
    WhereItSplits(s, delimiter);
    var delimiterFound := false;
    var vi, ki, i := 0, 0, 0;
    while i < StrLen(par[..])
      invariant 0 <= i <= n == StrLen(par[..])
      invariant forall k :: i <= k < n ==> par[k] == s[k]
      invariant delimiterFound <==> i > m
      invariant ki == (if i > m then m else i) && vi == (if i > m then i - m - 1 else 0)
      invariant forall k :: 0 <= k < ki ==> key[k] == first[k]
      invariant forall k :: 0 <= k < vi ==> value[k] == rest[k]
    {
      if par[i] == delimiter {
        if !delimiterFound {
          delimiterFound := true;
          i := i + 1;
          continue;
        }
      }
      if delimiterFound {
        assert s[i] == rest[vi];
        value[vi] := par[i];
        if par == value {
          StrIs(par[..], n);
        }
        vi := vi + 1;
      } else {
        key[ki] := par[i];
        ki := ki + 1;
      }
      i := i + 1;
    }
    Terminate(key, ki, first);
    Terminate(value, vi, rest);
  }

  lemma WhereItSplits(s: string, d: char)
    ensures var m, rest := |Before(s, d)|, After(s, d);
            && m <= |s| && Before(s, d) == s[..m]
            && (forall k :: 0 <= k < m ==> s[k] != d)
            && (m == |s| ==> rest == "")
            && (m < |s| ==>
                  && s[m] == d && |rest| == |s| - m - 1
                  && forall k :: 0 <= k < |rest| ==> rest[k] == s[m + 1 + k])
  {
    SplitIsAtTheFirst(s, d);
    var first := Before(s, d);
    assert forall k :: 0 <= k < |first| ==> first[k] == s[k];
  }

  /** Plus signs become spaces. */
  method HtmlDecode(value: array<char>)
    requires Terminated(value[..])
    modifies value
    ensures Terminated(value[..]) && Str(value[..]) == Decode(old(Str(value[..])))
  {
    ghost var s := Str(value[..]);
    var i := 0;
    while i < StrLen(value[..])
      invariant 0 <= i <= |s| == StrLen(value[..]) < value.Length
      invariant forall k :: 0 <= k < i ==> value[k] == Decode(s)[k]
      invariant forall k :: i <= k < |s| ==> value[k] == s[k]
    {
      if value[i] == '+' {
        value[i] := ' ';
        StrIs(value[..], |s|);
      }
      i := i + 1;
    }
  }

  /** One pair, taken apart in two buffers of its own. */
  method KeyAndValue(pair: array<char>) returns (key: string, value: string)
    requires Terminated(pair[..])
    ensures key == Decode(Before(Str(pair[..]), '=')) && value == Decode(After(Str(pair[..]), '='))
  {
    var pairLen := StrLen(pair[..]);
    var keyBuff := new char[pairLen + 1](_ => NUL);
    var val := new char[pairLen + 1](_ => NUL);
    SplitPair(pair, '=', keyBuff, val);
    HtmlDecode(keyBuff);
    HtmlDecode(val);
    key, value := Str(keyBuff[..]), Str(val[..]);
  }

  lemma OneMorePair(rest: string, m: map<string, string>)
    ensures var pair, left := Before(rest, '&'), After(rest, '&');
            LastWins(Pairs(rest), m)
            == if pair == "" && left == "" then m
               else LastWins(Pairs(left), m[Decode(Before(pair, '=')) := Decode(After(pair, '='))])
    ensures Before(rest, '&') != "" || After(rest, '&') != "" ==> |After(rest, '&')| < |rest|
  {
    var pair, left := Before(rest, '&'), After(rest, '&');
    if pair != "" || left != "" {
      var first := (Decode(Before(pair, '=')), Decode(After(pair, '=')));
      assert ([first] + Pairs(left))[1..] == Pairs(left);
    }
  }

  class ArgList {
    var args: map<string, string>
    ghost const query: string

    /** The map is that of the query string it was made from. */
    ghost predicate Valid()
      reads this
    {
      args == LastWins(Pairs(query), map[])
    }

    /** Takes the string apart pair by pair. From the second turn on the rest is split in place: it is
        both what is read and where the new rest goes. */
    constructor (argString: array<char>)
      requires Terminated(argString[..])
      ensures Valid() && query == Str(argString[..])
    {
      args := map[];
      query := Str(argString[..]);
      new;
      hide StrLen, Before, After, Decode, Pairs, LastWins;
      var len := StrLen(argString[..]);
      var src := argString;
      var pair := new char[len + 1](_ => NUL);
      var left := new char[len + 1](_ => NUL);
      ghost var all := LastWins(Pairs(Str(argString[..])), map[]);
      ghost var rest := Str(argString[..]);
      while true
        invariant src == argString || src == left
        invariant Terminated(src[..]) && Str(src[..]) == rest && |rest| <= len
        invariant LastWins(Pairs(rest), args) == all
        decreases |rest|
      {
        OneMorePair(rest, args);
        SplitPair(src, '&', pair, left);
        if StrLen(pair[..]) == 0 && StrLen(left[..]) == 0 {
          break;
        }
        var key, val := KeyAndValue(pair);
        args := args[key := val];
        src := left;
        rest := After(rest, '&');
      }
    }

    /** There is nothing to count exactly when the query string has no pairs. */
    method GetCount() returns (n: nat)
      requires Valid()
      ensures n == |args| && (n == 0 <==> Pairs(query) == [])
    {
      KeysOfPairs(Pairs(query), map[]);
      n := |args|;
      if Pairs(query) != [] {
        assert Pairs(query)[0].0 in args;
      }
    }

    /** The value that the last pair of the query string with this key has; none if there is no such
        pair. */
    method GetValue(key: string) returns (value: Option<string>)
      requires Valid()
      ensures value.None? <==> forall i :: 0 <= i < |Pairs(query)| ==> Pairs(query)[i].0 != key
      ensures value.Some? ==>
                exists i :: 0 <= i < |Pairs(query)| && Pairs(query)[i] == (key, value.value)
                            && forall j :: i < j < |Pairs(query)| ==> Pairs(query)[j].0 != key
    {
      ghost var pairs := Pairs(query);
      KeysOfPairs(pairs, map[]);
      if key !in args {
        return None;
      }
      ghost var i := LastIndex(pairs, key);
      ValueOfLastPair(pairs, i, map[]);
      value := Some(args[key]);
      assert Pairs(query)[i] == (key, value.value);
    }
  }

  lemma {:induction false} LastIndex(pairs: seq<Pair>, key: string) returns (i: nat)
    requires exists k :: 0 <= k < |pairs| && pairs[k].0 == key
    ensures i < |pairs| && pairs[i].0 == key
    ensures forall j :: i < j < |pairs| ==> pairs[j].0 != key
  {
    i := |pairs| - 1;
    if pairs[i].0 != key {
      i := LastIndex(pairs[..i], key);
    }
  }
}
