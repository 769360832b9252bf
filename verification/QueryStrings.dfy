/** Query strings as values: the first-delimiter split, the list of pairs, and the map of arguments. */
module QueryStrings {

  const NUL: char := '\0'

  /** What precedes the first delimiter. */
  function Before(s: string, d: char): (r: string)
    ensures |r| <= |s|
  {
    if s == "" || s[0] == d then "" else [s[0]] + Before(s[1..], d)
  }

  /** What follows the first delimiter; nothing if there is none. */
  function After(s: string, d: char): (r: string)
    ensures s != "" ==> |r| < |s|
    ensures s == "" ==> r == ""
  {
    if s == "" then "" else if s[0] == d then s[1..] else After(s[1..], d)
  }

  lemma {:induction false} SplitIsAtTheFirst(s: string, d: char)
    ensures d !in Before(s, d)
    ensures d in s ==> s == Before(s, d) + [d] + After(s, d)
    ensures d !in s ==> Before(s, d) == s && After(s, d) == ""
  {
    if s != "" && s[0] != d {
      SplitIsAtTheFirst(s[1..], d);
      assert s == [s[0]] + s[1..];
    }
  }

  /** The split is the only one at a delimiter with none before it. */
  lemma {:induction false} SplitOfConcat(a: string, d: char, b: string)
    requires d !in a
    ensures Before(a + [d] + b, d) == a && After(a + [d] + b, d) == b
  {
    if a != "" {
      SplitOfConcat(a[1..], d, b);
      assert (a + [d] + b)[1..] == a[1..] + [d] + b;
    }
  }

  lemma {:induction false} PartsComeFrom(s: string, d: char, c: char)
    requires c !in s
    ensures c !in Before(s, d) && c !in After(s, d)
  {
    SplitIsAtTheFirst(s, d);
  }

  /** Plus signs stand for spaces. */
  function Decode(s: string): string {
    seq(|s|, i requires 0 <= i < |s| => if s[i] == '+' then ' ' else s[i])
  }

  function Plus(s: string): string {
    seq(|s|, i requires 0 <= i < |s| => if s[i] == ' ' then '+' else s[i])
  }

  type Pair = (string, string)

  /** The pairs of a query string, up to the place where both the pair and the rest are empty. */
  function Pairs(s: string): seq<Pair>
    decreases |s|
  {
    var pair, left := Before(s, '&'), After(s, '&');
    if pair == "" && left == "" then []
    else [(Decode(Before(pair, '=')), Decode(After(pair, '=')))] + Pairs(left)
  }

  /** A later value of the same key replaces an earlier one. */
  function LastWins(pairs: seq<Pair>, m: map<string, string>): map<string, string> {
    if pairs == [] then m else LastWins(pairs[1..], m[pairs[0].0 := pairs[0].1])
  }

  function Print(pairs: seq<Pair>): string {
    if pairs == [] then ""
    else
      var first := Plus(pairs[0].0) + ['='] + Plus(pairs[0].1);
      if |pairs| == 1 then first else first + ['&'] + Print(pairs[1..])
  }

  predicate CleanKey(k: string) {
    '&' !in k && '=' !in k && '+' !in k
  }

  predicate CleanValue(v: string) {
    '&' !in v && '+' !in v
  }

  predicate Clean(p: Pair) {
    CleanKey(p.0) && CleanValue(p.1)
  }

  predicate AllClean(pairs: seq<Pair>) {
    forall i :: 0 <= i < |pairs| ==> Clean(pairs[i])
  }

  // ---- Any query string at all ----

  /** A pair is split at its first equals sign; without one it is all key. In both, plus signs are spaces
      and every other character is itself. */
  lemma OnePairIs(key: string, value: string)
    requires '=' !in key
    ensures Before(key + ['='] + value, '=') == key && After(key + ['='] + value, '=') == value
    ensures Before(key, '=') == key && After(key, '=') == ""
    ensures |Decode(key)| == |key|
    ensures forall i :: 0 <= i < |key| ==> Decode(key)[i] == if key[i] == '+' then ' ' else key[i]
  {
    SplitOfConcat(key, '=', value);
    SplitIsAtTheFirst(key, '=');
  }

  /** A query string is read from ampersand to ampersand, pair by pair, empty ones among them - but not an
      empty one that nothing follows. */
  lemma PairThenRest(pair: string, rest: string)
    requires '&' !in pair
    ensures var first := (Decode(Before(pair, '=')), Decode(After(pair, '=')));
            && Pairs(pair + ['&'] + rest) == (if pair == "" && rest == "" then [] else [first] + Pairs(rest))
            && Pairs(pair) == (if pair == "" then [] else [first])
  {
    SplitOfConcat(pair, '&', rest);
    SplitIsAtTheFirst(pair, '&');
    assert Pairs("") == [];
  }

  // ---- Print and parse ----

  lemma DecodePlus(s: string)
    requires '+' !in s
    ensures Decode(Plus(s)) == s
  {
  }

  lemma PlusKeeps(s: string, c: char)
    requires c !in s && c != '+'
    ensures c !in Plus(s)
  {
  }

  lemma OnePairSplits(p: Pair)
    requires Clean(p)
    ensures var first := Plus(p.0) + ['='] + Plus(p.1);
            && '&' !in first && first != ""
            && Decode(Before(first, '=')) == p.0 && Decode(After(first, '=')) == p.1
  {
    PlusKeeps(p.0, '=');
    PlusKeeps(p.0, '&');
    PlusKeeps(p.1, '&');
    SplitOfConcat(Plus(p.0), '=', Plus(p.1));
    DecodePlus(p.0);
    DecodePlus(p.1);
  }

  /** Printing any list of clean pairs and parsing it gives the list back: same pairs, same order. */
  lemma {:induction false} PairsRoundTrip(pairs: seq<Pair>)
    requires AllClean(pairs)
    ensures Pairs(Print(pairs)) == pairs
  {
    if pairs != [] {
      hide Decode, Plus, CleanKey, CleanValue;
      var first := Plus(pairs[0].0) + ['='] + Plus(pairs[0].1);
      assert Clean(pairs[0]);
      OnePairSplits(pairs[0]);
      if |pairs| == 1 {
        SplitIsAtTheFirst(first, '&');
        assert Pairs("") == [];
      } else {
        assert AllClean(pairs[1..]) by {
          forall i | 0 <= i < |pairs[1..]| ensures Clean(pairs[1..][i]) { assert Clean(pairs[i + 1]); }
        }
        PairsRoundTrip(pairs[1..]);
        SplitOfConcat(first, '&', Print(pairs[1..]));
      }
      assert pairs == [pairs[0]] + pairs[1..];
    }
  }

  /** The arguments that come out are the last-wins map of the list that went in. */
  lemma ArgumentsRoundTrip(pairs: seq<Pair>)
    requires AllClean(pairs)
    ensures LastWins(Pairs(Print(pairs)), map[]) == LastWins(pairs, map[])
  {
    PairsRoundTrip(pairs);
  }

  // ---- What parsing can produce at all ----

  lemma DecodedHasNoPlus(s: string, c: char)
    requires c !in s && c != ' '
    ensures '+' !in Decode(s) && c !in Decode(s)
  {
  }

  lemma ParsedPairIsClean(pair: string)
    requires '&' !in pair
    ensures Clean((Decode(Before(pair, '=')), Decode(After(pair, '='))))
  {
    SplitIsAtTheFirst(pair, '=');
    PartsComeFrom(pair, '=', '&');
    DecodedHasNoPlus(Before(pair, '='), '=');
    DecodedHasNoPlus(Before(pair, '='), '&');
    DecodedHasNoPlus(After(pair, '='), '&');
  }

  lemma {:induction false} ParsedPairsAreClean(s: string)
    ensures AllClean(Pairs(s))
    decreases |s|
  {
    var pair, left := Before(s, '&'), After(s, '&');
    if pair != "" || left != "" {
      SplitIsAtTheFirst(s, '&');
      ParsedPairIsClean(pair);
      ParsedPairsAreClean(left);
    }
  }

  /** Printing what was parsed and parsing that again changes nothing, for every query string. */
  lemma ParseIsStable(s: string)
    ensures Pairs(Print(Pairs(s))) == Pairs(s)
  {
    ParsedPairsAreClean(s);
    PairsRoundTrip(Pairs(s));
  }

  /** So a list of pairs comes back exactly when it is clean. */
  lemma ComesBackIffClean(pairs: seq<Pair>)
    ensures Pairs(Print(pairs)) == pairs <==> AllClean(pairs)
  {
    ParsedPairsAreClean(Print(pairs));
    if AllClean(pairs) {
      PairsRoundTrip(pairs);
    }
  }

  lemma {:induction false} UntouchedKey(pairs: seq<Pair>, m: map<string, string>, k: string)
    requires forall i :: 0 <= i < |pairs| ==> pairs[i].0 != k
    ensures k in LastWins(pairs, m) <==> k in m
    ensures k in m ==> LastWins(pairs, m)[k] == m[k]
  {
    if pairs != [] {
      UntouchedKey(pairs[1..], m[pairs[0].0 := pairs[0].1], k);
    }
  }

  /** The value of a key is the one of its last pair; a key without a pair has none. */
  lemma {:induction false} ValueOfLastPair(pairs: seq<Pair>, last: nat, m: map<string, string>)
    requires last < |pairs|
    requires forall i :: last < i < |pairs| ==> pairs[i].0 != pairs[last].0
    ensures var r := LastWins(pairs, m); pairs[last].0 in r && r[pairs[last].0] == pairs[last].1
  {
    var m1 := m[pairs[0].0 := pairs[0].1];
    if last == 0 {
      UntouchedKey(pairs[1..], m1, pairs[0].0);
    } else {
      ValueOfLastPair(pairs[1..], last - 1, m1);
    }
  }

  lemma {:induction false} KeysOfPairs(pairs: seq<Pair>, m: map<string, string>)
    ensures forall k :: k in LastWins(pairs, m) <==> k in m || exists i :: 0 <= i < |pairs| && pairs[i].0 == k
  {
    if pairs != [] {
      var rest, m1 := pairs[1..], m[pairs[0].0 := pairs[0].1];
      KeysOfPairs(rest, m1);
      forall k
        ensures k in LastWins(pairs, m) <==> k in m || exists i :: 0 <= i < |pairs| && pairs[i].0 == k
      {
        assert forall i | 0 <= i < |rest| :: rest[i] == pairs[i + 1];
        assert forall i | 1 <= i < |pairs| :: pairs[i] == rest[i - 1];
      }
    }
  }
}
