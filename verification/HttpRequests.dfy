/** HTTP requests as values: the request line, the target in it, and the end of the header. */
module HttpRequests {
  import opened Wrappers
  import opened QueryStrings

  const BUFFER_SIZE: nat := 2048
  const MAX_TARGET: nat := 2000

  predicate IsSpace(c: char) {
    c == ' ' || '\t' <= c <= '\r'
  }

  /** What `c >= ' '` says of a signed character. */
  predicate IsPrintable(c: char) {
    ' ' <= c < 128 as char
  }

  ghost predicate NoSpaces(s: string) {
    forall i :: 0 <= i < |s| ==> s[i] != ' ' && (s[i] < '\t' || '\r' < s[i])
  }

  // ---- Lines and headers ----

  /** The characters up to and including the end of the line, or as many as fit. */
  function LineOf(input: string, end: char, max: nat): (line: string)
    ensures line <= input && |line| <= max
    decreases |input|
  {
    if max == 0 || input == "" then ""
    else [input[0]] + if input[0] == end then "" else LineOf(input[1..], end, max - 1)
  }

  predicate Complete(line: string, end: char, max: nat) {
    |line| == max || (line != "" && line[|line| - 1] == end)
  }

  /** What follows the first blank line: a line without a printable character. */
  function AfterBlankLine(s: string, blank: bool): Option<string>
    decreases |s|
  {
    if s == "" then None
    else if s[0] == '\n' then if blank then Some(s[1..]) else AfterBlankLine(s[1..], true)
    else AfterBlankLine(s[1..], blank && !IsPrintable(s[0]))
  }

  ghost predicate IsBlank(line: string) {
    forall i :: 0 <= i < |line| ==> line[i] < ' ' || 128 as char <= line[i]
  }

  function Lines(lines: seq<string>): string {
    if lines == [] then "" else lines[0] + ['\n'] + Lines(lines[1..])
  }

  lemma {:induction false} ThroughOneLine(line: string, rest: string, blank: bool)
    requires '\n' !in line
    ensures AfterBlankLine(line + ['\n'] + rest, blank)
         == if blank && IsBlank(line) then Some(rest) else AfterBlankLine(rest, true)
    decreases |line|
  {
    var s := line + ['\n'] + rest;
    if line == "" {
      assert s[1..] == rest;
    } else {
      assert s[1..] == line[1..] + ['\n'] + rest;
      ThroughOneLine(line[1..], rest, blank && !IsPrintable(line[0]));
      assert IsBlank(line) <==> !IsPrintable(line[0]) && IsBlank(line[1..]) by {
        assert forall i :: 0 <= i < |line[1..]| ==> line[1..][i] == line[i + 1];
        assert forall i :: 1 <= i < |line| ==> line[i] == line[1..][i - 1];
      }
    }
  }

  /** A header is skipped up to its first blank line and not a character further. */
  lemma {:induction false} HeaderIsSkipped(lines: seq<string>, last: string, rest: string)
    requires forall i :: 0 <= i < |lines| ==> '\n' !in lines[i] && !IsBlank(lines[i])
    requires '\n' !in last && IsBlank(last)
    ensures AfterBlankLine(Lines(lines) + last + ['\n'] + rest, true) == Some(rest)
  {
    if lines == [] {
      assert Lines(lines) + last + ['\n'] + rest == last + ['\n'] + rest;
      ThroughOneLine(last, rest, true);
    } else {
      var more := Lines(lines[1..]) + last + ['\n'] + rest;
      HeaderIsSkipped(lines[1..], last, rest);
      ThroughOneLine(lines[0], more, true);
      assert Lines(lines) + last + ['\n'] + rest == lines[0] + ['\n'] + more;
    }
  }

  /** Without a blank line the header is never left: the lines all hold something to print, and what comes
      last is not ended. */
  lemma {:induction false} NoBlankLine(lines: seq<string>, last: string)
    requires forall i :: 0 <= i < |lines| ==> '\n' !in lines[i] && !IsBlank(lines[i])
    requires '\n' !in last
    ensures AfterBlankLine(Lines(lines) + last, true) == None
  {
    if lines == [] {
      assert Lines(lines) + last == last;
      NotEnded(last, true);
    } else {
      NoBlankLine(lines[1..], last);
      ThroughOneLine(lines[0], Lines(lines[1..]) + last, true);
      assert Lines(lines) + last == lines[0] + ['\n'] + (Lines(lines[1..]) + last);
    }
  }

  lemma {:induction false} NotEnded(line: string, blank: bool)
    requires '\n' !in line
    ensures AfterBlankLine(line, blank) == None
    decreases |line|
  {
    if line != "" {
      NotEnded(line[1..], blank && !IsPrintable(line[0]));
    }
  }

  /** A line is what is up to its end, or up to as many characters as fit, or all there is: nothing else is
      cut off. */
  lemma {:induction false} LineIsExact(input: string, end: char, max: nat)
    ensures var line := LineOf(input, end, max);
            && (forall i :: 0 <= i < |line| - 1 ==> line[i] != end)
            && (|line| == max || line == input || (line != "" && line[|line| - 1] == end))
    decreases |input|
  {
    if max != 0 && input != "" && input[0] != end {
      LineIsExact(input[1..], end, max - 1);
      assert input == [input[0]] + input[1..];
    }
  }

  lemma {:induction false} LineOfConcat(line: string, end: char, rest: string, max: nat)
    requires end !in line && |line| < max
    ensures LineOf(line + [end] + rest, end, max) == line + [end]
    decreases |line|
  {
    if line == "" {
      assert ([end] + rest)[0] == end;
    } else {
      assert (line + [end] + rest)[1..] == line[1..] + [end] + rest;
      LineOfConcat(line[1..], end, rest, max - 1);
    }
  }

  // ---- The target ----

  function SkipSpaces(s: string): string {
    if s != "" && IsSpace(s[0]) then SkipSpaces(s[1..]) else s
  }

  function Token(s: string, max: nat): (r: string)
    ensures |r| <= max
    ensures r <= s
    decreases max
  {
    if max == 0 || s == "" || IsSpace(s[0]) then "" else [s[0]] + Token(s[1..], max - 1)
  }

  /** The target of a GET request: what a bounded scan for one word behind the method finds. */
  function Scan(request: string): (r: Option<string>)
    ensures r.Some? ==> 0 < |r.value| <= MAX_TARGET
  {
    if !("GET" <= request) then None
    else
      var target := Token(SkipSpaces(request[3..]), MAX_TARGET);
      if target == "" then None else Some(target)
  }

  function Without(s: string, c: char): string {
    if s == "" then ""
    else Without(s[..|s| - 1], c) + if s[|s| - 1] == c then "" else [s[|s| - 1]]
  }

  function FileOf(target: string): string {
    Before(target, '?')
  }

  /** Everything behind the first question mark, later question marks dropped. */
  function ArgumentsOf(target: string): string {
    Without(After(target, '?'), '?')
  }

  lemma {:induction false} TokenOfConcat(word: string, c: char, rest: string, max: nat)
    requires NoSpaces(word) && IsSpace(c)
    ensures Token(word + [c] + rest, max) == if |word| <= max then word else word[..max]
    decreases |word|
  {
    if word != "" && max > 0 {
      assert !IsSpace(word[0]) && NoSpaces(word[1..]);
      hide IsSpace, NoSpaces;
      assert (word + [c] + rest)[1..] == word[1..] + [c] + rest;
      TokenOfConcat(word[1..], c, rest, max - 1);
      if |word| > max {
        assert word[..max] == [word[0]] + word[1..][..max - 1];
      }
    }
  }

  lemma {:induction false} SkippedAreSpaces(s: string) returns (spaces: string)
    ensures s == spaces + SkipSpaces(s) && forall i :: 0 <= i < |spaces| ==> IsSpace(spaces[i])
    ensures SkipSpaces(s) != "" ==> !IsSpace(SkipSpaces(s)[0])
  {
    spaces := "";
    if s != "" && IsSpace(s[0]) {
      var more := SkippedAreSpaces(s[1..]);
      spaces := [s[0]] + more;
    }
  }

  lemma {:induction false} TokenIsExact(s: string, max: nat)
    ensures var t := Token(s, max);
            NoSpaces(t) && t <= s && (|t| == max || t == s || IsSpace(s[|t|]))
    decreases max
  {
    if max > 0 && s != "" && !IsSpace(s[0]) {
      TokenIsExact(s[1..], max - 1);
    }
  }

  /** A target is found exactly in a request that begins with the method and has something else behind it
      than space. */
  lemma TargetIsFoundIff(request: string)
    ensures Scan(request).Some? <==> "GET" <= request && exists i :: 3 <= i < |request| && !IsSpace(request[i])
  {
    if "GET" <= request {
      var behind := request[3..];
      var spaces := SkippedAreSpaces(behind);
      TokenIsExact(SkipSpaces(behind), MAX_TARGET);
      SomethingElse(behind, spaces, SkipSpaces(behind));
      assert forall i :: 3 <= i < |request| ==> request[i] == behind[i - 3];
      assert forall i :: 0 <= i < |behind| ==> behind[i] == request[i + 3];
      hide IsSpace;
    }
  }

  lemma SomethingElse(behind: string, spaces: string, skipped: string)
    requires behind == spaces + skipped && (skipped != "" ==> !IsSpace(skipped[0]))
    requires forall i :: 0 <= i < |spaces| ==> IsSpace(spaces[i])
    ensures skipped != "" <==> exists i :: 0 <= i < |behind| && !IsSpace(behind[i])
  {
    if skipped != "" {
      assert behind[|spaces|] == skipped[0];
    } else {
      assert behind == spaces;
    }
  }

  /** It is the first word behind the method, as far as it fits. */
  lemma FirstWordIsFound(request: string) returns (spaces: string, rest: string)
    requires Scan(request).Some?
    ensures request == "GET" + spaces + Scan(request).value + rest
    ensures (forall i :: 0 <= i < |spaces| ==> IsSpace(spaces[i])) && NoSpaces(Scan(request).value)
    ensures |Scan(request).value| == MAX_TARGET || rest == "" || IsSpace(rest[0])
  {
    var skipped := SkipSpaces(request[3..]);
    var target := Token(skipped, MAX_TARGET);
    assert "GET" <= request && Scan(request).value == target;
    hide *;
    spaces := SkippedAreSpaces(request[3..]);
    TokenIsExact(skipped, MAX_TARGET);
    rest := skipped[|target|..];
    BehindPrefix(skipped, target);
    FourParts(request, spaces, target, rest);
  }

  lemma BehindPrefix(s: string, prefix: string)
    requires prefix <= s
    ensures s == prefix + s[|prefix|..] && (s[|prefix|..] != "" ==> |prefix| < |s| && s[|prefix|..][0] == s[|prefix|])
    ensures s == prefix ==> s[|prefix|..] == ""
  {
  }

  lemma FourParts(request: string, spaces: string, target: string, rest: string)
    requires "GET" <= request && request[3..] == spaces + (target + rest)
    ensures request == "GET" + spaces + target + rest
  {
  }

  /** The file name is all of a target without a question mark, or what is in front of the first one; a
      target without one has no arguments. */
  lemma FileIsInFront(target: string)
    ensures '?' !in FileOf(target)
    ensures if '?' in target then FileOf(target) + ['?'] <= target
            else FileOf(target) == target && ArgumentsOf(target) == ""
  {
    SplitIsAtTheFirst(target, '?');
  }

  lemma {:induction false} WithoutOfConcat(a: string, b: string, c: char)
    ensures Without(a + b, c) == Without(a, c) + Without(b, c)
  {
    if b == "" {
      assert a + b == a;
    } else {
      assert (a + b)[..|a + b| - 1] == a + b[..|b| - 1];
      WithoutOfConcat(a, b[..|b| - 1], c);
    }
  }

  lemma WithoutDrops(a: string, b: string, c: char)
    ensures Without(a + [c] + b, c) == Without(a + b, c)
  {
    WithoutOfConcat(a + [c], b, c);
    WithoutOfConcat(a, b, c);
    assert (a + [c])[..|a|] == a;
    assert Without(a, c) + "" == Without(a, c);
  }

  lemma ArgumentsBehind(file: string, arguments: string)
    requires '?' !in file
    ensures ArgumentsOf(file + ['?'] + arguments) == Without(arguments, '?')
  {
    SplitOfConcat(file, '?', arguments);
  }

  /** Behind the first question mark, any other one is as if it were not there, and every other character
      is kept. */
  lemma OtherQuestionMarksDrop(file: string, a: string, b: string)
    requires '?' !in file
    ensures ArgumentsOf(file + ['?'] + (a + ['?'] + b)) == ArgumentsOf(file + ['?'] + (a + b))
    ensures '?' !in a ==> ArgumentsOf(file + ['?'] + a) == a
  {
    hide ArgumentsOf, Without;
    ArgumentsBehind(file, a + ['?'] + b);
    ArgumentsBehind(file, a + b);
    ArgumentsBehind(file, a);
    WithoutDrops(a, b, '?');
    if '?' !in a {
      WithoutNothing(a, '?');
    }
  }

  lemma {:induction false} WithoutNothing(s: string, c: char)
    requires c !in s
    ensures Without(s, c) == s
  {
    if s != "" {
      WithoutNothing(s[..|s| - 1], c);
      assert s == s[..|s| - 1] + [s[|s| - 1]];
    }
  }

  function GetLine(target: string, version: string): string {
    "GET " + target + " HTTP/" + version + "\r"
  }

  /** A word of at most 2000 characters is found whole, a longer one is cut there. */
  lemma TargetIsFound(target: string, version: string, rest: string)
    requires target != "" && NoSpaces(target)
    ensures Scan(GetLine(target, version) + rest)
         == Some(if |target| <= MAX_TARGET then target else target[..MAX_TARGET])
  {
    var after := "HTTP/" + version + "\r" + rest;
    var line := GetLine(target, version) + rest;
    assert line == "GET" + ([' '] + (target + [' '] + after));
    assert line[3..] == [' '] + (target + [' '] + after);
    assert SkipSpaces(line[3..]) == SkipSpaces(target + [' '] + after) == target + [' '] + after;
    TokenOfConcat(target, ' ', after, MAX_TARGET);
  }

  /** Characters that a printed argument must not hold, besides the delimiters of the query. */
  ghost predicate Plain(s: string) {
    forall i :: 0 <= i < |s| ==> s[i] != '?' && s[i] != NUL && (IsSpace(s[i]) ==> s[i] == ' ')
  }

  ghost predicate PlainPairs(pairs: seq<Pair>) {
    forall i :: 0 <= i < |pairs| ==> Plain(pairs[i].0) && Plain(pairs[i].1)
  }

  ghost predicate Printed(s: string) {
    NoSpaces(s) && '?' !in s && NUL !in s
  }

  lemma PlainIsPrinted(s: string)
    requires Plain(s)
    ensures Printed(Plus(s))
  {
  }

  lemma PrintedConcat(a: string, b: string)
    requires Printed(a) && Printed(b)
    ensures Printed(a + b)
  {
  }

  lemma {:induction false} QueryIsPrinted(pairs: seq<Pair>)
    requires PlainPairs(pairs)
    ensures Printed(Print(pairs))
  {
    if pairs != [] {
      hide Printed, Plus, Plain;
      var first := Plus(pairs[0].0) + ['='] + Plus(pairs[0].1);
      PlainIsPrinted(pairs[0].0);
      PlainIsPrinted(pairs[0].1);
      assert Printed(['=']) && Printed(['&']) by { Delimiters(); }
      PrintedConcat(Plus(pairs[0].0), ['=']);
      PrintedConcat(Plus(pairs[0].0) + ['='], Plus(pairs[0].1));
      if |pairs| > 1 {
        QueryIsPrinted(pairs[1..]);
        PrintedConcat(first, ['&']);
        PrintedConcat(first + ['&'], Print(pairs[1..]));
      }
    }
  }

  lemma Delimiters()
    ensures Printed(['=']) && Printed(['&'])
  {
  }

  /** A target printed from a file name and a list of arguments is found in the request line and taken
      apart into that file name and the last-wins map of that list. */
  lemma GetRoundTrip(file: string, pairs: seq<Pair>, version: string, rest: string)
    requires Printed(file) && AllClean(pairs) && PlainPairs(pairs)
    requires |file + ['?'] + Print(pairs)| <= MAX_TARGET
    ensures var target := file + ['?'] + Print(pairs);
            && Scan(GetLine(target, version) + rest) == Some(target)
            && FileOf(target) == file && ArgumentsOf(target) == Print(pairs)
            && LastWins(Pairs(ArgumentsOf(target)), map[]) == LastWins(pairs, map[])
  {
    var target := file + ['?'] + Print(pairs);
    QueryIsPrinted(pairs);
    assert NoSpaces(target);
    TargetIsFound(target, version, rest);
    SplitOfConcat(file, '?', Print(pairs));
    WithoutNothing(Print(pairs), '?');
    PairsRoundTrip(pairs);
  }

  /** A target without a question mark is all file name: no arguments, and none in the map. */
  lemma FileRoundTrip(file: string, version: string, rest: string)
    requires Printed(file) && 1 <= |file| <= MAX_TARGET
    ensures Scan(GetLine(file, version) + rest) == Some(file)
    ensures FileOf(file) == file && ArgumentsOf(file) == "" && LastWins(Pairs(ArgumentsOf(file)), map[]) == map[]
  {
    TargetIsFound(file, version, rest);
    FileIsInFront(file);
  }

  /** A whole request on the stream: the line is read, the header skipped, and the target taken apart;
      the body is what is left. */
  lemma RequestRoundTrip(file: string, pairs: seq<Pair>, version: string, headers: seq<string>, last: string,
                         body: string)
    requires Printed(file) && AllClean(pairs) && PlainPairs(pairs) && '\n' !in version
    requires |file + ['?'] + Print(pairs)| <= MAX_TARGET
    requires |GetLine(file + ['?'] + Print(pairs), version)| < BUFFER_SIZE - 1
    requires forall i :: 0 <= i < |headers| ==> '\n' !in headers[i] && !IsBlank(headers[i])
    requires '\n' !in last && IsBlank(last)
    ensures var target := file + ['?'] + Print(pairs);
            var line := GetLine(target, version) + ['\n'];
            var stream := line + (Lines(headers) + last + ['\n'] + body);
            && LineOf(stream, '\n', BUFFER_SIZE - 1) == line
            && AfterBlankLine(stream[|line|..], true) == Some(body)
            && Scan(line) == Some(target) && FileOf(target) == file
            && LastWins(Pairs(ArgumentsOf(target)), map[]) == LastWins(pairs, map[])
  {
    var target := file + ['?'] + Print(pairs);
    var line, after := GetLine(target, version), Lines(headers) + last + ['\n'] + body;
    QueryIsPrinted(pairs);
    assert NoSpaces(target) && '\n' !in target;
    assert '\n' !in line;
    LineOfConcat(line, '\n', after, BUFFER_SIZE - 1);
    HeaderIsSkipped(headers, last, body);
    GetRoundTrip(file, pairs, version, ['\n']);
  }

  /** What a request leaves in the argument buffer: its own arguments over the old ones. */
  function Overlay(own: string, stale: string): string {
    own + if |own| < |stale| then stale[|own|..] else ""
  }

  /** The map that a parse of a request makes, given what the argument buffer held before. */
  function ArgumentMap(request: string, held: string): map<string, string>
    requires Scan(request).Some?
  {
    LastWins(Pairs(Overlay(ArgumentsOf(Scan(request).value), held)), map[])
  }

  /** On a new object, as the program makes one for each request, the map is that of the request's own
      arguments. The buffer is never cleared; on an object that parsed another request before, it still is
      whenever the new arguments are at least as long. */
  lemma OwnArguments(first: string, second: string)
    requires Scan(first).Some? && Scan(second).Some?
    ensures var before, own := ArgumentsOf(Scan(first).value), ArgumentsOf(Scan(second).value);
            && ArgumentMap(second, "") == LastWins(Pairs(own), map[])
            && (|before| <= |own| ==> ArgumentMap(second, before) == LastWins(Pairs(own), map[]))
  {
    var own := ArgumentsOf(Scan(second).value);
    assert own + "" == own;
  }

  lemma {:induction false} PrintOfConcat(own: seq<Pair>, tail: seq<Pair>)
    requires own != [] && tail != []
    ensures Print(own + tail) == Print(own) + ['&'] + Print(tail)
  {
    assert (own + tail)[1..] == own[1..] + tail;
    if |own| == 1 {
      assert own + tail == [own[0]] + tail;
    } else {
      PrintOfConcat(own[1..], tail);
      var first := Plus(own[0].0) + ['='] + Plus(own[0].1);
      assert first + ['&'] + (Print(own[1..]) + ['&'] + Print(tail)) == Print(own) + ['&'] + Print(tail);
    }
  }

  /** A request that is printed from a file name and arguments. */
  function Asking(file: string, pairs: seq<Pair>, version: string): string {
    GetLine(file + ['?'] + Print(pairs), version)
  }

  ghost predicate CanAsk(file: string, pairs: seq<Pair>) {
    Printed(file) && AllClean(pairs) && PlainPairs(pairs) && |file + ['?'] + Print(pairs)| <= MAX_TARGET
  }

  lemma AskingIsRead(file: string, pairs: seq<Pair>, version: string)
    requires CanAsk(file, pairs)
    ensures var target := Scan(Asking(file, pairs, version));
            target.Some? && ArgumentsOf(target.value) == Print(pairs)
  {
    hide Scan, FileOf, Printed, PlainPairs;
    GetRoundTrip(file, pairs, version, "");
    assert Asking(file, pairs, version) + "" == Asking(file, pairs, version);
  }

  lemma OverlayOfTail(own: seq<Pair>, held: string, tail: seq<Pair>)
    requires AllClean(own) && own != [] && AllClean(tail) && tail != []
    requires |Print(own)| < |held| && held[|Print(own)|..] == ['&'] + Print(tail)
    ensures Pairs(Overlay(Print(own), held)) == own + tail
  {
    hide *;
    CleanTogether(own, tail);
    PrintOfConcat(own, tail);
    OverlayShows(Print(own), held, Print(tail));
    PairsRoundTrip(own + tail);
  }

  lemma CleanTogether(own: seq<Pair>, tail: seq<Pair>)
    requires AllClean(own) && AllClean(tail)
    ensures AllClean(own + tail)
  {
    hide Clean;
  }

  lemma OverlayShows(own: string, held: string, tail: string)
    requires |own| < |held| && held[|own|..] == ['&'] + tail
    ensures Overlay(own, held) == own + ['&'] + tail
  {
  }

  /** It need not be when they are shorter. For any two requests printed from a file name and arguments,
      where the old arguments end, from the length of the new ones on, with whole pairs: those pairs are
      read as if the second request had them. */
  lemma TailOfOldArguments(file: string, own: seq<Pair>, other: string, old_: seq<Pair>, tail: seq<Pair>,
                           version: string)
    requires CanAsk(file, own) && CanAsk(other, old_) && own != [] && AllClean(tail) && tail != []
    requires |Print(own)| < |Print(old_)| && Print(old_)[|Print(own)|..] == ['&'] + Print(tail)
    ensures var first, second := Asking(other, old_, version), Asking(file, own, version);
            && Scan(first).Some? && Scan(second).Some?
            && ArgumentMap(second, ArgumentsOf(Scan(first).value)) == LastWins(own + tail, map[])
  {
    hide Scan, Asking, ArgumentsOf, Overlay, Pairs, Print, LastWins;
    AskingIsRead(other, old_, version);
    AskingIsRead(file, own, version);
    assert AllClean(own);
    OverlayOfTail(own, Print(old_), tail);
  }

  /** For one: after a request for b=2 and c=3, one for a=1 alone has the key c as well. */
  lemma OldKeyShows(version: string)
    ensures var first, second := GetLine("/?b=2&c=3", version), GetLine("/?a=1", version);
            && Scan(first).Some? && Scan(second).Some?
            && ArgumentMap(second, ArgumentsOf(Scan(first).value)) == map["a" := "1", "c" := "3"]
            && ArgumentMap(second, "") == map["a" := "1"]
  {
    hide Scan, Pairs, ArgumentsOf, GetLine, Print, LastWins, Overlay, AllClean;
    var own, old_, tail := [("a", "1")], [("b", "2"), ("c", "3")], [("c", "3")];
    Prints();
    Maps();
    Asks(own, old_, tail);
    assert "/" + ['?'] + "a=1" == "/?a=1" && "/" + ['?'] + "b=2&c=3" == "/?b=2&c=3";
    assert Asking("/", own, version) == GetLine("/?a=1", version)
           && Asking("/", old_, version) == GetLine("/?b=2&c=3", version);
    TailOfOldArguments("/", own, "/", old_, tail, version);
    AskingIsRead("/", own, version);
    OwnArguments(Asking("/", old_, version), Asking("/", own, version));
    PairsRoundTrip(own);
  }

  lemma Prints()
    ensures Print([("a", "1")]) == "a=1" && Print([("c", "3")]) == "c=3"
            && Print([("b", "2"), ("c", "3")]) == "b=2&c=3"
  {
    assert [("b", "2"), ("c", "3")][1..] == [("c", "3")];
    assert Plus("a") == "a" && Plus("1") == "1" && Plus("b") == "b" && Plus("2") == "2" && Plus("c") == "c"
           && Plus("3") == "3";
    assert "b=2&c=3" == "b=2" + ['&'] + "c=3";
  }

  lemma Maps()
    ensures LastWins([("a", "1")], map[]) == map["a" := "1"]
    ensures LastWins([("a", "1")] + [("c", "3")], map[]) == map["a" := "1", "c" := "3"]
  {
    var pairs := [("a", "1")] + [("c", "3")];
    assert pairs[1..] == [("c", "3")] && pairs[1..][1..] == [] && [("a", "1")][1..] == [];
    assert LastWins([("c", "3")], map["a" := "1"]) == map["a" := "1", "c" := "3"];
  }

  lemma Asks(own: seq<Pair>, old_: seq<Pair>, tail: seq<Pair>)
    requires own == [("a", "1")] && old_ == [("b", "2"), ("c", "3")] && tail == [("c", "3")]
    ensures CanAsk("/", own) && CanAsk("/", old_) && AllClean(tail)
  {
    Prints();
  }
}
