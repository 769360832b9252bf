/** The request object: three fixed buffers filled from a stream, and the argument list. */
module HttpRequestObjects {
  import opened Wrappers
  import opened QueryStrings
  import opened ArgLists
  import opened HttpRequests

  /** Behind the terminator there is nothing but zeros: the buffers are cleared once, when made. */
  ghost predicate Padded(a: seq<char>) {
    forall k :: StrLen(a) <= k < |a| ==> a[k] == NUL
  }

  lemma WithoutOneMore(s: string, i: nat, c: char)
    requires i < |s|
    ensures Without(s[..i + 1], c) == Without(s[..i], c) + if s[i] == c then "" else [s[i]]
  {
    assert s[..i + 1][..i] == s[..i];
  }

  lemma {:induction false} WithoutIsShorter(s: string, c: char)
    ensures |Without(s, c)| <= |s|
    ensures forall k :: 0 <= k < |Without(s, c)| ==> Without(s, c)[k] in s
  {
    if s != "" {
      WithoutIsShorter(s[..|s| - 1], c);
    }
  }

  /** The arguments of a request written over what the buffer held. */
  lemma OverlayIs(was: seq<char>, now: seq<char>, q: string)
    requires Terminated(was) && Padded(was) && |now| == |was| && |q| < |was| && NUL !in q
    requires forall k :: 0 <= k < |now| ==> now[k] == if k < |q| then q[k] else was[k]
    ensures Terminated(now) && Padded(now) && Str(now) == Overlay(q, Str(was))
  {
    hide StrLen;
    var n := if |q| < StrLen(was) then StrLen(was) else |q|;
    assert now[..n] == Overlay(q, Str(was));
    StrIs(now, n);
  }

  class HttpRequest {
    const request: array<char>
    const filename: array<char>
    const args: array<char>
    var argList: ArgList?
    var input: string

    ghost predicate Valid()
      reads this, request, filename, args
    {
      && request.Length == filename.Length == args.Length == BUFFER_SIZE
      && request != filename && request != args && filename != args
      && Terminated(request[..]) && Terminated(args[..]) && Padded(args[..])
    }

    constructor (input: string)
      ensures Valid() && fresh(request) && fresh(filename) && fresh(args)
      ensures Str(args[..]) == "" && argList == null && this.input == input
    {
      request := new char[BUFFER_SIZE](_ => NUL);
      filename := new char[BUFFER_SIZE](_ => NUL);
      args := new char[BUFFER_SIZE](_ => NUL);
      argList := null;
      this.input := input;
    }

    /** There are arguments when a request was parsed and its query string has pairs. */
    method HasArguments() returns (r: bool)
      requires argList != null ==> argList.Valid()
      ensures r <==> argList != null && Pairs(argList.query) != []
    {
      if argList == null {
        return false;
      }
      var n := argList.GetCount();
      r := n > 0;
    }

    /** One line into a buffer; false when the stream ends before it does. */
    method ReadLine(endLn: char, buffer: array<char>, maxSize: nat) returns (ok: bool)
      requires maxSize < buffer.Length
      modifies this`input, buffer
      ensures var line := LineOf(old(input), endLn, maxSize);
              && input == old(input)[|line|..]
              && (ok <==> Complete(line, endLn, maxSize))
              && buffer[..|line|] == line
              && (ok ==> buffer[|line|] == NUL)
    {
      hide LineOf;
      ghost var s := input;
      ghost var line := LineOf(s, endLn, maxSize);
      var readTotal := 0;
      while readTotal < maxSize
        invariant readTotal <= |line| && readTotal <= maxSize && input == s[readTotal..]
        invariant line[readTotal..] == LineOf(s[readTotal..], endLn, maxSize - readTotal)
        invariant readTotal > 0 ==> line[readTotal - 1] != endLn
        invariant forall k :: 0 <= k < readTotal ==> buffer[k] == line[k]
      {
        if input == "" {
          LineEndsHere(endLn, maxSize - readTotal);
          return false;
        }
        var c := input[0];
        input := input[1..];
        LineGoesOn(s, endLn, maxSize, line, readTotal);
        buffer[readTotal] := c;
        readTotal := readTotal + 1;
        if c == endLn {
          break;
        }
      }
      buffer[readTotal] := NUL;
      return true;
    }

    /** Reads on through the first blank line; false when the stream ends before that. */
    method SkipHeader(lastWasEndLn: bool) returns (ok: bool)
      modifies this`input
      ensures match AfterBlankLine(old(input), lastWasEndLn)
              case None => !ok && input == ""
              case Some(rest) => ok && input == rest
    {
      var last := lastWasEndLn;
      while true
        invariant AfterBlankLine(input, last) == AfterBlankLine(old(input), lastWasEndLn)
        decreases |input|
      {
        if input == "" {
          return false;
        }
        var c := input[0];
        input := input[1..];
        if c == '\n' {
          if last {
            break;
          }
          last := true;
        } else if IsPrintable(c) {
          last := false;
        }
      }
      return true;
    }

    /** The request line into its buffer, then on to the end of the header. */
    method ReadHeader() returns (ok: bool)
      requires Valid()
      modifies this`input, request
      ensures var line := LineOf(old(input), '\n', BUFFER_SIZE - 1);
              var after := old(input)[|line|..];
              && (ok <==> Complete(line, '\n', BUFFER_SIZE - 1) && AfterBlankLine(after, true).Some?)
              && (ok ==> input == AfterBlankLine(after, true).value)
              && (ok && NUL !in line ==> Valid() && Str(request[..]) == line)
    {
      ok := ReadLine('\n', request, BUFFER_SIZE - 1);
      if !ok {
        return;
      }
      ghost var line := LineOf(old(input), '\n', BUFFER_SIZE - 1);
      if NUL !in line {
        StrIs(request[..], |line|);
      }
      ok := SkipHeader(true);
    }

    /** The scan, on the buffers: a target is copied into the file name, or nothing is. */
    method ScanTarget() returns (found: bool)
      requires Valid()
      modifies filename
      ensures var target := Scan(Str(request[..]));
              && (found <==> target.Some?)
              && (found ==> Terminated(filename[..]) && Str(filename[..]) == target.value)
              && (!found ==> filename[..] == old(filename[..]))
    {
      hide StrLen, Scan, Padded;
      var target := Scan(Str(request[..]));
      if target.None? {
        return false;
      }
      assert NUL !in target.value by { TargetComesFrom(Str(request[..])); }
      forall k | 0 <= k < |target.value| {
        filename[k] := target.value[k];
      }
      Terminate(filename, |target.value|, target.value);
      assert request[..] == old(request[..]);
      return true;
    }

    /** Splits the target at its first question mark, in place, and copies the arguments. */
    method SplitTarget()
      requires Valid() && Terminated(filename[..])
      modifies filename, args
      ensures Valid() && Terminated(filename[..])
      ensures var target := Str(old(filename[..]));
              && Str(filename[..]) == FileOf(target)
              && Str(args[..]) == Overlay(ArgumentsOf(target), Str(old(args[..])))
    {
      hide StrLen, Before, After, Without, Padded;
      ghost var t := Str(filename[..]);
      ghost var was := args[..];
      ghost var m, rest := |Before(t, '?')|, After(t, '?');
      WhereItSplits(t, '?');
      WithoutIsShorter(rest, '?');
      var filenameLen := StrLen(filename[..]);
      var j := 0;
      var wasDelimiter := false;
      assert Without(rest[..0], '?') == "" by { NothingWithout('?', rest); }
      for i := 0 to filenameLen
        invariant forall k :: 0 <= k < filenameLen ==> filename[k] == if k < i && t[k] == '?' then NUL else t[k]
        invariant filename[filenameLen] == NUL
        invariant wasDelimiter <==> i > m
        invariant j <= i && j == |Without(rest[..if i > m then i - m - 1 else 0], '?')|
        invariant forall k :: 0 <= k < j ==> args[k] == Without(rest[..if i > m then i - m - 1 else 0], '?')[k]
        invariant forall k :: j <= k < |was| ==> args[k] == was[k]
      {
        if i > m {
          WithoutOneMore(rest, i - m - 1, '?');
        }
        if filename[i] == '?' {
          filename[i] := NUL;
          wasDelimiter := true;
          continue;
        }
        if wasDelimiter {
          args[j] := filename[i];
          j := j + 1;
        }
      }
      assert rest[..if filenameLen > m then filenameLen - m - 1 else 0] == rest;
      ArgumentsHaveNoTerminator(t);
      OverlayIs(was, args[..], ArgumentsOf(t));
      assert filename[..][..m] == t[..m];
      StrIs(filename[..], m);
    }

    /** File name and arguments of a GET request. A second parse on the same object writes the new
        arguments over the old ones. */
    method ParseHeader() returns (ok: bool)
      requires Valid()
      modifies this`argList, filename, args
      ensures Valid() && (ok <==> Scan(Str(request[..])).Some?)
      ensures ok ==> var target := Scan(Str(request[..])).value;
                     var arguments := Overlay(ArgumentsOf(target), Str(old(args[..])));
                     && Terminated(filename[..]) && Str(filename[..]) == FileOf(target)
                     && Str(args[..]) == arguments
                     && argList != null && argList.Valid() && argList.query == arguments
      ensures !ok ==> filename[..] == old(filename[..]) && args[..] == old(args[..]) && argList == null
    {
      hide StrLen, Padded, Scan, FileOf, ArgumentsOf, Overlay, LastWins, Pairs;
      if argList != null {
        argList := null;
      }
      ok := ScanTarget();
      if !ok {
        return;
      }
      SplitTarget();
      argList := new ArgList(args);
    }
  }

  lemma NothingWithout(c: char, s: string)
    ensures Without(s[..0], c) == ""
  {
  }

  lemma LineEndsHere(end: char, max: nat)
    ensures LineOf("", end, max) == ""
  {
  }

  lemma LineGoesOn(s: string, end: char, max: nat, line: string, i: nat)
    requires i < |s| && i < max && i <= |line| && line[i..] == LineOf(s[i..], end, max - i)
    ensures i < |line| && line[i] == s[i]
    ensures s[i] != end ==> line[i + 1..] == LineOf(s[i + 1..], end, max - i - 1)
    ensures s[i] == end ==> i + 1 == |line|
  {
    assert s[i..][1..] == s[i + 1..];
    var tail := LineOf(s[i..], end, max - i);
    assert tail[0] == s[i] && line[i] == tail[0];
    assert line[i + 1..] == tail[1..];
  }

  lemma {:induction false} SkippedIsSuffix(s: string)
    ensures forall c: char :: c in SkipSpaces(s) ==> c in s
  {
    if s != "" && IsSpace(s[0]) {
      SkippedIsSuffix(s[1..]);
    }
  }

  lemma TargetComesFrom(request: string)
    requires NUL !in request && Scan(request).Some?
    ensures NUL !in Scan(request).value
  {
    assert NUL !in request[3..];
    SkippedIsSuffix(request[3..]);
    var skipped := SkipSpaces(request[3..]);
    var target := Token(skipped, MAX_TARGET);
    assert NUL !in skipped;
    assert forall i :: 0 <= i < |target| ==> target[i] == skipped[i];
  }

  lemma ArgumentsHaveNoTerminator(target: string)
    requires NUL !in target
    ensures NUL !in ArgumentsOf(target) && |ArgumentsOf(target)| <= |target|
  {
    PartsComeFrom(target, '?', NUL);
    WithoutIsShorter(After(target, '?'), '?');
  }
}
