/** The splitter of grep_ssd_single.cc: it works through a payload in place, keeps an unfinished line
    and its offset in static variables between calls, and records the offsets of matching lines. */
module Grep {
  import opened Tokens

  const LAST_SIZE: nat := 400

  predicate OccursAt(s: string, target: string, k: nat) {
    k + |target| <= |s| && s[k..k + |target|] == target
  }

  /** strstr(s, target) finds something. */
  predicate Contains(s: string, target: string) {
    exists k | 0 <= k <= |s| :: OccursAt(s, target, k)
  }

  /** A line of the file, from off to the newline at end, that contains target. */
  ghost predicate MatchingLine(file: string, target: string, off: int, end: int) {
    IsToken(Lines, file, off, end) && Contains(file[off..end], target)
  }

  function Record(res: seq<int>, t: Token, target: string): seq<int> {
    if Contains(t.text, target) then res + [t.at] else res
  }

  /** The offsets of the tokens that contain target. */
  function Matches(tokens: seq<Token>, target: string): seq<int> {
    if tokens == [] then [] else Record(Matches(tokens[..|tokens| - 1], target), tokens[|tokens| - 1], target)
  }

  lemma MatchesMore(tokens: seq<Token>, t: Token, target: string)
    ensures Matches(tokens + [t], target) == Record(Matches(tokens, target), t, target)
  {
    assert (tokens + [t])[..|tokens|] == tokens;
  }

  ghost predicate Increasing(res: seq<int>) {
    forall j, k :: 0 <= j < k < |res| ==> res[j] < res[k]
  }

  ghost predicate MatchesAt(tokens: seq<Token>, target: string, off: int) {
    exists t :: t in tokens && t.at == off && Contains(t.text, target)
  }

  lemma {:induction false} MatchesOf(tokens: seq<Token>, target: string, off: int)
    ensures off in Matches(tokens, target) <==> MatchesAt(tokens, target, off)
    decreases |tokens|
  {
    hide Contains;
    if tokens == [] {
    } else {
      var n := |tokens| - 1;
      MatchesOf(tokens[..n], target, off);
      assert tokens == tokens[..n] + [tokens[n]];
    }
  }

  lemma {:induction false} MatchesAscend(tokens: seq<Token>, target: string)
    requires Ascending(tokens)
    ensures Increasing(Matches(tokens, target))
    decreases |tokens|
  {
    hide Contains;
    if tokens == [] {
    } else {
      var n := |tokens| - 1;
      MatchesAscend(tokens[..n], target);
      var before := Matches(tokens[..n], target);
      forall k | 0 <= k < |before|
        ensures before[k] < tokens[n].at
      {
        MatchesOf(tokens[..n], target, before[k]);
        var t :| t in tokens[..n] && t.at == before[k] && Contains(t.text, target);
        var i :| 0 <= i < n && tokens[..n][i] == t;
        assert tokens[i].at < tokens[n].at;
      }
    }
  }

  /** The recorded offsets of a whole file are exactly the starts of its matching lines, ascending. */
  lemma FileMatches(file: string, target: string)
    ensures var res := Matches(Split(Lines, file), target);
            && Increasing(res)
            && forall off :: off in res <==> exists end :: MatchingLine(file, target, off, end)
  {
    hide Matches, Contains, MatchingLine, TokenOf;
    SplitIsExact(Lines, file);
    var tokens := Split(Lines, file);
    MatchesAscend(tokens, target);
    forall off
      ensures off in Matches(tokens, target) <==> exists end :: MatchingLine(file, target, off, end)
    {
      MatchesOf(tokens, target, off);
      TokenAtOffset(file, target, tokens, off);
    }
  }

  lemma TokenAtOffset(file: string, target: string, tokens: seq<Token>, off: int)
    requires forall t :: t in tokens <==> TokenOf(Lines, file, t)
    ensures MatchesAt(tokens, target, off) <==> exists end :: MatchingLine(file, target, off, end)
  {
    hide Contains;
    if t :| t in tokens && t.at == off && Contains(t.text, target) {
      assert MatchingLine(file, target, off, off + |t.text|);
    }
    if end :| MatchingLine(file, target, off, end) {
      assert TokenOf(Lines, file, Token(file[off..end], off));
    }
  }

  /** What one more character does to the matches. */
  lemma ScanStep(sc: Scan, s: string, from: nat, r: nat, target: string)
    requires from <= r < |s| && Run(Lines, sc, s[..r]).cur == s[from..r]
    ensures var m, n := Run(Lines, sc, s[..r]), Run(Lines, sc, s[..r + 1]);
            && n.pos == m.pos + 1
            && if Delim(Lines, s[r]) then
                 n.cur == [] && Matches(n.tokens, target) ==
                   if from < r then Record(Matches(m.tokens, target), Token(s[from..r], m.pos - (r - from)), target) else Matches(m.tokens, target)
               else
                 n.cur == s[from..r + 1] && n.tokens == m.tokens
  {
    hide Run, Matches, Record;
    RunStep(Lines, sc, s, r);
    var m := Run(Lines, sc, s[..r]);
    MatchesMore(m.tokens, Token(m.cur, m.pos - |m.cur|), target);
    assert s[from..r + 1] == s[from..r] + [s[r]];
  }

  class Grepper {
    const target: string
    const last: array<char>
    var lastLen: nat
    var lastOff: int
    var ll: int
    var res: seq<int>
    // everything scanned so far
    ghost var scan: Scan

    ghost predicate Valid()
      reads this, last
    {
      && last.Length == LAST_SIZE && lastLen < LAST_SIZE && scan.cur == last[..lastLen]
      && scan.pos == ll && (lastLen > 0 ==> lastOff == ll - lastLen)
      && res == Matches(scan.tokens, target)
    }

    constructor (target: string)
      ensures Valid() && scan == START && fresh(last) && this.target == target
    {
      this.target := target;
      last := new char[LAST_SIZE](_ => '\0');
      lastLen, lastOff, ll := 0, 0, 0;
      res := [];
      scan := START;
    }

    method CheckStr(s: string, offset: int)
      modifies this`res
      ensures res == Record(old(res), Token(s, offset), target)
    {
      if Contains(s, target) {
        res := res + [offset];
      }
    }

    /** The pending line is completed from the start of the payload and checked. */
    method FinishPending(payload: array<char>, payloadLen: nat) returns (l: nat)
      requires Valid() && payloadLen <= payload.Length && payload != last && lastLen > 0
      requires Fits(Lines, scan, payload[..payloadLen], LAST_SIZE)
      modifies this`lastLen, this`res, this`scan, last
      ensures l <= payloadLen && lastLen == 0 && scan.cur == []
      ensures scan == Run(Lines, old(scan), payload[..payloadLen][..l]) && scan.pos == ll + l
      ensures res == Matches(scan.tokens, target)
    {
      hide Matches, Record, Run, Fits;
      ghost var s, sc := payload[..payloadLen], scan;
      var line;
      l, line := FinishCarry(Lines, payload, last, lastLen, sc, s);
      CheckStr(line, lastOff);
      MatchesMore(sc.tokens, Token(line, sc.pos - |sc.cur|), target);
      lastLen := 0;
      l := l + 1;
      scan := Run(Lines, sc, s[..l]);
    }

    /** The line from l to the newline at r is cut off in place and checked. */
    method CutLine(payload: array<char>, l: nat, r: nat, ghost text: string)
      requires l <= r < payload.Length && |text| == r - l
      requires forall k :: l <= k < r ==> payload[k] == text[k - l] != '\0'
      modifies this`res, payload
      ensures res == Record(old(res), Token(text, ll + l), target)
      ensures forall k :: 0 <= k < payload.Length && k != r ==> payload[k] == old(payload[k])
    {
      payload[r] := '\0';
      var line := CString(payload, l, r);
      assert line == text;
      CheckStr(line, ll + l);
    }

    /** The loop of process from position l on; from is where the line in progress starts then. */
    method ScanRest(payload: array<char>, payloadLen: nat, l: nat, ghost s: string, ghost sc: Scan) returns (from: nat)
      requires l <= payloadLen == |s| <= payload.Length && forall k :: l <= k < payloadLen ==> payload[k] == s[k]
      requires scan == Run(Lines, sc, s[..l]) && scan.cur == [] && scan.pos == ll + l && res == Matches(scan.tokens, target)
      requires forall k :: 0 <= k < |s| ==> s[k] != '\0'
      modifies this`res, this`scan, payload
      ensures from <= payloadLen && scan == Run(Lines, sc, s) && scan.cur == s[from..] && scan.pos == ll + payloadLen
      ensures res == Matches(scan.tokens, target)
      ensures forall k :: from <= k < payload.Length ==> payload[k] == old(payload[k])
    {
      hide Run, Matches, Record;
      from := l;
      var r := l;
      while r < payloadLen
        invariant l <= from <= r <= payloadLen
        invariant forall k :: from <= k < payload.Length ==> payload[k] == old(payload[k])
        invariant scan == Run(Lines, sc, s[..r]) && scan.cur == s[from..r] && scan.pos == ll + r
        invariant res == Matches(scan.tokens, target)
      {
        ScanStep(sc, s, from, r, target);
        if Delim(Lines, payload[r]) {
          if from < r {
            CutLine(payload, from, r, s[from..r]);
          }
          from := r + 1;
        }
        r := r + 1;
        scan := Run(Lines, sc, s[..r]);
      }
      assert s[..r] == s;
    }

    /** process: scans one payload, wherever in a line it begins or ends. */
    method Process(payload: array<char>, payloadLen: nat)
      requires Valid() && payloadLen <= payload.Length && payload != last
      requires Fits(Lines, scan, payload[..payloadLen], LAST_SIZE)
      modifies this`lastLen, this`lastOff, this`ll, this`res, this`scan, last, payload
      ensures Valid() && scan == Run(Lines, old(scan), old(payload[..payloadLen]))
    {
      hide Matches, Run, Fits;
      ghost var s, sc := payload[..payloadLen], scan;
      FitsWhole(Lines, sc, s, LAST_SIZE);
      var l := 0;
      if lastLen > 0 {
        l := FinishPending(payload, payloadLen);
      }
      l := ScanRest(payload, payloadLen, l, s, sc);
      if l != payloadLen {
        lastOff := ll + l;
        lastLen := KeepCarry(payload, l, payloadLen, last);
        assert payload[l..payloadLen] == s[l..];
      }
      ll := ll + payloadLen;
    }
  }
}
