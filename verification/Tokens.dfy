/** Splitting a file into words or lines: the reference the in-storage programs are proved against. */
module Tokens {
  import opened Base

  /** wordcount splits at blanks, newlines and full stops, grep at newlines. */
  datatype Kind = Words | Lines

  predicate Delim(kind: Kind, ch: char) {
    ch == '\n' || (kind == Words && (ch == ' ' || ch == '.'))
  }

  /** A word or line and where it starts in the file. */
  datatype Token = Token(text: string, at: int)

  /** A scan: the tokens completed, the characters since the last delimiter, the characters read. */
  datatype Scan = Scan(tokens: seq<Token>, cur: string, pos: nat)

  const START := Scan([], [], 0)

  function Next(kind: Kind, sc: Scan, ch: char): Scan {
    if !Delim(kind, ch) then Scan(sc.tokens, sc.cur + [ch], sc.pos + 1)
    else if sc.cur == [] then Scan(sc.tokens, [], sc.pos + 1)
    else Scan(sc.tokens + [Token(sc.cur, sc.pos - |sc.cur|)], [], sc.pos + 1)
  }

  function Run(kind: Kind, sc: Scan, s: string): Scan {
    if s == [] then sc else Next(kind, Run(kind, sc, s[..|s| - 1]), s[|s| - 1])
  }

  /** The words or lines of a whole file that ends in a delimiter. */
  function Split(kind: Kind, file: string): seq<Token> {
    Run(kind, START, file).tokens
  }

  /** Splitting may stop and go on anywhere. */
  lemma {:induction false} RunAppend(kind: Kind, sc: Scan, a: string, b: string)
    ensures Run(kind, sc, a + b) == Run(kind, Run(kind, sc, a), b)
    decreases |b|
  {
    if b == [] {
      assert a + b == a;
    } else {
      var n := |b| - 1;
      assert (a + b)[..|a + b| - 1] == a + b[..n];
      RunAppend(kind, sc, a, b[..n]);
    }
  }

  lemma RunStep(kind: Kind, sc: Scan, s: string, i: nat)
    requires i < |s|
    ensures Run(kind, sc, s[..i + 1]) == Next(kind, Run(kind, sc, s[..i]), s[i])
  {
    assert s[..i + 1][..i] == s[..i];
  }

  // ---------------------------------------------------------------- what the tokens are

  /** No delimiter from p to q. */
  ghost predicate Clear(kind: Kind, s: string, p: int, q: int)
    requires 0 <= p <= q <= |s|
  {
    forall k :: p <= k < q ==> !Delim(kind, s[k])
  }

  /** From p to q there is a longest stretch without delimiters, ended by one. */
  ghost predicate IsToken(kind: Kind, s: string, p: int, q: int) {
    && 0 <= p < q < |s| && Clear(kind, s, p, q) && Delim(kind, s[q])
    && (p > 0 ==> Delim(kind, s[p - 1]))
  }

  ghost predicate TokenOf(kind: Kind, s: string, t: Token) {
    IsToken(kind, s, t.at, t.at + |t.text|) && t.text == s[t.at..t.at + |t.text|]
  }

  /** The stretch in progress at the end of s. */
  ghost predicate InProgress(kind: Kind, s: string, cur: string) {
    && |cur| <= |s| && cur == s[|s| - |cur|..] && Clear(kind, s, |s| - |cur|, |s|)
    && (|cur| < |s| ==> Delim(kind, s[|s| - |cur| - 1]))
  }

  ghost predicate Ascending(tokens: seq<Token>) {
    forall j, k :: 0 <= j < k < |tokens| ==> tokens[j].at < tokens[k].at
  }

  ghost predicate Complete(kind: Kind, s: string, tokens: seq<Token>) {
    forall t :: t in tokens <==> TokenOf(kind, s, t)
  }

  /** What a scan of s from the start has found. */
  ghost predicate Found(kind: Kind, s: string, sc: Scan) {
    && sc.pos == |s| && InProgress(kind, s, sc.cur)
    && Complete(kind, s, sc.tokens)
    && Ascending(sc.tokens)
  }

  lemma ClearSame(kind: Kind, s: string, s': string, p: int, q: int)
    requires 0 <= p <= q <= |s| <= |s'| && s'[..|s|] == s
    ensures Clear(kind, s', p, q) == Clear(kind, s, p, q) && s'[p..q] == s[p..q]
  {
    assert forall k :: 0 <= k < |s| ==> s'[k] == s'[..|s|][k];
    if Clear(kind, s', p, q) {
      assert forall k :: p <= k < q ==> s[k] == s'[k];
    }
    assert s'[p..q] == s'[..|s|][p..q];
  }

  /** The stretch in progress is the only one that ends at the end of s and starts after a delimiter. */
  lemma OnlyStretch(kind: Kind, s: string, cur: string, p: int)
    requires InProgress(kind, s, cur) && 0 <= p < |s| && Clear(kind, s, p, |s|) && (p > 0 ==> Delim(kind, s[p - 1]))
    ensures p == |s| - |cur|
  {
  }

  /** A token of s is one of s + [ch]. */
  lemma TokenStays(kind: Kind, s: string, ch: char, t: Token)
    requires 0 <= t.at <= t.at + |t.text| < |s|
    ensures TokenOf(kind, s + [ch], t) <==> TokenOf(kind, s, t)
  {
    ClearSame(kind, s, s + [ch], t.at, t.at + |t.text|);
  }

  /** And only the stretch in progress can become a new one. */
  lemma TokenGrows(kind: Kind, s: string, ch: char, cur: string, t: Token)
    requires InProgress(kind, s, cur)
    ensures TokenOf(kind, s + [ch], t) <==> TokenOf(kind, s, t) || (Delim(kind, ch) && cur != [] && t == Token(cur, |s| - |cur|))
  {
    hide Clear;
    var p, q := t.at, t.at + |t.text|;
    if 0 <= p <= q < |s| {
      TokenStays(kind, s, ch, t);
    } else if 0 <= p <= q == |s| {
      ClearSame(kind, s, s + [ch], p, q);
      if Clear(kind, s, p, q) && p < q && (p > 0 ==> Delim(kind, s[p - 1])) {
        OnlyStretch(kind, s, cur, p);
      }
    }
  }

  lemma ProgressNext(kind: Kind, s: string, cur: string, ch: char)
    requires InProgress(kind, s, cur)
    ensures InProgress(kind, s + [ch], if Delim(kind, ch) then [] else cur + [ch])
  {
  }

  lemma CompleteNext(kind: Kind, s: string, tokens: seq<Token>, cur: string, ch: char)
    requires InProgress(kind, s, cur) && Complete(kind, s, tokens)
    ensures Delim(kind, ch) && cur != [] ==> Complete(kind, s + [ch], tokens + [Token(cur, |s| - |cur|)])
    ensures !(Delim(kind, ch) && cur != []) ==> Complete(kind, s + [ch], tokens)
  {
    hide InProgress, TokenOf;
    var x := Token(cur, |s| - |cur|);
    forall t: Token
      ensures TokenOf(kind, s + [ch], t) <==> t in tokens || (Delim(kind, ch) && cur != [] && t == x)
      ensures t in tokens + [x] <==> t in tokens || t == x
    {
      TokenGrows(kind, s, ch, cur, t);
    }
  }

  lemma AscendingNext(kind: Kind, s: string, tokens: seq<Token>, cur: string)
    requires InProgress(kind, s, cur) && Complete(kind, s, tokens) && Ascending(tokens)
    ensures Ascending(tokens + [Token(cur, |s| - |cur|)])
  {
    hide InProgress, TokenOf;
    forall k | 0 <= k < |tokens|
      ensures tokens[k].at < |s| - |cur|
    {
      assert tokens[k] in tokens;
      EarlierToken(kind, s, cur, tokens[k]);
    }
  }

  lemma FoundNext(kind: Kind, s: string, sc: Scan, ch: char)
    requires Found(kind, s, sc)
    ensures Found(kind, s + [ch], Next(kind, sc, ch))
  {
    hide InProgress, Complete, Ascending;
    ProgressNext(kind, s, sc.cur, ch);
    CompleteNext(kind, s, sc.tokens, sc.cur, ch);
    AscendingNext(kind, s, sc.tokens, sc.cur);
  }

  lemma EarlierToken(kind: Kind, s: string, cur: string, t: Token)
    requires InProgress(kind, s, cur) && TokenOf(kind, s, t)
    ensures t.at < |s| - |cur|
  {
  }

  lemma {:induction false} RunFinds(kind: Kind, s: string)
    ensures Found(kind, s, Run(kind, START, s))
    decreases |s|
  {
    hide Found;
    if s == [] {
      FoundNothing(kind);
    } else {
      var n := |s| - 1;
      RunFinds(kind, s[..n]);
      FoundNext(kind, s[..n], Run(kind, START, s[..n]), s[n]);
      assert s[..n] + [s[n]] == s;
    }
  }

  lemma FoundNothing(kind: Kind)
    ensures Found(kind, [], START)
  {
  }

  /** The tokens of a file are exactly its longest delimiter-free stretches, in ascending order. */
  lemma SplitIsExact(kind: Kind, file: string)
    ensures forall t :: t in Split(kind, file) <==> TokenOf(kind, file, t)
    ensures Ascending(Split(kind, file))
  {
    RunFinds(kind, file);
  }

  /** A longest stretch of the file without any of the given characters, ended by one of them. */
  ghost predicate Stretch(delims: string, file: string, t: Token) {
    var p, q := t.at, t.at + |t.text|;
    && 0 <= p < q < |file| && t.text == file[p..q]
    && (forall k :: p <= k < q ==> file[k] !in delims)
    && file[q] in delims && (p > 0 ==> file[p - 1] in delims)
  }

  /** Spelled out: words are ended by a blank, a newline or a full stop, lines by a newline. */
  lemma WordsAndLines(file: string, t: Token)
    ensures t in Split(Words, file) <==> Stretch(" \n.", file, t)
    ensures t in Split(Lines, file) <==> Stretch("\n", file, t)
  {
    hide Split;
    SplitIsExact(Words, file);
    SplitIsExact(Lines, file);
    forall ch: char
      ensures (Delim(Words, ch) <==> ch in " \n.") && (Delim(Lines, ch) <==> ch in "\n")
    {
    }
  }

  /** Every word or line of the file, finished or not, fits below limit. */
  ghost predicate Short(kind: Kind, file: string, limit: nat) {
    forall p: nat, q: nat :: p <= q <= |file| && Clear(kind, file, p, q) ==> q - p < limit
  }

  /** What the programs ask of a file: no NUL, a delimiter at the end, nothing too long. */
  ghost predicate WellFormed(kind: Kind, file: string, limit: nat) {
    && Short(kind, file, limit)
    && (forall k :: 0 <= k < |file| ==> file[k] != '\0')
    && (file != [] ==> Delim(kind, file[|file| - 1]))
  }

  lemma CurShort(kind: Kind, file: string, limit: nat, i: nat)
    requires Short(kind, file, limit) && i <= |file|
    ensures |Run(kind, START, file[..i]).cur| < limit
    ensures Run(kind, START, file[..i]).pos == i
  {
    hide Complete, Ascending, Clear, Run, Next, TokenOf, Short;
    RunFinds(kind, file[..i]);
    var n := |Run(kind, START, file[..i]).cur|;
    assert file[..|file[..i]|] == file[..i];
    ClearSame(kind, file[..i], file, i - n, i);
    ShortAt(kind, file, limit, i - n, i);
  }

  lemma ShortAt(kind: Kind, file: string, limit: nat, p: nat, q: nat)
    requires Short(kind, file, limit) && p <= q <= |file| && Clear(kind, file, p, q)
    ensures q - p < limit
  {
  }

  // ---------------------------------------------------------------- pieces

  /** What a piece must be like after what was scanned before: no word reaches limit characters, no
      NUL, and if a word is pending then a delimiter. */
  ghost predicate Fits(kind: Kind, sc: Scan, s: string, limit: nat) {
    && (forall i :: 0 <= i <= |s| ==> |Run(kind, sc, s[..i]).cur| < limit)
    && (forall k :: 0 <= k < |s| ==> s[k] != '\0')
    && (forall k :: 0 <= k < |sc.cur| ==> sc.cur[k] != '\0')
    && (sc.cur != [] ==> exists k :: 0 <= k < |s| && Delim(kind, s[k]))
  }

  /** The C string that starts at from. */
  method CString(buf: array<char>, from: nat, ghost end: nat) returns (s: string)
    requires from <= end < buf.Length && buf[end] == '\0'
    requires forall k :: from <= k < end ==> buf[k] != '\0'
    ensures s == buf[from..end]
  {
    var i := from;
    while buf[i] != '\0'
      invariant from <= i <= end
      decreases end - i
    {
      i := i + 1;
    }
    s := buf[from..i];
  }

  /** A full-length piece of a well-formed file, or its last piece, is fit to be scanned after what
      precedes it. */
  lemma PieceFits(kind: Kind, file: string, limit: nat, p: nat, n: nat)
    requires WellFormed(kind, file, limit) && p + n <= |file| && n > 0 && (n >= limit || p + n == |file|)
    ensures Fits(kind, Run(kind, START, file[..p]), file[p..p + n], limit)
  {
    hide Run, Complete, Ascending, TokenOf, Short;
    var sc, s := Run(kind, START, file[..p]), file[p..p + n];
    forall i | 0 <= i <= |s|
      ensures |Run(kind, sc, s[..i]).cur| < limit
    {
      assert file[..p] + s[..i] == file[..p + i];
      RunAppend(kind, START, file[..p], s[..i]);
      CurShort(kind, file, limit, p + i);
    }
    RunFinds(kind, file[..p]);
    forall k | 0 <= k < |sc.cur|
      ensures sc.cur[k] != '\0'
    {
      assert sc.cur[k] == file[..p][p - |sc.cur| + k] == file[p - |sc.cur| + k];
    }
    if forall k :: 0 <= k < |s| ==> !Delim(kind, s[k]) {
      assert Clear(kind, file, p, p + n) by {
        assert forall k :: p <= k < p + n ==> file[k] == s[k - p];
      }
      ShortAt(kind, file, limit, p, p + n);
    }
  }

  /** A well-formed file leaves nothing pending. */
  lemma NothingPending(kind: Kind, file: string, limit: nat)
    requires WellFormed(kind, file, limit)
    ensures Run(kind, START, file).cur == []
  {
    if file != [] {
      RunStep(kind, START, file, |file| - 1);
      assert file[..|file| - 1 + 1] == file;
    }
  }

  // ---------------------------------------------------------------- the carry buffer

  lemma CarryStarts(kind: Kind, sc: Scan, s: string)
    ensures Run(kind, sc, s[..0]) == Scan(sc.tokens, sc.cur + s[..0], sc.pos)
  {
    assert sc.cur + s[..0] == sc.cur;
  }

  /** One more character of the pending token, and the buffer has room for it and the terminator. */
  lemma CarryGrows(kind: Kind, sc: Scan, s: string, l: nat, limit: nat)
    requires Fits(kind, sc, s, limit) && l < |s| && !Delim(kind, s[l])
    requires Run(kind, sc, s[..l]) == Scan(sc.tokens, sc.cur + s[..l], sc.pos + l)
    ensures Run(kind, sc, s[..l + 1]) == Scan(sc.tokens, sc.cur + s[..l + 1], sc.pos + l + 1)
    ensures sc.cur + s[..l + 1] == sc.cur + s[..l] + [s[l]] && |sc.cur| + l + 1 < limit
  {
    RunStep(kind, sc, s, l);
    assert s[..l + 1] == s[..l] + [s[l]];
    assert |Run(kind, sc, s[..l + 1]).cur| < limit;
  }

  /** What a whole payload that fits has: no NUL, and a rest that fits the buffer. */
  lemma FitsWhole(kind: Kind, sc: Scan, s: string, limit: nat)
    requires Fits(kind, sc, s, limit)
    ensures (forall k :: 0 <= k < |s| ==> s[k] != '\0') && |Run(kind, sc, s).cur| < limit
    ensures Run(kind, sc, s[..0]) == sc
  {
    assert s[..|s|] == s;
  }

  /** The rest of the pending token is appended to what the buffer holds of it; l is the position of
      the delimiter. */
  method ExtendCarry(kind: Kind, payload: array<char>, last: array<char>, lastLen: nat, ghost sc: Scan, ghost s: string,
                     ghost stop: nat)
    returns (l: nat)
    requires lastLen < last.Length && sc.cur == last[..lastLen] && payload != last
    requires |s| <= payload.Length && forall k :: 0 <= k < |s| ==> payload[k] == s[k]
    requires Fits(kind, sc, s, last.Length) && stop < |s| && Delim(kind, s[stop])
    modifies last
    ensures l <= stop && Delim(kind, s[l]) && lastLen + l < last.Length
    ensures last[..lastLen + l] == sc.cur + s[..l]
    ensures Run(kind, sc, s[..l]) == Scan(sc.tokens, sc.cur + s[..l], sc.pos + l)
  {
    hide Run, Fits, Next;
    assert s[..0] == [];
    CarryStarts(kind, sc, s);
    l := 0;
    while !Delim(kind, payload[l])
      invariant l <= stop && lastLen + l < last.Length && last[..lastLen + l] == sc.cur + s[..l]
      invariant Run(kind, sc, s[..l]) == Scan(sc.tokens, sc.cur + s[..l], sc.pos + l)
      decreases stop - l
    {
      CarryGrows(kind, sc, s, l, last.Length);
      last[lastLen + l] := payload[l];
      l := l + 1;
    }
  }

  /** The pending token is completed and terminated in the buffer, and read as a string. */
  method FinishCarry(kind: Kind, payload: array<char>, last: array<char>, lastLen: nat, ghost sc: Scan, ghost s: string)
    returns (l: nat, text: string)
    requires 0 < lastLen < last.Length && sc.cur == last[..lastLen] && payload != last
    requires |s| <= payload.Length && forall k :: 0 <= k < |s| ==> payload[k] == s[k]
    requires Fits(kind, sc, s, last.Length)
    modifies last
    ensures l < |s| && text == sc.cur + s[..l] && |text| > 0
    ensures Run(kind, sc, s[..l + 1]) == Scan(sc.tokens + [Token(text, sc.pos - |sc.cur|)], [], sc.pos + l + 1)
  {
    ghost var stop :| 0 <= stop < |s| && Delim(kind, s[stop]);
    l := ExtendCarry(kind, payload, last, lastLen, sc, s, stop);
    hide Run;
    ghost var whole := sc.cur + s[..l];
    assert forall k :: 0 <= k < |whole| ==> whole[k] != '\0' && last[k] == whole[k];
    last[lastLen + l] := '\0';
    text := CString(last, 0, lastLen + l);
    assert text == whole;
    RunStep(kind, sc, s, l);
  }

  /** What is left at the end of the payload is kept for the next call. */
  method KeepCarry(payload: array<char>, from: nat, to: nat, last: array<char>) returns (lastLen: nat)
    requires from < to <= payload.Length && to - from < last.Length && payload != last
    modifies last
    ensures lastLen == to - from && last[..lastLen] == payload[from..to]
  {
    var l := from;
    lastLen := 0;
    while l < to
      invariant from <= l <= to && lastLen == l - from && last[..lastLen] == payload[from..l]
    {
      last[lastLen] := payload[l];
      lastLen, l := lastLen + 1, l + 1;
    }
    last[lastLen] := '\0';
  }
}
