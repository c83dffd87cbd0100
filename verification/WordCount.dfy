/** The splitter of wordcount_ssd.cc: it works through a payload in place, keeps an unfinished word
    in a static buffer between calls, and counts words in a map. */
module WordCount {
  import opened Tokens

  const LAST_SIZE: nat := 64

  function Count(mp: map<string, nat>, word: string): map<string, nat> {
    mp[word := (if word in mp then mp[word] else 0) + 1]
  }

  /** The number of times each word occurs among the tokens. */
  function Tally(tokens: seq<Token>): map<string, nat> {
    if tokens == [] then map[] else Count(Tally(tokens[..|tokens| - 1]), tokens[|tokens| - 1].text)
  }

  /** How many tokens read word. */
  function Occurrences(tokens: seq<Token>, word: string): nat {
    if tokens == [] then 0
    else Occurrences(tokens[..|tokens| - 1], word) + (if tokens[|tokens| - 1].text == word then 1 else 0)
  }

  lemma {:induction false} TallyCounts(tokens: seq<Token>, word: string)
    ensures word in Tally(tokens) <==> Occurrences(tokens, word) > 0
    ensures word in Tally(tokens) ==> Tally(tokens)[word] == Occurrences(tokens, word)
    decreases |tokens|
  {
    if tokens == [] {
    } else {
      TallyCounts(tokens[..|tokens| - 1], word);
    }
  }

  /** What one more character does to the tally. */
  lemma ScanStep(sc: Scan, s: string, from: nat, r: nat)
    requires from <= r < |s| && Run(Words, sc, s[..r]).cur == s[from..r]
    ensures var m, n := Run(Words, sc, s[..r]), Run(Words, sc, s[..r + 1]);
            if Delim(Words, s[r]) then
              n.cur == [] && Tally(n.tokens) == if from < r then Count(Tally(m.tokens), s[from..r]) else Tally(m.tokens)
            else
              n.cur == s[from..r + 1] && n.tokens == m.tokens
  {
    hide Run, Tally, Count;
    RunStep(Words, sc, s, r);
    var m := Run(Words, sc, s[..r]);
    TallyMore(m.tokens, Token(m.cur, m.pos - |m.cur|));
    assert s[from..r + 1] == s[from..r] + [s[r]];
  }

  class WordCounter {
    const last: array<char>
    var lastLen: nat
    var mp: map<string, nat>
    // everything scanned so far
    ghost var scan: Scan

    ghost predicate Valid()
      reads this, last
    {
      last.Length == LAST_SIZE && lastLen < LAST_SIZE && scan.cur == last[..lastLen] && mp == Tally(scan.tokens)
    }

    constructor ()
      ensures Valid() && scan == START && fresh(last)
    {
      last := new char[LAST_SIZE](_ => '\0');
      lastLen := 0;
      mp := map[];
      scan := START;
    }

    method PutWord(word: string)
      modifies this`mp
      ensures mp == Count(old(mp), word)
    {
      if word in mp {
        mp := mp[word := mp[word] + 1];
      } else {
        mp := mp[word := 1];
      }
    }

    /** The pending word is completed from the start of the payload and counted. */
    method FinishPending(payload: array<char>, payloadLen: nat) returns (l: nat)
      requires Valid() && payloadLen <= payload.Length && payload != last && lastLen > 0
      requires Fits(Words, scan, payload[..payloadLen], LAST_SIZE)
      modifies this`lastLen, this`mp, this`scan, last
      ensures l <= payloadLen && Valid() && lastLen == 0
      ensures scan == Run(Words, old(scan), payload[..payloadLen][..l])
    {
      hide Tally, Count, Run, Fits;
      ghost var s, sc := payload[..payloadLen], scan;
      var word;
      l, word := FinishCarry(Words, payload, last, lastLen, sc, s);
      PutWord(word);
      TallyMore(sc.tokens, Token(word, sc.pos - |sc.cur|));
      lastLen := 0;
      l := l + 1;
      scan := Run(Words, sc, s[..l]);
    }

    /** The word from l to the delimiter at r is cut off in place and counted. */
    method CutWord(payload: array<char>, l: nat, r: nat, ghost text: string)
      requires l <= r < payload.Length && |text| == r - l
      requires forall k :: l <= k < r ==> payload[k] == text[k - l] != '\0'
      modifies this`mp, payload
      ensures mp == Count(old(mp), text)
      ensures forall k :: 0 <= k < payload.Length && k != r ==> payload[k] == old(payload[k])
    {
      payload[r] := '\0';
      var word := CString(payload, l, r);
      assert word == text;
      PutWord(word);
    }

    /** The loop of process from position l on; from is where the word in progress starts then. */
    method ScanRest(payload: array<char>, payloadLen: nat, l: nat, ghost s: string, ghost sc: Scan) returns (from: nat)
      requires l <= payloadLen == |s| <= payload.Length && forall k :: l <= k < payloadLen ==> payload[k] == s[k]
      requires scan == Run(Words, sc, s[..l]) && scan.cur == [] && mp == Tally(scan.tokens)
      requires forall k :: 0 <= k < |s| ==> s[k] != '\0'
      modifies this`mp, this`scan, payload
      ensures from <= payloadLen && scan == Run(Words, sc, s) && scan.cur == s[from..] && mp == Tally(scan.tokens)
      ensures forall k :: from <= k < payload.Length ==> payload[k] == old(payload[k])
    {
      hide Run, Tally, Count;
      from := l;
      var r := l;
      while r < payloadLen
        invariant l <= from <= r <= payloadLen
        invariant forall k :: from <= k < payload.Length ==> payload[k] == old(payload[k])
        invariant scan == Run(Words, sc, s[..r]) && scan.cur == s[from..r] && mp == Tally(scan.tokens)
      {
        ScanStep(sc, s, from, r);
        if Delim(Words, payload[r]) {
          if from < r {
            CutWord(payload, from, r, s[from..r]);
          }
          from := r + 1;
        }
        r := r + 1;
        scan := Run(Words, sc, s[..r]);
      }
      assert s[..r] == s;
    }

    /** process: scans one payload, wherever in a word it begins or ends. */
    method Process(payload: array<char>, payloadLen: nat)
      requires Valid() && payloadLen <= payload.Length && payload != last
      requires Fits(Words, scan, payload[..payloadLen], LAST_SIZE)
      modifies this`lastLen, this`mp, this`scan, last, payload
      ensures Valid() && scan == Run(Words, old(scan), old(payload[..payloadLen]))
    {
      hide Tally, Run, Fits;
      ghost var s, sc := payload[..payloadLen], scan;
      FitsWhole(Words, sc, s, LAST_SIZE);
      var l := 0;
      if lastLen > 0 {
        l := FinishPending(payload, payloadLen);
      }
      l := ScanRest(payload, payloadLen, l, s, sc);
      if l != payloadLen {
        lastLen := KeepCarry(payload, l, payloadLen, last);
        assert payload[l..payloadLen] == s[l..];
      }
    }
  }

  lemma TallyMore(tokens: seq<Token>, t: Token)
    ensures Tally(tokens + [t]) == Count(Tally(tokens), t.text)
  {
    assert (tokens + [t])[..|tokens|] == tokens;
  }
}
