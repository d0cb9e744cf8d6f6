/** The slug grammar of persona names, realm names and topic ids (identity/name.go). */
module Names {
  import opened Prelude

  const MaxNameLen: nat := 64

  datatype Reason =
    | Empty | TooLong | LeadingHyphen | TrailingHyphen | DoubledHyphen
    | Uppercase | Dot | Whitespace | Wildcard | Disallowed(c: char)

  predicate IsWordChar(c: char) {
    'a' <= c <= 'z' || '0' <= c <= '9'
  }

  predicate HasDoubled(s: string) {
    exists i :: 0 <= i < |s| - 1 && s[i] == '-' && s[i + 1] == '-'
  }

  function CharReason(c: char): (why: Reason)
    requires !IsWordChar(c) && c != '-'
    ensures why == Uppercase <==> 'A' <= c <= 'Z'
    ensures why == Dot <==> c == '.'
    ensures why == Whitespace <==> c in " \t\n\r"
    ensures why == Wildcard <==> c in "*>"
    ensures c !in ". \t\n\r*>" && !('A' <= c <= 'Z') ==> why == Disallowed(c)
  {
    if 'A' <= c <= 'Z' then Uppercase
    else if c == '.' then Dot
    else if c == ' ' || c == '\t' || c == '\n' || c == '\r' then Whitespace
    else if c == '*' || c == '>' then Wildcard
    else Disallowed(c)
  }

  function ScanChars(s: string): Option<Reason> {
    if |s| == 0 then None
    else if IsWordChar(s[0]) || s[0] == '-' then ScanChars(s[1..])
    else Some(CharReason(s[0]))
  }

  function CheckName(s: string): Option<Reason> {
    if s == "" then Some(Empty)
    else if |s| > MaxNameLen then Some(TooLong)
    else if s[0] == '-' then Some(LeadingHyphen)
    else if s[|s| - 1] == '-' then Some(TrailingHyphen)
    else if HasDoubled(s) then Some(DoubledHyphen)
    else ScanChars(s)
  }

  // ----- the grammar: words of lower-case letters and digits, joined by single hyphens

  ghost predicate IsWord(w: string) {
    |w| > 0 && forall c :: c in w ==> IsWordChar(c)
  }

  function Join(words: seq<string>): string {
    if |words| == 0 then ""
    else if |words| == 1 then words[0]
    else words[0] + "-" + Join(words[1..])
  }

  ghost predicate InGrammar(s: string) {
    exists words: seq<string> :: Spells(words, s)
  }

  ghost predicate Spells(words: seq<string>, s: string) {
    |words| > 0 && (forall i :: 0 <= i < |words| ==> IsWord(words[i])) && Join(words) == s
  }

  /** The same language told by its characters. */
  ghost predicate WellShaped(s: string) {
    && |s| > 0 && s[0] != '-' && s[|s| - 1] != '-' && !HasDoubled(s)
    && forall c :: c in s ==> IsWordChar(c) || c == '-'
  }

  lemma {:induction false} ScanFindsNothing(s: string)
    ensures ScanChars(s).None? <==> forall c :: c in s ==> IsWordChar(c) || c == '-'
  {
    if |s| > 0 {
      assert s == [s[0]] + s[1..];
      ScanFindsNothing(s[1..]);
    }
  }

  lemma {:induction false} JoinShaped(words: seq<string>)
    requires |words| > 0 && forall i :: 0 <= i < |words| ==> IsWord(words[i])
    ensures WellShaped(Join(words))
  {
    var w := words[0];
    assert IsWord(w) && w[0] in w && w[|w| - 1] in w;
    if |words| == 1 {
      forall i | 0 <= i < |w| - 1 ensures w[i] != '-' { assert w[i] in w; }
    } else {
      var rest := Join(words[1..]);
      JoinShaped(words[1..]);
      var s := w + "-" + rest;
      assert s[0] == w[0] && s[|s| - 1] == rest[|rest| - 1];
      forall i | 0 <= i < |s| - 1 ensures !(s[i] == '-' && s[i + 1] == '-') {
        if i < |w| { assert w[i] in w; }
        else if i == |w| { assert s[i + 1] == rest[0]; }
        else { assert s[i] == rest[i - |w| - 1] && s[i + 1] == rest[i - |w|]; }
      }
    }
  }

  /** Cuts off the first word. */
  lemma {:induction false} FirstWord(s: string) returns (n: nat)
    requires WellShaped(s)
    ensures 0 < n <= |s| && IsWord(s[..n])
    ensures n < |s| ==> s[n] == '-' && n + 1 < |s| && WellShaped(s[n + 1..])
  {
    n := 0;
    while n < |s| && s[n] != '-'
      invariant 0 <= n <= |s| && forall i :: 0 <= i < n ==> s[i] != '-'
    {
      n := n + 1;
    }
    forall c | c in s[..n] ensures IsWordChar(c) {
      var i :| 0 <= i < n && s[i] == c;
      assert s[i] in s;
    }
    if n < |s| {
      var t := s[n + 1..];
      assert n + 1 < |s|;
      assert t[0] == s[n + 1] && t[|t| - 1] == s[|s| - 1];
      forall i | 0 <= i < |t| - 1 ensures !(t[i] == '-' && t[i + 1] == '-') {
        assert t[i] == s[n + 1 + i] && t[i + 1] == s[n + 2 + i];
      }
    }
  }

  lemma {:induction false} ShapedSpells(s: string)
    requires WellShaped(s)
    ensures InGrammar(s)
    decreases |s|
  {
    var n := FirstWord(s);
    if n == |s| {
      assert s[..n] == s;
      assert Spells([s], s);
    } else {
      ShapedSpells(s[n + 1..]);
      var words: seq<string> :| Spells(words, s[n + 1..]);
      var all := [s[..n]] + words;
      assert all[1..] == words && s == s[..n] + "-" + s[n + 1..];
      forall i | 0 <= i < |all| ensures IsWord(all[i]) {
        if i > 0 { assert all[i] == words[i - 1]; }
      }
      assert Spells(all, s);
    }
  }

  /** The scan accepts exactly the grammar's strings of at most 64 characters. */
  lemma CheckNameIsGrammar(s: string)
    ensures CheckName(s).None? <==> InGrammar(s) && |s| <= MaxNameLen
  {
    ScanFindsNothing(s);
    if InGrammar(s) {
      var words: seq<string> :| Spells(words, s);
      JoinShaped(words);
    }
    if WellShaped(s) { ShapedSpells(s); }
  }

  lemma {:induction false} FirstBadChar(s: string)
    ensures ScanChars(s).Some? ==> exists i: nat :: BadAt(s, i) && ScanChars(s) == Some(CharReason(s[i]))
  {
    if |s| > 0 {
      if IsWordChar(s[0]) || s[0] == '-' {
        FirstBadChar(s[1..]);
        if ScanChars(s).Some? {
          var i: nat :| BadAt(s[1..], i) && ScanChars(s[1..]) == Some(CharReason(s[1..][i]));
          assert s[i + 1] == s[1..][i];
          forall j | 0 <= j < i + 1 ensures IsWordChar(s[j]) || s[j] == '-' {
            if j > 0 { assert s[j] == s[1..][j - 1]; }
          }
          assert BadAt(s, i + 1);
        }
      } else {
        assert BadAt(s, 0);
      }
    }
  }

  predicate BadAt(s: string, i: nat) {
    i < |s| && !IsWordChar(s[i]) && s[i] != '-' && forall j :: 0 <= j < i ==> IsWordChar(s[j]) || s[j] == '-'
  }

  /** Which reason is given: the first that applies to the whole name, else that of the first character which is
      neither a letter, a digit nor a hyphen. */
  lemma ReasonExactly(s: string)
    ensures CheckName(s) == Some(Empty) <==> s == ""
    ensures CheckName(s) == Some(TooLong) <==> |s| > MaxNameLen
    ensures 0 < |s| <= MaxNameLen ==>
      && (CheckName(s) == Some(LeadingHyphen) <==> s[0] == '-')
      && (CheckName(s) == Some(TrailingHyphen) <==> s[0] != '-' && s[|s| - 1] == '-')
      && (CheckName(s) == Some(DoubledHyphen) <==> s[0] != '-' && s[|s| - 1] != '-' && HasDoubled(s))
      && (s[0] != '-' && s[|s| - 1] != '-' && !HasDoubled(s) && CheckName(s).Some? ==>
            exists i: nat :: BadAt(s, i) && CheckName(s) == Some(CharReason(s[i])))
  {
    FirstBadChar(s);
    if ScanChars(s).Some? {
      var i: nat :| BadAt(s, i) && ScanChars(s) == Some(CharReason(s[i]));
    }
  }

  lemma CheckNameIsShape(s: string)
    ensures CheckName(s).None? <==> WellShaped(s) && |s| <= MaxNameLen
  {
    ScanFindsNothing(s);
  }
}
