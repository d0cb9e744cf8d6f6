/** Topic ids generated from display names (topic/subjects.go). */
module Slugs {
  import opened Prelude
  import opened Names

  const IdSuffixLen: nat := 4
  const IdAlphabet: string := "abcdefghijklmnopqrstuvwxyz0123456789"

  /** Lower-casing, rune by rune: what matters is that slug characters are already lower case. */
  ghost predicate Lowers(lower: char -> char) {
    forall c :: IsWordChar(c) || c == '-' ==> lower(c) == c
  }

  function Lowered(lower: char -> char, s: string): (t: string)
    ensures |t| == |s| && forall i :: 0 <= i < |s| ==> t[i] == lower(s[i])
  {
    seq(|s|, i requires 0 <= i < |s| => lower(s[i]))
  }

  /** One more character on what has been built so far. */
  function Put(b: string, c: char): string {
    if IsWordChar(c) then b + [c]
    else if |b| > 0 && b[|b| - 1] != '-' then b + "-"
    else b
  }

  function Build(s: string): string {
    if |s| == 0 then "" else Put(Build(s[..|s| - 1]), s[|s| - 1])
  }

  /** strings.Trim(s, "-") */
  function Trim(s: string): string {
    if |s| == 0 then ""
    else if s[0] == '-' then Trim(s[1..])
    else if s[|s| - 1] == '-' then Trim(s[..|s| - 1])
    else s
  }

  function Slug(lower: char -> char, s: string): string {
    Trim(Build(Lowered(lower, s)))
  }

  // ----- what is built

  /** No leading hyphen, no doubled one, and slug characters only. */
  ghost predicate Started(b: string) {
    && (|b| > 0 ==> b[0] != '-') && !HasDoubled(b) && forall i :: 0 <= i < |b| ==> IsWordChar(b[i]) || b[i] == '-'
  }

  lemma PutStarted(b: string, c: char)
    requires Started(b)
    ensures Started(Put(b, c))
  {
    var n := Put(b, c);
    forall i | 0 <= i < |n| - 1 ensures !(n[i] == '-' && n[i + 1] == '-') {
      if i + 1 < |b| { assert n[i] == b[i] && n[i + 1] == b[i + 1]; }
    }
  }

  lemma {:induction false} BuildStarted(s: string)
    ensures Started(Build(s))
  {
    if |s| > 0 {
      BuildStarted(s[..|s| - 1]);
      PutStarted(Build(s[..|s| - 1]), s[|s| - 1]);
    }
  }

  /** Trimming what was started leaves nothing, or something well shaped. */
  lemma {:induction false} TrimShaped(b: string)
    requires Started(b)
    ensures Trim(b) == "" || WellShaped(Trim(b))
    ensures Trim(b) == if |b| > 0 && b[|b| - 1] == '-' then b[..|b| - 1] else b
  {
    if |b| > 0 {
      if b[|b| - 1] == '-' {
        var c := b[..|b| - 1];
        assert |c| > 0 ==> c[|c| - 1] == b[|b| - 2];
        assert Started(c) by {
          forall i | 0 <= i < |c| - 1
            ensures !(c[i] == '-' && c[i + 1] == '-') { assert b[i] == c[i] && b[i + 1] == c[i + 1]; }
        }
        TrimShaped(c);
      } else {
        forall c | c in b ensures IsWordChar(c) || c == '-' { var i :| 0 <= i < |b| && b[i] == c; }
      }
    }
  }

  /** A slug is empty or a well-shaped name. */
  lemma SlugShaped(lower: char -> char, s: string)
    ensures Slug(lower, s) == "" || WellShaped(Slug(lower, s))
  {
    BuildStarted(Lowered(lower, s));
    TrimShaped(Build(Lowered(lower, s)));
  }

  // ----- idempotence

  lemma {:induction false} BuildFixes(s: string)
    requires Started(s)
    ensures Build(s) == s
  {
    if |s| > 0 {
      var n := |s| - 1;
      var t := s[..n];
      assert Started(t) by {
        forall i | 0 <= i < |t| - 1
          ensures !(t[i] == '-' && t[i + 1] == '-') { assert s[i] == t[i] && s[i + 1] == t[i + 1]; }
      }
      BuildFixes(t);
      if s[n] == '-' {
        assert n > 0;
        assert t[|t| - 1] == s[n - 1];
      }
      assert s == t + [s[n]];
    }
  }

  /** Slugging a slug changes nothing. */
  lemma SlugIdempotent(lower: char -> char, s: string)
    requires Lowers(lower)
    ensures Slug(lower, Slug(lower, s)) == Slug(lower, s)
  {
    var t := Slug(lower, s);
    SlugShaped(lower, s);
    if t != "" {
      forall i | 0 <= i < |t| ensures IsWordChar(t[i]) || t[i] == '-' { assert t[i] in t; }
      assert Lowered(lower, t) == t;
      assert Started(t);
      BuildFixes(t);
      TrimShaped(t);
    }
  }

  // ----- nothing said is lost

  function Letters(s: string): string {
    if |s| == 0 then "" else Letters(s[..|s| - 1]) + if IsWordChar(s[|s| - 1]) then [s[|s| - 1]] else ""
  }

  lemma LettersAppend(s: string, c: char)
    ensures Letters(s + [c]) == Letters(s) + if IsWordChar(c) then [c] else ""
  {
    assert (s + [c])[..|s|] == s;
  }

  lemma {:induction false} BuildLetters(s: string)
    ensures Letters(Build(s)) == Letters(s)
  {
    if |s| > 0 {
      var n := |s| - 1;
      BuildLetters(s[..n]);
      LettersAppend(Build(s[..n]), s[n]);
      LettersAppend(Build(s[..n]), '-');
    }
  }

  /** A slug keeps every letter and digit of the lowered name, in order, and nothing else but hyphens. */
  lemma SlugKeepsLetters(lower: char -> char, s: string)
    ensures Letters(Slug(lower, s)) == Letters(Lowered(lower, s))
  {
    var b := Build(Lowered(lower, s));
    BuildLetters(Lowered(lower, s));
    BuildStarted(Lowered(lower, s));
    TrimShaped(b);
    if |b| > 0 && b[|b| - 1] == '-' { assert b == b[..|b| - 1] + ['-']; LettersAppend(b[..|b| - 1], '-'); }
  }

  // ----- exactly which slug

  /** The maximal runs of slug letters and digits. */
  function Words(s: string): (ws: seq<string>)
    ensures |s| > 0 && IsWordChar(s[|s| - 1]) ==> |ws| > 0
  {
    if |s| == 0 then []
    else
      var n := |s| - 1;
      var ws := Words(s[..n]);
      if !IsWordChar(s[n]) then ws
      else if n > 0 && IsWordChar(s[n - 1]) then ws[..|ws| - 1] + [ws[|ws| - 1] + [s[n]]]
      else ws + [[s[n]]]
  }

  lemma {:induction false} JoinMore(ws: seq<string>, w: string)
    requires |ws| > 0
    ensures Join(ws + [w]) == Join(ws) + "-" + w
  {
    if |ws| == 1 {
      assert (ws + [w])[1..] == [w];
    } else {
      JoinMore(ws[1..], w);
      assert (ws + [w])[1..] == ws[1..] + [w];
    }
  }

  lemma {:induction false} JoinLonger(ws: seq<string>, w: string, c: char)
    ensures Join(ws + [w + [c]]) == Join(ws + [w]) + [c]
  {
    if |ws| > 0 {
      JoinMore(ws, w);
      JoinMore(ws, w + [c]);
    }
  }

  /** What is built are the words so far, joined by hyphens, and a hyphen more if something else follows the last. */
  lemma {:induction false} BuildWords(s: string)
    ensures var open := |s| > 0 && !IsWordChar(s[|s| - 1]) && Words(s) != [];
      Build(s) == Join(Words(s)) + if open then "-" else ""
    ensures forall i :: 0 <= i < |Words(s)| ==> IsWord(Words(s)[i])
  {
    if |s| > 0 {
      var n, t := |s| - 1, s[..|s| - 1];
      var c, ws := s[n], Words(t);
      BuildWords(t);
      assert n > 0 ==> t[n - 1] == s[n - 1];
      assert Build(s) == Put(Build(t), c);
      assert Words(s) == MoreWords(ws, n > 0 && IsWordChar(s[n - 1]), c);
      assert n == 0 ==> ws == [];
      hide Words, Build;
      PutWords(ws, n > 0 && IsWordChar(s[n - 1]), c);
    }
  }

  /** One more character: it goes on the last word, begins a new one, or ends it. */
  function MoreWords(ws: seq<string>, within: bool, c: char): seq<string>
    requires within ==> |ws| > 0
  {
    if !IsWordChar(c) then ws
    else if within then ws[..|ws| - 1] + [ws[|ws| - 1] + [c]]
    else ws + [[c]]
  }

  lemma PutWords(ws: seq<string>, within: bool, c: char)
    requires (within ==> |ws| > 0) && forall i :: 0 <= i < |ws| ==> IsWord(ws[i])
    ensures var b := Join(ws) + if !within && ws != [] then "-" else "";
      var more := MoreWords(ws, within, c);
      && Put(b, c) == Join(more) + (if !IsWordChar(c) && more != [] then "-" else "")
      && forall i :: 0 <= i < |more| ==> IsWord(more[i])
  {
    if ws != [] { JoinShaped(ws); }
    if IsWordChar(c) {
      if within {
        assert ws == ws[..|ws| - 1] + [ws[|ws| - 1]] && IsWord(ws[|ws| - 1]);
        JoinLonger(ws[..|ws| - 1], ws[|ws| - 1], c);
      } else if ws != [] {
        JoinMore(ws, [c]);
      }
    }
    hide Join;
  }

  /** A slug is the words of the lowered name, joined by single hyphens. */
  lemma SlugIsWords(lower: char -> char, s: string, t: string)
    requires |t| == |s| && forall i :: 0 <= i < |s| ==> t[i] == lower(s[i])
    ensures Slug(lower, s) == Join(Words(t))
  {
    assert t == Lowered(lower, s);
    BuildWords(t);
    BuildStarted(t);
    TrimShaped(Build(t));
    if Words(t) != [] { JoinShaped(Words(t)); }
  }

  method Slugify(lower: char -> char, name: string) returns (slug: string)
    ensures slug == Slug(lower, name)
    ensures slug == "" || WellShaped(slug)
  {
    var s := Lowered(lower, name);
    var b := "";
    var prevHyphen := false;
    for i := 0 to |s|
      invariant b == Build(s[..i])
      invariant prevHyphen <==> |b| > 0 && b[|b| - 1] == '-'
    {
      assert s[..i + 1][..i] == s[..i];
      if IsWordChar(s[i]) {
        b := b + [s[i]];
        prevHyphen := false;
      } else if |b| > 0 && !prevHyphen {
        b := b + "-";
        prevHyphen := true;
      }
    }
    assert s[..|s|] == s;
    SlugShaped(lower, name);
    return Trim(b);
  }

  /** randomSuffix: four draws from the alphabet, or a fixed marker when there is no randomness. */
  method RandomSuffix(bytes: Option<seq<bv8>>) returns (suffix: string)
    requires bytes.Some? ==> |bytes.value| == IdSuffixLen
    ensures |suffix| == IdSuffixLen && forall i :: 0 <= i < |suffix| ==> IsWordChar(suffix[i])
    ensures bytes.None? ==> suffix == "0000"
    ensures bytes.Some? ==> forall i :: 0 <= i < |suffix| ==> suffix[i] == IdAlphabet[bytes.value[i] as nat % 36]
  {
    if bytes.None? {
      return "0000";
    }
    suffix := "";
    for i := 0 to IdSuffixLen
      invariant |suffix| == i && forall j :: 0 <= j < i ==> IsWordChar(suffix[j])
      invariant forall j :: 0 <= j < i ==> suffix[j] == IdAlphabet[bytes.value[j] as nat % 36]
    {
      var at := bytes.value[i] as nat % |IdAlphabet|;
      AlphabetIsWord(at);
      suffix := suffix + [IdAlphabet[at]];
    }
  }

  lemma AlphabetIsWord(at: nat)
    requires at < |IdAlphabet|
    ensures IsWordChar(IdAlphabet[at])
  {
  }

  lemma TakeStarted(s: string, n: nat)
    requires WellShaped(s) && n <= |s|
    ensures Started(s[..n])
  {
    var t := s[..n];
    forall i | 0 <= i < |t| ensures IsWordChar(t[i]) || t[i] == '-' { assert t[i] == s[i] && s[i] in s; }
    forall i | 0 <= i < |t| - 1
      ensures !(t[i] == '-' && t[i + 1] == '-') { assert s[i] == t[i] && s[i + 1] == t[i + 1]; }
  }

  /** Appending a suffix to a well-shaped slug is well shaped. */
  lemma SuffixShaped(slug: string, suffix: string)
    requires WellShaped(slug) && |suffix| > 0 && forall i :: 0 <= i < |suffix| ==> IsWordChar(suffix[i])
    ensures WellShaped(slug + "-" + suffix)
  {
    var s := slug + "-" + suffix;
    assert s[|s| - 1] == suffix[|suffix| - 1];
    forall i | 0 <= i < |s| - 1 ensures !(s[i] == '-' && s[i + 1] == '-') {
      if i < |slug| - 1 { assert s[i] == slug[i] && s[i + 1] == slug[i + 1]; }
      else if i >= |slug| { assert s[i + 1] == suffix[i - |slug|]; }
    }
    forall c | c in s ensures IsWordChar(c) || c == '-' {
      var i :| 0 <= i < |s| && s[i] == c;
      if i < |slug| { assert slug[i] in slug; } else if i > |slug| { assert s[i] == suffix[i - |slug| - 1]; }
    }
  }

  /** A slug too long to take the suffix, cut to the 59 characters that do, and not left ending in a hyphen. */
  function Cut(slug: string): string
    requires |slug| > MaxNameLen - IdSuffixLen - 1
  {
    if slug[58] == '-' then slug[..58] else slug[..59]
  }

  /** Four draws from the alphabet, one a byte; zeros without randomness. */
  ghost predicate SuffixOf(random: Option<seq<bv8>>, suffix: string) {
    match random
    case None => suffix == "0000"
    case Some(bytes) =>
      |suffix| == |bytes| && forall i :: 0 <= i < |suffix| ==> suffix[i] == IdAlphabet[bytes[i] as nat % 36]
  }

  /** Whatever the display name, the generated id is a valid name that starts with the name's slug, cut to fit. */
  method NewTopicID(lower: char -> char, name: string, random: Option<seq<bv8>>) returns (id: string)
    requires random.Some? ==> |random.value| == IdSuffixLen
    ensures CheckName(id).None? && |id| <= MaxNameLen
    ensures var slug := Slug(lower, name); slug != "" && |slug| <= MaxNameLen - IdSuffixLen - 1 ==>
      |id| == |slug| + 1 + IdSuffixLen && slug + "-" <= id
    ensures Slug(lower, name) == "" ==> "topic-" <= id && |id| == 6 + IdSuffixLen
    ensures var slug := Slug(lower, name);
      |slug| > MaxNameLen - IdSuffixLen - 1 ==> Cut(slug) + "-" <= id && |id| == |Cut(slug)| + 1 + IdSuffixLen
    ensures |id| >= IdSuffixLen && SuffixOf(random, id[|id| - IdSuffixLen..])
  {
    var slug := Slugify(lower, name);
    if slug == "" {
      slug := "topic";
      TopicShaped();
    }
    var maxSlug := MaxNameLen - IdSuffixLen - 1;
    if |slug| > maxSlug {
      TakeStarted(slug, maxSlug);
      TrimShaped(slug[..maxSlug]);
      slug := Trim(slug[..maxSlug]);
      if slug == "" {
        slug := "topic";
        TopicShaped();
      }
    }
    var suffix := RandomSuffix(random);
    SuffixShaped(slug, suffix);
    id := slug + "-" + suffix;
    CheckNameIsShape(id);
  }

  lemma TopicShaped()
    ensures WellShaped("topic")
  {
    var s := "topic";
    assert s[4] == 'c';
    forall c | c in s ensures IsWordChar(c) { }
  }
}
