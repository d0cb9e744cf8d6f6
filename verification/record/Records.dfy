/** The wire form of one operation: a header map and a payload (record/record.go). */
module Records {
  import opened Prelude
  import opened Names

  type Time = int // the zero time is 0

  type Headers = map<string, seq<string>>

  datatype WireRecord = WireRecord(
    id: string, author: string, acting: string, parents: seq<string>, kind: string, ts: Time,
    signature: string, payload: string, extras: map<string, string>)

  const Version: int := 2
  const LegacyVersion: int := 1

  function HeaderMsgID(): string { "Nats-Msg-Id" }
  function HeaderPrefix(): string { "Soulstream-" }
  function HeaderVersion(): string { "Soulstream-Version" }
  function HeaderAuthor(): string { "Soulstream-Author" }
  function HeaderParents(): string { "Soulstream-Parents" }
  function HeaderType(): string { "Soulstream-Type" }
  function HeaderTs(): string { "Soulstream-Ts" }
  function HeaderSig(): string { "Soulstream-Sig" }
  function HeaderActing(): string { "Soulstream-Acting" }

  datatype FieldError =
      Missing(field: string) | BadId(field: string) | BadVersion | BadName(field: string, why: Reason) | BadTimestamp

  datatype Result<T> = Ok(value: T) | Err(error: FieldError)

  /** What uuid.Parse and time.Parse accept, and how times are written. */
  datatype Text = Text(isId: string -> bool, format: Time -> string, parse: string -> Option<Time>)

  /** Times survive being written: section 5.6 of RFC 3339. */
  ghost predicate Faithful(x: Text) {
    forall t :: t != 0 ==> x.format(t) != "" && x.parse(x.format(t)) == Some(t)
  }

  predicate KnownHeader(k: string) {
    k == HeaderVersion() || k == HeaderAuthor() || k == HeaderParents() || k == HeaderType() || k == HeaderTs()
      || k == HeaderSig() || k == HeaderActing()
  }

  predicate IsExtra(k: string) {
    HeaderPrefix() <= k && !KnownHeader(k)
  }

  function BadParent(x: Text, parents: seq<string>): bool {
    exists i :: 0 <= i < |parents| && !x.isId(parents[i])
  }

  function Validate(x: Text, r: WireRecord): Option<FieldError> {
    if r.id == "" then Some(Missing(HeaderMsgID()))
    else if !x.isId(r.id) then Some(BadId(HeaderMsgID()))
    else if r.author == "" then Some(Missing(HeaderAuthor()))
    else if CheckName(r.author).Some? then Some(BadName(HeaderAuthor(), CheckName(r.author).value))
    else if r.acting == "" then Some(Missing(HeaderActing()))
    else if CheckName(r.acting).Some? then Some(BadName(HeaderActing(), CheckName(r.acting).value))
    else if r.kind == "" then Some(Missing(HeaderType()))
    else if r.ts == 0 then Some(Missing(HeaderTs()))
    else if BadParent(x, r.parents) then Some(BadId(HeaderParents()))
    else None
  }

  /** The checks in the order the fields are looked at, the parents one by one. */
  method Check(x: Text, r: WireRecord) returns (bad: Option<FieldError>)
    ensures bad == Validate(x, r)
  {
    hide CheckName;
    if r.id == "" { return Some(Missing(HeaderMsgID())); }
    if !x.isId(r.id) { return Some(BadId(HeaderMsgID())); }
    if r.author == "" { return Some(Missing(HeaderAuthor())); }
    var author := CheckName(r.author);
    if author.Some? { return Some(BadName(HeaderAuthor(), author.value)); }
    if r.acting == "" { return Some(Missing(HeaderActing())); }
    var acting := CheckName(r.acting);
    if acting.Some? { return Some(BadName(HeaderActing(), acting.value)); }
    if r.kind == "" { return Some(Missing(HeaderType())); }
    if r.ts == 0 { return Some(Missing(HeaderTs())); }
    for i := 0 to |r.parents|
      invariant forall j :: 0 <= j < i ==> x.isId(r.parents[j])
    {
      if !x.isId(r.parents[i]) { return Some(BadId(HeaderParents())); }
    }
    return None;
  }

  /** A record is accepted exactly when its id and parents are ids, both names are in the slug grammar, and it has a
      type and a time. */
  lemma ValidExactly(x: Text, r: WireRecord)
    requires !x.isId("")
    ensures Validate(x, r).None? <==>
      && x.isId(r.id) && InGrammar(r.author) && |r.author| <= MaxNameLen
      && InGrammar(r.acting) && |r.acting| <= MaxNameLen
      && r.kind != "" && r.ts != 0 && forall i :: 0 <= i < |r.parents| ==> x.isId(r.parents[i])
  {
    CheckNameIsGrammar(r.author);
    CheckNameIsGrammar(r.acting);
    assert CheckName("").Some?;
    hide CheckName, InGrammar;
  }

  // ----- commas

  /** strings.Join(parts, ",") */
  function Join(parts: seq<string>): string {
    if |parts| == 0 then ""
    else if |parts| == 1 then parts[0]
    else parts[0] + "," + Join(parts[1..])
  }

  /** strings.Split(s, ",") */
  function Split(s: string): (parts: seq<string>)
    ensures |parts| > 0 && forall i :: 0 <= i < |parts| ==> ',' !in parts[i]
  {
    if |s| == 0 then [""]
    else
      var rest := Split(s[1..]);
      if s[0] == ',' then [""] + rest else [[s[0]] + rest[0]] + rest[1..]
  }

  lemma {:induction false} SplitOne(p: string)
    requires ',' !in p
    ensures Split(p) == [p]
  {
    if |p| > 0 {
      assert p == [p[0]] + p[1..] && p[0] in p;
      SplitOne(p[1..]);
    }
  }

  lemma {:induction false} SplitFirst(p: string, s: string)
    requires ',' !in p
    ensures Split(p + "," + s) == [p] + Split(s)
  {
    var whole := p + "," + s;
    if |p| == 0 {
      assert whole[1..] == s;
    } else {
      assert p == [p[0]] + p[1..] && p[0] in p;
      SplitFirst(p[1..], s);
      assert whole[1..] == p[1..] + "," + s;
      assert [p[0]] + p[1..] == p;
    }
  }

  /** Splitting undoes joining exactly when no part holds a comma. */
  lemma {:induction false} SplitUndoesJoin(parts: seq<string>)
    requires |parts| > 0
    ensures Split(Join(parts)) == parts <==> forall i :: 0 <= i < |parts| ==> ',' !in parts[i]
  {
    if forall i :: 0 <= i < |parts| ==> ',' !in parts[i] {
      if |parts| == 1 {
        SplitOne(parts[0]);
      } else {
        SplitUndoesJoin(parts[1..]);
        SplitFirst(parts[0], Join(parts[1..]));
        assert parts == [parts[0]] + parts[1..];
      }
    }
  }

  // ----- building

  /** Six required headers, two that are left out when empty, and whatever extras there are on top. */
  function Stack(names: seq<string>, values: seq<string>, parents: Option<string>, sig: Option<string>,
                 extras: map<string, string>): Headers
    requires |names| == 8 && |values| == 6
  {
    map[names[0] := [values[0]], names[1] := [values[1]], names[2] := [values[2]], names[3] := [values[3]],
        names[4] := [values[4]], names[5] := [values[5]]]
    + (if parents.Some? then map[names[6] := [parents.value]] else map[])
    + (if sig.Some? then map[names[7] := [sig.value]] else map[])
    + map k | k in extras :: [extras[k]]
  }

  function HeaderNames(): (names: seq<string>)
    ensures |names| == 8
  {
    [HeaderMsgID(), HeaderVersion(), HeaderAuthor(), HeaderActing(), HeaderType(), HeaderTs(), HeaderParents(),
     HeaderSig()]
  }

  function Built(x: Text, r: WireRecord): Headers {
    Stack(HeaderNames(), [r.id, "2", r.author, r.acting, r.kind, x.format(r.ts)],
          if |r.parents| > 0 then Some(Join(r.parents)) else None,
          if r.signature != "" then Some(r.signature) else None,
          r.extras)
  }

  method Build(x: Text, r: WireRecord) returns (res: Result<(Headers, string)>)
    ensures res == match Validate(x, r) case Some(e) => Err(e) case None => Ok((Built(x, r), r.payload))
  {
    hide HeaderMsgID, HeaderVersion, HeaderAuthor, HeaderActing, HeaderType, HeaderTs, HeaderParents, HeaderSig,
        Validate, Join;
    var bad := Check(x, r);
    if bad.Some? {
      return Err(bad.value);
    }
    var h: Headers := map[HeaderMsgID() := [r.id], HeaderVersion() := ["2"], HeaderAuthor() := [r.author],
                          HeaderActing() := [r.acting], HeaderType() := [r.kind], HeaderTs() := [x.format(r.ts)]];
    if |r.parents| > 0 {
      h := h[HeaderParents() := [Join(r.parents)]];
    }
    if r.signature != "" {
      h := h[HeaderSig() := [r.signature]];
    }
    ghost var base := map[HeaderMsgID() := [r.id], HeaderVersion() := ["2"], HeaderAuthor() := [r.author],
                          HeaderActing() := [r.acting], HeaderType() := [r.kind], HeaderTs() := [x.format(r.ts)]];
    MaybeAdd(base, HeaderParents(), if |r.parents| > 0 then Some(Join(r.parents)) else None);
    MaybeAdd(if |r.parents| > 0 then base[HeaderParents() := [Join(r.parents)]] else base,
             HeaderSig(), if r.signature != "" then Some(r.signature) else None);
    h := AddExtras(h, r.extras);
    return Ok((h, r.payload));
  }

  lemma MaybeAdd(h: Headers, k: string, v: Option<string>)
    ensures (if v.Some? then h[k := [v.value]] else h) == h + if v.Some? then map[k := [v.value]] else map[]
  {
  }

  method AddExtras(base: Headers, extras: map<string, string>) returns (h: Headers)
    ensures h == base + map k | k in extras :: [extras[k]]
  {
    h := base;
    var todo := extras.Keys;
    while todo != {}
      invariant todo <= extras.Keys && h == base + map k | k in extras && k !in todo :: [extras[k]]
    {
      var k :| k in todo;
      h := h[k := [extras[k]]];
      todo := todo - {k};
    }
    assert (map k | k in extras && k !in todo :: [extras[k]]) == map k | k in extras :: [extras[k]];
  }

  // ----- parsing

  function Get(h: Headers, k: string): (v: string)
    ensures k in h && h[k] != [] ==> v == h[k][0]
    ensures k !in h || h[k] == [] ==> v == ""
  {
    if k in h && |h[k]| > 0 then h[k][0] else ""
  }

  /** strconv.Atoi on the digits a version is written with; a sign is accepted. */
  function Atoi(s: string): Option<int> {
    if |s| > 0 && s[0] == '-' then (match Digits(s[1..]) case None => None case Some(n) => Some(-(n as int)))
    else if |s| > 0 && s[0] == '+' then (match Digits(s[1..]) case None => None case Some(n) => Some(n as int))
    else match Digits(s) case None => None case Some(n) => Some(n as int)
  }

  function Digits(s: string): Option<nat> {
    if |s| == 0 then None
    else if !('0' <= s[|s| - 1] <= '9') then None
    else
      var d := (s[|s| - 1] as int - '0' as int) as nat;
      if |s| == 1 then Some(d)
      else match Digits(s[..|s| - 1]) case None => None case Some(n) => Some(10 * n + d)
  }

  predicate AreDigits(s: string) {
    forall i :: 0 <= i < |s| ==> '0' <= s[i] <= '9'
  }

  function Pow10(n: nat): nat {
    if n == 0 then 1 else 10 * Pow10(n - 1)
  }

  lemma {:induction false} DigitsAre(s: string)
    ensures Digits(s).Some? <==> s != "" && AreDigits(s)
  {
    if |s| > 1 {
      var t := s[..|s| - 1];
      DigitsAre(t);
      assert AreDigits(s) <==> AreDigits(t) && '0' <= s[|s| - 1] <= '9';
    }
  }

  /** One more digit at the end. */
  lemma DigitsLast(s: string)
    requires |s| > 1 && AreDigits(s)
    ensures var t := s[..|s| - 1];
      Digits(t).Some? && Digits(s) == Some(10 * Digits(t).value + (s[|s| - 1] as int - '0' as int) as nat)
  {
    DigitsAre(s);
    DigitsAre(s[..|s| - 1]);
  }

  lemma Shifted(a: nat, p: nat, b: nat, d: nat)
    ensures 10 * (a * p + b) + d == a * (10 * p) + (10 * b + d)
  {
  }

  /** A number is written in decimal digits, the most significant first. */
  lemma {:induction false} DigitsExactly(s: string)
    requires |s| > 0 && AreDigits(s)
    ensures |s| == 1 ==> Digits(s) == Some((s[0] as int - '0' as int) as nat)
    ensures |s| > 1 ==>
      && Digits(s[1..]).Some?
      && Digits(s) == Some((s[0] as int - '0' as int) as nat * Pow10(|s| - 1) + Digits(s[1..]).value)
  {
    DigitsAre(s);
    if |s| == 2 {
      assert s[..1] == [s[0]] && s[1..] == [s[1]] && Pow10(1) == 10 * Pow10(0);
    } else if |s| > 2 {
      var t, u := s[..|s| - 1], s[1..];
      DigitsLast(s);
      DigitsExactly(t);
      DigitsLast(u);
      assert u[..|u| - 1] == t[1..] && t[0] == s[0] && u[|u| - 1] == s[|s| - 1];
      hide Digits, AreDigits;
      Shifted((s[0] as int - '0' as int) as nat, Pow10(|t| - 1), Digits(t[1..]).value,
              (s[|s| - 1] as int - '0' as int) as nat);
    }
  }

  function Trimmed(parts: seq<string>): seq<string> {
    seq(|parts|, i requires 0 <= i < |parts| => TrimSpace(parts[i]))
  }

  function ParentsOf(h: Headers): seq<string> {
    if Get(h, HeaderParents()) == "" then [] else Trimmed(Split(Get(h, HeaderParents())))
  }

  function ExtrasOf(h: Headers): map<string, string> {
    map k | k in h && IsExtra(k) && |h[k]| > 0 :: h[k][0]
  }

  /** The first thing wrong with a header set, if anything is. */
  function Violation(x: Text, h: Headers): Option<FieldError> {
    var version := Atoi(Get(h, HeaderVersion()));
    if Get(h, HeaderMsgID()) == "" then Some(Missing(HeaderMsgID()))
    else if !x.isId(Get(h, HeaderMsgID())) then Some(BadId(HeaderMsgID()))
    else if Get(h, HeaderVersion()) == "" then Some(Missing(HeaderVersion()))
    else if version.None? then Some(BadVersion)
    else if version.value != Version && version.value != LegacyVersion then Some(BadVersion)
    else if Get(h, HeaderAuthor()) == "" then Some(Missing(HeaderAuthor()))
    else if CheckName(Get(h, HeaderAuthor())).Some? then
      Some(BadName(HeaderAuthor(), CheckName(Get(h, HeaderAuthor())).value))
    else if version.value == Version && Get(h, HeaderActing()) == "" then Some(Missing(HeaderActing()))
    else if Get(h, HeaderActing()) != "" && CheckName(Get(h, HeaderActing())).Some? then
      Some(BadName(HeaderActing(), CheckName(Get(h, HeaderActing())).value))
    else if Get(h, HeaderType()) == "" then Some(Missing(HeaderType()))
    else if Get(h, HeaderTs()) == "" then Some(Missing(HeaderTs()))
    else if x.parse(Get(h, HeaderTs())).None? then Some(BadTimestamp)
    else if BadParent(x, ParentsOf(h)) then Some(BadId(HeaderParents()))
    else None
  }

  function Parsed(x: Text, h: Headers, payload: string): Result<WireRecord> {
    match Violation(x, h)
    case Some(e) => Err(e)
    case None =>
      var ts := x.parse(Get(h, HeaderTs()));
      if ts.None? then Err(BadTimestamp)
      else Ok(WireRecord(Get(h, HeaderMsgID()), Get(h, HeaderAuthor()), Get(h, HeaderActing()), ParentsOf(h),
                         Get(h, HeaderType()), ts.value, Get(h, HeaderSig()), payload, ExtrasOf(h)))
  }

  method ParseParents(x: Text, text: string) returns (parents: Option<seq<string>>)
    requires text != ""
    ensures var all := Trimmed(Split(text)); parents == if BadParent(x, all) then None else Some(all)
  {
    var parts := Split(text);
    var out := [];
    for i := 0 to |parts|
      invariant out == Trimmed(parts)[..i] && !BadParent(x, out)
    {
      var p := TrimSpace(parts[i]);
      assert Trimmed(parts)[i] == p;
      if !x.isId(p) {
        return None;
      }
      out := out + [p];
    }
    assert Trimmed(parts)[..|parts|] == Trimmed(parts);
    return Some(out);
  }

  method Parse(x: Text, h: Headers, payload: string) returns (res: Result<WireRecord>)
    ensures res == Parsed(x, h, payload)
  {
    hide CheckName, Atoi, Split, Trimmed, BadParent;
    var id := Get(h, HeaderMsgID());
    if id == "" { return Err(Missing(HeaderMsgID())); }
    if !x.isId(id) { return Err(BadId(HeaderMsgID())); }
    var versionStr := Get(h, HeaderVersion());
    if versionStr == "" { return Err(Missing(HeaderVersion())); }
    var version := Atoi(versionStr);
    if version.None? { return Err(BadVersion); }
    if version.value != Version && version.value != LegacyVersion { return Err(BadVersion); }
    var author := Get(h, HeaderAuthor());
    if author == "" { return Err(Missing(HeaderAuthor())); }
    if CheckName(author).Some? { return Err(BadName(HeaderAuthor(), CheckName(author).value)); }
    var acting := Get(h, HeaderActing());
    if version.value == Version && acting == "" { return Err(Missing(HeaderActing())); }
    if acting != "" && CheckName(acting).Some? { return Err(BadName(HeaderActing(), CheckName(acting).value)); }
    var kind := Get(h, HeaderType());
    if kind == "" { return Err(Missing(HeaderType())); }
    var tsStr := Get(h, HeaderTs());
    if tsStr == "" { return Err(Missing(HeaderTs())); }
    var ts := x.parse(tsStr);
    if ts.None? { return Err(BadTimestamp); }
    var parents := [];
    NoBadParent(x);
    var text := Get(h, HeaderParents());
    if text != "" {
      var all := ParseParents(x, text);
      if all.None? { return Err(BadId(HeaderParents())); }
      parents := all.value;
    }
    var extras: map<string, string> := map[];
    var todo := h.Keys;
    while todo != {}
      invariant todo <= h.Keys && extras == map k | k in h && k !in todo && IsExtra(k) && |h[k]| > 0 :: h[k][0]
    {
      var k :| k in todo;
      if IsExtra(k) && |h[k]| > 0 {
        extras := extras[k := h[k][0]];
      }
      todo := todo - {k};
    }
    assert extras == ExtrasOf(h);
    return Ok(WireRecord(id, author, acting, parents, kind, ts.value, Get(h, HeaderSig()), payload, extras));
  }

  lemma NoBadParent(x: Text)
    ensures !BadParent(x, [])
  {
  }

  // ----- the round trip

  /** A parent that survives joining and splitting. */
  predicate Plain(p: string) {
    ',' !in p && TrimSpace(p) == p
  }

  /** Extras the wire form keeps apart from the headers it interprets. */
  predicate Apart(extras: map<string, string>) {
    forall k :: k in extras ==> IsExtra(k)
  }

  lemma {:induction false} TrimTwice(s: string)
    ensures TrimSpace(TrimSpace(s)) == TrimSpace(s)
  {
    if |s| > 0 {
      if IsSpace(s[0]) { TrimTwice(s[1..]); }
      else if IsSpace(s[|s| - 1]) { TrimTwice(s[..|s| - 1]); }
    }
  }

  lemma {:induction false} TrimWithin(s: string)
    ensures forall c :: c in TrimSpace(s) ==> c in s
  {
    if |s| > 0 {
      if IsSpace(s[0]) { TrimWithin(s[1..]); }
      else if IsSpace(s[|s| - 1]) { TrimWithin(s[..|s| - 1]); }
    }
  }

  /** The names headers go by are all different, and none of them is an extra's. */
  lemma NamesDiffer()
    ensures Distinct(HeaderNames())
    ensures forall i :: 0 <= i < 8 ==> !IsExtra(HeaderNames()[i])
    ensures forall k :: k in HeaderNames() ==> !IsExtra(k)
  {
    assert |HeaderMsgID()| == 11 && |HeaderTs()| == 13 && |HeaderSig()| == 14 && |HeaderType()| == 15;
    assert |HeaderAuthor()| == 17 && |HeaderActing()| == 17 && HeaderAuthor()[12] == 'u' && HeaderActing()[12] == 'c';
    assert |HeaderVersion()| == 18 && |HeaderParents()| == 18 && HeaderVersion()[11] == 'V'
      && HeaderParents()[11] == 'P';
    assert HeaderMsgID()[0] == 'N' && HeaderPrefix()[0] == 'S';
    hide HeaderMsgID, HeaderVersion, HeaderAuthor, HeaderActing, HeaderType, HeaderTs, HeaderParents, HeaderSig;
  }

  function Six(names: seq<string>, values: seq<string>): Headers
    requires |names| == 8 && |values| == 6
  {
    map[names[0] := [values[0]], names[1] := [values[1]], names[2] := [values[2]], names[3] := [values[3]],
        names[4] := [values[4]], names[5] := [values[5]]]
  }

  lemma SixGets(names: seq<string>, values: seq<string>)
    requires |names| == 8 && Distinct(names) && |values| == 6
    ensures forall i :: 0 <= i < 6 ==> names[i] in Six(names, values) && Six(names, values)[names[i]] == [values[i]]
    ensures forall k :: k in Six(names, values) ==> k in names && k != names[6] && k != names[7]
  {
    assert forall i :: 0 <= i < 6 ==> names[i] != names[6] && names[i] != names[7];
  }

  /** Adding an optional header touches no other. */
  lemma AddGets(h: Headers, k: string, v: Option<string>)
    requires k !in h
    ensures var g := h + if v.Some? then map[k := [v.value]] else map[];
      && Get(g, k) == (if v.Some? then v.value else "")
      && (forall n :: n != k ==> (n in g <==> n in h) && (n in h ==> g[n] == h[n]) && Get(g, n) == Get(h, n))
  {
  }

  lemma ExtraGets(h: Headers, extras: map<string, string>)
    ensures var g := h + map k | k in extras :: [extras[k]];
      && (forall k :: k !in extras ==> (k in g <==> k in h) && Get(g, k) == Get(h, k))
      && (forall k :: k in extras ==> k in g && g[k] == [extras[k]])
  {
  }

  lemma DistinctAt(names: seq<string>, i: nat, j: nat)
    requires Distinct(names) && i < j < |names|
    ensures names[i] != names[j]
  {
  }

  lemma StackIs(names: seq<string>, values: seq<string>, parents: Option<string>, sig: Option<string>,
                extras: map<string, string>)
    requires |names| == 8 && |values| == 6
    ensures Stack(names, values, parents, sig, extras) ==
      Six(names, values) + (if parents.Some? then map[names[6] := [parents.value]] else map[])
      + (if sig.Some? then map[names[7] := [sig.value]] else map[]) + map k | k in extras :: [extras[k]]
  {
  }

  lemma SixGet(names: seq<string>, values: seq<string>, i: nat)
    requires |names| == 8 && Distinct(names) && |values| == 6 && i < 6
    ensures Get(Six(names, values), names[i]) == values[i]
  {
    SixGets(names, values);
    hide Six, Distinct;
  }

  lemma StackedSix(names: seq<string>, values: seq<string>, parents: Option<string>, sig: Option<string>,
                   extras: map<string, string>, i: nat)
    requires |names| == 8 && Distinct(names) && |values| == 6 && i < 6 && names[i] !in extras
    ensures Get(Stack(names, values, parents, sig, extras), names[i]) == values[i]
  {
    hide *;
    var six := Six(names, values);
    var seven := six + if parents.Some? then map[names[6] := [parents.value]] else map[];
    var eight := seven + if sig.Some? then map[names[7] := [sig.value]] else map[];
    StackIs(names, values, parents, sig, extras);
    SixGet(names, values, i);
    SixGets(names, values);
    DistinctAt(names, i, 6);
    DistinctAt(names, i, 7);
    DistinctAt(names, 6, 7);
    AddGets(six, names[6], parents);
    AddGets(seven, names[7], sig);
    ExtraGets(eight, extras);
  }

  /** What a stack gives back, whatever the names are, so long as they differ from each other and from the extras. */
  lemma Stacked(names: seq<string>, values: seq<string>, parents: Option<string>, sig: Option<string>,
                extras: map<string, string>)
    requires |names| == 8 && Distinct(names) && |values| == 6
    requires forall i :: 0 <= i < 8 ==> names[i] !in extras
    ensures var h := Stack(names, values, parents, sig, extras);
      && (forall i :: 0 <= i < 6 ==> Get(h, names[i]) == values[i])
      && Get(h, names[6]) == (if parents.Some? then parents.value else "")
         && Get(h, names[7]) == (if sig.Some? then sig.value else "")
      && (forall k :: k in extras ==> k in h && h[k] == [extras[k]])
      && (forall k :: k in h && k !in extras ==> k in names)
  {
    hide *;
    forall i | 0 <= i < 6 ensures Get(Stack(names, values, parents, sig, extras), names[i]) == values[i] {
      StackedSix(names, values, parents, sig, extras, i);
    }
    var six := Six(names, values);
    var seven := six + if parents.Some? then map[names[6] := [parents.value]] else map[];
    var eight := seven + if sig.Some? then map[names[7] := [sig.value]] else map[];
    StackIs(names, values, parents, sig, extras);
    SixGets(names, values);
    DistinctAt(names, 6, 7);
    AddGets(six, names[6], parents);
    AddGets(seven, names[7], sig);
    ExtraGets(eight, extras);
  }

  lemma HeaderNamesAre()
    ensures var n := HeaderNames();
      && n[0] == HeaderMsgID() && n[1] == HeaderVersion() && n[2] == HeaderAuthor() && n[3] == HeaderActing()
      && n[4] == HeaderType() && n[5] == HeaderTs() && n[6] == HeaderParents() && n[7] == HeaderSig()
  {
    hide HeaderMsgID, HeaderVersion, HeaderAuthor, HeaderActing, HeaderType, HeaderTs, HeaderParents, HeaderSig;
  }

  /** Extras come back, and nothing else poses as one. */
  lemma ExtrasBack(names: seq<string>, h: Headers, extras: map<string, string>)
    requires Apart(extras) && (forall k :: k in names ==> !IsExtra(k))
    requires (forall k :: k in extras ==> k in h && h[k] == [extras[k]])
      && (forall k :: k in h && k !in extras ==> k in names)
    ensures ExtrasOf(h) == extras
  {
    hide IsExtra;
  }

  /** Reading the headers of a built record gives the fields back, as far as extras do not shadow them. */
  lemma BuiltReads(x: Text, r: WireRecord)
    requires Apart(r.extras)
    ensures var h := Built(x, r);
      && Get(h, HeaderMsgID()) == r.id && Get(h, HeaderVersion()) == "2" && Get(h, HeaderAuthor()) == r.author
      && Get(h, HeaderActing()) == r.acting && Get(h, HeaderType()) == r.kind && Get(h, HeaderTs()) == x.format(r.ts)
      && Get(h, HeaderSig()) == r.signature
         && Get(h, HeaderParents()) == (if |r.parents| > 0 then Join(r.parents) else "")
      && ExtrasOf(h) == r.extras
  {
    hide HeaderMsgID, HeaderVersion, HeaderAuthor, HeaderActing, HeaderType, HeaderTs, HeaderParents, HeaderSig,
        HeaderNames, HeaderPrefix, Stack, Join, IsExtra, Get, ExtrasOf;
    var values := [r.id, "2", r.author, r.acting, r.kind, x.format(r.ts)];
    var parents := if |r.parents| > 0 then Some(Join(r.parents)) else None;
    var sig := if r.signature != "" then Some(r.signature) else None;
    NamesDiffer();
    HeaderNamesAre();
    Stacked(HeaderNames(), values, parents, sig, r.extras);
    ExtrasBack(HeaderNames(), Built(x, r), r.extras);
  }

  lemma {:induction false} JoinNonempty(parts: seq<string>)
    requires |parts| > 0 && forall i :: 0 <= i < |parts| ==> parts[i] != ""
    ensures Join(parts) != ""
  {
    assert parts[0] != "";
  }

  lemma PlainParents(parents: seq<string>)
    requires |parents| > 0 && Join(parents) != ""
    ensures Trimmed(Split(Join(parents))) == parents <==> forall i :: 0 <= i < |parents| ==> Plain(parents[i])
  {
    var parts := Split(Join(parents));
    if forall i :: 0 <= i < |parents| ==> Plain(parents[i]) {
      SplitUndoesJoin(parents);
      assert Trimmed(parts) == parents;
    }
    if Trimmed(parts) == parents {
      forall i | 0 <= i < |parents| ensures Plain(parents[i]) {
        assert parents[i] == TrimSpace(parts[i]);
        TrimTwice(parts[i]);
        TrimWithin(parts[i]);
      }
    }
  }

  lemma VersionIsTwo()
    ensures Atoi("2") == Some(2)
  {
  }

  lemma ParsedApart(x: Text, h: Headers, payload: string)
    ensures Parsed(x, h, payload).Ok? ==> Apart(Parsed(x, h, payload).value.extras)
  {
    hide Violation, IsExtra;
  }

  /** Headers that say what a valid record says parse to it, but for what became of its parents and extras. */
  lemma ParsedFields(x: Text, h: Headers, r: WireRecord)
    requires Faithful(x) && Validate(x, r).None?
    requires Get(h, HeaderMsgID()) == r.id && Get(h, HeaderVersion()) == "2" && Get(h, HeaderAuthor()) == r.author
    requires Get(h, HeaderActing()) == r.acting && Get(h, HeaderType()) == r.kind
      && Get(h, HeaderTs()) == x.format(r.ts)
    requires Get(h, HeaderSig()) == r.signature
    ensures var parents := ParentsOf(h);
      Parsed(x, h, r.payload) == if BadParent(x, parents) then Err(BadId(HeaderParents()))
        else Ok(r.(parents := parents, extras := ExtrasOf(h)))
  {
    VersionIsTwo();
    assert x.parse(x.format(r.ts)) == Some(r.ts) && x.format(r.ts) != "";
    hide Atoi, CheckName, ExtrasOf, Get, HeaderMsgID, HeaderVersion, HeaderAuthor, HeaderActing, HeaderType, HeaderTs,
        HeaderParents, HeaderSig, BadParent, Faithful, ParentsOf;
  }

  /** A built record parses back but for what became of its parents. */
  lemma ParsedBuilt(x: Text, r: WireRecord)
    requires Faithful(x) && Validate(x, r).None? && Apart(r.extras)
    ensures var parents := ParentsOf(Built(x, r));
      Parsed(x, Built(x, r), r.payload) == if BadParent(x, parents) then Err(BadId(HeaderParents()))
        else Ok(r.(parents := parents))
  {
    hide *;
    BuiltReads(x, r);
    ParsedFields(x, Built(x, r), r);
    assert r.(parents := ParentsOf(Built(x, r)), extras := r.extras) == r.(parents := ParentsOf(Built(x, r)));
  }

  lemma ParentsBack(x: Text, r: WireRecord)
    requires !x.isId("") && Apart(r.extras) && !BadParent(x, r.parents)
    ensures ParentsOf(Built(x, r)) == r.parents <==> forall i :: 0 <= i < |r.parents| ==> Plain(r.parents[i])
  {
    BuiltReads(x, r);
    hide Built, Get, HeaderParents, ExtrasOf, IsExtra, Split, Join, Plain, Trimmed;
    if |r.parents| > 0 {
      forall i | 0 <= i < |r.parents| ensures r.parents[i] != "" { assert x.isId(r.parents[i]); }
      JoinNonempty(r.parents);
      PlainParents(r.parents);
    }
  }

  lemma ValidParents(x: Text, r: WireRecord)
    requires Validate(x, r).None?
    ensures !BadParent(x, r.parents)
  {
    hide CheckName;
  }

  /** Parsing undoes building, for every valid record, exactly when its parents are plain and its extras stand apart
      from the known headers. */
  lemma ParseUndoesBuild(x: Text, r: WireRecord)
    requires Faithful(x) && !x.isId("") && Validate(x, r).None?
    ensures Parsed(x, Built(x, r), r.payload) == Ok(r) <==>
      Apart(r.extras) && forall i :: 0 <= i < |r.parents| ==> Plain(r.parents[i])
  {
    hide *;
    ParsedApart(x, Built(x, r), r.payload);
    ValidParents(x, r);
    if Apart(r.extras) {
      ParsedBuilt(x, r);
      ParentsBack(x, r);
      assert r.(parents := r.parents) == r;
    }
  }

  lemma AuthorIsNoExtra()
    ensures !IsExtra(HeaderAuthor()) && HeaderAuthor() == HeaderNames()[2]
  {
    NamesDiffer();
    HeaderNamesAre();
  }

  /** What building writes when the one extra is the author header: everything as without it, but for the author. */
  lemma ShadowReads(x: Text, r: WireRecord, other: string)
    requires r.extras == map[HeaderAuthor() := other]
    ensures var h, plain := Built(x, r), Built(x, r.(extras := map[]));
      && Get(h, HeaderAuthor()) == other && ExtrasOf(h) == map[]
      && forall k :: k != HeaderAuthor() ==> Get(h, k) == Get(plain, k)
  {
    var h, bare := Built(x, r), Built(x, r.(extras := map[]));
    BuiltOver(x, r);
    AuthorIsNoExtra();
    hide *;
    ExtraGets(bare, r.extras);
    ApartNothing();
    BuiltReads(x, r.(extras := map[]));
    NoExtraLeft(bare, h, r.extras);
    GetShadow(h, HeaderAuthor(), other);
  }

  lemma GetShadow(h: Headers, k: string, v: string)
    requires k in h && h[k] == [v]
    ensures Get(h, k) == v
  {
  }

  lemma BuiltOver(x: Text, r: WireRecord)
    ensures Built(x, r) == Built(x, r.(extras := map[])) + map k | k in r.extras :: [r.extras[k]]
  {
    var values := [r.id, "2", r.author, r.acting, r.kind, x.format(r.ts)];
    var parents := if |r.parents| > 0 then Some(Join(r.parents)) else None;
    var sig := if r.signature != "" then Some(r.signature) else None;
    hide Stack, HeaderNames, Join;
    StackOver(HeaderNames(), values, parents, sig, r.extras);
  }

  lemma NoExtraLeft(bare: Headers, h: Headers, extras: map<string, string>)
    requires ExtrasOf(bare) == map[] && h == bare + (map k | k in extras :: [extras[k]])
    requires forall k :: k in extras ==> !IsExtra(k)
    ensures ExtrasOf(h) == map[]
  {
    hide IsExtra;
    forall k ensures k !in ExtrasOf(h) {
      if k in h && k !in extras { assert k in bare && h[k] == bare[k] && k !in ExtrasOf(bare); }
    }
  }

  lemma StackOver(names: seq<string>, values: seq<string>, parents: Option<string>, sig: Option<string>,
                  extras: map<string, string>)
    requires |names| == 8 && |values| == 6
    ensures Stack(names, values, parents, sig, extras) ==
        Stack(names, values, parents, sig, map[]) + map k | k in extras :: [extras[k]]
  {
  }

  /** A valid record whose extras hold the author header parses back as somebody else's: extras shadow what the library
      writes itself. */
  lemma ExtraImpersonates(x: Text, r: WireRecord, other: string)
    requires Faithful(x) && !x.isId("") && Validate(x, r).None? && r.parents == []
    requires r.extras == map[HeaderAuthor() := other] && CheckName(other).None?
    ensures Parsed(x, Built(x, r), r.payload) == Ok(r.(author := other, extras := map[]))
  {
    ValidOther(x, r, other);
    hide *;
    var plain := r.(extras := map[]);
    ApartNothing();
    BuiltReads(x, plain);
    ShadowReads(x, r, other);
    OtherNames();
    ParsedFields(x, Built(x, r), r.(author := other));
    NoParents(x, Built(x, r));
  }

  lemma ValidOther(x: Text, r: WireRecord, other: string)
    requires Validate(x, r).None? && CheckName(other).None?
    ensures Validate(x, r.(author := other)).None?
  {
    assert other != "" by { assert CheckName("").Some?; }
    hide CheckName;
  }

  lemma ApartNothing()
    ensures Apart(map[])
  {
  }

  lemma OtherNames()
    ensures HeaderAuthor() !in {HeaderMsgID(), HeaderVersion(), HeaderActing(), HeaderType(), HeaderTs(), HeaderSig(),
                                HeaderParents()}
  {
    NamesDiffer();
    HeaderNamesAre();
    hide HeaderMsgID, HeaderVersion, HeaderAuthor, HeaderActing, HeaderType, HeaderTs, HeaderParents, HeaderSig,
        HeaderNames;
    DistinctAt(HeaderNames(), 0, 2);
    DistinctAt(HeaderNames(), 1, 2);
  }

  lemma NoParents(x: Text, h: Headers)
    requires Get(h, HeaderParents()) == ""
    ensures ParentsOf(h) == [] && !BadParent(x, ParentsOf(h))
  {
    hide Get;
  }

  // ----- canonical ids are plain

  predicate IsHex(c: char) {
    '0' <= c <= '9' || 'a' <= c <= 'f' || 'A' <= c <= 'F'
  }

  /** The 36-character form of section 4 of RFC 9562. */
  predicate Canonical(s: string) {
    |s| == 36 && forall i :: 0 <= i < 36 ==> if i in {8, 13, 18, 23} then s[i] == '-' else IsHex(s[i])
  }

  lemma CanonicalIsPlain(s: string)
    requires Canonical(s)
    ensures Plain(s)
  {
    assert forall i :: 0 <= i < |s| ==> s[i] == '-' || IsHex(s[i]);
    assert !IsSpace(s[0]) && !IsSpace(s[|s| - 1]);
  }

  // ----- what goes over the wire, header by header

  ghost predicate Says(h: Headers, k: string, v: string) {
    k in h && h[k] == [v]
  }

  lemma StackSaysSix(names: seq<string>, values: seq<string>, parents: Option<string>, sig: Option<string>,
                     extras: map<string, string>, i: nat)
    requires |names| == 8 && Distinct(names) && |values| == 6 && i < 6 && names[i] !in extras
    ensures Says(Stack(names, values, parents, sig, extras), names[i], values[i])
  {
    var six := Six(names, values);
    var seven := six + if parents.Some? then map[names[6] := [parents.value]] else map[];
    var eight := seven + if sig.Some? then map[names[7] := [sig.value]] else map[];
    hide *;
    StackIs(names, values, parents, sig, extras);
    SixGets(names, values);
    DistinctAt(names, i, 6);
    DistinctAt(names, i, 7);
    DistinctAt(names, 6, 7);
    AddGets(six, names[6], parents);
    AddGets(seven, names[7], sig);
    SaysUnder(eight, extras, names[i], values[i]);
  }

  lemma SaysUnder(h: Headers, extras: map<string, string>, k: string, v: string)
    requires k !in extras
    ensures var g := h + map e | e in extras :: [extras[e]];
      && (k in h && h[k] == [v] ==> Says(g, k, v)) && (k !in h ==> k !in g)
  {
  }

  lemma StackSaysLast(names: seq<string>, values: seq<string>, parents: Option<string>, sig: Option<string>,
                      extras: map<string, string>)
    requires |names| == 8 && Distinct(names) && |values| == 6
    ensures var h := Stack(names, values, parents, sig, extras);
      && (names[6] !in extras ==> if parents.Some? then Says(h, names[6], parents.value) else names[6] !in h)
      && (names[7] !in extras ==> if sig.Some? then Says(h, names[7], sig.value) else names[7] !in h)
  {
    var six := Six(names, values);
    var seven := six + if parents.Some? then map[names[6] := [parents.value]] else map[];
    var eight := seven + if sig.Some? then map[names[7] := [sig.value]] else map[];
    hide *;
    StackIs(names, values, parents, sig, extras);
    SixGets(names, values);
    DistinctAt(names, 6, 7);
    AddGets(six, names[6], parents);
    AddGets(seven, names[7], sig);
    if names[6] !in extras { SaysUnder(eight, extras, names[6], if parents.Some? then parents.value else ""); }
    if names[7] !in extras { SaysUnder(eight, extras, names[7], if sig.Some? then sig.value else ""); }
  }

  lemma StackSays(names: seq<string>, values: seq<string>, parents: Option<string>, sig: Option<string>,
                  extras: map<string, string>)
    requires |names| == 8 && Distinct(names) && |values| == 6
    ensures var h := Stack(names, values, parents, sig, extras);
      && (forall k :: k in extras ==> Says(h, k, extras[k]))
      && (forall i :: 0 <= i < 6 && names[i] !in extras ==> Says(h, names[i], values[i]))
      && (names[6] !in extras ==> if parents.Some? then Says(h, names[6], parents.value) else names[6] !in h)
      && (names[7] !in extras ==> if sig.Some? then Says(h, names[7], sig.value) else names[7] !in h)
      && (forall k :: k in h ==> k in extras || k in names)
  {
    forall i | 0 <= i < 6 && names[i] !in extras
      ensures Says(Stack(names, values, parents, sig, extras), names[i], values[i]) {
      StackSaysSix(names, values, parents, sig, extras, i);
    }
    StackSaysLast(names, values, parents, sig, extras);
    hide Distinct;
  }

  /** The header set of a record: each of its fields under its own name, in version 2; parents and signature left out
      when there are none; extras as they are, shadowing what they name; and nothing else. */
  lemma BuiltSays(x: Text, r: WireRecord)
    ensures var h, e := Built(x, r), r.extras;
      && (forall k :: k in e ==> Says(h, k, e[k]))
      && ("Nats-Msg-Id" !in e ==> Says(h, "Nats-Msg-Id", r.id))
      && ("Soulstream-Version" !in e ==> Says(h, "Soulstream-Version", "2"))
      && ("Soulstream-Author" !in e ==> Says(h, "Soulstream-Author", r.author))
      && ("Soulstream-Acting" !in e ==> Says(h, "Soulstream-Acting", r.acting))
      && ("Soulstream-Type" !in e ==> Says(h, "Soulstream-Type", r.kind))
      && ("Soulstream-Ts" !in e ==> Says(h, "Soulstream-Ts", x.format(r.ts)))
      && ("Soulstream-Parents" !in e ==>
            if r.parents == [] then "Soulstream-Parents" !in h else Says(h, "Soulstream-Parents", Join(r.parents)))
      && ("Soulstream-Sig" !in e ==>
            if r.signature == "" then "Soulstream-Sig" !in h else Says(h, "Soulstream-Sig", r.signature))
    ensures forall k :: k in Built(x, r) ==> k in r.extras || k in WireNames()
  {
    NamesDiffer();
    HeaderNamesAre();
    WireNamesAre();
    StackSays(HeaderNames(), [r.id, "2", r.author, r.acting, r.kind, x.format(r.ts)],
              if |r.parents| > 0 then Some(Join(r.parents)) else None,
              if r.signature != "" then Some(r.signature) else None,
              r.extras);
    hide Stack, Says, Join, HeaderNames;
  }

  function WireNames(): seq<string> {
    ["Nats-Msg-Id", "Soulstream-Version", "Soulstream-Author", "Soulstream-Acting", "Soulstream-Type", "Soulstream-Ts",
     "Soulstream-Parents", "Soulstream-Sig"]
  }

  lemma WireNamesAre()
    ensures HeaderNames() == WireNames()
    ensures HeaderMsgID() == "Nats-Msg-Id" && HeaderVersion() == "Soulstream-Version"
    ensures HeaderAuthor() == "Soulstream-Author" && HeaderActing() == "Soulstream-Acting"
    ensures HeaderType() == "Soulstream-Type" && HeaderTs() == "Soulstream-Ts"
    ensures HeaderParents() == "Soulstream-Parents" && HeaderSig() == "Soulstream-Sig"
  {
  }

  // ----- exactly which header sets parse, and as what

  /** What a reader asks of a header set, in no order. */
  ghost predicate Readable(x: Text, h: Headers) {
    var version := Atoi(Get(h, "Soulstream-Version"));
    var acting := Get(h, "Soulstream-Acting");
    && x.isId(Get(h, "Nats-Msg-Id")) && (version == Some(1) || version == Some(2))
    && InGrammar(Get(h, "Soulstream-Author")) && |Get(h, "Soulstream-Author")| <= MaxNameLen
    && (if acting == "" then version == Some(1) else InGrammar(acting) && |acting| <= MaxNameLen)
    && Get(h, "Soulstream-Type") != "" && Get(h, "Soulstream-Ts") != "" && x.parse(Get(h, "Soulstream-Ts")).Some?
    && (Get(h, "Soulstream-Parents") != "" ==>
          var parts := Split(Get(h, "Soulstream-Parents"));
          forall i :: 0 <= i < |parts| ==> x.isId(TrimSpace(parts[i])))
  }

  /** The record is what the headers say: each field from the header of its name, parents apart at the commas and
      trimmed, and every unknown Soulstream header kept. */
  ghost predicate ReadOff(x: Text, h: Headers, payload: string, r: WireRecord) {
    && r.id == Get(h, "Nats-Msg-Id") && r.author == Get(h, "Soulstream-Author")
    && r.acting == Get(h, "Soulstream-Acting") && r.kind == Get(h, "Soulstream-Type")
    && x.parse(Get(h, "Soulstream-Ts")) == Some(r.ts)
    && r.signature == Get(h, "Soulstream-Sig") && r.payload == payload
    && (var text := Get(h, "Soulstream-Parents");
        if text == "" then r.parents == []
        else
          && |r.parents| == |Split(text)|
          && forall i :: 0 <= i < |r.parents| ==> r.parents[i] == TrimSpace(Split(text)[i]))
    && (forall k :: k in r.extras <==> k in h && |h[k]| > 0 && "Soulstream-" <= k && k !in WireNames())
    && forall k :: k in r.extras ==> r.extras[k] == h[k][0]
  }

  lemma ExtraIs(k: string)
    ensures IsExtra(k) <==> "Soulstream-" <= k && k !in WireNames()
  {
    WireNamesAre();
    assert "Nats-Msg-Id"[0] == 'N' && "Soulstream-"[0] == 'S';
    assert WireNames()[0] == "Nats-Msg-Id" && WireNames()[1] == HeaderVersion() && WireNames()[2] == HeaderAuthor()
      && WireNames()[3] == HeaderActing() && WireNames()[4] == HeaderType() && WireNames()[5] == HeaderTs()
      && WireNames()[6] == HeaderParents() && WireNames()[7] == HeaderSig();
    hide HeaderVersion, HeaderAuthor, HeaderActing, HeaderType, HeaderTs, HeaderParents, HeaderSig;
  }

  lemma ReadableExactly(x: Text, h: Headers)
    requires !x.isId("")
    ensures Violation(x, h).None? <==> Readable(x, h)
  {
    WireNamesAre();
    CheckNameIsGrammar(Get(h, HeaderAuthor()));
    CheckNameIsGrammar(Get(h, HeaderActing()));
    assert CheckName("").Some? && Atoi("").None?;
    ParentsSplit(x, h);
    hide CheckName, InGrammar, Atoi, Get, HeaderMsgID, HeaderVersion, HeaderAuthor, HeaderActing, HeaderType, HeaderTs,
        HeaderParents, HeaderSig, Split, BadParent, ParentsOf;
  }

  lemma ParentsSplit(x: Text, h: Headers)
    ensures BadParent(x, ParentsOf(h)) <==>
      Get(h, "Soulstream-Parents") != ""
      && exists i :: 0 <= i < |Split(Get(h, "Soulstream-Parents"))|
           && !x.isId(TrimSpace(Split(Get(h, "Soulstream-Parents"))[i]))
  {
    var text := Get(h, "Soulstream-Parents");
    WireNamesAre();
    assert ParentsOf(h) == if text == "" then [] else Trimmed(Split(text));
    var parts := Split(text);
    hide Split, TrimSpace, Get, ParentsOf;
    assert |Trimmed(parts)| == |parts|;
    forall i | 0 <= i < |parts| ensures Trimmed(parts)[i] == TrimSpace(parts[i]) {}
    hide Trimmed;
    if BadParent(x, ParentsOf(h)) {
      var i :| 0 <= i < |ParentsOf(h)| && !x.isId(ParentsOf(h)[i]);
      assert !x.isId(TrimSpace(parts[i]));
    } else if text != "" {
      forall i | 0 <= i < |parts| ensures x.isId(TrimSpace(parts[i])) { assert x.isId(Trimmed(parts)[i]); }
    }
  }

  /** A header set parses exactly when it is readable, and then as the record it spells. */
  lemma ParsedExactly(x: Text, h: Headers, payload: string)
    requires !x.isId("")
    ensures Parsed(x, h, payload).Ok? <==> Readable(x, h)
    ensures Parsed(x, h, payload).Ok? ==> ReadOff(x, h, payload, Parsed(x, h, payload).value)
  {
    ReadableExactly(x, h);
    hide Readable;
    if Violation(x, h).None? {
      WireNamesAre();
      forall k ensures IsExtra(k) <==> "Soulstream-" <= k && k !in WireNames() { ExtraIs(k); }
      ParseableTs(x, h);
      hide Violation, IsExtra, Split, TrimSpace, Get, WireNames;
    }
  }

  lemma ParseableTs(x: Text, h: Headers)
    requires Violation(x, h).None?
    ensures x.parse(Get(h, HeaderTs())).Some?
  {
    hide CheckName, Atoi, Get, BadParent, ParentsOf;
  }

  // ----- which fault is reported

  datatype Fault = Fault(present: bool, error: FieldError)

  /** The first fault present is the one reported. */
  ghost predicate Reports(faults: seq<Fault>, reported: Option<FieldError>) {
    match reported
    case None => forall i :: 0 <= i < |faults| ==> !faults[i].present
    case Some(e) => exists i :: ReportsAt(faults, e, i)
  }

  ghost predicate ReportsAt(faults: seq<Fault>, e: FieldError, i: nat) {
    i < |faults| && faults[i].present && faults[i].error == e && forall j :: 0 <= j < i ==> !faults[j].present
  }

  function WhyNot(name: string): Reason {
    match CheckName(name) case Some(why) => why case None => Empty
  }

  /** The faults of a record in the order a writer looks for them. */
  function RecordFaults(x: Text, r: WireRecord): seq<Fault> {
    [Fault(r.id == "", Missing("Nats-Msg-Id")),
     Fault(!x.isId(r.id), BadId("Nats-Msg-Id")),
     Fault(r.author == "", Missing("Soulstream-Author")),
     Fault(CheckName(r.author).Some?, BadName("Soulstream-Author", WhyNot(r.author))),
     Fault(r.acting == "", Missing("Soulstream-Acting")),
     Fault(CheckName(r.acting).Some?, BadName("Soulstream-Acting", WhyNot(r.acting))),
     Fault(r.kind == "", Missing("Soulstream-Type")),
     Fault(r.ts == 0, Missing("Soulstream-Ts")),
     Fault(exists i :: 0 <= i < |r.parents| && !x.isId(r.parents[i]), BadId("Soulstream-Parents"))]
  }

  lemma FirstOfNine(fs: seq<Fault>, e: Option<FieldError>)
    requires |fs| == 9
    requires e ==
      if fs[0].present then Some(fs[0].error) else if fs[1].present then Some(fs[1].error)
      else if fs[2].present then Some(fs[2].error) else if fs[3].present then Some(fs[3].error)
      else if fs[4].present then Some(fs[4].error) else if fs[5].present then Some(fs[5].error)
      else if fs[6].present then Some(fs[6].error) else if fs[7].present then Some(fs[7].error)
      else if fs[8].present then Some(fs[8].error) else None
    ensures Reports(fs, e)
  {
    if e.Some? {
      var i := if fs[0].present then 0 else if fs[1].present then 1 else if fs[2].present then 2
               else if fs[3].present then 3 else if fs[4].present then 4 else if fs[5].present then 5
               else if fs[6].present then 6 else if fs[7].present then 7 else 8;
      assert ReportsAt(fs, e.value, i);
    }
  }

  /** Of several faults a writer reports the first it looks for. */
  lemma RecordFirstFault(x: Text, r: WireRecord)
    ensures Reports(RecordFaults(x, r), Validate(x, r))
  {
    WireNamesAre();
    hide CheckName, HeaderMsgID, HeaderAuthor, HeaderActing, HeaderType, HeaderTs, HeaderParents, Reports;
    FirstOfNine(RecordFaults(x, r), Validate(x, r));
  }

  /** The faults of a header set in the order a reader looks for them. */
  function HeaderFaults(x: Text, h: Headers): seq<Fault> {
    var version, acting := Atoi(Get(h, "Soulstream-Version")), Get(h, "Soulstream-Acting");
    var author, ts := Get(h, "Soulstream-Author"), Get(h, "Soulstream-Ts");
    [Fault(Get(h, "Nats-Msg-Id") == "", Missing("Nats-Msg-Id")),
     Fault(!x.isId(Get(h, "Nats-Msg-Id")), BadId("Nats-Msg-Id")),
     Fault(Get(h, "Soulstream-Version") == "", Missing("Soulstream-Version")),
     Fault(version != Some(1) && version != Some(2), BadVersion),
     Fault(author == "", Missing("Soulstream-Author")),
     Fault(CheckName(author).Some?, BadName("Soulstream-Author", WhyNot(author))),
     Fault(version == Some(2) && acting == "", Missing("Soulstream-Acting")),
     Fault(acting != "" && CheckName(acting).Some?, BadName("Soulstream-Acting", WhyNot(acting))),
     Fault(Get(h, "Soulstream-Type") == "", Missing("Soulstream-Type")),
     Fault(ts == "", Missing("Soulstream-Ts")),
     Fault(x.parse(ts).None?, BadTimestamp),
     Fault(BadParent(x, ParentsOf(h)), BadId("Soulstream-Parents"))]
  }

  lemma FirstOfTwelve(fs: seq<Fault>, e: Option<FieldError>)
    requires |fs| == 12
    requires e ==
      if fs[0].present then Some(fs[0].error) else if fs[1].present then Some(fs[1].error)
      else if fs[2].present then Some(fs[2].error) else if fs[3].present then Some(fs[3].error)
      else if fs[4].present then Some(fs[4].error) else if fs[5].present then Some(fs[5].error)
      else if fs[6].present then Some(fs[6].error) else if fs[7].present then Some(fs[7].error)
      else if fs[8].present then Some(fs[8].error) else if fs[9].present then Some(fs[9].error)
      else if fs[10].present then Some(fs[10].error) else if fs[11].present then Some(fs[11].error) else None
    ensures Reports(fs, e)
  {
    if e.Some? {
      var i := if fs[0].present then 0 else if fs[1].present then 1 else if fs[2].present then 2
               else if fs[3].present then 3 else if fs[4].present then 4 else if fs[5].present then 5
               else if fs[6].present then 6 else if fs[7].present then 7 else if fs[8].present then 8
               else if fs[9].present then 9 else if fs[10].present then 10 else 11;
      assert ReportsAt(fs, e.value, i);
    }
  }

  /** Of several faults a reader reports the first it looks for. */
  lemma HeaderFirstFault(x: Text, h: Headers)
    ensures Reports(HeaderFaults(x, h), Violation(x, h))
  {
    WireNamesAre();
    hide CheckName, Atoi, Get, BadParent, ParentsOf, HeaderMsgID, HeaderVersion, HeaderAuthor, HeaderActing, HeaderType,
        HeaderTs, HeaderParents, Reports;
    FirstOfTwelve(HeaderFaults(x, h), Violation(x, h));
  }
}
