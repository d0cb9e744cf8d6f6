/** Who answers for a persona, and whether the claim is vouched for (registry/attest.go). */
module Operators {
  import opened Prelude
  import opened Keys

  // ----- the operator claim

  datatype Claim = NoClaim | Attested | Unverified | Failed

  /** Some key of the operator's chain signed the statement. */
  predicate Vouched(c: Scheme, chain: seq<Key>, statement: string, sig: Sig) {
    exists i :: 0 <= i < |chain| && c.verify(chain[i], statement, sig)
  }

  function AttestationStatus(c: Scheme, p: Profile, operatorChain: seq<Key>, operatorDistrusted: bool,
                             operatedChain: seq<Key>): Claim {
    if p.operatedBy == "" then NoClaim
    else if p.attestation.None? then Unverified
    else if operatorDistrusted then Failed
    else if |operatorChain| == 0 then Unverified
    else
      var att := p.attestation.value;
      if att.operatedKey != "" && att.operatedKey !in operatedChain then Failed
      else if Vouched(c, operatorChain, c.attestationBytes(p.operatedBy, p.name, att.operatedKey), att.sig)
        then Attested
      else Failed
  }

  /** A countersignature to rely on: the statement it signs names both personas and the key the operated persona held,
      some key of the operator's chain made it, and the key it names is none or one of the operated persona's own. */
  ghost predicate Countersigned(c: Scheme, p: Profile, att: Attestation, operatorChain: seq<Key>,
                                operatedChain: seq<Key>) {
    && (att.operatedKey == "" || exists j :: 0 <= j < |operatedChain| && operatedChain[j] == att.operatedKey)
    && exists i :: 0 <= i < |operatorChain|
         && c.verify(operatorChain[i], c.attestationBytes(p.operatedBy, p.name, att.operatedKey), att.sig)
  }

  /** Exactly when a claim is what: there is none without an operator named; it is attested when the operator is trusted
      and countersigned it; unverified when nothing was offered, or a trusted operator has no key to check it by; and
      failed in every other case. */
  lemma StatusExactly(c: Scheme, p: Profile, operatorChain: seq<Key>, distrusted: bool, operatedChain: seq<Key>)
    ensures var status := AttestationStatus(c, p, operatorChain, distrusted, operatedChain);
      && (status == NoClaim <==> p.operatedBy == "")
      && (status == Attested <==>
            p.operatedBy != "" && p.attestation.Some? && !distrusted
            && Countersigned(c, p, p.attestation.value, operatorChain, operatedChain))
      && (status == Unverified <==>
            p.operatedBy != "" && (p.attestation.None? || (!distrusted && operatorChain == [])))
      && (status == Failed <==>
            p.operatedBy != "" && p.attestation.Some?
            && (distrusted
                || (operatorChain != [] && !Countersigned(c, p, p.attestation.value, operatorChain, operatedChain))))
  {
    if p.attestation.Some? {
      var att := p.attestation.value;
      var statement := c.attestationBytes(p.operatedBy, p.name, att.operatedKey);
      if Vouched(c, operatorChain, statement, att.sig) {
        var i :| 0 <= i < |operatorChain| && c.verify(operatorChain[i], statement, att.sig);
        assert operatorChain != [];
      }
    }
  }

  /** The checks in turn, the operator's keys one by one. */
  method Judge(c: Scheme, p: Profile, operatorChain: seq<Key>, operatorDistrusted: bool, operatedChain: seq<Key>)
    returns (status: Claim)
    ensures status == AttestationStatus(c, p, operatorChain, operatorDistrusted, operatedChain)
  {
    if p.operatedBy == "" { return NoClaim; }
    if p.attestation.None? { return Unverified; }
    if operatorDistrusted { return Failed; }
    if |operatorChain| == 0 { return Unverified; }
    var att := p.attestation.value;
    if att.operatedKey != "" && att.operatedKey !in operatedChain { return Failed; }
    var statement := c.attestationBytes(p.operatedBy, p.name, att.operatedKey);
    for i := 0 to |operatorChain|
      invariant forall j :: 0 <= j < i ==> !c.verify(operatorChain[j], statement, att.sig)
    {
      if c.verify(operatorChain[i], statement, att.sig) { return Attested; }
    }
    return Failed;
  }

  /** Routine rotation on either side never breaks a vouch; only distrust of the operator does. */
  lemma VouchSurvivesRotation(c: Scheme, p: Profile, operator: seq<Key>, operatorLater: seq<Key>, operated: seq<Key>,
                              operatedLater: seq<Key>, distrusted: bool)
    requires operator <= operatorLater && operated <= operatedLater
    requires AttestationStatus(c, p, operator, false, operated) == Attested
    ensures AttestationStatus(c, p, operatorLater, distrusted, operatedLater) == if distrusted then Failed else Attested
  {
    var att := p.attestation.value;
    var statement := c.attestationBytes(p.operatedBy, p.name, att.operatedKey);
    var i :| 0 <= i < |operator| && c.verify(operator[i], statement, att.sig);
    assert operatorLater[i] == operator[i];
    if att.operatedKey != "" {
      var j :| 0 <= j < |operated| && operated[j] == att.operatedKey;
      assert operatedLater[j] == att.operatedKey;
    }
  }

  // ----- the operator walk

  datatype Terminal = Principal | Dangling | Cycle

  /** The operator named by a persona's profile, if it has one and names one. */
  function Operator(profiles: map<Persona, Profile>, x: Persona): Option<Persona> {
    if x in profiles && profiles[x].operatedBy != "" then Some(profiles[x].operatedBy) else None
  }

  /** `x` names `y` as its operator. */
  predicate Links(profiles: map<Persona, Profile>, x: Persona, y: Persona) {
    x in profiles && profiles[x].operatedBy == y && y != ""
  }

  /** The unbounded walk: who is reached after `n` links. */
  function After(profiles: map<Persona, Profile>, start: Persona, n: nat): Option<Persona> {
    if n == 0 then Some(start)
    else match After(profiles, start, n - 1)
         case None => None
         case Some(x) => Operator(profiles, x)
  }

  /** The walk stops at its `n`-th persona. */
  ghost predicate StopsAt(profiles: map<Persona, Profile>, start: Persona, n: nat, x: Persona) {
    After(profiles, start, n) == Some(x) && Operator(profiles, x).None?
  }

  /** How the unbounded walk ends, if it does. */
  ghost predicate EndsAs(profiles: map<Persona, Profile>, start: Persona, terminal: Terminal) {
    match terminal
    case Principal => exists n: nat, x: Persona :: StopsAt(profiles, start, n, x) && x in profiles
    case Dangling => exists n: nat, x: Persona :: StopsAt(profiles, start, n, x) && x !in profiles
    case Cycle => forall n: nat :: After(profiles, start, n).Some?
  }

  lemma {:induction false} StoppedStays(profiles: map<Persona, Profile>, start: Persona, n: nat, m: nat)
    requires After(profiles, start, n).None? && n <= m
    ensures After(profiles, start, m).None?
  {
    if n < m { StoppedStays(profiles, start, n, m - 1); }
  }

  /** The walk ends in one way only. */
  lemma OneEnd(profiles: map<Persona, Profile>, start: Persona, s: Terminal, t: Terminal)
    requires EndsAs(profiles, start, s) && EndsAs(profiles, start, t)
    ensures s == t
  {
    if s != t {
      if s.Cycle? { StopNotCycle(profiles, start, t); }
      else if t.Cycle? { StopNotCycle(profiles, start, s); }
      else {
        var n: nat, x: Persona :| StopsAt(profiles, start, n, x) && (x in profiles <==> s.Principal?);
        var m: nat, y: Persona :| StopsAt(profiles, start, m, y) && (y in profiles <==> t.Principal?);
        assert After(profiles, start, n + 1).None? && After(profiles, start, m + 1).None?;
        if n < m { StoppedStays(profiles, start, n + 1, m); }
        if m < n { StoppedStays(profiles, start, m + 1, n); }
      }
    }
  }

  lemma StopNotCycle(profiles: map<Persona, Profile>, start: Persona, t: Terminal)
    requires EndsAs(profiles, start, t) && !t.Cycle?
    ensures !EndsAs(profiles, start, Cycle)
  {
    var n: nat, x: Persona :| StopsAt(profiles, start, n, x);
    assert After(profiles, start, n + 1).None?;
  }

  lemma AfterNext(profiles: map<Persona, Profile>, start: Persona, n: nat, x: Persona)
    requires After(profiles, start, n) == Some(x)
    ensures After(profiles, start, n + 1) == Operator(profiles, x)
  {
  }

  ghost predicate OnChain(profiles: map<Persona, Profile>, start: Persona, chain: seq<Persona>, n: nat) {
    exists i :: 0 <= i < |chain| - 1 && After(profiles, start, n) == Some(chain[i])
  }

  /** The chain is the start of the walk. */
  ghost predicate Follows(profiles: map<Persona, Profile>, start: Persona, chain: seq<Persona>) {
    forall i :: 0 <= i < |chain| ==> After(profiles, start, i) == Some(chain[i])
  }

  lemma FollowsAt(profiles: map<Persona, Profile>, start: Persona, chain: seq<Persona>, i: nat)
    requires Follows(profiles, start, chain) && i < |chain|
    ensures After(profiles, start, i) == Some(chain[i])
  {
  }

  lemma OnChainAt(profiles: map<Persona, Profile>, start: Persona, chain: seq<Persona>, n: nat, i: nat)
    requires i < |chain| - 1 && After(profiles, start, n) == Some(chain[i])
    ensures OnChain(profiles, start, chain, n)
  {
  }

  /** A walk that has come back to where it was goes round for ever. */
  lemma {:induction false} GoesRound(profiles: map<Persona, Profile>, start: Persona, chain: seq<Persona>, k: nat,
                                     n: nat)
    requires |chain| > 1 && k < |chain| - 1 && chain[|chain| - 1] == chain[k] && Follows(profiles, start, chain)
    ensures OnChain(profiles, start, chain, n)
  {
    if n == 0 {
      FollowsAt(profiles, start, chain, 0);
      OnChainAt(profiles, start, chain, 0, 0);
    } else {
      GoesRound(profiles, start, chain, k, n - 1);
      var i :| 0 <= i < |chain| - 1 && After(profiles, start, n - 1) == Some(chain[i]);
      hide After, Operator, Follows, OnChain;
      AfterNext(profiles, start, n - 1, chain[i]);
      FollowsAt(profiles, start, chain, i);
      AfterNext(profiles, start, i, chain[i]);
      FollowsAt(profiles, start, chain, i + 1);
      OnChainAt(profiles, start, chain, n, if i + 1 == |chain| - 1 then k else i + 1);
    }
  }

  lemma FollowsStart(profiles: map<Persona, Profile>, start: Persona)
    ensures Follows(profiles, start, [start])
  {
  }

  lemma FollowsMore(profiles: map<Persona, Profile>, start: Persona, chain: seq<Persona>, x: Persona)
    requires |chain| > 0 && Follows(profiles, start, chain) && Operator(profiles, chain[|chain| - 1]) == Some(x)
    ensures Follows(profiles, start, chain + [x])
  {
    AfterNext(profiles, start, |chain| - 1, chain[|chain| - 1]);
    hide Operator, After;
  }

  lemma DistinctMore(xs: seq<Persona>, x: Persona)
    requires Distinct(xs) && x !in xs
    ensures Distinct(xs + [x])
  {
  }

  lemma StopsHere(profiles: map<Persona, Profile>, start: Persona, chain: seq<Persona>)
    requires |chain| > 0 && Follows(profiles, start, chain) && Operator(profiles, chain[|chain| - 1]).None?
    ensures EndsAs(profiles, start, if chain[|chain| - 1] in profiles then Principal else Dangling)
  {
    assert StopsAt(profiles, start, |chain| - 1, chain[|chain| - 1]);
  }

  lemma RoundForever(profiles: map<Persona, Profile>, start: Persona, chain: seq<Persona>, k: nat)
    requires |chain| > 1 && k < |chain| - 1 && chain[|chain| - 1] == chain[k] && Follows(profiles, start, chain)
    ensures EndsAs(profiles, start, Cycle)
  {
    hide After, Follows;
    forall m: nat ensures After(profiles, start, m).Some? { GoesRound(profiles, start, chain, k, m); }
  }

  lemma {:induction false} DistinctIsFew(xs: seq<Persona>, s: set<Persona>)
    requires Distinct(xs) && forall x :: x in xs ==> x in s
    ensures |xs| <= |s|
  {
    if |xs| > 0 {
      var n := |xs| - 1;
      assert forall x :: x in xs[..n] ==> x in s - {xs[n]};
      DistinctIsFew(xs[..n], s - {xs[n]});
    }
  }

  /** OperatorChain: visits each persona once, the last again only on a cycle, follows real links, and ends as the
      unbounded walk does, within as many links as there are profiles. */
  method OperatorChain(profiles: map<Persona, Profile>, start: Persona)
    returns (chain: seq<Persona>, terminal: Terminal)
    ensures 0 < |chain| <= |profiles| + 1
    ensures chain[0] == start && forall i :: 0 <= i < |chain| - 1 ==> Links(profiles, chain[i], chain[i + 1])
    ensures var last := chain[|chain| - 1];
      && (terminal == Principal ==> last in profiles && profiles[last].operatedBy == "")
      && (terminal == Dangling ==> last !in profiles)
    ensures Distinct(chain[..|chain| - 1]) && (chain[|chain| - 1] in chain[..|chain| - 1] <==> terminal.Cycle?)
    ensures EndsAs(profiles, start, terminal)
  {
    hide After, Follows, EndsAs, StopsAt;
    var visited: set<Persona> := {};
    chain := [start];
    FollowsStart(profiles, start);
    var current := start;
    while true
      invariant |chain| > 0 && chain[0] == start && chain[|chain| - 1] == current
      invariant Distinct(chain) && Elems(chain[..|chain| - 1]) == visited
      invariant forall i :: 0 <= i < |chain| - 1 ==> Links(profiles, chain[i], chain[i + 1])
      invariant Follows(profiles, start, chain)
      invariant forall x :: x in visited ==> x in profiles
      invariant |chain| <= |profiles| + 1
      decreases |profiles| + 1 - |chain|
    {
      var n := |chain| - 1;
      assert chain == chain[..n] + [current];
      visited := visited + {current};
      DistinctIsFew(chain[..n], profiles.Keys);
      if current !in profiles {
        StopsHere(profiles, start, chain);
        terminal := Dangling;
        return;
      }
      DistinctIsFew(chain, profiles.Keys);
      var p := profiles[current];
      if p.operatedBy == "" {
        StopsHere(profiles, start, chain);
        terminal := Principal;
        return;
      }
      FollowsMore(profiles, start, chain, p.operatedBy);
      if p.operatedBy in visited {
        ghost var before := chain;
        var k :| 0 <= k < |chain| && chain[k] == p.operatedBy;
        chain := chain + [p.operatedBy];
        terminal := Cycle;
        assert chain[..|chain| - 1] == before && chain[k] == p.operatedBy;
        RoundForever(profiles, start, chain, k);
        return;
      }
      ghost var before := chain;
      DistinctMore(chain, p.operatedBy);
      current := p.operatedBy;
      chain := chain + [current];
      assert chain[..|chain| - 1] == before;
    }
  }
}
