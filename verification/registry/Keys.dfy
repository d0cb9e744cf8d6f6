/** Persona profiles, their key chains, and what a reader makes of them (registry/profile.go, registry/chain.go). */
module Keys {
  import opened Prelude
  import opened Names

  type Persona = string
  type Key = string
  type Sig = string

  /** Ed25519 and the domain-separated statements, opaque: which signatures verify, what a rotation proof signs, and
      which strings are well-formed keys. */
  datatype Scheme = Scheme(
    verify: (Key, string, Sig) -> bool, rotationBytes: (Persona, Key) -> string,
    attestationBytes: (Persona, Persona, Key) -> string, wellFormed: Key -> bool)

  /** A signer's signatures verify under its own key. */
  datatype Signer = Signer(key: Key, sign: string -> Sig)

  ghost predicate Honest(c: Scheme, s: Signer) {
    c.wellFormed(s.key) && s.key != "" && forall m :: c.verify(s.key, m, s.sign(m)) && s.sign(m) != ""
  }

  datatype KeyInfo = KeyInfo(ed25519: Key, since: int)
  datatype Rotation = Rotation(from: Key, to: Key, proof: Sig)
  datatype Attestation = Attestation(operatedKey: Key, sig: Sig)

  datatype Profile = Profile(
    name: Persona, displayName: string, description: string, operatedBy: Persona, attestation: Option<Attestation>,
    createdAt: int, signingKey: Option<KeyInfo>, rotations: seq<Rotation>)

  /** Profile.Validate: the shape of names and key material. */
  predicate Validate(c: Scheme, p: Profile) {
    && CheckName(p.name).None?
    && (p.operatedBy != "" ==> CheckName(p.operatedBy).None? && p.operatedBy != p.name)
    && (p.attestation.Some? ==>
          p.operatedBy != "" && p.attestation.value.sig != ""
          && (p.attestation.value.operatedKey != "" ==> c.wellFormed(p.attestation.value.operatedKey)))
    && (p.signingKey.Some? ==> c.wellFormed(p.signingKey.value.ed25519))
    && (forall i :: 0 <= i < |p.rotations| ==>
       c.wellFormed(p.rotations[i].from) && c.wellFormed(p.rotations[i].to) && p.rotations[i].proof != "")
    && (p.signingKey.None? ==> p.rotations == [])
  }

  /** The checks field by field, the rotations one by one. */
  method Check(c: Scheme, p: Profile) returns (ok: bool)
    ensures ok <==> Validate(c, p)
  {
    hide CheckName;
    if CheckName(p.name).Some? { return false; }
    if p.operatedBy != "" {
      if CheckName(p.operatedBy).Some? { return false; }
      if p.operatedBy == p.name { return false; }
    }
    if p.attestation.Some? {
      if p.operatedBy == "" { return false; }
      if p.attestation.value.sig == "" { return false; }
      var k := p.attestation.value.operatedKey;
      if k != "" && !c.wellFormed(k) { return false; }
    }
    if p.signingKey.Some? && !c.wellFormed(p.signingKey.value.ed25519) { return false; }
    for i := 0 to |p.rotations|
      invariant forall j :: 0 <= j < i ==>
        c.wellFormed(p.rotations[j].from) && c.wellFormed(p.rotations[j].to) && p.rotations[j].proof != ""
    {
      var r := p.rotations[i];
      if !c.wellFormed(r.from) || !c.wellFormed(r.to) { return false; }
      if r.proof == "" { return false; }
    }
    if p.signingKey.None? && |p.rotations| > 0 { return false; }
    return true;
  }

  /** Every key a profile mentions; the empty attested key means there was none yet. */
  ghost predicate Mentions(p: Profile, k: Key) {
    || (p.signingKey.Some? && k == p.signingKey.value.ed25519)
    || (exists i :: 0 <= i < |p.rotations| && (k == p.rotations[i].from || k == p.rotations[i].to))
    || (p.attestation.Some? && k == p.attestation.value.operatedKey && k != "")
  }

  /** A profile is valid exactly when its name and its operator's are slug-grammar words of at most 64 characters, it is
      not its own operator, every key it mentions is well formed, and attestations and rotations are signed and have
      what they are about. */
  lemma ValidExactly(c: Scheme, p: Profile)
    ensures Validate(c, p) <==>
      && InGrammar(p.name) && |p.name| <= MaxNameLen && p.operatedBy != p.name
      && (p.operatedBy != "" ==> InGrammar(p.operatedBy) && |p.operatedBy| <= MaxNameLen)
      && (forall k :: Mentions(p, k) ==> c.wellFormed(k))
      && (p.attestation.Some? ==> p.operatedBy != "" && p.attestation.value.sig != "")
      && (p.rotations != [] ==> p.signingKey.Some?)
      && forall i :: 0 <= i < |p.rotations| ==> p.rotations[i].proof != ""
  {
    CheckNameIsGrammar(p.name);
    CheckNameIsGrammar(p.operatedBy);
    assert CheckName("").Some?;
    hide CheckName, InGrammar;
    if forall k :: Mentions(p, k) ==> c.wellFormed(k) {
      if p.signingKey.Some? { assert Mentions(p, p.signingKey.value.ed25519); }
      if p.attestation.Some? && p.attestation.value.operatedKey != "" {
        assert Mentions(p, p.attestation.value.operatedKey);
      }
      forall i | 0 <= i < |p.rotations| ensures c.wellFormed(p.rotations[i].from) && c.wellFormed(p.rotations[i].to) {
        assert Mentions(p, p.rotations[i].from) && Mentions(p, p.rotations[i].to);
      }
    }
  }

  // ----- chains

  /** Link `i` continues the one before it, and its proof is the previous key's word for the next. */
  predicate Linked(c: Scheme, p: Profile, i: nat)
    requires i < |p.rotations|
  {
    var r := p.rotations[i];
    && (i > 0 ==> r.from == p.rotations[i - 1].to)
    && c.verify(r.from, c.rotationBytes(p.name, r.to), r.proof)
  }

  /** The key chain is valid: contiguous, every proof verifies, and it ends at the current key. */
  predicate Chained(c: Scheme, p: Profile) {
    p.signingKey.None?
    || p.rotations == []
    || ((forall i :: 0 <= i < |p.rotations| ==> Linked(c, p, i))
       && p.rotations[|p.rotations| - 1].to == p.signingKey.value.ed25519)
  }

  /** All the keys a persona has had, oldest first. */
  function ChainOf(p: Profile): (chain: seq<Key>) {
    if p.signingKey.None? then []
    else if p.rotations == [] then [p.signingKey.value.ed25519]
    else [p.rotations[0].from] + seq(|p.rotations|, i requires 0 <= i < |p.rotations| => p.rotations[i].to)
  }

  lemma ChainTake(p: Profile, i: nat)
    requires p.signingKey.Some? && i < |p.rotations|
    ensures var chain := ChainOf(p);
      && |chain| == |p.rotations| + 1 && chain[..1] == [p.rotations[0].from]
      && chain[..i + 2] == chain[..i + 1] + [p.rotations[i].to] && chain[..|chain|] == chain
  {
  }

  lemma LinkedIs(c: Scheme, p: Profile, i: nat, prev: Key)
    requires i < |p.rotations| && prev == if i == 0 then p.rotations[0].from else p.rotations[i - 1].to
    ensures Linked(c, p, i) <==>
      p.rotations[i].from == prev
        && c.verify(p.rotations[i].from, c.rotationBytes(p.name, p.rotations[i].to), p.rotations[i].proof)
  {
  }

  method Chain(c: Scheme, p: Profile) returns (chain: Option<seq<Key>>)
    ensures chain == if Chained(c, p) then Some(ChainOf(p)) else None
  {
    if p.signingKey.None? {
      return Some([]);
    }
    if |p.rotations| == 0 {
      return Some([p.signingKey.value.ed25519]);
    }
    hide ChainOf, Linked;
    ChainTake(p, 0);
    var keys := [p.rotations[0].from];
    var prev := p.rotations[0].from;
    for i := 0 to |p.rotations|
      invariant i + 1 <= |ChainOf(p)| && keys == ChainOf(p)[..i + 1]
      invariant prev == if i == 0 then p.rotations[0].from else p.rotations[i - 1].to
      invariant forall k :: 0 <= k < i ==> Linked(c, p, k)
    {
      var r := p.rotations[i];
      LinkedIs(c, p, i, prev);
      ChainTake(p, i);
      if r.from != prev {
        return None;
      }
      if !c.verify(r.from, c.rotationBytes(p.name, r.to), r.proof) {
        return None;
      }
      keys := keys + [r.to];
      prev := r.to;
    }
    if prev != p.signingKey.value.ed25519 {
      return None;
    }
    return Some(keys);
  }

  /** In a valid chain every key after the first was vouched for by the one before it, and the last is current. */
  lemma ChainVouched(c: Scheme, p: Profile)
    requires Chained(c, p) && p.signingKey.Some?
    ensures var chain := ChainOf(p);
      && |chain| == |p.rotations| + 1 && chain[|chain| - 1] == p.signingKey.value.ed25519
      && forall i :: 0 <= i < |p.rotations| ==>
         c.verify(chain[i], c.rotationBytes(p.name, chain[i + 1]), p.rotations[i].proof)
  {
    forall i | 0 <= i < |p.rotations|
      ensures c.verify(ChainOf(p)[i], c.rotationBytes(p.name, ChainOf(p)[i + 1]), p.rotations[i].proof) {
      assert Linked(c, p, i);
    }
  }

  /** Each rotation takes one key of the chain to the next, on the word of the former, and the last key is current. */
  ghost predicate Vouches(c: Scheme, p: Profile, chain: seq<Key>) {
    && p.signingKey.Some? && |chain| == |p.rotations| + 1 && chain[|chain| - 1] == p.signingKey.value.ed25519
    && forall i :: 0 <= i < |p.rotations| ==>
         && p.rotations[i].from == chain[i] && p.rotations[i].to == chain[i + 1]
         && c.verify(chain[i], c.rotationBytes(p.name, chain[i + 1]), p.rotations[i].proof)
  }

  /** The chain is valid exactly when there is no key, or some sequence of keys is vouched for from end to end; and then
      it is that sequence. */
  lemma ChainedExactly(c: Scheme, p: Profile)
    ensures Chained(c, p) <==> p.signingKey.None? || exists chain :: Vouches(c, p, chain)
    ensures p.signingKey.None? ==> ChainOf(p) == []
    ensures forall chain :: Vouches(c, p, chain) ==> chain == ChainOf(p)
  {
    forall chain | Vouches(c, p, chain) ensures chain == ChainOf(p) && Chained(c, p) {
      assert |ChainOf(p)| == |chain|;
      forall i | 0 <= i < |chain| ensures chain[i] == ChainOf(p)[i] {
        if i > 0 { assert p.rotations[i - 1].to == chain[i]; }
      }
      forall i | 0 <= i < |p.rotations| ensures Linked(c, p, i) {
        assert p.rotations[i].from == chain[i] && p.rotations[i].to == chain[i + 1];
        if i > 0 { assert p.rotations[i - 1].to == chain[i]; }
      }
    }
    if Chained(c, p) && p.signingKey.Some? {
      forall i | 0 <= i < |p.rotations|
        ensures c.verify(p.rotations[i].from, c.rotationBytes(p.name, p.rotations[i].to), p.rotations[i].proof)
          && (i > 0 ==> p.rotations[i].from == p.rotations[i - 1].to) {
        assert Linked(c, p, i);
      }
      assert Vouches(c, p, ChainOf(p));
    }
  }

  // ----- pins

  method IsPrefix(pin: seq<Key>, chain: seq<Key>) returns (b: bool)
    ensures b <==> pin <= chain
  {
    if |pin| > |chain| {
      return false;
    }
    for i := 0 to |pin|
      invariant pin[..i] == chain[..i]
    {
      if pin[i] != chain[i] {
        return false;
      }
    }
    return true;
  }

  datatype Keyring = Keyring(keys: map<Persona, seq<Key>>, distrusted: set<Persona>)
  datatype Reading = Reading(ring: Keyring, pins: map<Persona, seq<Key>>)

  function PinOf(pins: map<Persona, seq<Key>>, persona: Persona): seq<Key> {
    if persona in pins then pins[persona] else []
  }

  function Distrust(r: Reading, persona: Persona): Reading {
    r.(ring := Keyring(r.ring.keys - {persona}, r.ring.distrusted + {persona}))
  }

  /** What one profile does to a reading. */
  function Meet(c: Scheme, r: Reading, p: Profile): Reading {
    if !Chained(c, p) then Distrust(r, p.name)
    else if ChainOf(p) == [] then (if PinOf(r.pins, p.name) != [] then Distrust(r, p.name) else r)
    else if !(PinOf(r.pins, p.name) <= ChainOf(p)) then Distrust(r, p.name)
    else Reading(r.ring.(keys := r.ring.keys[p.name := ChainOf(p)]), r.pins[p.name := ChainOf(p)])
  }

  function Reconcile(c: Scheme, profiles: seq<Profile>, pins: map<Persona, seq<Key>>): Reading {
    if |profiles| == 0 then Reading(Keyring(pins, {}), pins)
    else Meet(c, Reconcile(c, profiles[..|profiles| - 1], pins), profiles[|profiles| - 1])
  }

  method BuildKeyring(c: Scheme, profiles: seq<Profile>, pinned: map<Persona, seq<Key>>)
    returns (ring: Keyring, newPins: map<Persona, seq<Key>>)
    ensures Reading(ring, newPins) == Reconcile(c, profiles, pinned)
  {
    var keys, distrusted := pinned, {};
    newPins := pinned;
    for i := 0 to |profiles|
      invariant Reading(Keyring(keys, distrusted), newPins) == Reconcile(c, profiles[..i], pinned)
    {
      var p := profiles[i];
      assert profiles[..i + 1][..i] == profiles[..i];
      var chain := Chain(c, p);
      if chain.None? {
        distrusted := distrusted + {p.name};
        keys := keys - {p.name};
      } else if |chain.value| == 0 {
        if p.name in newPins && |newPins[p.name]| > 0 {
          distrusted := distrusted + {p.name};
          keys := keys - {p.name};
        }
      } else {
        var pin := if p.name in newPins then newPins[p.name] else [];
        var prefix := IsPrefix(pin, chain.value);
        if !prefix {
          distrusted := distrusted + {p.name};
          keys := keys - {p.name};
        } else {
          keys := keys[p.name := chain.value];
          newPins := newPins[p.name := chain.value];
        }
      }
    }
    assert profiles[..|profiles|] == profiles;
    ring := Keyring(keys, distrusted);
  }

  /** Whatever the directory holds, duplicates and forgeries included, a pin is only ever replaced by a chain it is a
      prefix of. */
  lemma {:induction false} PinsOnlyGrow(c: Scheme, profiles: seq<Profile>, pins: map<Persona, seq<Key>>,
                                        persona: Persona)
    requires persona in pins
    ensures var after := Reconcile(c, profiles, pins).pins; persona in after && pins[persona] <= after[persona]
  {
    if |profiles| > 0 { PinsOnlyGrow(c, profiles[..|profiles| - 1], pins, persona); }
  }

  ghost predicate DistinctNames(profiles: seq<Profile>) {
    forall i, j :: 0 <= i < j < |profiles| ==> profiles[i].name != profiles[j].name
  }

  /** What a reader decides about one published profile. */
  ghost predicate Trusted(c: Scheme, p: Profile, pins: map<Persona, seq<Key>>) {
    Chained(c, p) && PinOf(pins, p.name) <= ChainOf(p)
  }

  /** A profile is nothing to anybody else. */
  lemma MeetOther(c: Scheme, r: Reading, p: Profile, persona: Persona)
    requires p.name != persona
    ensures var m := Meet(c, r, p);
      && (persona in m.ring.distrusted <==> persona in r.ring.distrusted)
      && (persona in m.ring.keys <==> persona in r.ring.keys)
         && (persona in r.ring.keys ==> m.ring.keys[persona] == r.ring.keys[persona])
      && (persona in m.pins <==> persona in r.pins) && (persona in r.pins ==> m.pins[persona] == r.pins[persona])
  {
    hide Chained, ChainOf;
  }

  lemma MeetOwn(c: Scheme, r: Reading, p: Profile, pins: map<Persona, seq<Key>>)
    requires p.name !in r.ring.distrusted && PinOf(r.pins, p.name) == PinOf(pins, p.name) == PinOf(r.ring.keys, p.name)
    ensures Settled(c, p, pins, Meet(c, r, p))
  {
    hide Chained, ChainOf;
  }

  /** Trusted and re-pinned to the whole chain, or distrusted, keyless and the pin kept. */
  ghost predicate Settled(c: Scheme, p: Profile, pins: map<Persona, seq<Key>>, r: Reading) {
    && (p.name in r.ring.distrusted <==> !Trusted(c, p, pins))
    && (!Trusted(c, p, pins) ==> p.name !in r.ring.keys && PinOf(r.pins, p.name) == PinOf(pins, p.name))
    && (Trusted(c, p, pins) ==> PinOf(r.pins, p.name) == ChainOf(p) && PinOf(r.ring.keys, p.name) == ChainOf(p))
  }

  lemma {:induction false} Untouched(c: Scheme, profiles: seq<Profile>, pins: map<Persona, seq<Key>>, persona: Persona)
    requires forall i :: 0 <= i < |profiles| ==> profiles[i].name != persona
    ensures var r := Reconcile(c, profiles, pins);
      && persona !in r.ring.distrusted
      && (persona in r.pins <==> persona in pins) && (persona in pins ==> r.pins[persona] == pins[persona])
      && (persona in r.ring.keys <==> persona in pins) && (persona in pins ==> r.ring.keys[persona] == pins[persona])
  {
    if |profiles| > 0 {
      var n := |profiles| - 1;
      assert profiles[n].name != persona;
      Untouched(c, profiles[..n], pins, persona);
      hide Meet;
      MeetOther(c, Reconcile(c, profiles[..n], pins), profiles[n], persona);
    }
  }

  /** With distinct names, each persona's fate depends on its own profile and pin alone: trusted and re-pinned to the
      whole chain exactly when the chain is valid and extends the pin; otherwise distrusted, keyless, and the pin stays
      as evidence. */
  lemma {:induction false} EachOnItsOwn(c: Scheme, profiles: seq<Profile>, pins: map<Persona, seq<Key>>, i: nat)
    requires DistinctNames(profiles) && i < |profiles|
    ensures Settled(c, profiles[i], pins, Reconcile(c, profiles, pins))
  {
    var n := |profiles| - 1;
    hide Meet, Trusted, Chained, ChainOf;
    if i == n {
      Untouched(c, profiles[..n], pins, profiles[n].name);
      hide Settled;
      MeetOwn(c, Reconcile(c, profiles[..n], pins), profiles[n], pins);
    } else {
      assert profiles[i].name != profiles[n].name;
      EachOnItsOwn(c, profiles[..n], pins, i);
      MeetOther(c, Reconcile(c, profiles[..n], pins), profiles[n], profiles[i].name);
    }
  }

  /** The `i`-th profile is trusted against the pins as they are when it is met. */
  ghost predicate TrustedWhenMet(c: Scheme, profiles: seq<Profile>, pins: map<Persona, seq<Key>>, i: nat)
    requires i < |profiles|
  {
    Trusted(c, profiles[i], Reconcile(c, profiles[..i], pins).pins)
  }

  /** Some profile of this name is refused. */
  ghost predicate Refused(c: Scheme, profiles: seq<Profile>, pins: map<Persona, seq<Key>>, name: Persona, i: nat) {
    i < |profiles| && profiles[i].name == name && !TrustedWhenMet(c, profiles, pins, i)
  }

  /** The `j`-th profile hands its keys to this name, and none after it is refused. */
  ghost predicate KeyedLast(c: Scheme, profiles: seq<Profile>, pins: map<Persona, seq<Key>>, name: Persona, j: nat) {
    && j < |profiles| && profiles[j].name == name && TrustedWhenMet(c, profiles, pins, j) && ChainOf(profiles[j]) != []
    && forall k :: j < k ==> !Refused(c, profiles, pins, name, k)
  }

  lemma RefusedSooner(c: Scheme, profiles: seq<Profile>, pins: map<Persona, seq<Key>>, name: Persona, i: nat)
    requires i + 1 < |profiles|
    ensures TrustedWhenMet(c, profiles, pins, i) <==> TrustedWhenMet(c, profiles[..|profiles| - 1], pins, i)
    ensures Refused(c, profiles, pins, name, i) <==> Refused(c, profiles[..|profiles| - 1], pins, name, i)
  {
    assert profiles[..|profiles| - 1][..i] == profiles[..i];
    hide Reconcile, Trusted;
  }

  lemma RefusedBelow(c: Scheme, profiles: seq<Profile>, pins: map<Persona, seq<Key>>, name: Persona)
    ensures forall k: nat :: Refused(c, profiles, pins, name, k) ==> k < |profiles|
  {
    hide TrustedWhenMet;
  }

  lemma KeyedSooner(c: Scheme, profiles: seq<Profile>, pins: map<Persona, seq<Key>>, name: Persona, j: nat)
    requires j + 1 < |profiles|
    ensures KeyedLast(c, profiles, pins, name, j) <==>
            KeyedLast(c, profiles[..|profiles| - 1], pins, name, j) && !Refused(c, profiles, pins, name, |profiles| - 1)
  {
    var n := |profiles| - 1;
    RefusedBelow(c, profiles, pins, name);
    RefusedBelow(c, profiles[..n], pins, name);
    hide Refused, TrustedWhenMet, ChainOf;
    forall k: nat | k < n ensures Refused(c, profiles, pins, name, k) <==> Refused(c, profiles[..n], pins, name, k) {
      RefusedSooner(c, profiles, pins, name, k);
    }
    RefusedSooner(c, profiles, pins, name, j);
  }

  ghost predicate SomeRefused(c: Scheme, profiles: seq<Profile>, pins: map<Persona, seq<Key>>, name: Persona) {
    exists i :: Refused(c, profiles, pins, name, i)
  }

  ghost predicate SomeKeyed(c: Scheme, profiles: seq<Profile>, pins: map<Persona, seq<Key>>, name: Persona) {
    exists j :: KeyedLast(c, profiles, pins, name, j)
  }

  lemma SomeRefusedStep(c: Scheme, profiles: seq<Profile>, pins: map<Persona, seq<Key>>, name: Persona)
    requires |profiles| > 0
    ensures var n := |profiles| - 1;
      SomeRefused(c, profiles, pins, name) <==>
        SomeRefused(c, profiles[..n], pins, name) || Refused(c, profiles, pins, name, n)
  {
    var n := |profiles| - 1;
    RefusedBelow(c, profiles, pins, name);
    RefusedBelow(c, profiles[..n], pins, name);
    hide Refused;
    forall k: nat | k < n ensures Refused(c, profiles, pins, name, k) <==> Refused(c, profiles[..n], pins, name, k) {
      RefusedSooner(c, profiles, pins, name, k);
    }
  }

  lemma KeyedBelow(c: Scheme, profiles: seq<Profile>, pins: map<Persona, seq<Key>>, name: Persona)
    ensures forall j: nat :: KeyedLast(c, profiles, pins, name, j) ==> j < |profiles|
  {
    hide Refused, TrustedWhenMet, ChainOf;
  }

  lemma SomeKeyedStep(c: Scheme, profiles: seq<Profile>, pins: map<Persona, seq<Key>>, name: Persona)
    requires |profiles| > 0
    ensures var n := |profiles| - 1;
      SomeKeyed(c, profiles, pins, name) <==>
      (SomeKeyed(c, profiles[..n], pins, name) && !Refused(c, profiles, pins, name, n))
        || KeyedLast(c, profiles, pins, name, n)
  {
    var n := |profiles| - 1;
    KeyedBelow(c, profiles, pins, name);
    KeyedBelow(c, profiles[..n], pins, name);
    hide Refused, KeyedLast;
    forall j: nat | j < n
      ensures KeyedLast(c, profiles, pins, name, j) <==>
              KeyedLast(c, profiles[..n], pins, name, j) && !Refused(c, profiles, pins, name, n) {
      KeyedSooner(c, profiles, pins, name, j);
    }
  }

  /** The last profile, refused or the bearer of keys. */
  lemma LastVerdict(c: Scheme, profiles: seq<Profile>, pins: map<Persona, seq<Key>>, name: Persona)
    requires |profiles| > 0
    ensures var n := |profiles| - 1; var r, p := Reconcile(c, profiles[..n], pins), profiles[n];
      && Reconcile(c, profiles, pins) == Meet(c, r, p)
      && (Refused(c, profiles, pins, name, n) <==> p.name == name && !Trusted(c, p, r.pins))
      && (KeyedLast(c, profiles, pins, name, n) <==> p.name == name && Trusted(c, p, r.pins) && ChainOf(p) != [])
  {
    RefusedBelow(c, profiles, pins, name);
    hide Meet, Trusted, ChainOf;
  }

  /** What one profile does to its own name. */
  lemma MeetVerdict(c: Scheme, r: Reading, p: Profile)
    ensures var m := Meet(c, r, p);
      && (p.name in m.ring.distrusted <==> p.name in r.ring.distrusted || !Trusted(c, p, r.pins))
      && (p.name in m.ring.keys <==> Trusted(c, p, r.pins) && (p.name in r.ring.keys || ChainOf(p) != []))
  {
    hide Chained, ChainOf;
  }

  /** A name ends up distrusted exactly when some profile of it is refused, and keyed exactly when the last word on it
      is a trusted chain or an undisputed pin. */
  lemma {:induction false} Verdicts(c: Scheme, profiles: seq<Profile>, pins: map<Persona, seq<Key>>, name: Persona)
    ensures var ring := Reconcile(c, profiles, pins).ring;
      && (name in ring.distrusted <==> SomeRefused(c, profiles, pins, name))
      && (name in ring.keys <==>
          SomeKeyed(c, profiles, pins, name) || (name in pins && !SomeRefused(c, profiles, pins, name)))
  {
    if |profiles| == 0 {
      RefusedBelow(c, profiles, pins, name);
      KeyedBelow(c, profiles, pins, name);
    } else {
      var n := |profiles| - 1;
      hide Reconcile, Meet, Trusted, ChainOf, Refused, KeyedLast, SomeRefused, SomeKeyed;
      Verdicts(c, profiles[..n], pins, name);
      LastVerdict(c, profiles, pins, name);
      SomeRefusedStep(c, profiles, pins, name);
      SomeKeyedStep(c, profiles, pins, name);
      var r, p := Reconcile(c, profiles[..n], pins), profiles[n];
      if p.name == name { MeetVerdict(c, r, p); } else { MeetOther(c, r, p, name); }
    }
  }

  /** With duplicate names a persona can be distrusted and keyed at once, and is exactly when some profile of it is
      refused, a later one is trusted with keys, and none after that one is refused. */
  lemma ContradictedExactly(c: Scheme, profiles: seq<Profile>, pins: map<Persona, seq<Key>>, name: Persona)
    ensures var ring := Reconcile(c, profiles, pins).ring;
      name in ring.distrusted && name in ring.keys <==>
      exists i, j :: i < j && Refused(c, profiles, pins, name, i) && KeyedLast(c, profiles, pins, name, j)
  {
    Verdicts(c, profiles, pins, name);
    hide Reconcile, TrustedWhenMet, ChainOf;
    if SomeRefused(c, profiles, pins, name) && SomeKeyed(c, profiles, pins, name) {
      var i: nat :| Refused(c, profiles, pins, name, i);
      var j: nat :| KeyedLast(c, profiles, pins, name, j);
      assert i < j;
    }
  }

  /** With two profiles under one name the verdict can contradict itself: distrusted by one, keyed by the other. */
  lemma DuplicateContradicts(c: Scheme, name: Persona, good: Key, bad: Key)
    requires good != bad
    ensures var p := Profile(name, "", "", "", None, 0, Some(KeyInfo(good, 0)), []);
      var q := p.(signingKey := Some(KeyInfo(bad, 0)));
      var r := Reconcile(c, [q, p], map[name := [good]]);
      name in r.ring.distrusted && name in r.ring.keys
  {
    var p := Profile(name, "", "", "", None, 0, Some(KeyInfo(good, 0)), []);
    var q := p.(signingKey := Some(KeyInfo(bad, 0)));
    var pins := map[name := [good]];
    var none := Reading(Keyring(pins, {}), pins);
    assert [q, p][..1] == [q] && [q][..0] == [];
    assert Reconcile(c, [], pins) == none;
    assert Chained(c, q) && Chained(c, p) && ChainOf(q) == [bad] && ChainOf(p) == [good];
    assert [good][0] != [bad][0] && PinOf(pins, name) == [good];
    var once := Meet(c, none, q);
    assert once == Distrust(none, name);
    assert Reconcile(c, [q], pins) == once;
    var twice := Meet(c, once, p);
    assert twice.ring.keys == once.ring.keys[name := [good]];
    assert Reconcile(c, [q, p], pins) == twice;
  }

  /** Where nobody is distrusted the keyring is the pins. */
  lemma {:induction false} KeysArePins(c: Scheme, profiles: seq<Profile>, pins: map<Persona, seq<Key>>)
    ensures var r := Reconcile(c, profiles, pins); r.ring.distrusted == {} ==> r.ring.keys == r.pins
  {
    if |profiles| > 0 {
      hide Chained, ChainOf;
      KeysArePins(c, profiles[..|profiles| - 1], pins);
    }
  }
}
