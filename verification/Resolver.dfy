// Which addresses a connect tries, and in what order.

module Resolver {
  import opened Options

  datatype AddressKind = Lan | Tailscale | Public | JumpHost | Manual

  datatype Address = Address(kind: AddressKind, host: string, port: nat, priority: int, enabled: bool)

  datatype Candidate = Candidate(address: Address, proxy: Option<string>)
  {
    // Two candidates are the same endpoint when port and host agree.
    function Key(): (nat, string) { (address.port, address.host) }
  }

  datatype Policy = Policy(preferTailscale: bool, allowPublicFallback: bool)

  const I32_MIN := -0x8000_0000
  const I32_MAX := 0x7FFF_FFFF

  predicate IsI32(n: int) { I32_MIN <= n <= I32_MAX }

  // Negation of an `i32` in a release build: the smallest value is its own negation.
  function Negated(n: int): int { if n == I32_MIN then I32_MIN else -n }

  function Score(kind: AddressKind, policy: Policy): int {
    match kind
    case Manual => 0
    case Tailscale => if policy.preferTailscale then 1 else 3
    case Lan => 2
    case Public => if policy.allowPublicFallback then 4 else 99
    case JumpHost => 5
  }

  // The classes from the most to the least preferred.
  function Preference(policy: Policy): seq<AddressKind> {
    [Manual] + (if policy.preferTailscale then [Tailscale, Lan] else [Lan, Tailscale])
    + (if policy.allowPublicFallback then [Public, JumpHost] else [JumpHost, Public])
  }

  // A lower score is a more preferred class: all five, no two alike.
  lemma ScoreFollowsPreference(policy: Policy)
    ensures |Preference(policy)| == 5 && forall kind :: kind in Preference(policy)
    ensures forall i, j | 0 <= i < j < 5 :: Score(Preference(policy)[i], policy) < Score(Preference(policy)[j], policy)
  {
    var p := Preference(policy);
    assert p[0] == Manual;
    forall kind ensures kind in p {
      match kind
      case Manual => assert p[0] == Manual;
      case Tailscale => assert p[if policy.preferTailscale then 1 else 2] == Tailscale;
      case Lan => assert p[if policy.preferTailscale then 2 else 1] == Lan;
      case Public => assert p[if policy.allowPublicFallback then 3 else 4] == Public;
      case JumpHost => assert p[if policy.allowPublicFallback then 4 else 3] == JumpHost;
    }
  }

  datatype SortKey = SortKey(score: int, negatedPriority: int)

  function KeyOf(c: Candidate, policy: Policy): SortKey {
    SortKey(Score(c.address.kind, policy), Negated(c.address.priority))
  }

  predicate Before(a: SortKey, b: SortKey) {
    a.score < b.score || (a.score == b.score && a.negatedPriority < b.negatedPriority)
  }

  // Within a class the higher priority comes first, except that the smallest 32-bit
  // value wraps and comes first of all.
  lemma HigherPriorityFirstIff(p: int, q: int)
    requires IsI32(p) && IsI32(q)
    ensures (Negated(p) < Negated(q) <==> p > q) <==> (p == q || (p != I32_MIN && q != I32_MIN))
  {
  }

  // ---------------------------------------------------------------- stable sort

  function WithKey(cs: seq<Candidate>, key: SortKey, policy: Policy): seq<Candidate> {
    if cs == [] then []
    else (if KeyOf(cs[0], policy) == key then [cs[0]] else []) + WithKey(cs[1..], key, policy)
  }

  ghost predicate Sorted(cs: seq<Candidate>, policy: Policy) {
    forall i, j | 0 <= i < j < |cs| :: !Before(KeyOf(cs[j], policy), KeyOf(cs[i], policy))
  }

  // A newcomer goes before the first one it is strictly before; it came last.
  function Insert(c: Candidate, cs: seq<Candidate>, policy: Policy): seq<Candidate> {
    if cs == [] then [c]
    else if Before(KeyOf(c, policy), KeyOf(cs[0], policy)) then [c] + cs
    else [cs[0]] + Insert(c, cs[1..], policy)
  }

  function StableSort(cs: seq<Candidate>, policy: Policy): seq<Candidate> {
    if cs == [] then []
    else Insert(cs[|cs| - 1], StableSort(cs[..|cs| - 1], policy), policy)
  }

  lemma {:induction false} InsertKeepsAll(c: Candidate, cs: seq<Candidate>, policy: Policy)
    ensures multiset(Insert(c, cs, policy)) == multiset(cs) + multiset{c}
  {
    if cs != [] {
      assert cs == [cs[0]] + cs[1..];
      if !Before(KeyOf(c, policy), KeyOf(cs[0], policy)) {
        InsertKeepsAll(c, cs[1..], policy);
      }
    }
  }

  lemma {:induction false} InsertKeepsSorted(c: Candidate, cs: seq<Candidate>, policy: Policy)
    requires Sorted(cs, policy)
    ensures Sorted(Insert(c, cs, policy), policy)
    ensures forall x | x in Insert(c, cs, policy) :: x == c || x in cs
  {
    if cs != [] && !Before(KeyOf(c, policy), KeyOf(cs[0], policy)) {
      var rest := Insert(c, cs[1..], policy);
      InsertKeepsSorted(c, cs[1..], policy);
      forall j | 0 <= j < |rest| ensures !Before(KeyOf(rest[j], policy), KeyOf(cs[0], policy)) {
        assert rest[j] in rest;
      }
    }
  }

  lemma {:induction false} InsertKeepsTies(c: Candidate, cs: seq<Candidate>, policy: Policy, key: SortKey)
    requires Sorted(cs, policy)
    ensures WithKey(Insert(c, cs, policy), key, policy)
         == WithKey(cs, key, policy) + (if KeyOf(c, policy) == key then [c] else [])
  {
    if cs == [] {
    } else if Before(KeyOf(c, policy), KeyOf(cs[0], policy)) {
      assert ([c] + cs)[1..] == cs;
      NoneAfter(c, cs, policy);
    } else {
      InsertKeepsTies(c, cs[1..], policy, key);
      assert ([cs[0]] + Insert(c, cs[1..], policy))[1..] == Insert(c, cs[1..], policy);
    }
  }

  // Nothing sorted after a strictly later candidate ties with an earlier one.
  lemma {:induction false} NoneAfter(c: Candidate, cs: seq<Candidate>, policy: Policy)
    requires forall i | 0 <= i < |cs| :: !Before(KeyOf(cs[i], policy), KeyOf(cs[0], policy))
    requires cs != [] ==> Before(KeyOf(c, policy), KeyOf(cs[0], policy))
    ensures WithKey(cs, KeyOf(c, policy), policy) == []
  {
    NoneEqual(cs, KeyOf(c, policy), policy);
  }

  lemma {:induction false} NoneEqual(cs: seq<Candidate>, key: SortKey, policy: Policy)
    requires forall i | 0 <= i < |cs| :: KeyOf(cs[i], policy) != key
    ensures WithKey(cs, key, policy) == []
  {
    if cs != [] { NoneEqual(cs[1..], key, policy); }
  }

  lemma {:induction false} WithKeySnoc(cs: seq<Candidate>, c: Candidate, key: SortKey, policy: Policy)
    ensures WithKey(cs + [c], key, policy) == WithKey(cs, key, policy) + (if KeyOf(c, policy) == key then [c] else [])
  {
    if cs != [] {
      assert (cs + [c])[1..] == cs[1..] + [c];
      WithKeySnoc(cs[1..], c, key, policy);
    }
  }

  // The sort keeps the candidates, orders them, and leaves ties in their order.
  lemma {:induction false} StableSortIsStable(cs: seq<Candidate>, policy: Policy, key: SortKey)
    ensures multiset(StableSort(cs, policy)) == multiset(cs)
    ensures Sorted(StableSort(cs, policy), policy)
    ensures WithKey(StableSort(cs, policy), key, policy) == WithKey(cs, key, policy)
  {
    if cs != [] {
      var earlier, last := cs[..|cs| - 1], cs[|cs| - 1];
      assert cs == earlier + [last];
      StableSortIsStable(earlier, policy, key);
      InsertKeepsAll(last, StableSort(earlier, policy), policy);
      InsertKeepsSorted(last, StableSort(earlier, policy), policy);
      InsertKeepsTies(last, StableSort(earlier, policy), policy, key);
      WithKeySnoc(earlier, last, key, policy);
    }
  }

  // Order and ties determine the result: any stable sort returns this sequence.
  lemma {:induction false} StableSortIsUnique(a: seq<Candidate>, b: seq<Candidate>, policy: Policy)
    requires Sorted(a, policy) && Sorted(b, policy)
    requires forall key :: WithKey(a, key, policy) == WithKey(b, key, policy)
    ensures a == b
  {
    if a == [] && b == [] {
    } else if a == [] || b == [] {
      var c := if a == [] then b[0] else a[0];
      assert WithKey(a, KeyOf(c, policy), policy) != WithKey(b, KeyOf(c, policy), policy);
    } else {
      SmallestFirst(a, b, policy);
      SmallestFirst(b, a, policy);
      assert KeyOf(a[0], policy) == KeyOf(b[0], policy);
      assert WithKey(a, KeyOf(a[0], policy), policy)[0] == a[0];
      assert WithKey(b, KeyOf(a[0], policy), policy)[0] == b[0];
      forall key ensures WithKey(a[1..], key, policy) == WithKey(b[1..], key, policy) {
        var head := if KeyOf(a[0], policy) == key then [a[0]] else [];
        assert WithKey(a, key, policy) == head + WithKey(a[1..], key, policy);
        assert WithKey(b, key, policy) == head + WithKey(b[1..], key, policy);
        assert WithKey(a[1..], key, policy) == WithKey(a, key, policy)[|head|..];
        assert WithKey(b[1..], key, policy) == WithKey(b, key, policy)[|head|..];
      }
      StableSortIsUnique(a[1..], b[1..], policy);
    }
  }

  lemma {:induction false} WithKeyMember(cs: seq<Candidate>, key: SortKey, policy: Policy) returns (i: nat)
    requires WithKey(cs, key, policy) != []
    ensures i < |cs| && KeyOf(cs[i], policy) == key
  {
    if KeyOf(cs[0], policy) == key {
      i := 0;
    } else {
      i := WithKeyMember(cs[1..], key, policy);
      i := i + 1;
    }
  }

  lemma SmallestFirst(a: seq<Candidate>, b: seq<Candidate>, policy: Policy)
    requires a != [] && b != [] && Sorted(a, policy)
    requires forall key :: WithKey(a, key, policy) == WithKey(b, key, policy)
    ensures !Before(KeyOf(b[0], policy), KeyOf(a[0], policy))
  {
    assert WithKey(b, KeyOf(b[0], policy), policy) != [];
    var i := WithKeyMember(a, KeyOf(b[0], policy), policy);
  }

  // In the sorted list: of two candidates of one score the one of higher priority comes first,
  // unless the lower priority is the minimum, which comes before all others.
  lemma HigherPrioritySortsFirst(cs: seq<Candidate>, policy: Policy, i: nat, j: nat)
    requires var r := StableSort(cs, policy);
             && i < |r| && j < |r| && IsI32(r[i].address.priority) && IsI32(r[j].address.priority)
             && Score(r[i].address.kind, policy) == Score(r[j].address.kind, policy)
             && r[i].address.priority > r[j].address.priority
    ensures i < j <==> StableSort(cs, policy)[j].address.priority != I32_MIN
  {
    var r := StableSort(cs, policy);
    StableSortIsStable(cs, policy, KeyOf(r[i], policy));
    HigherPriorityFirstIff(r[i].address.priority, r[j].address.priority);
    assert i < j ==> !Before(KeyOf(r[j], policy), KeyOf(r[i], policy));
    assert j < i ==> !Before(KeyOf(r[i], policy), KeyOf(r[j], policy));
  }

  // ---------------------------------------------------------------- deduplication

  function KeySet(cs: seq<Candidate>): set<(nat, string)> {
    set i | 0 <= i < |cs| :: cs[i].Key()
  }

  // Endpoints in first-seen order.
  function Keys(cs: seq<Candidate>): seq<(nat, string)> {
    if cs == [] then []
    else
      var earlier, key := Keys(cs[..|cs| - 1]), cs[|cs| - 1].Key();
      if key in earlier then earlier else earlier + [key]
  }

  // The first candidate for an endpoint that carries a proxy, else the first.
  function FirstProxied(cs: seq<Candidate>, key: (nat, string)): Option<Candidate> {
    if cs == [] then None
    else if cs[0].Key() == key && cs[0].proxy.Some? then Some(cs[0])
    else FirstProxied(cs[1..], key)
  }

  function First(cs: seq<Candidate>, key: (nat, string)): Option<Candidate> {
    if cs == [] then None
    else if cs[0].Key() == key then Some(cs[0])
    else First(cs[1..], key)
  }

  function Winner(cs: seq<Candidate>, key: (nat, string)): Option<Candidate> {
    var proxied := FirstProxied(cs, key);
    if proxied.Some? then proxied else First(cs, key)
  }

  ghost predicate IsMerged(out: seq<Candidate>, cs: seq<Candidate>) {
    && |out| == |Keys(cs)|
    && forall i | 0 <= i < |out| :: out[i].Key() == Keys(cs)[i] && Winner(cs, Keys(cs)[i]) == Some(out[i])
  }

  lemma {:induction false} KeysAreDistinct(cs: seq<Candidate>)
    ensures forall i, j | 0 <= i < j < |Keys(cs)| :: Keys(cs)[i] != Keys(cs)[j]
    ensures forall key :: key in Keys(cs) <==> key in KeySet(cs)
  {
    if cs != [] {
      var earlier := cs[..|cs| - 1];
      KeysAreDistinct(earlier);
      assert cs == earlier + [cs[|cs| - 1]];
      assert KeySet(cs) == KeySet(earlier) + {cs[|cs| - 1].Key()};
    }
  }

  lemma {:induction false} WinnerSnoc(cs: seq<Candidate>, c: Candidate, key: (nat, string))
    ensures FirstProxied(cs + [c], key)
         == if FirstProxied(cs, key).Some? then FirstProxied(cs, key)
            else if c.Key() == key && c.proxy.Some? then Some(c) else None
    ensures First(cs + [c], key)
         == if First(cs, key).Some? then First(cs, key) else if c.Key() == key then Some(c) else None
  {
    if cs != [] {
      assert (cs + [c])[1..] == cs[1..] + [c];
      WinnerSnoc(cs[1..], c, key);
    }
  }

  lemma {:induction false} FirstOf(cs: seq<Candidate>, key: (nat, string))
    ensures First(cs, key).Some? <==> key in KeySet(cs)
    ensures First(cs, key).Some? ==> First(cs, key).value.Key() == key
    ensures FirstProxied(cs, key).Some? ==>
              FirstProxied(cs, key).value.Key() == key && FirstProxied(cs, key).value.proxy.Some?
                  && First(cs, key).Some?
    ensures FirstProxied(cs, key).None? && First(cs, key).Some? ==> First(cs, key).value.proxy.None?
  {
    if cs != [] {
      FirstOf(cs[1..], key);
      assert forall i | 0 <= i < |cs| - 1 :: cs[1..][i] == cs[i + 1];
      assert KeySet(cs) == {cs[0].Key()} + KeySet(cs[1..]);
    }
  }

  // How one more candidate changes an endpoint's winner.
  lemma WinnerAfter(cs: seq<Candidate>, c: Candidate, key: (nat, string))
    ensures Winner(cs, key).Some? <==> key in KeySet(cs)
    ensures Winner(cs + [c], key)
         == if c.Key() != key then Winner(cs, key)
            else if Winner(cs, key).None? || (Winner(cs, key).value.proxy.None? && c.proxy.Some?) then Some(c)
            else Winner(cs, key)
  {
    WinnerSnoc(cs, c, key);
    FirstOf(cs, key);
  }

  lemma KeysAfter(cs: seq<Candidate>, c: Candidate)
    ensures Keys(cs + [c]) == if c.Key() in KeySet(cs) then Keys(cs) else Keys(cs) + [c.Key()]
  {
    KeysAreDistinct(cs);
    assert (cs + [c])[..|cs|] == cs;
  }

  lemma MergedWithNew(out: seq<Candidate>, cs: seq<Candidate>, c: Candidate)
    requires IsMerged(out, cs) && c.Key() !in KeySet(cs)
    ensures IsMerged(out + [c], cs + [c])
  {
    KeysAfter(cs, c);
    KeysAreDistinct(cs);
    WinnerAfter(cs, c, c.Key());
    forall i | 0 <= i < |out| ensures Winner(cs + [c], Keys(cs)[i]) == Some(out[i]) {
      assert Keys(cs)[i] in KeySet(cs);
      WinnerAfter(cs, c, Keys(cs)[i]);
    }
  }

  // A known endpoint gains the newcomer's proxy if it has none.
  function Upgraded(out: seq<Candidate>, c: Candidate, k: nat): seq<Candidate>
    requires k < |out|
  {
    if out[k].proxy.None? && c.proxy.Some? then out[k := c] else out
  }

  lemma MergedWithKnown(out: seq<Candidate>, cs: seq<Candidate>, c: Candidate, k: nat)
    requires IsMerged(out, cs) && k < |out| && out[k].Key() == c.Key()
    ensures IsMerged(Upgraded(out, c, k), cs + [c])
  {
    KeysAreDistinct(cs);
    assert Keys(cs)[k] in Keys(cs);
    KeysAfter(cs, c);
    forall i | 0 <= i < |out| ensures Winner(cs + [c], Keys(cs)[i]) == Some(Upgraded(out, c, k)[i]) {
      WinnerAfter(cs, c, Keys(cs)[i]);
    }
  }

  lemma KnownIsPresent(out: seq<Candidate>, cs: seq<Candidate>, key: (nat, string))
    requires IsMerged(out, cs) && key in KeySet(cs)
    ensures exists k :: 0 <= k < |out| && out[k].Key() == key
  {
    KeysAreDistinct(cs);
    var k :| 0 <= k < |Keys(cs)| && Keys(cs)[k] == key;
    assert out[k].Key() == key;
  }

  lemma KeysHaveWinners(cs: seq<Candidate>)
    ensures forall key | key in Keys(cs) :: Winner(cs, key).Some? && Winner(cs, key).value.Key() == key
  {
    KeysAreDistinct(cs);
    forall key | key in Keys(cs) ensures Winner(cs, key).Some? && Winner(cs, key).value.Key() == key {
      FirstOf(cs, key);
    }
  }

  // One candidate per endpoint, in first-seen order.
  function Merged(cs: seq<Candidate>): (out: seq<Candidate>)
    ensures IsMerged(out, cs)
  {
    KeysHaveWinners(cs);
    seq(|Keys(cs)|, i requires 0 <= i < |Keys(cs)| => Winner(cs, Keys(cs)[i]).value)
  }

  lemma MergedIsUnique(out: seq<Candidate>, cs: seq<Candidate>)
    requires IsMerged(out, cs)
    ensures out == Merged(cs)
  {
    assert forall i | 0 <= i < |out| :: Some(out[i]) == Some(Merged(cs)[i]);
  }

  // The index `find` stops at.
  method Find(out: seq<Candidate>, key: (nat, string)) returns (k: nat)
    requires exists j :: 0 <= j < |out| && out[j].Key() == key
    ensures k < |out| && out[k].Key() == key
  {
    k := 0;
    while out[k].Key() != key
      invariant k < |out| && forall j | 0 <= j < k :: out[j].Key() != key
      decreases |out| - k
    {
      k := k + 1;
    }
  }

  method Deduplicate(candidates: seq<Candidate>, policy: Policy) returns (sorted: seq<Candidate>)
    ensures sorted == StableSort(Merged(candidates), policy)
  {
    var seen: set<(nat, string)> := {};
    var out: seq<Candidate> := [];
    var i := 0;
    while i < |candidates|
      invariant i <= |candidates|
      invariant seen == KeySet(candidates[..i])
      invariant IsMerged(out, candidates[..i])
    {
      var c := candidates[i];
      ghost var earlier := candidates[..i];
      assert candidates[..i + 1] == earlier + [c];
      assert KeySet(earlier + [c]) == KeySet(earlier) + {c.Key()};
      if c.Key() !in seen {
        MergedWithNew(out, earlier, c);
        seen := seen + {c.Key()};
        out := out + [c];
      } else {
        KnownIsPresent(out, earlier, c.Key());
        var k := Find(out, c.Key());
        MergedWithKnown(out, earlier, c, k);
        if out[k].proxy.None? && c.proxy.Some? {
          out := out[k := c];
        }
      }
      i := i + 1;
    }
    assert candidates[..i] == candidates;
    MergedIsUnique(out, candidates);
    sorted := StableSort(out, policy);
  }

  // What the caller can rely on: one candidate per endpoint of the input, the endpoint's
  // first proxied candidate if any and else its first, in policy order, ties as first seen.
  lemma DeduplicatedResult(candidates: seq<Candidate>, policy: Policy, key: SortKey)
    ensures var r := StableSort(Merged(candidates), policy);
            && (forall c | c in r :: Winner(candidates, c.Key()) == Some(c))
            && KeySet(r) == KeySet(candidates)
            && (forall i, j | 0 <= i < j < |r| :: r[i].Key() != r[j].Key())
            && Sorted(r, policy)
            && WithKey(r, key, policy) == WithKey(Merged(candidates), key, policy)
  {
    var merged := Merged(candidates);
    var r := StableSort(merged, policy);
    StableSortIsStable(merged, policy, key);
    KeysAreDistinct(candidates);
    forall c ensures c in r <==> c in merged {
      assert c in r <==> c in multiset(r);
    }
    forall key' ensures key' in KeySet(r) <==> key' in KeySet(candidates) {
      if key' in KeySet(r) {
        var i :| 0 <= i < |r| && r[i].Key() == key';
        assert r[i] in r && r[i] in merged;
      }
      if key' in KeySet(candidates) {
        KnownIsPresent(merged, candidates, key');
        var k :| 0 <= k < |merged| && merged[k].Key() == key';
        assert merged[k] in r;
      }
    }
    DistinctKeysSurvive(merged, r);
  }

  lemma {:induction false} DistinctKeysSurvive(a: seq<Candidate>, b: seq<Candidate>)
    requires multiset(a) == multiset(b)
    requires forall i, j | 0 <= i < j < |a| :: a[i].Key() != a[j].Key()
    ensures forall i, j | 0 <= i < j < |b| :: b[i].Key() != b[j].Key()
  {
    forall i, j | 0 <= i < j < |b| ensures b[i].Key() != b[j].Key() {
      if b[i] == b[j] {
        assert b == b[..i] + [b[i]] + b[i + 1..j] + [b[j]] + b[j + 1..];
        assert multiset(b)[b[i]] >= 2;
        AtMostOnce(a, b[i]);
      } else {
        assert b[i] in multiset(a) && b[j] in multiset(a);
      }
    }
  }

  lemma {:induction false} AtMostOnce(a: seq<Candidate>, c: Candidate)
    requires forall i, j | 0 <= i < j < |a| :: a[i].Key() != a[j].Key()
    ensures multiset(a)[c] <= 1
  {
    if a != [] {
      AtMostOnce(a[1..], c);
      assert a == [a[0]] + a[1..];
      if a[0] == c {
        assert c !in a[1..];
      }
    }
  }

  // ---------------------------------------------------------------- the resolver

  // Enabled, and public only where the policy allows it.
  predicate Permitted(a: Address, policy: Policy) {
    a.enabled && (policy.allowPublicFallback || a.kind != Public)
  }

  function Usable(addresses: seq<Address>, policy: Policy): seq<Candidate> {
    if addresses == [] then []
    else
      var last := addresses[|addresses| - 1];
      Usable(addresses[..|addresses| - 1], policy) + (if Permitted(last, policy) then [Candidate(last, None)] else [])
  }

  // `at` picks the permitted addresses, all of them, in the order they were configured.
  ghost predicate Picks(addresses: seq<Address>, policy: Policy, at: seq<nat>) {
    && (forall k | 0 <= k < |at| :: at[k] < |addresses| && Permitted(addresses[at[k]], policy))
    && (forall j, k | 0 <= j < k < |at| :: at[j] < at[k])
    && (forall i: nat | i < |addresses| && Permitted(addresses[i], policy) :: i in at)
  }

  lemma {:induction false} UsableInOrder(addresses: seq<Address>, policy: Policy) returns (at: seq<nat>)
    ensures Picks(addresses, policy, at) && |Usable(addresses, policy)| == |at|
    ensures forall k | 0 <= k < |at| :: Usable(addresses, policy)[k] == Candidate(addresses[at[k]], None)
  {
    at := [];
    if addresses != [] {
      var n := |addresses| - 1;
      at := UsableInOrder(addresses[..n], policy);
      assert forall i: nat | i < n :: addresses[..n][i] == addresses[i];
      if Permitted(addresses[n], policy) { at := at + [n]; }
    }
  }

  // How often a candidate occurs: as often as its address, if permitted.
  lemma {:induction false} UsableCounts(addresses: seq<Address>, policy: Policy, c: Candidate)
    ensures multiset(Usable(addresses, policy))[c]
         == if c.proxy.None? && Permitted(c.address, policy) then multiset(addresses)[c.address] else 0
  {
    if addresses != [] {
      var n := |addresses| - 1;
      UsableCounts(addresses[..n], policy, c);
      assert addresses == addresses[..n] + [addresses[n]];
    }
  }

  function Discovered(answers: seq<Option<seq<Candidate>>>): seq<Candidate> {
    if answers == [] then []
    else
      var last := answers[|answers| - 1];
      Discovered(answers[..|answers| - 1]) + (if last.Some? then last.value else [])
  }

  // Every permitted address as often as configured, without a proxy, in policy order,
  // ties in configured order.
  ghost predicate IsConfigured(r: seq<Candidate>, addresses: seq<Address>, policy: Policy) {
    && Sorted(r, policy)
    && (forall key :: WithKey(r, key, policy) == WithKey(Usable(addresses, policy), key, policy))
    && forall c ::
         multiset(r)[c] == if c.proxy.None? && c.address.enabled
             && (c.address.kind == Public ==> policy.allowPublicFallback)
                           then multiset(addresses)[c.address] else 0
  }

  lemma NoneUsableIff(addresses: seq<Address>, policy: Policy)
    ensures Usable(addresses, policy) == [] <==> forall a | a in addresses :: !Permitted(a, policy)
  {
    var at := UsableInOrder(addresses, policy);
    if at != [] { assert addresses[at[0]] in addresses; }
    if a :| a in addresses && Permitted(a, policy) {
      var i: nat :| i < |addresses| && addresses[i] == a;
      assert i in at;
    }
  }

  lemma SortedUsable(addresses: seq<Address>, policy: Policy)
    ensures IsConfigured(StableSort(Usable(addresses, policy), policy), addresses, policy)
  {
    var candidates := Usable(addresses, policy);
    StableSortIsStable(candidates, policy, SortKey(0, 0));
    forall key ensures WithKey(StableSort(candidates, policy), key, policy) == WithKey(candidates, key, policy) {
      StableSortIsStable(candidates, policy, key);
    }
    forall c: Candidate ensures multiset(candidates)[c]
                  == if c.proxy.None? && Permitted(c.address, policy) then multiset(addresses)[c.address] else 0 {
      UsableCounts(addresses, policy, c);
    }
  }

  // An error exactly when nothing is permitted.
  method ConfiguredCandidates(addresses: seq<Address>, policy: Policy) returns (r: Option<seq<Candidate>>)
    ensures r.None? <==> forall a | a in addresses :: !a.enabled || (a.kind == Public && !policy.allowPublicFallback)
    ensures r.Some? ==> IsConfigured(r.value, addresses, policy)
    ensures (if r.Some? then r.value else []) == StableSort(Usable(addresses, policy), policy)
  {
    var candidates: seq<Candidate> := [];
    var i := 0;
    while i < |addresses|
      invariant i <= |addresses| && candidates == Usable(addresses[..i], policy)
    {
      assert addresses[..i + 1][..i] == addresses[..i];
      if Permitted(addresses[i], policy) {
        candidates := candidates + [Candidate(addresses[i], None)];
      }
      i := i + 1;
    }
    assert addresses[..i] == addresses;
    NoneUsableIff(addresses, policy);
    SortedUsable(addresses, policy);
    if candidates == [] { return None; }
    r := Some(StableSort(candidates, policy));
  }

  // A provider that fails contributes nothing and hides nothing.
  method Gather(configured: seq<Candidate>, answers: seq<Option<seq<Candidate>>>) returns (all: seq<Candidate>)
    ensures all == configured + Discovered(answers)
  {
    all := configured;
    var i := 0;
    while i < |answers|
      invariant i <= |answers| && all == configured + Discovered(answers[..i])
    {
      assert answers[..i + 1][..i] == answers[..i];
      if answers[i].Some? {
        all := all + answers[i].value;
      }
      i := i + 1;
    }
    assert answers[..i] == answers;
  }

  method Candidates(addresses: seq<Address>, answers: seq<Option<seq<Candidate>>>, policy: Policy)
    returns (sorted: seq<Candidate>)
    ensures sorted == StableSort(Merged(StableSort(Usable(addresses, policy), policy) + Discovered(answers)), policy)
    ensures forall key :: key in KeySet(sorted) <==> Offered(addresses, answers, policy, key)
  {
    var configured := ConfiguredCandidates(addresses, policy);
    var all := Gather(if configured.Some? then configured.value else [], answers);
    sorted := Deduplicate(all, policy);
    forall key ensures key in KeySet(sorted) <==> Offered(addresses, answers, policy, key) {
      DeduplicatedResult(all, policy, SortKey(0, 0));
      AllIsOffered(addresses, answers, policy, key);
    }
  }

  // Somebody has the endpoint: an address that is enabled and permitted, or a provider that answered.
  ghost predicate Offered(addresses: seq<Address>, answers: seq<Option<seq<Candidate>>>, policy: Policy,
                          key: (nat, string)) {
    || (exists a | a in addresses ::
          a.enabled && (a.kind == Public ==> policy.allowPublicFallback) && (a.port, a.host) == key)
    || (exists i, c | 0 <= i < |answers| && answers[i].Some? && c in answers[i].value :: c.Key() == key)
  }

  lemma KeySetHas(cs: seq<Candidate>, key: (nat, string))
    ensures key in KeySet(cs) <==> exists c | c in cs :: c.Key() == key
  {
    if key in KeySet(cs) {
      var i :| 0 <= i < |cs| && cs[i].Key() == key;
      assert cs[i] in cs;
    }
  }

  lemma {:induction false} DiscoveredHas(answers: seq<Option<seq<Candidate>>>, c: Candidate)
    ensures c in Discovered(answers) <==> exists i | 0 <= i < |answers| :: answers[i].Some? && c in answers[i].value
  {
    if answers != [] {
      var n := |answers| - 1;
      DiscoveredHas(answers[..n], c);
      assert forall i | 0 <= i < n :: answers[..n][i] == answers[i];
      if i :| 0 <= i < |answers| && answers[i].Some? && c in answers[i].value {
        if i < n { assert answers[..n][i].Some? && c in answers[..n][i].value; }
      }
      if i :| 0 <= i < n && answers[..n][i].Some? && c in answers[..n][i].value {
        assert answers[i].Some? && c in answers[i].value;
      }
    }
  }

  lemma UsableHas(addresses: seq<Address>, policy: Policy, c: Candidate)
    ensures c in StableSort(Usable(addresses, policy), policy) <==>
            c.proxy.None? && c.address in addresses
            && c.address.enabled && (c.address.kind == Public ==> policy.allowPublicFallback)
  {
    SortedUsable(addresses, policy);
    var sorted := StableSort(Usable(addresses, policy), policy);
    assert c in sorted <==> multiset(sorted)[c] > 0;
    assert c.address in addresses <==> multiset(addresses)[c.address] > 0;
  }

  lemma AllIsOffered(addresses: seq<Address>, answers: seq<Option<seq<Candidate>>>, policy: Policy, key: (nat, string))
    ensures key in KeySet(StableSort(Usable(addresses, policy), policy) + Discovered(answers))
            <==> Offered(addresses, answers, policy, key)
  {
    var all := StableSort(Usable(addresses, policy), policy) + Discovered(answers);
    KeySetHas(all, key);
    if c :| c in all && c.Key() == key {
      UsableHas(addresses, policy, c);
      DiscoveredHas(answers, c);
    }
    if a :| a in addresses && Permitted(a, policy) && (a.port, a.host) == key {
      UsableHas(addresses, policy, Candidate(a, None));
      assert Candidate(a, None) in all && Candidate(a, None).Key() == key;
    }
    if i, c :| 0 <= i < |answers| && answers[i].Some? && c in answers[i].value && c.Key() == key {
      DiscoveredHas(answers, c);
      assert c in all;
    }
  }
}
