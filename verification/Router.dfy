/** Placement of src/router.rs: which device runs a model. */
module Router {
  import opened Wrappers

  /** What a peer advertises about itself; the fields placement never reads are
      gathered in `rest`. */
  datatype Peer = Peer(did: string, platform: string, ramMb: nat, vramMb: nat, models: seq<string>, rest: string)

  datatype Bundle = Bundle(backend: string, minRamMb: nat)

  /** Model id to platform id to the build for it. */
  type Zoo = map<string, map<string, Bundle>>

  datatype Priority = Normal | Urgent

  datatype Request = Request(modelId: string, priority: Priority)

  datatype LocalCapability = LocalCapability(platform: string, ramMb: nat, cachedModels: seq<string>)

  datatype Reason = CachedHere | ForcedHere | DownloadFirst

  datatype Decision = Local(backend: string, reason: Reason) | Remote(peer: Peer) | Fallback

  // ── The order on peers ────────────────────────────────────────────────────

  /** Byte-wise order of UTF-8 strings, which is the order by scalar values. */
  predicate Before(a: string, b: string) {
    if a == [] then b != []
    else if b == [] then false
    else if a[0] != b[0] then a[0] < b[0]
    else Before(a[1..], b[1..])
  }

  predicate RanksHigher(a: Peer, b: Peer) {
    if a.vramMb != b.vramMb then a.vramMb > b.vramMb
    else if a.ramMb != b.ramMb then a.ramMb > b.ramMb
    else Before(a.did, b.did)
  }

  lemma {:induction false} BeforeTransitive(a: string, b: string, c: string)
    requires Before(a, b) && Before(b, c)
    ensures Before(a, c)
  {
    if a != [] && a[0] == b[0] == c[0] {
      BeforeTransitive(a[1..], b[1..], c[1..]);
    }
  }

  lemma {:induction false} BeforeTotal(a: string, b: string)
    ensures Before(a, b) || Before(b, a) || a == b
    ensures !(Before(a, b) && Before(b, a))
    ensures !Before(a, a)
  {
    if a != [] {
      BeforeTotal(a[1..], a[1..]);
      if b != [] && a[0] == b[0] {
        BeforeTotal(a[1..], b[1..]);
        assert a == [a[0]] + a[1..] && b == [b[0]] + b[1..];
      }
    }
  }

  /** The ranking is a strict order. */
  lemma {:induction false} RankTransitive(a: Peer, b: Peer, c: Peer)
    requires RanksHigher(a, b) && RanksHigher(b, c)
    ensures RanksHigher(a, c)
  {
    if a.vramMb == b.vramMb == c.vramMb && a.ramMb == b.ramMb == c.ramMb {
      BeforeTransitive(a.did, b.did, c.did);
    }
  }

  /** It never ranks two peers above each other, and it ties only on peers with the
      same memory and the same id. */
  lemma {:induction false} RankTotal(a: Peer, b: Peer)
    ensures !(RanksHigher(a, b) && RanksHigher(b, a))
    ensures !RanksHigher(a, a)
    ensures !RanksHigher(a, b) && !RanksHigher(b, a) <==>
              a.vramMb == b.vramMb && a.ramMb == b.ramMb && a.did == b.did
  {
    BeforeTotal(a.did, b.did);
    BeforeTotal(a.did, a.did);
    BeforeTotal(b.did, b.did);
  }

  /** Whoever does not beat the loser is beaten by the winner. */
  lemma {:induction false} RankNegativelyTransitive(a: Peer, b: Peer, c: Peer)
    requires RanksHigher(a, b) && !RanksHigher(c, b)
    ensures RanksHigher(a, c)
  {
    RankTotal(c, b);
    if RanksHigher(b, c) {
      RankTransitive(a, b, c);
    }
  }

  // ── Who can host ──────────────────────────────────────────────────────────

  function BundleFor(zoo: Zoo, modelId: string, platform: string): Option<Bundle> {
    if modelId in zoo && platform in zoo[modelId] then Some(zoo[modelId][platform]) else None
  }

  /** A peer can host a model it has cached, that the zoo describes for the peer's
      platform, and that fits the peer's memory. */
  predicate CanHost(peer: Peer, modelId: string, zoo: Zoo) {
    && modelId in peer.models
    && var bundle := BundleFor(zoo, modelId, peer.platform);
       bundle.Some? && peer.ramMb >= bundle.value.minRamMb
  }

  predicate LocalFits(request: Request, local: LocalCapability, zoo: Zoo) {
    var bundle := BundleFor(zoo, request.modelId, local.platform);
    bundle.Some? && local.ramMb >= bundle.value.minRamMb
  }

  /** Slot `k` holds a host that no other host outranks, the earliest of its equals. */
  ghost predicate BestSlot(peers: seq<Peer>, modelId: string, zoo: Zoo, k: nat) {
    && k < |peers|
    && CanHost(peers[k], modelId, zoo)
    && (forall i :: 0 <= i < |peers| && CanHost(peers[i], modelId, zoo) ==> !RanksHigher(peers[i], peers[k]))
    && (forall i :: 0 <= i < k && CanHost(peers[i], modelId, zoo) ==> RanksHigher(peers[k], peers[i]))
  }

  ghost predicate NoHost(peers: seq<Peer>, modelId: string, zoo: Zoo) {
    forall i :: 0 <= i < |peers| ==> !CanHost(peers[i], modelId, zoo)
  }

  /** The peer has the model, and memory enough for the build of its own platform. */
  predicate Qualifies(peer: Peer, modelId: string, zoo: Zoo) {
    && (exists i :: 0 <= i < |peer.models| && peer.models[i] == modelId)
    && modelId in zoo && peer.platform in zoo[modelId]
    && zoo[modelId][peer.platform].minRamMb <= peer.ramMb
  }

  lemma {:induction false} HostsQualify(peer: Peer, modelId: string, zoo: Zoo)
    ensures CanHost(peer, modelId, zoo) <==> Qualifies(peer, modelId, zoo)
  {}

  /** No qualified peer has more video memory than the one in slot `k`; of those with as
      much, none has more memory; and of those with as much of both, none has an id that
      comes first. */
  ghost predicate Strongest(peers: seq<Peer>, modelId: string, zoo: Zoo, k: nat) {
    && k < |peers| && Qualifies(peers[k], modelId, zoo)
    && forall i :: 0 <= i < |peers| && Qualifies(peers[i], modelId, zoo) ==>
         && peers[i].vramMb <= peers[k].vramMb
         && (peers[i].vramMb == peers[k].vramMb ==> peers[i].ramMb <= peers[k].ramMb)
         && (peers[i].vramMb == peers[k].vramMb && peers[i].ramMb == peers[k].ramMb ==> !ComesFirst(peers[i].did, peers[k].did))
  }

  /** Dictionary order: up to some place `a` and `b` agree, and there `a` ends or has the
      smaller letter. */
  ghost predicate ComesFirst(a: string, b: string) {
    exists n: nat :: FirstAt(a, b, n)
  }

  predicate FirstAt(a: string, b: string, n: nat) {
    n <= |a| && n < |b| && a[..n] == b[..n] && (n == |a| || a[n] < b[n])
  }

  lemma {:induction false} BeforeAt(a: string, b: string) returns (n: nat)
    requires Before(a, b)
    ensures FirstAt(a, b, n)
  {
    n := 0;
    if a != [] && a[0] == b[0] {
      var m := BeforeAt(a[1..], b[1..]);
      n := m + 1;
      assert a[..n] == [a[0]] + a[1..][..m] && b[..n] == [b[0]] + b[1..][..m];
    }
  }

  lemma {:induction false} AtMeansBefore(a: string, b: string, n: nat)
    requires FirstAt(a, b, n)
    ensures Before(a, b)
  {
    if n > 0 {
      assert a[0] == a[..n][0] == b[..n][0] == b[0];
      assert a[1..][..n - 1] == a[..n][1..] && b[1..][..n - 1] == b[..n][1..];
      AtMeansBefore(a[1..], b[1..], n - 1);
    }
  }

  lemma {:induction false} BeforeIsDictionary(a: string, b: string)
    ensures Before(a, b) <==> ComesFirst(a, b)
  {
    if Before(a, b) {
      var n := BeforeAt(a, b);
    }
    forall n: nat | FirstAt(a, b, n)
      ensures Before(a, b)
    {
      AtMeansBefore(a, b, n);
    }
  }

  /** The best slot is the strongest peer. */
  lemma {:induction false} BestIsStrongest(peers: seq<Peer>, modelId: string, zoo: Zoo, k: nat)
    requires BestSlot(peers, modelId, zoo, k)
    ensures Strongest(peers, modelId, zoo, k)
  {
    hide Before, ComesFirst, Qualifies, CanHost;
    HostsQualify(peers[k], modelId, zoo);
    forall i | 0 <= i < |peers| && Qualifies(peers[i], modelId, zoo)
      ensures !RanksHigher(peers[i], peers[k])
      ensures !ComesFirst(peers[i].did, peers[k].did) || Before(peers[i].did, peers[k].did)
    {
      HostsQualify(peers[i], modelId, zoo);
      BeforeIsDictionary(peers[i].did, peers[k].did);
    }
  }

  /** What is best of the first `n` peers is still best, or is outranked by the next. */
  lemma {:induction false} BestOfOneMore(peers: seq<Peer>, n: nat, modelId: string, zoo: Zoo, k: nat)
    requires n < |peers| && BestSlot(peers[..n], modelId, zoo, k) && CanHost(peers[n], modelId, zoo)
    ensures BestSlot(peers[..n + 1], modelId, zoo, if RanksHigher(peers[n], peers[k]) then n else k)
  {
    var seen, more := peers[..n], peers[..n + 1];
    assert forall i :: 0 <= i < n ==> more[i] == seen[i];
    RankTotal(peers[n], peers[k]);
    RankTotal(peers[n], peers[n]);
    if RanksHigher(peers[n], peers[k]) {
      forall i | 0 <= i < n && CanHost(more[i], modelId, zoo)
        ensures RanksHigher(peers[n], more[i]) && !RanksHigher(more[i], peers[n])
      {
        RankNegativelyTransitive(peers[n], peers[k], seen[i]);
        RankTotal(peers[n], seen[i]);
      }
    }
  }

  /** The fold over the peer list: the slot of the best host, if any peer can host. */
  method BestRemotePeer(request: Request, peers: seq<Peer>, zoo: Zoo) returns (best: Option<nat>)
    ensures best.None? <==> NoHost(peers, request.modelId, zoo)
    ensures best.Some? ==> BestSlot(peers, request.modelId, zoo, best.value) && Strongest(peers, request.modelId, zoo, best.value)
  {
    hide Strongest;
    best := None;
    for i := 0 to |peers|
      invariant best.None? <==> NoHost(peers[..i], request.modelId, zoo)
      invariant best.Some? ==> BestSlot(peers[..i], request.modelId, zoo, best.value)
    {
      assert peers[..i + 1] == peers[..i] + [peers[i]];
      if CanHost(peers[i], request.modelId, zoo) {
        RankTotal(peers[i], peers[i]);
        match best {
          case None => best := Some(i);
          case Some(current) =>
            BestOfOneMore(peers, i, request.modelId, zoo, current);
            best := Some(if RanksHigher(peers[i], peers[current]) then i else current);
        }
        assert peers[..i + 1][best.value] == peers[best.value];
      }
    }
    assert peers[..|peers|] == peers;
    if best.Some? {
      BestIsStrongest(peers, request.modelId, zoo, best.value);
    }
  }

  // ── The decision ──────────────────────────────────────────────────────────

  /** This device is chosen outright: it fits, and either holds the model or must not
      wait for a peer. */
  predicate LocalFirst(request: Request, local: LocalCapability, zoo: Zoo) {
    LocalFits(request, local, zoo) && (request.modelId in local.cachedModels || request.priority == Urgent)
  }

  /** What each decision says about the fleet. */
  ghost predicate Justified(request: Request, local: LocalCapability, peers: seq<Peer>, zoo: Zoo, decision: Decision) {
    match decision
    case Local(backend, reason) =>
      && LocalFits(request, local, zoo)
      && backend == zoo[request.modelId][local.platform].backend
      && (reason == CachedHere <==> request.modelId in local.cachedModels)
      && (reason == ForcedHere <==> request.modelId !in local.cachedModels && request.priority == Urgent)
      && (reason == DownloadFirst ==> NoHost(peers, request.modelId, zoo))
    case Remote(peer) =>
      && !LocalFirst(request, local, zoo)
      && exists k: nat :: BestSlot(peers, request.modelId, zoo, k) && peers[k] == peer
    case Fallback =>
      !LocalFits(request, local, zoo) && NoHost(peers, request.modelId, zoo)
  }

  /** The zoo has a build of the model for this device, and it fits its memory. */
  predicate RunsHere(request: Request, local: LocalCapability, zoo: Zoo) {
    && request.modelId in zoo && local.platform in zoo[request.modelId]
    && zoo[request.modelId][local.platform].minRamMb <= local.ramMb
  }

  /** The decision in terms of the fleet: this device when it can and has the model, or is
      in a hurry; else the strongest qualified peer; else this device if it can; else
      nobody. */
  ghost predicate Sound(request: Request, local: LocalCapability, peers: seq<Peer>, zoo: Zoo, decision: Decision) {
    var here := RunsHere(request, local, zoo);
    var cached := exists i :: 0 <= i < |local.cachedModels| && local.cachedModels[i] == request.modelId;
    var hurried := request.priority == Urgent;
    if here && (cached || hurried) then
      decision == Local(zoo[request.modelId][local.platform].backend, if cached then CachedHere else ForcedHere)
    else if exists i :: 0 <= i < |peers| && Qualifies(peers[i], request.modelId, zoo) then
      decision.Remote? && exists k: nat :: Strongest(peers, request.modelId, zoo, k) && peers[k] == decision.peer
    else if here then decision == Local(zoo[request.modelId][local.platform].backend, DownloadFirst)
    else decision == Fallback
  }

  /** What is justified is sound. */
  lemma {:induction false} JustifiedIsSound(request: Request, local: LocalCapability, peers: seq<Peer>, zoo: Zoo, decision: Decision)
    requires Justified(request, local, peers, zoo, decision)
    ensures Sound(request, local, peers, zoo, decision)
  {
    hide BestSlot, Strongest, Qualifies, CanHost;
    StrongestIsThere(peers, request.modelId, zoo);
    var modelId := request.modelId;
    forall i | 0 <= i < |peers|
      ensures CanHost(peers[i], modelId, zoo) <==> Qualifies(peers[i], modelId, zoo)
    {
      HostsQualify(peers[i], modelId, zoo);
    }
    assert modelId in local.cachedModels <==> exists i :: 0 <= i < |local.cachedModels| && local.cachedModels[i] == modelId;
    if decision.Remote? {
      var k: nat :| BestSlot(peers, modelId, zoo, k) && peers[k] == decision.peer;
      BestIsStrongest(peers, modelId, zoo, k);
      StrongestQualifies(peers, modelId, zoo, k);
    }
  }

  lemma {:induction false} StrongestIsThere(peers: seq<Peer>, modelId: string, zoo: Zoo)
    ensures forall k: nat :: BestSlot(peers, modelId, zoo, k) || Strongest(peers, modelId, zoo, k) ==> k < |peers|
  {}

  lemma {:induction false} StrongestQualifies(peers: seq<Peer>, modelId: string, zoo: Zoo, k: nat)
    requires Strongest(peers, modelId, zoo, k)
    ensures k < |peers| && Qualifies(peers[k], modelId, zoo)
  {}

  /** A decision is always justified, and falling back is the answer exactly when
      neither this device nor any peer can host the model. */
  method Route(request: Request, local: LocalCapability, peers: seq<Peer>, zoo: Zoo) returns (decision: Decision)
    ensures Justified(request, local, peers, zoo, decision)
    ensures decision == Fallback <==> !LocalFits(request, local, zoo) && NoHost(peers, request.modelId, zoo)
    ensures Sound(request, local, peers, zoo, decision)
  {
    decision := Decide(request, local, peers, zoo);
    JustifiedIsSound(request, local, peers, zoo, decision);
  }

  method Decide(request: Request, local: LocalCapability, peers: seq<Peer>, zoo: Zoo) returns (decision: Decision)
    ensures Justified(request, local, peers, zoo, decision)
    ensures decision == Fallback <==> !LocalFits(request, local, zoo) && NoHost(peers, request.modelId, zoo)
  {
    var bundle := BundleFor(zoo, request.modelId, local.platform);
    var fits := bundle.Some? && local.ramMb >= bundle.value.minRamMb;
    if fits && request.modelId in local.cachedModels {
      return Local(bundle.value.backend, CachedHere);
    }
    if request.priority == Urgent && fits {
      return Local(bundle.value.backend, ForcedHere);
    }
    var best := BestRemotePeer(request, peers, zoo);
    if best.Some? {
      return Remote(peers[best.value]);
    }
    if fits {
      return Local(bundle.value.backend, DownloadFirst);
    }
    return Fallback;
  }

  // ── The order of the peer list does not matter ────────────────────────────

  ghost predicate DistinctIds(peers: seq<Peer>) {
    forall i, j :: 0 <= i < j < |peers| ==> peers[i].did != peers[j].did
  }

  ghost predicate SamePeers(a: seq<Peer>, b: seq<Peer>) {
    multiset(a) == multiset(b)
  }

  lemma {:induction false} FoundElsewhere(a: seq<Peer>, b: seq<Peer>, i: nat) returns (j: nat)
    requires SamePeers(a, b) && i < |a|
    ensures j < |b| && b[j] == a[i]
  {
    assert a[i] in multiset(a);
    assert a[i] in b;
    j :| j < |b| && b[j] == a[i];
  }

  /** A host that no host outranks. */
  ghost predicate Unbeaten(peers: seq<Peer>, modelId: string, zoo: Zoo, k: nat) {
    && k < |peers|
    && CanHost(peers[k], modelId, zoo)
    && forall i :: 0 <= i < |peers| && CanHost(peers[i], modelId, zoo) ==> !RanksHigher(peers[i], peers[k])
  }

  /** All unbeaten hosts are one and the same record. */
  ghost predicate OneWinner(peers: seq<Peer>, modelId: string, zoo: Zoo) {
    forall i: nat, j: nat :: Unbeaten(peers, modelId, zoo, i) && Unbeaten(peers, modelId, zoo, j) ==> peers[i] == peers[j]
  }

  lemma {:induction false} UnbeatenElsewhere(a: seq<Peer>, b: seq<Peer>, modelId: string, zoo: Zoo, i: nat) returns (j: nat)
    requires SamePeers(a, b) && Unbeaten(a, modelId, zoo, i)
    ensures Unbeaten(b, modelId, zoo, j) && b[j] == a[i]
  {
    j := FoundElsewhere(a, b, i);
    forall k | 0 <= k < |b| && CanHost(b[k], modelId, zoo)
      ensures !RanksHigher(b[k], b[j])
    {
      var there := FoundElsewhere(b, a, k);
    }
  }

  /** Whatever two rearrangements of the peers pick, they pick the winner. */
  lemma {:induction false} BestIsWinner(peers: seq<Peer>, a: seq<Peer>, b: seq<Peer>, modelId: string, zoo: Zoo, i: nat, j: nat)
    requires SamePeers(a, peers) && SamePeers(b, peers) && OneWinner(peers, modelId, zoo)
    requires BestSlot(a, modelId, zoo, i) && BestSlot(b, modelId, zoo, j)
    ensures a[i] == b[j]
  {
    assert Unbeaten(a, modelId, zoo, i) && Unbeaten(b, modelId, zoo, j);
    var p := UnbeatenElsewhere(a, peers, modelId, zoo, i);
    var q := UnbeatenElsewhere(b, peers, modelId, zoo, j);
  }

  /** Peers with distinct ids have at most one winner. */
  lemma {:induction false} DistinctIdsOneWinner(peers: seq<Peer>, modelId: string, zoo: Zoo)
    requires DistinctIds(peers)
    ensures OneWinner(peers, modelId, zoo)
  {
    forall i: nat, j: nat | Unbeaten(peers, modelId, zoo, i) && Unbeaten(peers, modelId, zoo, j)
      ensures peers[i] == peers[j]
    {
      RankTotal(peers[i], peers[j]);
    }
  }

  lemma {:induction false} NoHostEitherWay(a: seq<Peer>, b: seq<Peer>, modelId: string, zoo: Zoo)
    requires SamePeers(a, b) && NoHost(a, modelId, zoo)
    ensures NoHost(b, modelId, zoo)
  {
    forall j | 0 <= j < |b|
      ensures !CanHost(b[j], modelId, zoo)
    {
      var i := FoundElsewhere(b, a, j);
    }
  }

  lemma {:induction false} BestMeansHost(peers: seq<Peer>, modelId: string, zoo: Zoo)
    requires exists k: nat :: BestSlot(peers, modelId, zoo, k)
    ensures !NoHost(peers, modelId, zoo)
  {
    var k: nat :| BestSlot(peers, modelId, zoo, k);
    assert CanHost(peers[k], modelId, zoo);
  }

  /** Whatever is justified for one order of the peers is the only decision justified for
      any other, when there is one winner. */
  lemma {:induction false} WinnerDecides(request: Request, local: LocalCapability, peers: seq<Peer>, a: seq<Peer>,
                                         b: seq<Peer>, zoo: Zoo, x: Decision, y: Decision)
    requires SamePeers(a, peers) && SamePeers(b, peers)
    requires LocalFirst(request, local, zoo) || OneWinner(peers, request.modelId, zoo)
    requires Justified(request, local, a, zoo, x) && Justified(request, local, b, zoo, y)
    ensures x == y
  {
    var modelId := request.modelId;
    if NoHost(a, modelId, zoo) {
      NoHostEitherWay(a, b, modelId, zoo);
    }
    if NoHost(b, modelId, zoo) {
      NoHostEitherWay(b, a, modelId, zoo);
    }
    if x.Remote? {
      BestMeansHost(a, modelId, zoo);
    }
    if y.Remote? {
      BestMeansHost(b, modelId, zoo);
    }
    if x.Remote? && y.Remote? {
      var i: nat :| BestSlot(a, modelId, zoo, i) && a[i] == x.peer;
      var j: nat :| BestSlot(b, modelId, zoo, j) && b[j] == y.peer;
      BestIsWinner(peers, a, b, modelId, zoo, i, j);
    }
  }

  function MovedToFront(peers: seq<Peer>, i: nat): seq<Peer>
    requires i < |peers|
  {
    [peers[i]] + peers[..i] + peers[i + 1..]
  }

  /** An unbeaten host moved to the front is the one picked. */
  lemma {:induction false} FrontIsPicked(peers: seq<Peer>, modelId: string, zoo: Zoo, i: nat)
    requires Unbeaten(peers, modelId, zoo, i)
    ensures var moved := MovedToFront(peers, i);
            SamePeers(peers, moved) && BestSlot(moved, modelId, zoo, 0)
  {
    var moved := MovedToFront(peers, i);
    assert peers == peers[..i] + [peers[i]] + peers[i + 1..];
    forall k | 0 <= k < |moved| && CanHost(moved[k], modelId, zoo)
      ensures !RanksHigher(moved[k], moved[0])
    {
      var there := FoundElsewhere(moved, peers, k);
    }
  }

  /** The decision is the same however the peers are ordered. */
  ghost predicate OrderIndependent(request: Request, local: LocalCapability, peers: seq<Peer>, zoo: Zoo) {
    forall a, b, x, y ::
      (&& SamePeers(peers, a) && SamePeers(peers, b)
       && Justified(request, local, a, zoo, x) && Justified(request, local, b, zoo, y))
      ==> x == y
  }

  lemma {:induction false} TwoWinnersDiffer(request: Request, local: LocalCapability, peers: seq<Peer>, zoo: Zoo, i: nat, j: nat)
    requires !LocalFirst(request, local, zoo) && OrderIndependent(request, local, peers, zoo)
    requires Unbeaten(peers, request.modelId, zoo, i) && Unbeaten(peers, request.modelId, zoo, j)
    ensures peers[i] == peers[j]
  {
    FrontIsJustified(request, local, peers, zoo, i);
    FrontIsJustified(request, local, peers, zoo, j);
    hide Justified, SamePeers, Unbeaten, MovedToFront;
    assert Remote(peers[i]) == Remote(peers[j]);
  }

  lemma {:induction false} FrontIsJustified(request: Request, local: LocalCapability, peers: seq<Peer>, zoo: Zoo, i: nat)
    requires !LocalFirst(request, local, zoo) && Unbeaten(peers, request.modelId, zoo, i)
    ensures SamePeers(peers, MovedToFront(peers, i))
    ensures Justified(request, local, MovedToFront(peers, i), zoo, Remote(peers[i]))
  {
    FrontIsPicked(peers, request.modelId, zoo, i);
    assert MovedToFront(peers, i)[0] == peers[i];
  }

  /** Routing does not depend on how the peers were discovered if and only if it is
      settled on this device before they are looked at, or all hosts that no host
      outranks are the same record. */
  lemma {:induction false} OrderIndependentExactly(request: Request, local: LocalCapability, peers: seq<Peer>, zoo: Zoo)
    ensures OrderIndependent(request, local, peers, zoo)
            <==> LocalFirst(request, local, zoo) || OneWinner(peers, request.modelId, zoo)
  {
    if LocalFirst(request, local, zoo) || OneWinner(peers, request.modelId, zoo) {
      forall a, b, x, y |
        SamePeers(peers, a) && SamePeers(peers, b)
        && Justified(request, local, a, zoo, x) && Justified(request, local, b, zoo, y)
        ensures x == y
      {
        WinnerDecides(request, local, peers, a, b, zoo, x, y);
      }
    }
    if !LocalFirst(request, local, zoo) && OrderIndependent(request, local, peers, zoo) {
      forall i: nat, j: nat | Unbeaten(peers, request.modelId, zoo, i) && Unbeaten(peers, request.modelId, zoo, j)
        ensures peers[i] == peers[j]
      {
        TwoWinnersDiffer(request, local, peers, zoo, i, j);
      }
    }
  }

  /** In particular for peers with distinct ids, as the source expects them. */
  lemma {:induction false} OrderDoesNotMatter(request: Request, local: LocalCapability, peers: seq<Peer>, zoo: Zoo)
    requires DistinctIds(peers)
    ensures OrderIndependent(request, local, peers, zoo)
  {
    DistinctIdsOneWinner(peers, request.modelId, zoo);
    OrderIndependentExactly(request, local, peers, zoo);
  }

  /** And not for two records under one id, of one size, when a peer is needed: the first
      of the list is taken. */
  lemma {:induction false} SharedIdDependsOnOrder(request: Request, local: LocalCapability, zoo: Zoo, p: Peer, q: Peer)
    requires !LocalFirst(request, local, zoo) && p != q
    requires CanHost(p, request.modelId, zoo) && CanHost(q, request.modelId, zoo)
    requires p.did == q.did && p.ramMb == q.ramMb && p.vramMb == q.vramMb
    ensures !OrderIndependent(request, local, [p, q], zoo)
  {
    RankTotal(p, q);
    RankTotal(p, p);
    RankTotal(q, q);
    assert Unbeaten([p, q], request.modelId, zoo, 0) && Unbeaten([p, q], request.modelId, zoo, 1);
    OrderIndependentExactly(request, local, [p, q], zoo);
  }
}
