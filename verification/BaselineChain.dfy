/** Publishing an accepted baseline: a compare-and-swap of one pointer under a
    lock, with any number of campaigns racing. */
module BaselineChain {
  import opened Transcript

  type Revision = string

  /** What a pointer says, without its own revision, which is the hash of this. */
  datatype Content = Content(runId: string, candidateId: string, acceptedAt: string, resultHash: string, manifestHash: string, previous: Option<Revision>)

  datatype Pointer = Pointer(content: Content, revision: Revision)

  /** A campaign as it comes to publish: the pointer it was launched against, and
      what its evaluation decided. A held campaign is not eligible. */
  datatype Campaign = Campaign(runId: string, candidateId: string, launchedAgainst: Option<Pointer>, eligible: bool, resultHash: string, manifestHash: string)

  /** How far the locked section gets: a crash may fall between the history entry
      and the pointer. */
  datatype Fate = Completes | CrashesBeforePointer

  datatype Decision = Held | Stale | Accepted(revision: Revision) | Crashed | Duplicate

  datatype State = State(
    current: Option<Pointer>,
    history: map<Revision, Pointer>,
    accepted: seq<Pointer>,
    published: set<string>)

  type Hash = Content -> Revision

  ghost predicate Injective(hash: Hash) {
    forall a, b :: hash(a) == hash(b) ==> a == b
  }

  function Empty(): State {
    State(None, map[], [], {})
  }

  function NewPointer(hash: Hash, c: Campaign, acceptedAt: string): Pointer {
    var previous := match c.launchedAgainst case None => None case Some(p) => Some(p.revision);
    var content := Content(c.runId, c.candidateId, acceptedAt, c.resultHash, c.manifestHash, previous);
    Pointer(content, hash(content))
  }

  /** One campaign publishes. The history entry is written exclusively: an entry
      that exists already makes the publication fail. */
  function Publish(hash: Hash, s: State, c: Campaign, acceptedAt: string, fate: Fate): (State, Decision) {
    var after := s.(published := s.published + {c.runId});
    if !c.eligible then (after, Held)
    else if s.current != c.launchedAgainst then (after, Stale)
    else
      var p := NewPointer(hash, c, acceptedAt);
      if p.revision in s.history then (after, Duplicate)
      else
        var kept := after.(history := s.history[p.revision := p]);
        if fate == CrashesBeforePointer then (kept, Crashed)
        else (kept.(current := Some(p), accepted := s.accepted + [p]), Accepted(p.revision))
  }

  // ----- The chain

  /** The revision that the pointer at place i must name. */
  function PreviousOf(accepted: seq<Pointer>, i: nat): Option<Revision>
    requires i <= |accepted|
  {
    if i == 0 then None else Some(accepted[i - 1].revision)
  }

  ghost predicate LinkedAt(hash: Hash, accepted: seq<Pointer>, i: nat)
    requires i < |accepted|
  {
    accepted[i].revision == hash(accepted[i].content) && accepted[i].content.previous == PreviousOf(accepted, i)
  }

  /** Each accepted pointer names its immediate predecessor; the current pointer is
      the last one. */
  ghost predicate IsChain(hash: Hash, current: Option<Pointer>, accepted: seq<Pointer>) {
    && (forall i :: 0 <= i < |accepted| ==> LinkedAt(hash, accepted, i))
    && current == if accepted == [] then None else Some(accepted[|accepted| - 1])
  }

  /** Run IDs are used once, and every pointer ever written belongs to a published run. */
  ghost predicate RunsAreUsedOnce(hash: Hash, s: State) {
    && (forall i, j :: 0 <= i < j < |s.accepted| ==> s.accepted[i].content.runId != s.accepted[j].content.runId)
    && (forall i :: 0 <= i < |s.accepted| ==> s.accepted[i].content.runId in s.published)
    && (forall r :: r in s.history ==> s.history[r].revision == r && hash(s.history[r].content) == r && s.history[r].content.runId in s.published)
    && (forall i :: 0 <= i < |s.accepted| ==> s.accepted[i].revision in s.history && s.history[s.accepted[i].revision] == s.accepted[i])
  }

  ghost predicate Sound(hash: Hash, s: State) {
    IsChain(hash, s.current, s.accepted) && RunsAreUsedOnce(hash, s)
  }

  lemma PublishKeepsSound(hash: Hash, s: State, c: Campaign, acceptedAt: string, fate: Fate)
    requires Injective(hash) && Sound(hash, s) && c.runId !in s.published
    ensures Sound(hash, Publish(hash, s, c, acceptedAt, fate).0)
    ensures Publish(hash, s, c, acceptedAt, fate).1 != Duplicate
    ensures Publish(hash, s, c, acceptedAt, fate).1.Accepted? <==> c.eligible && s.current == c.launchedAgainst && fate == Completes
  {
    hide IsChain, RunsAreUsedOnce;
    var p := NewPointer(hash, c, acceptedAt);
    FreshRunFreshRevision(hash, s, p);
    if s.current == c.launchedAgainst {
      ChainGrows(hash, s, p);
    }
    HistoryGrows(hash, s, p);
  }

  lemma FreshRunFreshRevision(hash: Hash, s: State, p: Pointer)
    requires Injective(hash) && RunsAreUsedOnce(hash, s) && p.revision == hash(p.content) && p.content.runId !in s.published
    ensures p.revision !in s.history
  {
    assert forall r :: r in s.history ==> s.history[r].content != p.content;
  }

  lemma HistoryGrows(hash: Hash, s: State, p: Pointer)
    requires RunsAreUsedOnce(hash, s) && p.revision == hash(p.content) && p.content.runId !in s.published && p.revision !in s.history
    ensures var published := s.published + {p.content.runId};
            var history := s.history[p.revision := p];
            && RunsAreUsedOnce(hash, s.(published := published))
            && RunsAreUsedOnce(hash, s.(published := published, history := history))
            && RunsAreUsedOnce(hash, s.(published := published, history := history, current := Some(p), accepted := s.accepted + [p]))
  {
  }

  lemma ChainGrows(hash: Hash, s: State, p: Pointer)
    requires IsChain(hash, s.current, s.accepted) && p.revision == hash(p.content)
    requires p.content.previous == match s.current case None => None case Some(q) => Some(q.revision)
    ensures IsChain(hash, Some(p), s.accepted + [p])
  {
    var more := s.accepted + [p];
    forall i | 0 <= i < |more| ensures LinkedAt(hash, more, i) {
      if i < |s.accepted| {
        assert LinkedAt(hash, s.accepted, i);
      } else {
        assert p.content.previous == PreviousOf(more, i);
      }
    }
  }

  /** A campaign that is held, stale or cut off leaves the current pointer alone. */
  lemma OnlyAcceptanceMovesThePointer(hash: Hash, s: State, c: Campaign, acceptedAt: string, fate: Fate)
    ensures var (t, decision) := Publish(hash, s, c, acceptedAt, fate);
            && (!decision.Accepted? ==> t.current == s.current && t.accepted == s.accepted)
            && (!c.eligible || s.current != c.launchedAgainst ==> !decision.Accepted?)
            && (decision.Accepted? ==> t.accepted == s.accepted + [t.current.value] && t.current.value.content.runId == c.runId)
  {
  }

  /** What the pointer of an accepted campaign says, field by field. */
  ghost predicate Announces(hash: Hash, p: Pointer, c: Campaign, acceptedAt: string) {
    && p.content.runId == c.runId && p.content.candidateId == c.candidateId && p.content.acceptedAt == acceptedAt
    && p.content.resultHash == c.resultHash && p.content.manifestHash == c.manifestHash
    && (c.launchedAgainst.None? <==> p.content.previous.None?)
    && (c.launchedAgainst.Some? ==> p.content.previous == Some(c.launchedAgainst.value.revision))
    && p.revision == hash(p.content)
  }

  /** The five ways a publication can go, each with its exact cause and everything it
      leaves behind. */
  lemma PublicationHasItsCause(hash: Hash, s: State, c: Campaign, acceptedAt: string, fate: Fate)
    ensures var (t, decision) := Publish(hash, s, c, acceptedAt, fate);
            var current := c.eligible && s.current == c.launchedAgainst;
            && t.published == s.published + {c.runId}
            && (decision == Held <==> !c.eligible)
            && (decision == Stale <==> c.eligible && s.current != c.launchedAgainst)
            && (current ==> exists p: Pointer ::
                  && Announces(hash, p, c, acceptedAt)
                  && (decision == Duplicate <==> p.revision in s.history)
                  && (decision == Crashed <==> p.revision !in s.history && fate == CrashesBeforePointer)
                  && (decision == Accepted(p.revision) <==> p.revision !in s.history && fate == Completes)
                  && t.history == (if p.revision in s.history then s.history else s.history[p.revision := p])
                  && t.current == (if decision.Accepted? then Some(p) else s.current)
                  && t.accepted == (if decision.Accepted? then s.accepted + [p] else s.accepted))
            && (!current ==> t.history == s.history && t.current == s.current && t.accepted == s.accepted)
  {
    var p := NewPointer(hash, c, acceptedAt);
    assert Announces(hash, p, c, acceptedAt);
  }

  // ----- Any interleaving of campaigns

  /** A campaign is launched against whatever is current, or publishes. */
  datatype Event = Launch(campaign: nat) | Deliver(campaign: nat, acceptedAt: string, fate: Fate)

  datatype World = World(store: State, campaigns: seq<Campaign>, decisions: map<nat, Decision>)

  function Happen(hash: Hash, w: World, e: Event): World {
    match e
    case Launch(i) =>
      if i < |w.campaigns| && i !in w.decisions then
        w.(campaigns := w.campaigns[i := w.campaigns[i].(launchedAgainst := w.store.current)])
      else w
    case Deliver(i, at, fate) =>
      if i < |w.campaigns| && i !in w.decisions then
        var (store, decision) := Publish(hash, w.store, w.campaigns[i], at, fate);
        w.(store := store, decisions := w.decisions[i := decision])
      else w
  }

  function HappenAll(hash: Hash, w: World, events: seq<Event>): World
    decreases |events|
  {
    if events == [] then w else HappenAll(hash, Happen(hash, w, events[0]), events[1..])
  }

  /** A launch fixes what is current then; a delivery publishes once, and both leave
      the other campaigns alone. */
  lemma EventsDoOneThing(hash: Hash, w: World, i: nat, acceptedAt: string, fate: Fate)
    requires i < |w.campaigns| && i !in w.decisions
    ensures var u := Happen(hash, w, Launch(i));
            && u.store == w.store && u.decisions == w.decisions && |u.campaigns| == |w.campaigns|
            && u.campaigns[i] == w.campaigns[i].(launchedAgainst := w.store.current)
            && forall j :: 0 <= j < |w.campaigns| && j != i ==> u.campaigns[j] == w.campaigns[j]
    ensures var u := Happen(hash, w, Deliver(i, acceptedAt, fate));
            && u.campaigns == w.campaigns && i in u.decisions
            && (u.store, u.decisions[i]) == Publish(hash, w.store, w.campaigns[i], acceptedAt, fate)
            && forall j :: j in w.decisions ==> j in u.decisions && u.decisions[j] == w.decisions[j]
  {
  }

  ghost predicate UniqueRuns(campaigns: seq<Campaign>) {
    forall i, j :: 0 <= i < j < |campaigns| ==> campaigns[i].runId != campaigns[j].runId
  }

  /** The pointer that the acceptance of campaign i wrote, if it was accepted. */
  ghost predicate AcceptedAs(w: World, i: nat, k: nat) {
    && i in w.decisions && i < |w.campaigns| && k < |w.store.accepted|
    && w.decisions[i] == Accepted(w.store.accepted[k].revision)
    && w.store.accepted[k].content.runId == w.campaigns[i].runId
    && w.campaigns[i].launchedAgainst == if k == 0 then None else Some(w.store.accepted[k - 1])
  }

  ghost predicate Consistent(hash: Hash, w: World) {
    && Sound(hash, w.store)
    && UniqueRuns(w.campaigns)
    && (forall i :: 0 <= i < |w.campaigns| && w.campaigns[i].runId in w.store.published ==> i in w.decisions)
    && (forall i :: i in w.decisions && w.decisions[i].Accepted? ==> exists k: nat :: AcceptedAs(w, i, k))
  }

  lemma HappenKeeps(hash: Hash, w: World, e: Event)
    requires Injective(hash) && Consistent(hash, w)
    ensures Consistent(hash, Happen(hash, w, e))
  {
    hide Sound, Injective;
    var u := Happen(hash, w, e);
    match e {
      case Launch(n) =>
        forall i | i in u.decisions && u.decisions[i].Accepted? ensures exists k: nat :: AcceptedAs(u, i, k) {
          var k: nat :| AcceptedAs(w, i, k);
          assert AcceptedAs(u, i, k);
        }
      case Deliver(n, at, fate) =>
        if n < |w.campaigns| && n !in w.decisions {
          PublishKeepsSound(hash, w.store, w.campaigns[n], at, fate);
          OnlyAcceptanceMovesThePointer(hash, w.store, w.campaigns[n], at, fate);
          LastIsCurrent(hash, w.store);
          forall i | i in u.decisions && u.decisions[i].Accepted? ensures exists k: nat :: AcceptedAs(u, i, k) {
            if i == n {
              assert AcceptedAs(u, i, |w.store.accepted|);
            } else {
              var k: nat :| AcceptedAs(w, i, k);
              assert AcceptedAs(u, i, k);
            }
          }
        }
    }
  }

  lemma LastIsCurrent(hash: Hash, s: State)
    requires Sound(hash, s)
    ensures s.current == if s.accepted == [] then None else Some(s.accepted[|s.accepted| - 1])
  {
  }

  /** With any interleaving of launches and publications, the accepted pointers form
      one chain and every acceptance stands at its own place in it. */
  lemma {:induction false} EveryInterleavingIsAChain(hash: Hash, w: World, events: seq<Event>)
    requires Injective(hash) && Consistent(hash, w)
    ensures Consistent(hash, HappenAll(hash, w, events))
    decreases |events|
  {
    hide Consistent, Injective;
    if events != [] {
      HappenKeeps(hash, w, events[0]);
      EveryInterleavingIsAChain(hash, Happen(hash, w, events[0]), events[1..]);
    }
  }

  /** At most one campaign is accepted per launch pointer. */
  lemma OneAcceptancePerLaunch(hash: Hash, w: World, i: nat, j: nat)
    requires Consistent(hash, w)
    requires i in w.decisions && j in w.decisions && w.decisions[i].Accepted? && w.decisions[j].Accepted?
    requires i < |w.campaigns| && j < |w.campaigns| && w.campaigns[i].launchedAgainst == w.campaigns[j].launchedAgainst
    ensures i == j
  {
    var k: nat :| AcceptedAs(w, i, k);
    var l: nat :| AcceptedAs(w, j, l);
    assert k == l by {
      if k > 0 && l > 0 {
        assert w.store.accepted[k - 1].content.runId == w.store.accepted[l - 1].content.runId;
      }
    }
    assert w.campaigns[i].runId == w.campaigns[j].runId;
  }

  lemma NothingPublishedYet(hash: Hash, campaigns: seq<Campaign>)
    requires UniqueRuns(campaigns)
    ensures Consistent(hash, World(Empty(), campaigns, map[]))
  {
  }

  /** From an empty store, whatever happens in whatever order: the accepted pointers
      are one chain that ends in the current pointer, and no two accepted campaigns
      were launched against the same pointer. */
  lemma EveryHistoryIsAChain(hash: Hash, campaigns: seq<Campaign>, events: seq<Event>)
    requires Injective(hash) && UniqueRuns(campaigns)
    ensures var w := HappenAll(hash, World(Empty(), campaigns, map[]), events);
            && IsChain(hash, w.store.current, w.store.accepted)
            && forall i, j :: 0 <= i < j < |w.campaigns| && i in w.decisions && j in w.decisions
                 && w.decisions[i].Accepted? && w.decisions[j].Accepted?
                 ==> w.campaigns[i].launchedAgainst != w.campaigns[j].launchedAgainst
  {
    hide HappenAll, Injective, UniqueRuns, IsChain, RunsAreUsedOnce;
    NothingPublishedYet(hash, campaigns);
    EveryInterleavingIsAChain(hash, World(Empty(), campaigns, map[]), events);
    var w := HappenAll(hash, World(Empty(), campaigns, map[]), events);
    forall i, j | 0 <= i < j < |w.campaigns| && i in w.decisions && j in w.decisions
                  && w.decisions[i].Accepted? && w.decisions[j].Accepted?
      ensures w.campaigns[i].launchedAgainst != w.campaigns[j].launchedAgainst
    {
      if w.campaigns[i].launchedAgainst == w.campaigns[j].launchedAgainst {
        OneAcceptancePerLaunch(hash, w, i, j);
      }
    }
  }

  /** The store the publishers share. The lock makes each publication one step. */
  class Baseline {
    const hash: Hash
    var current: Option<Pointer>
    var history: map<Revision, Pointer>
    ghost var accepted: seq<Pointer>
    ghost var published: set<string>

    ghost function Snapshot(): State
      reads this
    {
      State(current, history, accepted, published)
    }

    constructor (hash: Hash)
      ensures this.hash == hash && Snapshot() == Empty() && Sound(hash, Snapshot())
    {
      this.hash := hash;
      current, history, accepted, published := None, map[], [], {};
    }

    method PublishCampaign(c: Campaign, acceptedAt: string, fate: Fate) returns (decision: Decision)
      requires Injective(hash) && Sound(hash, Snapshot()) && c.runId !in published
      modifies this
      ensures (Snapshot(), decision) == Publish(hash, old(Snapshot()), c, acceptedAt, fate)
      ensures Sound(hash, Snapshot())
      ensures decision.Accepted? <==> c.eligible && old(current) == c.launchedAgainst && fate == Completes
      ensures !decision.Accepted? ==> current == old(current)
      ensures decision.Accepted? ==> current.Some? && Announces(hash, current.value, c, acceptedAt) && decision.revision == current.value.revision
    {
      hide Sound, Injective;
      PublishKeepsSound(hash, Snapshot(), c, acceptedAt, fate);
      published := published + {c.runId};
      if !c.eligible {
        return Held;
      }
      var latest := current;
      if latest != c.launchedAgainst {
        return Stale;
      }
      var p := NewPointer(hash, c, acceptedAt);
      if p.revision in history {
        return Duplicate;
      }
      history := history[p.revision := p];
      if fate == CrashesBeforePointer {
        return Crashed; // readers follow the pointer only, never the history
      }
      current := Some(p);
      accepted := accepted + [p];
      return Accepted(p.revision);
    }
  }
}
