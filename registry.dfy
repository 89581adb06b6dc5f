/** The participant registry kept by the transport's SDK listener: a map from
    participant id to participant that iterates in insertion order (Kotlin's
    mutableMapOf), and the derived bot user, the first non-local participant. */
module Registry {
  import opened Outcomes
  import opened RtviTypes
  import opened DailySdk
  import opened Utils

  ghost predicate Distinct<T>(s: seq<T>)
  {
    forall i, j :: 0 <= i < j < |s| ==> s[i] != s[j]
  }

  /** `order` lists each key of `m` exactly once: the map's iteration order. */
  ghost predicate OrderedKeys(order: seq<ParticipantId>, m: map<ParticipantId, Participant>)
  {
    Distinct(order) && forall k :: k in order <==> k in m
  }

  /** Every participant is stored under its own id. */
  ghost predicate KeyedById(m: map<ParticipantId, Participant>)
  {
    forall k :: k in m ==> m[k].id == k
  }

  /** Key order after `m[k] = v`: a new key goes last, an existing one keeps its place. */
  function UpsertOrder(order: seq<ParticipantId>, k: ParticipantId): (r: seq<ParticipantId>)
    ensures forall x :: x in r <==> x in order || x == k
    ensures Distinct(order) ==> Distinct(r)
  {
    if k in order then order else order + [k]
  }

  /** Key order after `m.remove(k)`: the other keys, in their old order. */
  function RemoveOrder(order: seq<ParticipantId>, k: ParticipantId): (r: seq<ParticipantId>)
    ensures forall x :: x in r <==> x in order && x != k
    ensures Distinct(order) ==> Distinct(r)
  {
    if order == [] then []
    else if order[0] == k then RemoveOrder(order[1..], k)
    else
      assert Distinct(order) ==> order[0] !in order[1..];
      [order[0]] + RemoveOrder(order[1..], k)
  }

  /** The map's values in iteration order. */
  function ValuesInOrder(order: seq<ParticipantId>, m: map<ParticipantId, Participant>): (vs: seq<Participant>)
    requires forall k :: k in order ==> k in m
    ensures |vs| == |order|
    ensures forall i :: 0 <= i < |order| ==> vs[i] == m[order[i]]
  {
    if order == [] then [] else [m[order[0]]] + ValuesInOrder(order[1..], m)
  }

  /** `firstOrNull { !it.local }`. */
  function FirstNonLocal(vs: seq<Participant>): (r: Option<Participant>)
    ensures r.None? <==> forall i :: 0 <= i < |vs| ==> vs[i].local
    ensures r.Some? ==> exists i :: 0 <= i < |vs| && vs[i] == r.value && !vs[i].local &&
                          forall j :: 0 <= j < i ==> vs[j].local
  {
    if vs == [] then None
    else if !vs[0].local then
      Some(vs[0])
    else
      var r := FirstNonLocal(vs[1..]);
      if r.Some? then
        var i :| 0 <= i < |vs[1..]| && vs[1..][i] == r.value && !vs[1..][i].local &&
                 forall j :: 0 <= j < i ==> vs[1..][j].local;
        assert vs[i + 1] == r.value && forall j :: 0 <= j < i + 1 ==> vs[j].local;
        r
      else r
  }

  /** The bot user the listener derives from the map. */
  function Bot(order: seq<ParticipantId>, m: map<ParticipantId, Participant>): (r: Option<Participant>)
    requires OrderedKeys(order, m)
    ensures r.Some? ==> exists i :: 0 <= i < |order| && m[order[i]] == r.value && !r.value.local &&
                          forall j :: 0 <= j < i ==> m[order[j]].local
  {
    FirstNonLocal(ValuesInOrder(order, m))
  }

  /** There is no bot exactly when every known participant is local, and a bot is a
      remote participant stored under its own id. */
  lemma BotIsARemoteMember(order: seq<ParticipantId>, m: map<ParticipantId, Participant>)
    requires OrderedKeys(order, m) && KeyedById(m)
    ensures Bot(order, m).None? <==> forall k :: k in m ==> m[k].local
    ensures Bot(order, m).Some? ==>
      var b := Bot(order, m).value; b.id in m && m[b.id] == b && !b.local
  {
    var vs := ValuesInOrder(order, m);
    if Bot(order, m).None? {
      forall k | k in m ensures m[k].local {
        var i :| 0 <= i < |order| && order[i] == k;
        assert vs[i] == m[k];
      }
    }
  }

  /** Appending a local participant never changes the first non-local one. */
  lemma {:induction false} FirstNonLocalAppendLocal(vs: seq<Participant>, p: Participant)
    requires p.local
    ensures FirstNonLocal(vs + [p]) == FirstNonLocal(vs)
  {
    if vs != [] {
      assert (vs + [p])[1..] == vs[1..] + [p];
      FirstNonLocalAppendLocal(vs[1..], p);
    }
  }

  /** A new local participant joining leaves the bot as it was. */
  lemma LocalJoinKeepsBot(order: seq<ParticipantId>, m: map<ParticipantId, Participant>, p: Participant)
    requires OrderedKeys(order, m) && p.local && p.id !in m
    ensures OrderedKeys(UpsertOrder(order, p.id), m[p.id := p])
    ensures Bot(UpsertOrder(order, p.id), m[p.id := p]) == Bot(order, m)
  {
    var m' := m[p.id := p];
    assert ValuesInOrder(order + [p.id], m') == ValuesInOrder(order, m) + [p];
    FirstNonLocalAppendLocal(ValuesInOrder(order, m), p);
  }

  /** A local participant leaving leaves the bot as it was. */
  lemma {:induction false} LocalLeaveKeepsBotAux(order: seq<ParticipantId>, m: map<ParticipantId, Participant>, k: ParticipantId)
    requires forall x :: x in order ==> x in m
    requires k in m && m[k].local
    ensures FirstNonLocal(ValuesInOrder(RemoveOrder(order, k), m - {k})) == FirstNonLocal(ValuesInOrder(order, m))
  {
    if order != [] {
      var m' := m - {k};
      LocalLeaveKeepsBotAux(order[1..], m, k);
      var vs := ValuesInOrder(order, m);
      assert vs[1..] == ValuesInOrder(order[1..], m);
      if order[0] == k {
        assert RemoveOrder(order, k) == RemoveOrder(order[1..], k);
        assert vs[0].local;
      } else {
        var rest := RemoveOrder(order[1..], k);
        assert RemoveOrder(order, k) == [order[0]] + rest;
        assert ([order[0]] + rest)[1..] == rest;
        var ws := ValuesInOrder([order[0]] + rest, m');
        assert ws[0] == vs[0];
        assert ws[1..] == ValuesInOrder(rest, m');
      }
    }
  }

  lemma LocalLeaveKeepsBot(order: seq<ParticipantId>, m: map<ParticipantId, Participant>, k: ParticipantId)
    requires OrderedKeys(order, m) && k in m && m[k].local
    ensures OrderedKeys(RemoveOrder(order, k), m - {k})
    ensures Bot(RemoveOrder(order, k), m - {k}) == Bot(order, m)
  {
    LocalLeaveKeepsBotAux(order, m, k);
  }

  /** Key order after upserting every participant of a snapshot, first to last. */
  function UpsertAllOrder(order: seq<ParticipantId>, ps: seq<DailyParticipant>): seq<ParticipantId>
  {
    if ps == [] then order else UpsertOrder(UpsertAllOrder(order, ps[..|ps| - 1]), ParticipantIdToRtvi(ps[|ps| - 1].id))
  }

  /** The map after upserting every participant of a snapshot, first to last. */
  function UpsertAllMap(m: map<ParticipantId, Participant>, ps: seq<DailyParticipant>): map<ParticipantId, Participant>
  {
    if ps == [] then m
    else UpsertAllMap(m, ps[..|ps| - 1])[ParticipantIdToRtvi(ps[|ps| - 1].id) := ParticipantToRtvi(ps[|ps| - 1])]
  }

  /** After a rebuild every participant of the snapshot is known, with the state the
      snapshot gives it, and nobody who was known is lost. */
  lemma {:induction false} RebuildCoversSnapshot(m: map<ParticipantId, Participant>, ps: seq<DailyParticipant>)
    ensures forall i :: 0 <= i < |ps| ==> ParticipantIdToRtvi(ps[i].id) in UpsertAllMap(m, ps)
    ensures forall i :: 0 <= i < |ps| && (forall j :: i < j < |ps| ==> ParticipantIdToRtvi(ps[j].id) != ParticipantIdToRtvi(ps[i].id)) ==>
      UpsertAllMap(m, ps)[ParticipantIdToRtvi(ps[i].id)] == ParticipantToRtvi(ps[i])
    ensures m.Keys <= UpsertAllMap(m, ps).Keys
  {
    if ps != [] {
      var init := ps[..|ps| - 1];
      RebuildCoversSnapshot(m, init);
      forall i | 0 <= i < |ps| - 1 ensures ps[i] == init[i] { }
    }
  }

  /** The rebuild only upserts: an entry the snapshot does not name keeps its value. */
  lemma {:induction false} RebuildKeepsUnnamed(m: map<ParticipantId, Participant>, ps: seq<DailyParticipant>, k: ParticipantId)
    requires k in m && forall i :: 0 <= i < |ps| ==> ParticipantIdToRtvi(ps[i].id) != k
    ensures k in UpsertAllMap(m, ps) && UpsertAllMap(m, ps)[k] == m[k]
  {
    if ps != [] {
      RebuildKeepsUnnamed(m, ps[..|ps| - 1], k);
    }
  }

  lemma TwoJoins(a: DailyParticipant, b: DailyParticipant)
    requires ParticipantIdToRtvi(a.id) != ParticipantIdToRtvi(b.id)
    ensures UpsertAllOrder([], [a, b]) == [ParticipantIdToRtvi(a.id), ParticipantIdToRtvi(b.id)]
    ensures UpsertAllMap(map[], [a, b]) == map[ParticipantIdToRtvi(a.id) := ParticipantToRtvi(a), ParticipantIdToRtvi(b.id) := ParticipantToRtvi(b)]
  {
    assert [a, b][..1] == [a];
    assert [a][..0] == [];
    assert UpsertAllOrder([], [a]) == [ParticipantIdToRtvi(a.id)];
    assert UpsertAllMap(map[], [a]) == map[ParticipantIdToRtvi(a.id) := ParticipantToRtvi(a)];
  }

  /** The example run: a local participant A and a remote B join, then A leaves; B is
      the bot. */
  lemma JoinJoinLeaveExample(a: DailyParticipant, b: DailyParticipant)
    requires a.info.isLocal && !b.info.isLocal && ParticipantIdToRtvi(a.id) != ParticipantIdToRtvi(b.id)
    ensures var order := RemoveOrder(UpsertAllOrder([], [a, b]), ParticipantIdToRtvi(a.id));
            var m := UpsertAllMap(map[], [a, b]) - {ParticipantIdToRtvi(a.id)};
            OrderedKeys(order, m) && Bot(order, m) == Some(ParticipantToRtvi(b))
  {
    var ka, kb := ParticipantIdToRtvi(a.id), ParticipantIdToRtvi(b.id);
    var pa, pb := ParticipantToRtvi(a), ParticipantToRtvi(b);
    TwoJoins(a, b);
    assert [ka, kb][1..] == [kb];
    assert [kb][1..] == [];
    assert RemoveOrder([kb], ka) == [kb];
    assert RemoveOrder([ka, kb], ka) == [kb];
    assert map[ka := pa, kb := pb] - {ka} == map[kb := pb];
    assert ValuesInOrder([kb], map[kb := pb]) == [pb];
  }

  /** A rebuild of an empty registry from a snapshot holding only the local
      participant leaves no bot. */
  lemma LocalOnlySnapshotHasNoBot(a: DailyParticipant)
    requires a.info.isLocal
    ensures OrderedKeys(UpsertAllOrder([], [a]), UpsertAllMap(map[], [a]))
    ensures Bot(UpsertAllOrder([], [a]), UpsertAllMap(map[], [a])) == None
  {
    var ka, pa := ParticipantIdToRtvi(a.id), ParticipantToRtvi(a);
    assert [a][..0] == [];
    assert UpsertAllOrder([], [a]) == [ka];
    assert UpsertAllMap(map[], [a]) == map[ka := pa];
    assert ValuesInOrder([ka], map[ka := pa]) == [pa];
  }

  /** The `joined` rebuild only upserts: a remote participant still in the registry
      (its leave was missed) survives a snapshot that holds only the local
      participant, and stays the bot. */
  lemma StaleRemoteSurvivesRebuild(stale: Participant, a: DailyParticipant)
    requires !stale.local && a.info.isLocal && ParticipantIdToRtvi(a.id) != stale.id
    ensures var order := UpsertAllOrder([stale.id], [a]);
            var m := UpsertAllMap(map[stale.id := stale], [a]);
            OrderedKeys(order, m) && Bot(order, m) == Some(stale)
  {
    var ka, pa := ParticipantIdToRtvi(a.id), ParticipantToRtvi(a);
    assert [a][..0] == [];
    assert UpsertAllOrder([stale.id], [a]) == [stale.id, ka];
    assert UpsertAllMap(map[stale.id := stale], [a]) == map[stale.id := stale, ka := pa];
    var vs := ValuesInOrder([stale.id, ka], map[stale.id := stale, ka := pa]);
    assert vs[0] == stale;
  }

  class ParticipantRegistry {
    var order: seq<ParticipantId>
    var participants: map<ParticipantId, Participant>
    var botUser: Option<Participant>

    ghost predicate Valid()
      reads this
    {
      OrderedKeys(order, participants) && KeyedById(participants)
    }

    function CurrentBot(): Option<Participant>
      reads this
      requires Valid()
    {
      Bot(order, participants)
    }

    constructor ()
      ensures Valid() && order == [] && participants == map[] && botUser == None
    {
      order := [];
      participants := map[];
      botUser := None;
    }

    /** `updateParticipant`: `participants[id.toRtvi()] = participant.toRtvi()`. */
    method Upsert(q: DailyParticipant)
      requires Valid()
      modifies this
      ensures Valid()
      ensures order == UpsertOrder(old(order), ParticipantIdToRtvi(q.id))
      ensures participants == old(participants)[ParticipantIdToRtvi(q.id) := ParticipantToRtvi(q)]
      ensures botUser == old(botUser)
    {
      var k := ParticipantIdToRtvi(q.id);
      order := UpsertOrder(order, k);
      participants := participants[k := ParticipantToRtvi(q)];
    }

    /** `participants.remove(id.toRtvi())`; an unknown id changes nothing. */
    method Remove(id: DailyParticipantId)
      requires Valid()
      modifies this
      ensures Valid()
      ensures order == RemoveOrder(old(order), ParticipantIdToRtvi(id))
      ensures participants == old(participants) - {ParticipantIdToRtvi(id)}
      ensures botUser == old(botUser)
    {
      var k := ParticipantIdToRtvi(id);
      order := RemoveOrder(order, k);
      participants := participants - {k};
    }

    /** `forEach(::updateParticipant)` over a snapshot. */
    method UpsertAll(ps: seq<DailyParticipant>)
      requires Valid()
      modifies this
      ensures Valid()
      ensures order == UpsertAllOrder(old(order), ps)
      ensures participants == UpsertAllMap(old(participants), ps)
      ensures botUser == old(botUser)
    {
      for i := 0 to |ps|
        invariant Valid()
        invariant order == UpsertAllOrder(old(order), ps[..i])
        invariant participants == UpsertAllMap(old(participants), ps[..i])
        invariant botUser == old(botUser)
      {
        assert ps[..i + 1][..i] == ps[..i];
        Upsert(ps[i]);
      }
      assert ps[..|ps|] == ps;
    }

    /** `updateBotUser`. */
    method UpdateBotUser()
      requires Valid()
      modifies this
      ensures Valid() && order == old(order) && participants == old(participants)
      ensures botUser == Bot(order, participants)
    {
      var vs := ValuesInOrder(order, participants);
      botUser := FirstNonLocal(vs);
    }

    /** What the `left` call state does to the registry: `botUser = null` and `clear()`. */
    method Reset()
      modifies this
      ensures Valid() && order == [] && participants == map[] && botUser == None
    {
      botUser := None;
      order := [];
      participants := map[];
    }
  }
}
