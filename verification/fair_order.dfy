/** Round-robin order of due upgrade work across series and movie scopes. */
module FairOrder {
  import opened Common

  datatype UpgradeEntity = UpgradeEntity(source: string, entityId: string, releasedAt: int, generation: string,
                                         currentScore: int, scopeId: Option<string>)

  type ScopeKey = (string, string)

  /** A Sonarr series, or one Radarr movie by default. */
  function KeyOf(e: UpgradeEntity): ScopeKey {
    (e.source, if Truthy(e.scopeId) then e.scopeId.value else e.entityId)
  }

  /** The entities of one scope, in their given order. */
  function Of(entities: seq<UpgradeEntity>, key: ScopeKey): seq<UpgradeEntity> {
    if entities == [] then []
    else
      var n := |entities| - 1;
      Of(entities[..n], key) + (if KeyOf(entities[n]) == key then [entities[n]] else [])
  }

  /** In every prefix no scope is more than one ahead of a scope that still has work. */
  ghost predicate Fair(ordered: seq<UpgradeEntity>, entities: seq<UpgradeEntity>) {
    forall i, a, b :: 0 <= i <= |ordered| && |Of(ordered[..i], b)| < |Of(entities, b)| ==>
      |Of(ordered[..i], a)| <= |Of(ordered[..i], b)| + 1
  }

  lemma OfAppend(s: seq<UpgradeEntity>, e: UpgradeEntity, key: ScopeKey)
    ensures Of(s + [e], key) == Of(s, key) + (if KeyOf(e) == key then [e] else [])
  {
    assert (s + [e])[..|s|] == s;
  }

  lemma {:induction false} OfKeyed(s: seq<UpgradeEntity>, key: ScopeKey)
    ensures forall e :: e in Of(s, key) ==> KeyOf(e) == key && e in s
    ensures forall e :: e in s && KeyOf(e) == key ==> e in Of(s, key)
  {
    if s != [] {
      OfKeyed(s[..|s| - 1], key);
    }
  }

  lemma {:induction false} OfCounts(s: seq<UpgradeEntity>, e: UpgradeEntity)
    ensures multiset(Of(s, KeyOf(e)))[e] == multiset(s)[e]
  {
    if s != [] {
      var n := |s| - 1;
      OfCounts(s[..n], e);
      assert s == s[..n] + [s[n]];
    }
  }

  /** The same work in every scope is the same work. */
  lemma SameScopesSameWork(a: seq<UpgradeEntity>, b: seq<UpgradeEntity>)
    requires forall key :: Of(a, key) == Of(b, key)
    ensures multiset(a) == multiset(b)
  {
    forall e
      ensures multiset(a)[e] == multiset(b)[e]
    {
      OfCounts(a, e);
      OfCounts(b, e);
    }
  }

  /** The scopes in the order of their first entity. */
  function ScopesOf(entities: seq<UpgradeEntity>): seq<ScopeKey> {
    if entities == [] then []
    else
      var before := ScopesOf(entities[..|entities| - 1]);
      var key := KeyOf(entities[|entities| - 1]);
      if key in before then before else before + [key]
  }

  lemma NothingGrouped()
    ensures ScopesOf([]) == [] && forall key :: Of([], key) == []
  {
  }

  /** One more entity changes its own scope only, and opens that scope if it is the first. */
  lemma NextInGroup(entities: seq<UpgradeEntity>, i: nat)
    requires i < |entities|
    ensures forall key :: Of(entities[..i + 1], key)
              == (if KeyOf(entities[i]) == key then Of(entities[..i], key) + [entities[i]] else Of(entities[..i], key))
    ensures ScopesOf(entities[..i + 1]) == (var before := ScopesOf(entities[..i]);
              if KeyOf(entities[i]) in before then before else before + [KeyOf(entities[i])])
  {
    assert entities[..i + 1] == entities[..i] + [entities[i]] && entities[..i + 1][..i] == entities[..i];
    OfNext(entities[..i], entities[i]);
  }

  /** Groups the entities by scope; scopes appear in the order of their first entity. */
  method Group(entities: seq<UpgradeEntity>) returns (keys: seq<ScopeKey>, scopes: map<ScopeKey, seq<UpgradeEntity>>)
    ensures forall i, j :: 0 <= i < j < |keys| ==> keys[i] != keys[j]
    ensures forall key :: key in scopes <==> key in keys
    ensures forall key :: key in scopes ==> scopes[key] == Of(entities, key)
    ensures forall key :: key !in scopes ==> Of(entities, key) == []
    ensures keys == [] <==> entities == []
    ensures keys == ScopesOf(entities)
  {
    hide Of, ScopesOf, KeyOf;
    NothingGrouped();
    keys, scopes := [], map[];
    var i := 0;
    while i < |entities|
      invariant 0 <= i <= |entities|
      invariant forall i, j :: 0 <= i < j < |keys| ==> keys[i] != keys[j]
      invariant forall key :: key in scopes <==> key in keys
      invariant forall key :: key in scopes ==> scopes[key] == Of(entities[..i], key)
      invariant forall key :: key !in scopes ==> Of(entities[..i], key) == []
      invariant keys == [] <==> i == 0
      invariant keys == ScopesOf(entities[..i])
    {
      var entity := entities[i];
      NextInGroup(entities, i);
      var key := KeyOf(entity);
      if key in scopes {
        scopes := scopes[key := scopes[key] + [entity]];
      } else {
        keys := keys + [key];
        scopes := scopes[key := [entity]];
      }
      i := i + 1;
    }
    assert entities[..|entities|] == entities;
  }

  // Whose turn it is.

  /** After this prefix the entity's scope, among those with work left, has had the fewest turns, and
      of those with the fewest it comes first. */
  ghost predicate Turn(keys: seq<ScopeKey>, entities: seq<UpgradeEntity>, prefix: seq<UpgradeEntity>,
                       e: UpgradeEntity)
  {
    exists p :: 0 <= p < |keys| && keys[p] == KeyOf(e) && Foremost(keys, entities, prefix, p)
  }

  predicate Foremost(keys: seq<ScopeKey>, entities: seq<UpgradeEntity>, prefix: seq<UpgradeEntity>, p: nat)
    requires p < |keys|
  {
    forall j :: 0 <= j < |keys| && |Of(prefix, keys[j])| < |Of(entities, keys[j])| ==>
      || |Of(prefix, keys[p])| < |Of(prefix, keys[j])|
      || (|Of(prefix, keys[p])| == |Of(prefix, keys[j])| && p <= j)
  }

  /** Every entity comes in its turn, which leaves one order for these scopes. */
  ghost predicate InTurn(keys: seq<ScopeKey>, entities: seq<UpgradeEntity>, ordered: seq<UpgradeEntity>) {
    forall i :: 0 <= i < |ordered| ==> Turn(keys, entities, ordered[..i], ordered[i])
  }

  /** The scopes from the place of the cursor on. */
  function Rotated(keys: seq<ScopeKey>, cursor: nat): seq<ScopeKey> {
    if keys == [] then [] else keys[cursor % |keys|..] + keys[..cursor % |keys|]
  }

  lemma InTurnGrows(keys: seq<ScopeKey>, entities: seq<UpgradeEntity>, ordered: seq<UpgradeEntity>, e: UpgradeEntity)
    requires InTurn(keys, entities, ordered) && Turn(keys, entities, ordered, e)
    ensures InTurn(keys, entities, ordered + [e])
  {
    hide Turn;
    forall i | 0 <= i < |ordered + [e]|
      ensures Turn(keys, entities, (ordered + [e])[..i], (ordered + [e])[i])
    {
      assert (ordered + [e])[..i] == ordered[..i];
      if i == |ordered| {
        assert ordered[..i] == ordered;
      }
    }
  }

  /** The scope at the cursor leads, so over as many cursors as there are scopes each leads once. */
  lemma CursorLeads(entities: seq<UpgradeEntity>, ordered: seq<UpgradeEntity>, cursor: nat)
    requires InTurn(Rotated(ScopesOf(entities), cursor), entities, ordered) && ordered != []
    requires forall key :: key in ScopesOf(entities) ==> Of(entities, key) != []
    ensures ScopesOf(entities) != []
    ensures KeyOf(ordered[0]) == ScopesOf(entities)[cursor % |ScopesOf(entities)|]
  {
    var keys := Rotated(ScopesOf(entities), cursor);
    assert Turn(keys, entities, ordered[..0], ordered[0]) && ordered[..0] == [];
    var p :| 0 <= p < |keys| && keys[p] == KeyOf(ordered[0]) && Foremost(keys, entities, [], p);
    assert keys[0] in ScopesOf(entities);
    assert |Of([], keys[0])| < |Of(entities, keys[0])|;
  }

  lemma {:induction false} ScopesHaveWork(entities: seq<UpgradeEntity>)
    ensures forall key :: key in ScopesOf(entities) <==> Of(entities, key) != []
  {
    if entities != [] {
      ScopesHaveWork(entities[..|entities| - 1]);
    }
  }

  function Smaller(a: nat, b: nat): nat {
    if a <= b then a else b
  }

  /** One scope is split where its turn stands: `turns` taken, the rest queued. */
  predicate ScopeSplit(all: seq<UpgradeEntity>, taken: seq<UpgradeEntity>, queue: seq<UpgradeEntity>, turns: nat) {
    taken == all[..Smaller(turns, |all|)] && queue == all[Smaller(turns, |all|)..]
  }

  /** The turns of a scope after whole rounds and the current round up to `upto`. */
  function Turns(keys: seq<ScopeKey>, key: ScopeKey, rounds: nat, upto: nat): nat
    requires upto <= |keys|
  {
    if key in keys[..upto] then rounds + 1 else rounds
  }

  /** The state of the round-robin. */
  ghost predicate Split(keys: seq<ScopeKey>, entities: seq<UpgradeEntity>, scopes: map<ScopeKey, seq<UpgradeEntity>>,
                        ordered: seq<UpgradeEntity>, rounds: nat, upto: nat)
    requires upto <= |keys|
  {
    && (forall key :: key in scopes <==> key in keys)
    && (forall key :: key in scopes ==>
          ScopeSplit(Of(entities, key), Of(ordered, key), scopes[key], Turns(keys, key, rounds, upto)))
    && (forall key :: key !in scopes ==> Of(ordered, key) == [] && Of(entities, key) == [])
  }

  /** A split state is fair as it stands. */
  lemma SplitIsFair(keys: seq<ScopeKey>, entities: seq<UpgradeEntity>, scopes: map<ScopeKey, seq<UpgradeEntity>>,
                    ordered: seq<UpgradeEntity>, rounds: nat, upto: nat, a: ScopeKey, b: ScopeKey)
    requires upto <= |keys| && Split(keys, entities, scopes, ordered, rounds, upto)
    requires |Of(ordered, b)| < |Of(entities, b)|
    ensures |Of(ordered, a)| <= |Of(ordered, b)| + 1
  {
    assert b in scopes;
    assert a in scopes ==> ScopeSplit(Of(entities, a), Of(ordered, a), scopes[a], Turns(keys, a, rounds, upto));
    hide Of;
  }

  lemma FairGrows(ordered: seq<UpgradeEntity>, e: UpgradeEntity, entities: seq<UpgradeEntity>)
    requires Fair(ordered, entities)
    requires forall a, b ::
      |Of(ordered + [e], b)| < |Of(entities, b)| ==> |Of(ordered + [e], a)| <= |Of(ordered + [e], b)| + 1
    ensures Fair(ordered + [e], entities)
  {
    forall i, a, b | 0 <= i <= |ordered + [e]| && |Of((ordered + [e])[..i], b)| < |Of(entities, b)|
      ensures |Of((ordered + [e])[..i], a)| <= |Of((ordered + [e])[..i], b)| + 1
    {
      if i <= |ordered| {
        assert (ordered + [e])[..i] == ordered[..i];
      } else {
        assert (ordered + [e])[..i] == ordered + [e];
      }
    }
  }

  lemma TurnsNext(keys: seq<ScopeKey>, rounds: nat, upto: nat)
    requires upto < |keys| && forall i, j :: 0 <= i < j < |keys| ==> keys[i] != keys[j]
    ensures Turns(keys, keys[upto], rounds, upto) == rounds && Turns(keys, keys[upto], rounds, upto + 1) == rounds + 1
    ensures forall k :: k != keys[upto] ==> Turns(keys, k, rounds, upto + 1) == Turns(keys, k, rounds, upto)
  {
    assert keys[..upto + 1] == keys[..upto] + [keys[upto]];
  }

  /** A scope without work passes its turn. */
  lemma PassKeepsSplit(keys: seq<ScopeKey>, entities: seq<UpgradeEntity>, scopes: map<ScopeKey, seq<UpgradeEntity>>,
                       ordered: seq<UpgradeEntity>, rounds: nat, upto: nat)
    requires upto < |keys| && Split(keys, entities, scopes, ordered, rounds, upto)
    requires forall i, j :: 0 <= i < j < |keys| ==> keys[i] != keys[j]
    requires keys[upto] in scopes && scopes[keys[upto]] == []
    ensures Split(keys, entities, scopes, ordered, rounds, upto + 1)
  {
    hide Of, KeyOf, Turns, ScopeSplit;
    var key := keys[upto];
    TurnsNext(keys, rounds, upto);
    assert ScopeSplit(Of(entities, key), Of(ordered, key), scopes[key], rounds);
    TakeNone(Of(entities, key), Of(ordered, key), rounds);
    forall k | k in scopes
      ensures ScopeSplit(Of(entities, k), Of(ordered, k), scopes[k], Turns(keys, k, rounds, upto + 1))
    {
      assert ScopeSplit(Of(entities, k), Of(ordered, k), scopes[k], Turns(keys, k, rounds, upto));
    }
  }

  lemma TakeNone(all: seq<UpgradeEntity>, taken: seq<UpgradeEntity>, turns: nat)
    requires ScopeSplit(all, taken, [], turns)
    ensures ScopeSplit(all, taken, [], turns + 1)
  {
  }

  /** A scope with work gives its next entity. */
  lemma TurnKeepsSplit(keys: seq<ScopeKey>, entities: seq<UpgradeEntity>, scopes: map<ScopeKey, seq<UpgradeEntity>>,
                       ordered: seq<UpgradeEntity>, rounds: nat, upto: nat)
    requires upto < |keys| && Split(keys, entities, scopes, ordered, rounds, upto)
    requires forall i, j :: 0 <= i < j < |keys| ==> keys[i] != keys[j]
    requires forall key, e :: e in Of(entities, key) ==> KeyOf(e) == key
    requires keys[upto] in scopes && scopes[keys[upto]] != []
    ensures Split(keys, entities, scopes[keys[upto] := scopes[keys[upto]][1..]], ordered + [scopes[keys[upto]][0]],
                  rounds, upto + 1)
  {
    hide Of, KeyOf, ScopeSplit, Turns;
    var key := keys[upto];
    var e := scopes[key][0];
    var nextScopes, next := scopes[key := scopes[key][1..]], ordered + [e];
    TurnsNext(keys, rounds, upto);
    assert ScopeSplit(Of(entities, key), Of(ordered, key), scopes[key], rounds);
    QueueKeyed(Of(entities, key), Of(ordered, key), scopes[key], rounds);
    OfNext(ordered, e);
    TakeOne(Of(entities, key), Of(ordered, key), scopes[key], rounds);
    forall k | k in nextScopes
      ensures ScopeSplit(Of(entities, k), Of(next, k), nextScopes[k], Turns(keys, k, rounds, upto + 1))
    {
      assert ScopeSplit(Of(entities, k), Of(ordered, k), scopes[k], Turns(keys, k, rounds, upto));
    }
  }

  lemma OfNext(s: seq<UpgradeEntity>, e: UpgradeEntity)
    ensures forall k :: Of(s + [e], k) == if KeyOf(e) == k then Of(s, k) + [e] else Of(s, k)
  {
    forall k
      ensures Of(s + [e], k) == if KeyOf(e) == k then Of(s, k) + [e] else Of(s, k)
    {
      OfAppend(s, e, k);
      assert Of(s, k) + [] == Of(s, k);
    }
  }

  lemma QueueKeyed(all: seq<UpgradeEntity>, taken: seq<UpgradeEntity>, queue: seq<UpgradeEntity>, turns: nat)
    requires ScopeSplit(all, taken, queue, turns)
    ensures forall e :: e in queue ==> e in all
  {
  }

  lemma TakeOne(all: seq<UpgradeEntity>, taken: seq<UpgradeEntity>, queue: seq<UpgradeEntity>, turns: nat)
    requires ScopeSplit(all, taken, queue, turns) && queue != []
    ensures ScopeSplit(all, taken + [queue[0]], queue[1..], turns + 1)
  {
  }

  /** A new round begins where the last one ended. */
  lemma RoundKeepsSplit(keys: seq<ScopeKey>, entities: seq<UpgradeEntity>, scopes: map<ScopeKey, seq<UpgradeEntity>>,
                        ordered: seq<UpgradeEntity>, rounds: nat)
    requires Split(keys, entities, scopes, ordered, rounds, |keys|)
    ensures Split(keys, entities, scopes, ordered, rounds + 1, 0)
  {
    assert keys[..|keys|] == keys && keys[..0] == [];
    forall key | key in scopes
      ensures ScopeSplit(Of(entities, key), Of(ordered, key), scopes[key], Turns(keys, key, rounds + 1, 0))
    {
      assert ScopeSplit(Of(entities, key), Of(ordered, key), scopes[key], Turns(keys, key, rounds, |keys|));
    }
    hide Of;
  }

  /** Before the first round nothing is taken, and when every queue is empty all is. */
  lemma SplitEnds(keys: seq<ScopeKey>, entities: seq<UpgradeEntity>, scopes: map<ScopeKey, seq<UpgradeEntity>>,
                  ordered: seq<UpgradeEntity>, rounds: nat)
    requires Split(keys, entities, scopes, ordered, rounds, 0) && forall key :: key in scopes ==> scopes[key] == []
    ensures forall key :: Of(ordered, key) == Of(entities, key)
  {
    forall key
      ensures Of(ordered, key) == Of(entities, key)
    {
      if key in scopes {
        assert ScopeSplit(Of(entities, key), Of(ordered, key), scopes[key], Turns(keys, key, rounds, 0));
      }
    }
  }

  /** It is the turn of a scope that is reached with work left. */
  lemma TurnComes(keys: seq<ScopeKey>, entities: seq<UpgradeEntity>, scopes: map<ScopeKey, seq<UpgradeEntity>>,
                  ordered: seq<UpgradeEntity>, rounds: nat, upto: nat)
    requires upto < |keys| && Split(keys, entities, scopes, ordered, rounds, upto)
    requires forall i, j :: 0 <= i < j < |keys| ==> keys[i] != keys[j]
    requires forall key, e :: e in Of(entities, key) ==> KeyOf(e) == key
    requires keys[upto] in scopes && scopes[keys[upto]] != []
    ensures Turn(keys, entities, ordered, scopes[keys[upto]][0])
  {
    var key := keys[upto];
    TurnsNext(keys, rounds, upto);
    assert ScopeSplit(Of(entities, key), Of(ordered, key), scopes[key], rounds);
    QueueKeyed(Of(entities, key), Of(ordered, key), scopes[key], rounds);
    assert KeyOf(scopes[key][0]) == key;
    forall j | 0 <= j < |keys| && |Of(ordered, keys[j])| < |Of(entities, keys[j])|
      ensures |Of(ordered, key)| < |Of(ordered, keys[j])| || (|Of(ordered, key)| == |Of(ordered, keys[j])| && upto <= j)
    {
      assert keys[j] in scopes;
      assert ScopeSplit(Of(entities, keys[j]), Of(ordered, keys[j]), scopes[keys[j]],
                        Turns(keys, keys[j], rounds, upto));
      if j < upto {
        assert keys[..upto][j] == keys[j];
      }
    }
    hide Of, KeyOf, Split;
    assert Foremost(keys, entities, ordered, upto);
  }

  /** The source's order: a permutation that keeps each scope's order and is fair in every prefix. */
  method Order(entities: seq<UpgradeEntity>, cursor: nat) returns (ordered: seq<UpgradeEntity>)
    ensures multiset(ordered) == multiset(entities)
    ensures forall key :: Of(ordered, key) == Of(entities, key)
    ensures Fair(ordered, entities)
    ensures InTurn(Rotated(ScopesOf(entities), cursor), entities, ordered)
  {
    var keys, scopes := Group(entities);
    ordered := [];
    if keys == [] {
      return;
    }
    var start := cursor % |keys|;
    var orderedKeys := keys[start..] + keys[..start];
    assert orderedKeys == Rotated(ScopesOf(entities), cursor);
    RotationKeeps(keys, start);
    ScopesKeyed(entities);
    ghost var rounds := 0;
    hide Of, Split, Fair, KeyOf, Turn;
    NothingTaken(orderedKeys, entities, scopes);
    var busy := Busy(orderedKeys, scopes);
    while busy
      invariant Split(orderedKeys, entities, scopes, ordered, rounds, 0)
      invariant Fair(ordered, entities) && InTurn(orderedKeys, entities, ordered)
      invariant forall key :: key in scopes <==> key in orderedKeys
      invariant busy <==> exists key :: key in orderedKeys && key in scopes && scopes[key] != []
      decreases Remaining(orderedKeys, entities, rounds)
    {
      RoundProgress(orderedKeys, entities, scopes, ordered, rounds);
      scopes, ordered := Round(orderedKeys, entities, scopes, ordered, rounds);
      RoundKeepsSplit(orderedKeys, entities, scopes, ordered, rounds);
      rounds := rounds + 1;
      busy := Busy(orderedKeys, scopes);
    }
    SplitEnds(orderedKeys, entities, scopes, ordered, rounds);
    SameScopesSameWork(ordered, entities);
  }

  /** Before the first round every queue is whole. */
  lemma NothingTaken(keys: seq<ScopeKey>, entities: seq<UpgradeEntity>, scopes: map<ScopeKey, seq<UpgradeEntity>>)
    requires forall key :: key in scopes <==> key in keys
    requires forall key :: key in scopes ==> scopes[key] == Of(entities, key)
    requires forall key :: key !in scopes ==> Of(entities, key) == []
    ensures Split(keys, entities, scopes, [], 0, 0) && Fair([], entities)
  {
    assert keys[..0] == [];
    assert forall key :: Of([], key) == [];
  }

  lemma ScopesKeyed(entities: seq<UpgradeEntity>)
    ensures forall key, e :: e in Of(entities, key) ==> KeyOf(e) == key
  {
    forall key, e | e in Of(entities, key)
      ensures KeyOf(e) == key
    {
      OfKeyed(entities, key);
    }
  }

  /** Some scope still has work. */
  method Busy(keys: seq<ScopeKey>, scopes: map<ScopeKey, seq<UpgradeEntity>>) returns (busy: bool)
    requires forall key :: key in keys ==> key in scopes
    ensures busy <==> exists key :: key in keys && key in scopes && scopes[key] != []
  {
    var i := 0;
    while i < |keys|
      invariant 0 <= i <= |keys|
      invariant forall j :: 0 <= j < i ==> scopes[keys[j]] == []
    {
      if scopes[keys[i]] != [] {
        return true;
      }
      i := i + 1;
    }
    return false;
  }

  /** One pass over the scopes takes one entity from each that still has one. */
  method Round(keys: seq<ScopeKey>, ghost entities: seq<UpgradeEntity>, scopes0: map<ScopeKey, seq<UpgradeEntity>>,
               ordered0: seq<UpgradeEntity>, ghost rounds: nat)
    returns (scopes: map<ScopeKey, seq<UpgradeEntity>>, ordered: seq<UpgradeEntity>)
    requires Split(keys, entities, scopes0, ordered0, rounds, 0) && Fair(ordered0, entities)
    requires InTurn(keys, entities, ordered0)
    requires forall i, j :: 0 <= i < j < |keys| ==> keys[i] != keys[j]
    requires forall key, e :: e in Of(entities, key) ==> KeyOf(e) == key
    ensures Split(keys, entities, scopes, ordered, rounds, |keys|) && Fair(ordered, entities)
    ensures InTurn(keys, entities, ordered)
    ensures scopes.Keys == scopes0.Keys
  {
    hide Of, Fair, Split, KeyOf, InTurn, Turn;
    KeysIn(keys, entities, scopes0, ordered0, rounds);
    scopes, ordered := scopes0, ordered0;
    var i := 0;
    while i < |keys|
      invariant 0 <= i <= |keys| && scopes.Keys == scopes0.Keys
      invariant Split(keys, entities, scopes, ordered, rounds, i) && Fair(ordered, entities)
      invariant InTurn(keys, entities, ordered)
    {
      if scopes[keys[i]] == [] {
        PassKeepsSplit(keys, entities, scopes, ordered, rounds, i);
      } else {
        var entity := scopes[keys[i]][0];
        TurnKeepsSplit(keys, entities, scopes, ordered, rounds, i);
        TurnComes(keys, entities, scopes, ordered, rounds, i);
        InTurnGrows(keys, entities, ordered, entity);
        TurnIsFair(keys, entities, scopes[keys[i] := scopes[keys[i]][1..]], ordered, entity, rounds, i + 1);
        scopes := scopes[keys[i] := scopes[keys[i]][1..]];
        ordered := ordered + [entity];
      }
      i := i + 1;
    }
  }

  lemma TurnIsFair(keys: seq<ScopeKey>, entities: seq<UpgradeEntity>, scopes: map<ScopeKey, seq<UpgradeEntity>>,
                   ordered: seq<UpgradeEntity>, e: UpgradeEntity, rounds: nat, upto: nat)
    requires upto <= |keys| && Split(keys, entities, scopes, ordered + [e], rounds, upto) && Fair(ordered, entities)
    ensures Fair(ordered + [e], entities)
  {
    hide Of, Fair, Split;
    forall a, b | |Of(ordered + [e], b)| < |Of(entities, b)|
      ensures |Of(ordered + [e], a)| <= |Of(ordered + [e], b)| + 1
    {
      SplitIsFair(keys, entities, scopes, ordered + [e], rounds, upto, a, b);
    }
    FairGrows(ordered, e, entities);
  }

  lemma KeysIn(keys: seq<ScopeKey>, entities: seq<UpgradeEntity>, scopes: map<ScopeKey, seq<UpgradeEntity>>,
               ordered: seq<UpgradeEntity>, rounds: nat)
    requires Split(keys, entities, scopes, ordered, rounds, 0)
    ensures forall i :: 0 <= i < |keys| ==> keys[i] in scopes
  {
  }

  lemma RotationKeeps(keys: seq<ScopeKey>, start: nat)
    requires start <= |keys| && forall i, j :: 0 <= i < j < |keys| ==> keys[i] != keys[j]
    ensures var rotated := keys[start..] + keys[..start];
      && |rotated| == |keys|
      && (forall i, j :: 0 <= i < j < |rotated| ==> rotated[i] != rotated[j])
      && (forall key :: key in rotated <==> key in keys)
  {
    var rotated := keys[start..] + keys[..start];
    forall key | key in keys
      ensures key in rotated
    {
      var i :| 0 <= i < |keys| && keys[i] == key;
      assert rotated[if i >= start then i - start else |keys| - start + i] == key;
    }
  }

  /** Rounds still needed: the length of the longest scope beyond the rounds done. */
  function Remaining(keys: seq<ScopeKey>, entities: seq<UpgradeEntity>, rounds: nat): nat {
    if keys == [] then 0
    else
      var rest := Remaining(keys[..|keys| - 1], entities, rounds);
      var length := |Of(entities, keys[|keys| - 1])|;
      if length > rounds && length - rounds > rest then length - rounds else rest
  }

  lemma {:induction false} RemainingBounds(keys: seq<ScopeKey>, entities: seq<UpgradeEntity>, rounds: nat)
    ensures forall key :: key in keys ==> |Of(entities, key)| <= rounds + Remaining(keys, entities, rounds)
    ensures Remaining(keys, entities, rounds + 1)
            == (if Remaining(keys, entities, rounds) > 0 then Remaining(keys, entities, rounds) - 1 else 0)
  {
    if keys != [] {
      RemainingBounds(keys[..|keys| - 1], entities, rounds);
    }
  }

  lemma RoundProgress(keys: seq<ScopeKey>, entities: seq<UpgradeEntity>, scopes: map<ScopeKey, seq<UpgradeEntity>>,
                      ordered: seq<UpgradeEntity>, rounds: nat)
    requires Split(keys, entities, scopes, ordered, rounds, 0)
    requires exists key :: key in keys && key in scopes && scopes[key] != []
    ensures Remaining(keys, entities, rounds + 1) < Remaining(keys, entities, rounds)
  {
    RemainingBounds(keys, entities, rounds);
    var key :| key in keys && key in scopes && scopes[key] != [];
    assert |Of(entities, key)| > rounds;
  }

  const CURSORS := 2_147_483_647

  /** The persisted cursor moves by one and wraps below 2^31 - 1; a loaded cursor of any size comes
      back into that range with the place it stands for. */
  function NextCursor(cursor: nat): (next: nat)
    ensures next < CURSORS && exists rounds: nat :: cursor + 1 == next + Turned(rounds)
    ensures cursor + 1 < CURSORS ==> next == cursor + 1
  {
    var rounds := (cursor + 1) / CURSORS;
    assert cursor + 1 == (cursor + 1) % CURSORS + Turned(rounds);
    (cursor + 1) % CURSORS
  }

  /** Steps in whole turns of the cursor. */
  function Turned(rounds: nat): nat {
    rounds * CURSORS
  }
}
