/** The profile store (store/useProfileStore.ts): every action replaces the list of profiles
    with a new one built by map, filter or sort. Each action is a transition function on the
    list; the class `Store` holds the list and applies them. Saving to storage, loading,
    export and import are not part of this model. */
module ProfileStore {
  import opened Types
  import opened Sorting

  // ---------------------------------------------------------------------------------------
  // Observations of one profile

  /** The sort key of addObservation's comparator: the observed day. */
  function Fecha(o: Observation): int
  {
    o.fecha
  }

  /** `observaciones.some(o => o.fecha === fecha)`. */
  predicate HasFecha(obs: seq<Observation>, fecha: int)
  {
    exists i :: 0 <= i < |obs| && obs[i].fecha == fecha
  }

  /** Sorted by day with no day twice: the shape addObservation keeps. */
  predicate Ordered(obs: seq<Observation>)
  {
    StrictlySortedBy(obs, Fecha)
  }

  /** `observaciones.filter(o => o.fecha !== fecha)`. */
  function Without(obs: seq<Observation>, fecha: int): (r: seq<Observation>)
    ensures forall o :: o in r <==> o in obs && o.fecha != fecha
    ensures !HasFecha(r, fecha)
  {
    if obs == [] then []
    else (if obs[0].fecha != fecha then [obs[0]] else []) + Without(obs[1..], fecha)
  }

  /** A list that lacks the day is left as it is by the filter. */
  lemma {:induction false} WithoutAbsent(obs: seq<Observation>, fecha: int)
    requires !HasFecha(obs, fecha)
    ensures Without(obs, fecha) == obs
  {
    if obs != [] {
      assert obs[0].fecha != fecha;
      assert !HasFecha(obs[1..], fecha) by {
        forall i | 0 <= i < |obs[1..]| ensures obs[1..][i].fecha != fecha {
          assert obs[1..][i] == obs[i + 1];
        }
      }
      WithoutAbsent(obs[1..], fecha);
      assert [obs[0]] + obs[1..] == obs;
    }
  }

  /** The filter keeps the relative order of what it keeps: it distributes over
      concatenation. */
  lemma {:induction false} WithoutConcat(a: seq<Observation>, b: seq<Observation>, fecha: int)
    ensures Without(a + b, fecha) == Without(a, fecha) + Without(b, fecha)
  {
    if a != [] {
      assert (a + b)[0] == a[0] && (a + b)[1..] == a[1..] + b;
      WithoutConcat(a[1..], b, fecha);
      var h := if a[0].fecha != fecha then [a[0]] else [];
      assert Without(a + b, fecha) == h + Without(a[1..] + b, fecha);
      assert Without(a, fecha) == h + Without(a[1..], fecha);
      assert h + (Without(a[1..], fecha) + Without(b, fecha))
        == (h + Without(a[1..], fecha)) + Without(b, fecha);
    } else {
      assert a + b == b;
    }
  }

  /** The filter keeps a list ordered. */
  lemma {:induction false} WithoutOrdered(obs: seq<Observation>, fecha: int)
    requires Ordered(obs)
    ensures Ordered(Without(obs, fecha))
  {
    if obs != [] {
      var rest := Without(obs[1..], fecha);
      WithoutOrdered(obs[1..], fecha);
      forall j | 0 <= j < |rest| ensures obs[0].fecha < rest[j].fecha {
        assert rest[j] in obs[1..];
      }
    }
  }

  /** addObservation on one profile: a day the profile already has changes nothing;
      otherwise the observation is appended and the list sorted by day. */
  function AddObs(p: Profile, o: Observation): Profile
  {
    if HasFecha(p.observaciones, o.fecha) then p
    else p.(observaciones := SortBy(p.observaciones + [o], Fecha))
  }

  /** A new day is added exactly once, the list ends up sorted by day, and nothing else
      about the profile changes. */
  lemma AddObsNew(p: Profile, o: Observation)
    requires !HasFecha(p.observaciones, o.fecha)
    ensures var q := AddObs(p, o);
      multiset(q.observaciones) == multiset(p.observaciones) + multiset{o}
      && SortedBy(q.observaciones, Fecha)
      && q.(observaciones := p.observaciones) == p
  {
    assert multiset(p.observaciones + [o]) == multiset(p.observaciones) + multiset{o};
  }

  /** On an ordered list a new observation is inserted in its place, and the list stays
      ordered. */
  lemma AddObsOrdered(p: Profile, o: Observation)
    requires Ordered(p.observaciones)
    ensures !HasFecha(p.observaciones, o.fecha) ==>
      AddObs(p, o).observaciones == Insert(o, p.observaciones, Fecha)
    ensures Ordered(AddObs(p, o).observaciones)
  {
    var obs := p.observaciones;
    if !HasFecha(obs, o.fecha) {
      SortedAppend(obs, o);
      forall i | 0 <= i < |obs| ensures Fecha(obs[i]) != Fecha(o) {
      }
      InsertStrict(o, obs, Fecha);
    }
  }

  /** Sorting a sorted list with one element appended is inserting that element. */
  lemma SortedAppend(obs: seq<Observation>, o: Observation)
    requires SortedBy(obs, Fecha)
    ensures SortBy(obs + [o], Fecha) == Insert(o, obs, Fecha)
  {
    var s := obs + [o];
    assert s[..|s| - 1] == obs;
    SortSorted(obs, Fecha);
  }

  /** Adding the same observation twice is adding it once. */
  lemma AddObsIdempotent(p: Profile, o: Observation)
    ensures AddObs(AddObs(p, o), o) == AddObs(p, o)
  {
    if !HasFecha(p.observaciones, o.fecha) {
      var q := AddObs(p, o);
      assert o in multiset(q.observaciones) by {
        AddObsNew(p, o);
      }
      var i :| 0 <= i < |q.observaciones| && q.observaciones[i] == o;
      assert HasFecha(q.observaciones, o.fecha);
    }
  }

  /** Removing the day of an observation just inserted into an ordered list gives the list
      back. */
  lemma {:induction false} WithoutInsert(obs: seq<Observation>, o: Observation)
    requires !HasFecha(obs, o.fecha)
    ensures Without(Insert(o, obs, Fecha), o.fecha) == obs
  {
    if obs == [] {
    } else if Fecha(o) < Fecha(obs[0]) {
      var t := [o] + obs;
      assert Insert(o, obs, Fecha) == t;
      assert t[0] == o && t[1..] == obs;
      assert Without(t, o.fecha) == Without(obs, o.fecha);
      WithoutAbsent(obs, o.fecha);
    } else {
      assert obs[0].fecha != o.fecha;
      assert !HasFecha(obs[1..], o.fecha) by {
        forall i | 0 <= i < |obs[1..]| ensures obs[1..][i].fecha != o.fecha {
          assert obs[1..][i] == obs[i + 1];
        }
      }
      var t := [obs[0]] + Insert(o, obs[1..], Fecha);
      assert Insert(o, obs, Fecha) == t;
      assert t[0] == obs[0] && t[1..] == Insert(o, obs[1..], Fecha);
      assert Without(t, o.fecha) == [obs[0]] + Without(t[1..], o.fecha);
      WithoutInsert(obs[1..], o);
      assert [obs[0]] + obs[1..] == obs;
    }
  }

  // ---------------------------------------------------------------------------------------
  // Orders

  /** `p.order || 0`. */
  function OrderOf(p: Profile): int
  {
    match p.order
    case Some(n) => n
    case None => 0
  }

  /** `Math.max(...profiles.map(p => p.order || 0))` for a non-empty list. */
  function MaxOrder(ps: seq<Profile>): (m: int)
    requires |ps| > 0
    ensures forall i :: 0 <= i < |ps| ==> OrderOf(ps[i]) <= m
    ensures exists i :: 0 <= i < |ps| && OrderOf(ps[i]) == m
  {
    if |ps| == 1 then OrderOf(ps[0])
    else
      var m := MaxOrder(ps[..|ps| - 1]);
      var last := OrderOf(ps[|ps| - 1]);
      if last > m then last else m
  }

  /** The order addProfile gives a new profile: one more than the largest, or 0 for an
      empty store. */
  function NextOrder(ps: seq<Profile>): (n: int)
    ensures |ps| == 0 ==> n == 0
    ensures forall i :: 0 <= i < |ps| ==> OrderOf(ps[i]) < n
    ensures |ps| > 0 ==> exists i :: 0 <= i < |ps| && OrderOf(ps[i]) == n - 1
  {
    if |ps| > 0 then MaxOrder(ps) + 1 else -1 + 1
  }

  // ---------------------------------------------------------------------------------------
  // Transitions

  /** The fields addProfile receives: a profile without id and creation time. */
  datatype ProfileData = ProfileData(
    nombre: string,
    edad: Option<int>,
    notas: Option<string>,
    foto: Option<string>,
    observaciones: Option<seq<Observation>>)

  /** addProfile: the new profile, with the fresh id and creation time the caller supplies,
      goes at the end. */
  function Added(ps: seq<Profile>, data: ProfileData, id: string, createdAt: string): seq<Profile>
  {
    var obs := match data.observaciones case Some(o) => o case None => [];
    ps + [Profile(id, data.nombre, data.edad, data.notas, data.foto, obs, createdAt, Some(NextOrder(ps)))]
  }

  /** addProfile appends exactly one profile, leaves the others as they were, and gives the
      new one an order larger than every existing order. */
  lemma AddedAppends(ps: seq<Profile>, data: ProfileData, id: string, createdAt: string)
    ensures var r := Added(ps, data, id, createdAt);
      |r| == |ps| + 1 && r[..|ps|] == ps
      && r[|ps|].id == id && r[|ps|].nombre == data.nombre && r[|ps|].createdAt == createdAt
      && (|ps| == 0 ==> OrderOf(r[|ps|]) == 0)
      && forall i :: 0 <= i < |ps| ==> OrderOf(ps[i]) < OrderOf(r[|ps|])
  {
    var r := Added(ps, data, id, createdAt);
    assert r[..|ps|] == ps;
  }

  /** Adding profiles one after the other numbers them 0, 1, 2, ... from an empty store. */
  lemma {:induction false} AddedFromEmpty(ps: seq<Profile>, data: ProfileData, id: string, createdAt: string)
    requires forall i :: 0 <= i < |ps| ==> OrderOf(ps[i]) == i
    ensures var r := Added(ps, data, id, createdAt);
      forall i :: 0 <= i < |r| ==> OrderOf(r[i]) == i
  {
    if |ps| > 0 {
      var j :| 0 <= j < |ps| && OrderOf(ps[j]) == NextOrder(ps) - 1;
      assert OrderOf(ps[|ps| - 1]) == |ps| - 1;
    }
  }

  /** The fields updateProfile may receive (`Partial<Profile>`): None where the key is absent,
      Some(v) where it is present. */
  datatype Updates = Updates(
    id: Option<string>,
    nombre: Option<string>,
    edad: Option<Option<int>>,
    notas: Option<Option<string>>,
    foto: Option<Option<string>>,
    observaciones: Option<seq<Observation>>,
    createdAt: Option<string>)

  const NO_UPDATES := Updates(None, None, None, None, None, None, None)

  /** The updated value of one field: the update's, when the key is present. */
  function Pick<T>(u: Option<T>, current: T): T
  {
    match u
    case Some(v) => v
    case None => current
  }

  /** `{ ...p, ...updates }`: every key present in the updates replaces the profile's. */
  function Merge(p: Profile, u: Updates): (q: Profile)
    ensures q.order == p.order
  {
    Profile(
      Pick(u.id, p.id), Pick(u.nombre, p.nombre), Pick(u.edad, p.edad), Pick(u.notas, p.notas),
      Pick(u.foto, p.foto), Pick(u.observaciones, p.observaciones), Pick(u.createdAt, p.createdAt),
      p.order)
  }

  /** Merging no updates leaves the profile as it is, and merging the same updates twice is
      merging them once. */
  lemma MergeLaws(p: Profile, u: Updates)
    ensures Merge(p, NO_UPDATES) == p
    ensures Merge(Merge(p, u), u) == Merge(p, u)
  {
  }

  /** updateProfile: the profiles with the id get the updates merged in. */
  function Updated(ps: seq<Profile>, id: string, u: Updates): seq<Profile>
  {
    seq(|ps|, i requires 0 <= i < |ps| => if ps[i].id == id then Merge(ps[i], u) else ps[i])
  }

  /** updateProfile keeps the length and the position of every profile; a profile with a
      different id is unchanged, and no update at all changes nothing. */
  lemma UpdatedKeeps(ps: seq<Profile>, id: string, u: Updates)
    ensures var r := Updated(ps, id, u);
      |r| == |ps|
      && (forall i :: 0 <= i < |ps| && ps[i].id != id ==> r[i] == ps[i])
      && (forall i :: 0 <= i < |ps| ==> r[i].order == ps[i].order)
    ensures Updated(ps, id, NO_UPDATES) == ps
  {
  }

  /** Repeating an update changes nothing more, as long as it does not rename the
      profile. */
  lemma UpdatedIdempotent(ps: seq<Profile>, id: string, u: Updates)
    requires u.id == None || u.id == Some(id)
    ensures Updated(Updated(ps, id, u), id, u) == Updated(ps, id, u)
  {
    var r := Updated(ps, id, u);
    forall i | 0 <= i < |ps| ensures Updated(r, id, u)[i] == r[i] {
      if ps[i].id == id {
        MergeLaws(ps[i], u);
      }
    }
  }

  /** deleteProfile: `profiles.filter(p => p.id !== id)`. */
  function Deleted(ps: seq<Profile>, id: string): (r: seq<Profile>)
    ensures forall p :: p in r <==> p in ps && p.id != id
  {
    if ps == [] then []
    else (if ps[0].id != id then [ps[0]] else []) + Deleted(ps[1..], id)
  }

  /** deleteProfile keeps the relative order of the profiles it keeps: it distributes over
      concatenation. */
  lemma {:induction false} DeletedConcat(a: seq<Profile>, b: seq<Profile>, id: string)
    ensures Deleted(a + b, id) == Deleted(a, id) + Deleted(b, id)
  {
    if a == [] {
      assert a + b == b;
    } else {
      var x, t := a[0], a[1..];
      assert a == [x] + t && a + b == [x] + (t + b);
      DeletedConcat(t, b, id);
      DeletedCons(x, t + b, id);
      DeletedCons(x, t, id);
      ConcatAssoc(if x.id != id then [x] else [], Deleted(t, id), Deleted(b, id));
    }
  }

  /** Concatenation regroups freely; stated apart so that proofs over filters stay small. */
  lemma ConcatAssoc<T>(a: seq<T>, b: seq<T>, c: seq<T>)
    ensures a + (b + c) == (a + b) + c
  { }

  /** One step of the filter, on a list written as head and tail. */
  lemma DeletedCons(x: Profile, s: seq<Profile>, id: string)
    ensures Deleted([x] + s, id) == (if x.id != id then [x] else []) + Deleted(s, id)
  {
    assert ([x] + s)[0] == x && ([x] + s)[1..] == s;
  }

  /** Deleting an id no profile has changes nothing, so deleting twice is deleting once. */
  lemma {:induction false} DeletedAbsent(ps: seq<Profile>, id: string)
    requires forall i :: 0 <= i < |ps| ==> ps[i].id != id
    ensures Deleted(ps, id) == ps
  {
    if ps != [] {
      DeletedAbsent(ps[1..], id);
      assert [ps[0]] + ps[1..] == ps;
    }
  }

  lemma DeletedIdempotent(ps: seq<Profile>, id: string)
    ensures Deleted(Deleted(ps, id), id) == Deleted(ps, id)
  {
    var r := Deleted(ps, id);
    forall i | 0 <= i < |r| ensures r[i].id != id {
      assert r[i] in r;
    }
    DeletedAbsent(r, id);
  }

  /** addObservation: the profiles with the id get the observation, unless they already
      have its day. */
  function WithObservation(ps: seq<Profile>, id: string, o: Observation): seq<Profile>
  {
    seq(|ps|, i requires 0 <= i < |ps| => if ps[i].id == id then AddObs(ps[i], o) else ps[i])
  }

  /** deleteObservation: the profiles with the id lose every observation of the day. */
  function WithoutObservation(ps: seq<Profile>, id: string, fecha: int): seq<Profile>
  {
    seq(|ps|, i requires 0 <= i < |ps| =>
      if ps[i].id == id then ps[i].(observaciones := Without(ps[i].observaciones, fecha)) else ps[i])
  }

  /** Every profile's observations are sorted by day with no day twice. */
  predicate AllOrdered(ps: seq<Profile>)
  {
    forall i :: 0 <= i < |ps| ==> Ordered(ps[i].observaciones)
  }

  /** addObservation and deleteObservation touch only the profiles with the id, keep every
      profile in its place, and keep all observation lists ordered. */
  lemma ObservationEditsKeepOrder(ps: seq<Profile>, id: string, o: Observation, fecha: int)
    requires AllOrdered(ps)
    ensures AllOrdered(WithObservation(ps, id, o))
    ensures AllOrdered(WithoutObservation(ps, id, fecha))
    ensures forall i :: 0 <= i < |ps| && ps[i].id != id ==>
      WithObservation(ps, id, o)[i] == ps[i] && WithoutObservation(ps, id, fecha)[i] == ps[i]
  {
    forall i | 0 <= i < |ps| ensures Ordered(WithObservation(ps, id, o)[i].observaciones) {
      AddObsOrdered(ps[i], o);
    }
    forall i | 0 <= i < |ps| ensures Ordered(WithoutObservation(ps, id, fecha)[i].observaciones) {
      WithoutOrdered(ps[i].observaciones, fecha);
    }
  }

  /** addObservation with a day some matching profile already has leaves that profile as it
      is, and with a new day gives it exactly that one observation more. */
  lemma WithObservationEffect(ps: seq<Profile>, id: string, o: Observation, i: int)
    requires 0 <= i < |ps| && ps[i].id == id
    ensures HasFecha(ps[i].observaciones, o.fecha) ==> WithObservation(ps, id, o)[i] == ps[i]
    ensures !HasFecha(ps[i].observaciones, o.fecha) ==>
      multiset(WithObservation(ps, id, o)[i].observaciones) == multiset(ps[i].observaciones) + multiset{o}
      && SortedBy(WithObservation(ps, id, o)[i].observaciones, Fecha)
  {
    if !HasFecha(ps[i].observaciones, o.fecha) {
      AddObsNew(ps[i], o);
    }
  }

  /** deleteObservation leaves a matching profile with exactly its observations of other
      days, none of the given day, and every other field as it was. */
  lemma WithoutObservationEffect(ps: seq<Profile>, id: string, fecha: int, i: int)
    requires 0 <= i < |ps| && ps[i].id == id
    ensures var q := WithoutObservation(ps, id, fecha)[i];
      (forall o :: o in q.observaciones <==> o in ps[i].observaciones && o.fecha != fecha)
      && !HasFecha(q.observaciones, fecha)
      && q.(observaciones := ps[i].observaciones) == ps[i]
  {
  }

  /** Deleting the day of an observation just added to ordered lists that lacked it undoes
      the addition. */
  lemma DeleteUndoesAdd(ps: seq<Profile>, id: string, o: Observation)
    requires AllOrdered(ps)
    requires forall i :: 0 <= i < |ps| && ps[i].id == id ==> !HasFecha(ps[i].observaciones, o.fecha)
    ensures WithoutObservation(WithObservation(ps, id, o), id, o.fecha) == ps
  {
    var r := WithoutObservation(WithObservation(ps, id, o), id, o.fecha);
    forall i | 0 <= i < |ps| ensures r[i] == ps[i] {
      if ps[i].id == id {
        AddObsOrdered(ps[i], o);
        WithoutInsert(ps[i].observaciones, o);
      }
    }
  }

  /** reorderProfiles: the given list, each profile's order set to its index. */
  function Reordered(ps: seq<Profile>): seq<Profile>
  {
    seq(|ps|, i requires 0 <= i < |ps| => ps[i].(order := Some(i)))
  }

  /** After reorderProfiles the orders are exactly 0 .. n - 1, all distinct, and nothing but
      the orders changed. */
  lemma ReorderedOrders(ps: seq<Profile>)
    ensures var r := Reordered(ps);
      |r| == |ps|
      && (forall i :: 0 <= i < |r| ==> OrderOf(r[i]) == i && r[i].(order := ps[i].order) == ps[i])
      && (forall i, j :: 0 <= i < j < |r| ==> OrderOf(r[i]) != OrderOf(r[j]))
  {
  }

  /** A profile added after reorderProfiles gets the next index as its order. */
  lemma AddAfterReorder(ps: seq<Profile>, data: ProfileData, id: string, createdAt: string)
    ensures var r := Added(Reordered(ps), data, id, createdAt);
      forall i :: 0 <= i < |r| ==> OrderOf(r[i]) == i
  {
    AddedFromEmpty(Reordered(ps), data, id, createdAt);
  }

  // ---------------------------------------------------------------------------------------
  // The store

  /** The store's state: the list of profiles. */
  class Store {
    var profiles: seq<Profile>

    constructor()
      ensures profiles == []
    {
      profiles := [];
    }

    method AddProfile(data: ProfileData, id: string, createdAt: string)
      modifies this
      ensures profiles == Added(old(profiles), data, id, createdAt)
    {
      profiles := Added(profiles, data, id, createdAt);
    }

    method UpdateProfile(id: string, u: Updates)
      modifies this
      ensures profiles == Updated(old(profiles), id, u)
    {
      profiles := Updated(profiles, id, u);
    }

    method DeleteProfile(id: string)
      modifies this
      ensures profiles == Deleted(old(profiles), id)
    {
      profiles := Deleted(profiles, id);
    }

    method AddObservation(id: string, o: Observation)
      modifies this
      ensures profiles == WithObservation(old(profiles), id, o)
      ensures AllOrdered(old(profiles)) ==> AllOrdered(profiles)
    {
      if AllOrdered(profiles) {
        ObservationEditsKeepOrder(profiles, id, o, o.fecha);
      }
      profiles := WithObservation(profiles, id, o);
    }

    method DeleteObservation(id: string, fecha: int)
      modifies this
      ensures profiles == WithoutObservation(old(profiles), id, fecha)
      ensures AllOrdered(old(profiles)) ==> AllOrdered(profiles)
    {
      if AllOrdered(profiles) {
        ObservationEditsKeepOrder(profiles, id, Observation(fecha, None), fecha);
      }
      profiles := WithoutObservation(profiles, id, fecha);
    }

    method ReorderProfiles(reordered: seq<Profile>)
      modifies this
      ensures profiles == Reordered(reordered)
    {
      profiles := Reordered(reordered);
    }

    method ClearAll()
      modifies this
      ensures profiles == []
    {
      profiles := [];
    }
  }
}
