/**
 * The beat-callback registry of the audio manager as values: per division an
 * ordered list of (id, callback) registrations. Registering an id first
 * removes it from every division, so an id occurs at most once overall.
 * `L` is the type of the callbacks (the listeners the registry invokes).
 */
module Registry {

  import opened BeatGrid

  datatype Registration<L> = Registration(id: string, callback: L)

  /** One callback invocation that a tick produces: the listener and the step count it receives. */
  datatype Invocation<L> = Invocation(callback: L, index: int)

  type Table<L> = map<Division, seq<Registration<L>>>

  /** The table holds a list for every division. */
  ghost predicate Complete<L>(t: Table<L>) {
    Whole in t && Half in t && Quarter in t && Eighth in t && Sixteenth in t
  }

  /** A complete table has a list for every division. */
  lemma CompleteHas<L>(t: Table<L>, d: Division)
    requires Complete(t)
    ensures d in t
  {
    match d {
      case Whole =>
      case Half =>
      case Quarter =>
      case Eighth =>
      case Sixteenth =>
    }
  }

  /** The table with every division's list empty. */
  function EmptyTable<L>(): (t: Table<L>)
    ensures Complete(t) && t.Keys == set d: Division | d in AllDivisions
    ensures forall d :: d in t ==> t[d] == []
  {
    map[Whole := [], Half := [], Quarter := [], Eighth := [], Sixteenth := []]
  }

  /** The number of registrations with the given id. */
  function Count<L>(s: seq<Registration<L>>, id: string): nat {
    if s == [] then 0
    else (if s[0].id == id then 1 else 0) + Count(s[1..], id)
  }

  /** The registrations with the given id, in order. */
  function Keep<L>(s: seq<Registration<L>>, id: string): seq<Registration<L>> {
    if s == [] then []
    else (if s[0].id == id then [s[0]] else []) + Keep(s[1..], id)
  }

  /**
   * The list without the registrations of `id` (the source's `filter`):
   * exactly Count(s, id) entries fewer, none of them with that id, and the
   * list itself when the id is absent.
   */
  function Without<L>(s: seq<Registration<L>>, id: string): (r: seq<Registration<L>>)
    ensures |r| == |s| - Count(s, id)
    ensures Count(r, id) == 0
    ensures Count(s, id) == 0 ==> r == s
  {
    if s == [] then []
    else if s[0].id == id then Without(s[1..], id)
    else
      var rest := Without(s[1..], id);
      assert ([s[0]] + rest)[1..] == rest;
      [s[0]] + rest
  }

  lemma {:induction false} CountAppend<L>(s: seq<Registration<L>>, t: seq<Registration<L>>, id: string)
    ensures Count(s + t, id) == Count(s, id) + Count(t, id)
  {
    if s != [] {
      assert (s + t)[1..] == s[1..] + t;
      CountAppend(s[1..], t, id);
    } else {
      assert s + t == t;
    }
  }

  /** Removing id `a` leaves the registrations of every other id, in their order. */
  lemma {:induction false} WithoutKeepsOthers<L>(s: seq<Registration<L>>, a: string, b: string)
    requires a != b
    ensures Keep(Without(s, a), b) == Keep(s, b)
  {
    if s != [] {
      WithoutKeepsOthers(s[1..], a, b);
      var head: seq<Registration<L>> := if s[0].id == a then [] else [s[0]];
      KeepAppend(head, Without(s[1..], a), b);
    }
  }

  lemma {:induction false} KeepAppend<L>(s: seq<Registration<L>>, t: seq<Registration<L>>, id: string)
    ensures Keep(s + t, id) == Keep(s, id) + Keep(t, id)
  {
    if s != [] {
      assert (s + t)[1..] == s[1..] + t;
      KeepAppend(s[1..], t, id);
    } else {
      assert s + t == t;
    }
  }

  /** Removal distributes over concatenation: it never reorders what it keeps. */
  lemma {:induction false} WithoutAppend<L>(s: seq<Registration<L>>, t: seq<Registration<L>>, id: string)
    ensures Without(s + t, id) == Without(s, id) + Without(t, id)
  {
    if s != [] {
      assert (s + t)[1..] == s[1..] + t;
      WithoutAppend(s[1..], t, id);
      if s[0].id != id {
        assert [s[0]] + Without(s[1..], id) + Without(t, id) == [s[0]] + (Without(s[1..], id) + Without(t, id));
      }
    } else {
      assert s + t == t;
    }
  }

  /** Every division's list without the registrations of `id` (removeBeatCallback). */
  function Unregister<L>(t: Table<L>, id: string): (r: Table<L>)
    ensures r.Keys == t.Keys
  {
    map d | d in t :: Without(t[d], id)
  }

  /** The table with `r` appended to the list of `d`. */
  function Append<L>(t: Table<L>, d: Division, r: Registration<L>): Table<L>
    requires d in t
  {
    t[d := t[d] + [r]]
  }

  /** The table after registering `cb` under `id` for `d` (addBeatCallback with a valid division). */
  function Register<L>(t: Table<L>, d: Division, id: string, cb: L): (r: Table<L>)
    requires d in t
    ensures r.Keys == t.Keys
  {
    Append(Unregister(t, id), d, Registration(id, cb))
  }

  /** The number of registrations of `id` over all divisions. */
  ghost function Total<L>(t: Table<L>, id: string): nat
    requires Complete(t)
  {
    Count(t[Whole], id) + Count(t[Half], id) + Count(t[Quarter], id) + Count(t[Eighth], id) + Count(t[Sixteenth], id)
  }

  /**
   * Unregistering removes every registration of the id from every division
   * and keeps every other id's registrations in order. It is idempotent, and
   * a table without the id is left as it is.
   */
  lemma UnregisterSpec<L>(t: Table<L>, id: string)
    requires Complete(t)
    ensures Complete(Unregister(t, id)) && Total(Unregister(t, id), id) == 0
    ensures forall d, b :: d in t && b != id ==> Keep(Unregister(t, id)[d], b) == Keep(t[d], b)
    ensures Unregister(Unregister(t, id), id) == Unregister(t, id)
    ensures Total(t, id) == 0 ==> Unregister(t, id) == t
  {
    forall d, b | d in t && b != id
      ensures Keep(Unregister(t, id)[d], b) == Keep(t[d], b)
    {
      WithoutKeepsOthers(t[d], id, b);
    }
    if Total(t, id) == 0 {
      forall d | d in t
        ensures Unregister(t, id)[d] == t[d]
      {
        assert Count(t[d], id) == 0 by {
          match d
          case Whole =>
          case Half =>
          case Quarter =>
          case Eighth =>
          case Sixteenth =>
        }
      }
    }
  }

  /** An id that occurs once in one division and nowhere else occurs once in the table. */
  lemma TotalOne<L>(t: Table<L>, d: Division, id: string)
    requires Complete(t) && Count(t[d], id) == 1
    requires forall e :: e in t && e != d ==> Count(t[e], id) == 0
    ensures Total(t, id) == 1
  {
    match d {
      case Whole =>
      case Half =>
      case Quarter =>
      case Eighth =>
      case Sixteenth =>
    }
  }

  /**
   * After registering, the id occurs exactly once over all divisions: as the
   * last entry of `d`. Every other division just loses its registrations of
   * the id.
   */
  lemma RegisterSpec<L>(t: Table<L>, d: Division, id: string, cb: L)
    requires Complete(t)
    ensures Complete(Register(t, d, id, cb))
    ensures Register(t, d, id, cb)[d] == Without(t[d], id) + [Registration(id, cb)]
    ensures forall e :: e in t && e != d ==> Register(t, d, id, cb)[e] == Without(t[e], id)
    ensures Total(Register(t, d, id, cb), id) == 1 && Count(Register(t, d, id, cb)[d], id) == 1
  {
    var u := Unregister(t, id);
    var r := Registration(id, cb);
    UnregisterSpec(t, id);
    assert [r][1..] == [];
    CountAppend(u[d], [r], id);
    var v := Register(t, d, id, cb);
    assert v == u[d := u[d] + [r]];
    forall e | e in t && e != d
      ensures v[e] == Without(t[e], id)
    {
      assert v[e] == u[e];
    }
    forall e | e in v && e != d
      ensures Count(v[e], id) == 0
    {
      assert v[e] == u[e];
    }
    TotalOne(v, d, id);
  }

  /** Registering one id keeps every other id's registrations in every division, in order. */
  lemma RegisterKeepsOthers<L>(t: Table<L>, d: Division, id: string, cb: L, e: Division, b: string)
    requires Complete(t) && b != id
    ensures Keep(Register(t, d, id, cb)[e], b) == Keep(t[e], b)
  {
    var r := Registration(id, cb);
    WithoutKeepsOthers(t[e], id, b);
    if e == d {
      assert [r][1..] == [];
      KeepAppend(Without(t[d], id), [r], b);
    }
  }

  /**
   * Registering an id under one division and then under another leaves one
   * registration of it, under the second division only.
   */
  lemma ReRegisterMoves<L>(t: Table<L>, a: Division, b: Division, id: string, x: L, y: L)
    requires Complete(t) && a != b
    ensures Count(Register(Register(t, a, id, x), b, id, y)[a], id) == 0
    ensures Count(Register(Register(t, a, id, x), b, id, y)[b], id) == 1
    ensures Total(Register(Register(t, a, id, x), b, id, y), id) == 1
  {
    RegisterSpec(t, a, id, x);
    RegisterSpec(Register(t, a, id, x), b, id, y);
  }

  /** What removal keeps comes from the list and does not carry the removed id. */
  lemma {:induction false} WithoutSubset<L>(s: seq<Registration<L>>, id: string, r: Registration<L>)
    requires r in Without(s, id)
    ensures r in s && r.id != id
  {
    if s != [] {
      if s[0].id == id || r != s[0] {
        WithoutSubset(s[1..], id, r);
      }
    }
  }

  /** What Keep selects comes from the list. */
  lemma {:induction false} KeepSubset<L>(s: seq<Registration<L>>, id: string, r: Registration<L>)
    requires r in Keep(s, id)
    ensures r in s && r.id == id
  {
    if s != [] {
      if r != s[0] || s[0].id != id {
        KeepSubset(s[1..], id, r);
      }
    }
  }

  /** A list with no registration of `id` keeps none of it. */
  lemma {:induction false} KeepNone<L>(s: seq<Registration<L>>, id: string)
    requires Count(s, id) == 0
    ensures Keep(s, id) == []
  {
    if s != [] {
      KeepNone(s[1..], id);
    }
  }

  /**
   * `cb` is registered under `id` for division `d` and nowhere else: the
   * only registration of `id` in the whole table.
   */
  ghost predicate RegisteredAt<L>(t: Table<L>, d: Division, id: string, cb: L) {
    forall e {:trigger Keep(t[e], id)} :: e in t ==> Keep(t[e], id) == if e == d then [Registration(id, cb)] else []
  }

  /** Registering makes the registration the id's only one. */
  lemma RegisterRegisters<L>(t: Table<L>, d: Division, id: string, cb: L)
    requires Complete(t)
    ensures RegisteredAt(Register(t, d, id, cb), d, id, cb)
    ensures Registration(id, cb) in Register(t, d, id, cb)[d]
  {
    var r := Registration(id, cb);
    var u := Register(t, d, id, cb);
    RegisterSpec(t, d, id, cb);
    forall e | e in t
      ensures Keep(u[e], id) == if e == d then [r] else []
    {
      KeepNone(Without(t[e], id), id);
      if e == d {
        assert u[d] == Without(t[d], id) + [r];
        KeepAppend(Without(t[d], id), [r], id);
        assert [r][1..] == [];
      } else {
        assert u[e] == Without(t[e], id);
      }
    }
  }

  /** Registering one id leaves every other id's registration where it was. */
  lemma RegisterPreserves<L>(t: Table<L>, d: Division, id: string, cb: L, d': Division, id': string, cb': L)
    requires Complete(t) && id != id' && RegisteredAt(t, d', id', cb')
    ensures RegisteredAt(Register(t, d, id, cb), d', id', cb')
  {
    forall e | e in Register(t, d, id, cb)
      ensures Keep(Register(t, d, id, cb)[e], id') == if e == d' then [Registration(id', cb')] else []
    {
      RegisterKeepsOthers(t, d, id, cb, e, id');
    }
  }

  /** A registration in the table after registering is the new one or was there before. */
  lemma RegisterMembers<L>(t: Table<L>, d: Division, id: string, cb: L, e: Division, r: Registration<L>)
    requires Complete(t) && e in t && r in Register(t, d, id, cb)[e]
    ensures r == Registration(id, cb) || r in t[e]
  {
    RegisterSpec(t, d, id, cb);
    if r != Registration(id, cb) {
      assert r in Without(t[e], id);
      WithoutSubset(t[e], id, r);
    }
  }

  /** Every listener the table holds, in any division. */
  ghost function Listeners<L>(t: Table<L>): set<L> {
    set d, r | d in t && r in t[d] :: r.callback
  }

  /** Registering adds at most the new listener. */
  lemma RegisterListeners<L>(t: Table<L>, d: Division, id: string, cb: L)
    requires Complete(t)
    ensures Listeners(Register(t, d, id, cb)) <= Listeners(t) + {cb}
  {
    forall e, r | e in Register(t, d, id, cb) && r in Register(t, d, id, cb)[e]
      ensures r.callback in Listeners(t) + {cb}
    {
      RegisterMembers(t, d, id, cb, e, r);
    }
  }

  /** A registered callback is in its division's list. */
  lemma RegisteredIsListed<L>(t: Table<L>, d: Division, id: string, cb: L)
    requires Complete(t) && RegisteredAt(t, d, id, cb)
    ensures Registration(id, cb) in t[d]
  {
    assert Registration(id, cb) in Keep(t[d], id);
    KeepSubset(t[d], id, Registration(id, cb));
  }

  /** The invocations a firing division produces: each registration once, in order. */
  function Invocations<L>(s: seq<Registration<L>>, index: int): (r: seq<Invocation<L>>)
    ensures |r| == |s|
    ensures forall i :: 0 <= i < |s| ==> r[i] == Invocation(s[i].callback, index)
  {
    seq(|s|, i requires 0 <= i < |s| => Invocation(s[i].callback, index))
  }

}
