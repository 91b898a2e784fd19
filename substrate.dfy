/** The hdk substrate, reduced to an abstract in-memory store.

    A store holds a map from address to the record committed there (the entry
    and the agent that authored the write), a map of updates (the address a
    version was superseded from, to the address of the superseding version), and
    an append-only sequence of links. Addresses are content addresses: the store
    is created with a hash function and every entry is kept at its own hash.
    Every write may fail; reads are total functions of the store's value. */
module Substrate {
  import opened Results

  /** An address: an entry hash, a header hash or an agent key. */
  type Address = nat

  /** A directed link from `source` to `target`. The classic hdk gives every link
      a type and a tag; the newer hdk only a tag (its links carry type ""). */
  datatype Link = Link(source: Address, target: Address, linkType: string, tag: string)

  /** What the store keeps at an address: the entry and who wrote it. */
  datatype Record<E> = Record(entry: E, author: Address)

  /** The value of a store. */
  datatype Db<E> = Db(entries: map<Address, Record<E>>, updates: map<Address, Address>, links: seq<Link>)

  /** One successful write, as the store performs it. */
  datatype Write<E> =
    | Put(at: Address, record: Record<E>)
    | Supersede(from: Address, at: Address, record: Record<E>)
    | Append(link: Link)

  function Apply<E>(db: Db<E>, w: Write<E>): Db<E>
  {
    match w
    case Put(a, rec) => db.(entries := db.entries[a := rec])
    case Supersede(from, a, rec) => db.(entries := db.entries[a := rec], updates := db.updates[from := a])
    case Append(l) => db.(links := db.links + [l])
  }

  /** The store after the writes `ws`, in order. */
  function ApplyAll<E>(db: Db<E>, ws: seq<Write<E>>): Db<E>
    decreases |ws|
  {
    if ws == [] then db else ApplyAll(Apply(db, ws[0]), ws[1..])
  }

  lemma {:induction false} ApplyAllConcat<E>(db: Db<E>, a: seq<Write<E>>, b: seq<Write<E>>)
    ensures ApplyAll(db, a + b) == ApplyAll(ApplyAll(db, a), b)
    decreases |a|
  {
    if a == [] {
      assert a + b == b;
    } else {
      assert (a + b)[0] == a[0];
      assert (a + b)[1..] == a[1..] + b;
      ApplyAllConcat(Apply(db, a[0]), a[1..], b);
    }
  }

  /** Running one more write after `ws`. */
  lemma ApplyAllSnoc<E>(db: Db<E>, ws: seq<Write<E>>, w: Write<E>)
    ensures ApplyAll(db, ws + [w]) == Apply(ApplyAll(db, ws), w)
  {
    ApplyAllConcat(db, ws, [w]);
    assert ApplyAll(ApplyAll(db, ws), [w]) == ApplyAll(Apply(ApplyAll(db, ws), w), []);
  }

  /** A workflow that has run the writes `done` and then the writes `w` of a
      step planned as `p` has run a prefix of `done + p + rest`, a proper one
      unless the step ran all of `p`. */
  lemma Step<E>(db: Db<E>, done: seq<Write<E>>, w: seq<Write<E>>, p: seq<Write<E>>, rest: seq<Write<E>>)
    requires w <= p
    ensures done + w <= done + p + rest
    ensures w != p ==> done + w != done + p + rest
    ensures ApplyAll(db, done + w) == ApplyAll(ApplyAll(db, done), w)
  {
    assert (done + p + rest)[..|done + w|] == done + w;
    if |w| == |p| {
      assert w == p[..|w|] == p;
    }
    ApplyAllConcat(db, done, w);
  }

  /** The same, for a plan kept as `done + (p + rest)`: after a complete step
      the plan is `done + w` followed by `rest`, ready for the next step. */
  lemma Advance<E>(db: Db<E>, plan: seq<Write<E>>, done: seq<Write<E>>, w: seq<Write<E>>, p: seq<Write<E>>, rest: seq<Write<E>>)
    requires plan == done + (p + rest)
    requires w <= p
    ensures done + w <= plan
    ensures w != p ==> done + w != plan
    ensures w == p ==> plan == (done + w) + rest
    ensures ApplyAll(db, done + w) == ApplyAll(ApplyAll(db, done), w)
  {
    assert done + (p + rest) == done + p + rest;
    Step(db, done, w, p, rest);
  }

  /** The links a sequence of writes appends, in order. */
  function AppendedLinks<E>(ws: seq<Write<E>>): seq<Link>
  {
    if ws == [] then []
    else (if ws[0].Append? then [ws[0].link] else []) + AppendedLinks(ws[1..])
  }

  /** Writes only ever append to the link sequence: links are never removed or reordered. */
  lemma {:induction false} LinksAfter<E>(db: Db<E>, ws: seq<Write<E>>)
    ensures ApplyAll(db, ws).links == db.links + AppendedLinks(ws)
    decreases |ws|
  {
    if ws != [] {
      LinksAfter(Apply(db, ws[0]), ws[1..]);
    }
  }

  lemma {:induction false} AppendedLinksConcat<E>(a: seq<Write<E>>, b: seq<Write<E>>)
    ensures AppendedLinks(a + b) == AppendedLinks(a) + AppendedLinks(b)
  {
    if a == [] {
      assert a + b == b;
    } else {
      assert (a + b)[0] == a[0];
      assert (a + b)[1..] == a[1..] + b;
      AppendedLinksConcat(a[1..], b);
    }
  }

  /** True when no write in `ws` supersedes anything. */
  predicate NoSupersede<E>(ws: seq<Write<E>>)
  {
    forall i :: 0 <= i < |ws| ==> !ws[i].Supersede?
  }

  lemma NoSupersedeConcat<E>(a: seq<Write<E>>, b: seq<Write<E>>)
    requires NoSupersede(a) && NoSupersede(b)
    ensures NoSupersede(a + b)
  {
    forall i | 0 <= i < |a + b| ensures !(a + b)[i].Supersede? {
      if i < |a| { assert (a + b)[i] == a[i]; } else { assert (a + b)[i] == b[i - |a|]; }
    }
  }

  lemma {:induction false} UpdatesAfter<E>(db: Db<E>, ws: seq<Write<E>>)
    requires NoSupersede(ws)
    ensures ApplyAll(db, ws).updates == db.updates
    decreases |ws|
  {
    if ws != [] {
      assert NoSupersede(ws[1..]) by {
        forall i | 0 <= i < |ws[1..]| ensures !ws[1..][i].Supersede? {
          assert ws[1..][i] == ws[i + 1];
        }
      }
      UpdatesAfter(Apply(db, ws[0]), ws[1..]);
    }
  }

  // ----- content addressing -----

  ghost predicate Injective<E(!new)>(hash: E -> Address)
  {
    forall x, y :: hash(x) == hash(y) ==> x == y
  }

  /** Every entry sits at its own hash and every update points at a stored entry. */
  ghost predicate ContentAddressed<E>(hash: E -> Address, db: Db<E>)
  {
    && (forall a :: a in db.entries ==> hash(db.entries[a].entry) == a)
    && (forall a :: a in db.updates ==> db.updates[a] in db.entries)
  }

  /** Every write of `ws` stores its entry at the entry's hash. */
  ghost predicate Addressed<E>(hash: E -> Address, ws: seq<Write<E>>)
  {
    forall i :: 0 <= i < |ws| ==> !ws[i].Append? ==> ws[i].at == hash(ws[i].record.entry)
  }

  /** The write that commits entry `e` for `author`. */
  function PutEntry<E>(hash: E -> Address, e: E, author: Address): (w: Write<E>)
    ensures Addressed(hash, [w])
  {
    Put(hash(e), Record(e, author))
  }

  /** The write that commits `e` as the new version of the entry at `from`. */
  function SupersedeEntry<E>(hash: E -> Address, from: Address, e: E, author: Address): (w: Write<E>)
    ensures Addressed(hash, [w])
  {
    Supersede(from, hash(e), Record(e, author))
  }

  lemma AddressedConcat<E>(hash: E -> Address, a: seq<Write<E>>, b: seq<Write<E>>)
    requires Addressed(hash, a) && Addressed(hash, b)
    ensures Addressed(hash, a + b)
  {
    forall i | 0 <= i < |a + b| && !(a + b)[i].Append?
      ensures (a + b)[i].at == hash((a + b)[i].record.entry)
    {
      if i < |a| { assert (a + b)[i] == a[i]; } else { assert (a + b)[i] == b[i - |a|]; }
    }
  }

  lemma AddressedPrefix<E>(hash: E -> Address, w: seq<Write<E>>, p: seq<Write<E>>)
    requires Addressed(hash, p) && w <= p
    ensures Addressed(hash, w)
  {
    forall i | 0 <= i < |w| && !w[i].Append? ensures w[i].at == hash(w[i].record.entry) {
      assert w[i] == p[i];
    }
  }

  /** Under an injective hash, writes never change the entry stored at an
      address: they only add addresses (content addressing). */
  lemma {:induction false} EntriesStable<E(!new)>(hash: E -> Address, db: Db<E>, ws: seq<Write<E>>)
    requires Injective(hash) && ContentAddressed(hash, db) && Addressed(hash, ws)
    ensures ContentAddressed(hash, ApplyAll(db, ws))
    ensures forall a :: a in db.entries ==>
              a in ApplyAll(db, ws).entries && ApplyAll(db, ws).entries[a].entry == db.entries[a].entry
    decreases |ws|
  {
    if ws != [] {
      var db1 := Apply(db, ws[0]);
      assert Addressed(hash, ws[1..]) by {
        forall i | 0 <= i < |ws[1..]| && !ws[1..][i].Append?
          ensures ws[1..][i].at == hash(ws[1..][i].record.entry)
        {
          assert ws[1..][i] == ws[i + 1];
        }
      }
      assert ContentAddressed(hash, db1);
      EntriesStable(hash, db1, ws[1..]);
    }
  }

  // ----- reads -----

  /** The entry stored exactly at `a` (the newer hdk's `get` with content options). */
  function EntryAt<E>(db: Db<E>, a: Address): Option<E>
  {
    if a in db.entries then Some(db.entries[a].entry) else None
  }

  /** The entry at `a`, or at the version that superseded it (the classic hdk's
      `get_entry`, and a `GetStrategy::Latest` read). One level of updates is
      followed. */
  function LatestAt<E>(db: Db<E>, a: Address): Option<E>
  {
    if a in db.updates && db.updates[a] in db.entries then Some(db.entries[db.updates[a]].entry)
    else EntryAt(db, a)
  }

  /** Reads of addresses that were already stored are unaffected by later
      writes that supersede nothing. */
  lemma ReadsStable<E(!new)>(hash: E -> Address, db: Db<E>, ws: seq<Write<E>>, a: Address, latest: bool)
    requires Injective(hash) && ContentAddressed(hash, db) && Addressed(hash, ws) && NoSupersede(ws)
    requires Read(db, a, latest).Some?
    ensures Read(ApplyAll(db, ws), a, latest) == Read(db, a, latest)
  {
    EntriesStable(hash, db, ws);
    UpdatesAfter(db, ws);
    if a in db.updates {
      assert db.updates[a] in db.entries;
    }
  }

  /** A link filter: `Any`, or one exact string (hdk's `LinkMatch`). */
  datatype Match = Any | Exactly(text: string)
  {
    predicate Accepts(s: string)
    {
      Any? || text == s
    }
  }

  predicate Selects(l: Link, source: Address, linkType: Match, tag: Match)
  {
    l.source == source && linkType.Accepts(l.linkType) && tag.Accepts(l.tag)
  }

  function Selected(l: Link, source: Address, linkType: Match, tag: Match): seq<Link>
  {
    if Selects(l, source, linkType, tag) then [l] else []
  }

  /** The links from `source` whose type and tag the filters accept, in store order. */
  function Query(links: seq<Link>, source: Address, linkType: Match, tag: Match): (r: seq<Link>)
    ensures |r| <= |links|
  {
    if links == [] then []
    else Selected(links[0], source, linkType, tag) + Query(links[1..], source, linkType, tag)
  }

  /** A link is selected exactly when it is in the store and the filters accept it. */
  lemma {:induction false} QueryMembers(links: seq<Link>, source: Address, linkType: Match, tag: Match)
    ensures forall l :: l in Query(links, source, linkType, tag) <==> l in links && Selects(l, source, linkType, tag)
  {
    if links != [] {
      QueryMembers(links[1..], source, linkType, tag);
      assert links == [links[0]] + links[1..];
    }
  }

  lemma {:induction false} QueryConcat(a: seq<Link>, b: seq<Link>, source: Address, linkType: Match, tag: Match)
    ensures Query(a + b, source, linkType, tag) == Query(a, source, linkType, tag) + Query(b, source, linkType, tag)
  {
    if a == [] {
      assert a + b == b;
    } else {
      assert (a + b)[0] == a[0];
      assert (a + b)[1..] == a[1..] + b;
      QueryConcat(a[1..], b, source, linkType, tag);
    }
  }

  /** Filtering a single link. */
  lemma QuerySingle(l: Link, source: Address, linkType: Match, tag: Match)
    ensures Query([l], source, linkType, tag) == if Selects(l, source, linkType, tag) then [l] else []
  {
    assert [l][1..] == [];
  }

  lemma QueryCons(l: Link, rest: seq<Link>, source: Address, linkType: Match, tag: Match)
    ensures Query([l] + rest, source, linkType, tag) == Selected(l, source, linkType, tag) + Query(rest, source, linkType, tag)
  {
    assert ([l] + rest)[0] == l;
    assert ([l] + rest)[1..] == rest;
  }

  /** Filtering five links one by one. */
  lemma Query5(l0: Link, l1: Link, l2: Link, l3: Link, l4: Link, source: Address, linkType: Match, tag: Match)
    ensures Query([l0, l1, l2, l3, l4], source, linkType, tag)
         == Selected(l0, source, linkType, tag) + (Selected(l1, source, linkType, tag) + (Selected(l2, source, linkType, tag)
          + (Selected(l3, source, linkType, tag) + Selected(l4, source, linkType, tag))))
  {
    var q4 := Query([l4], source, linkType, tag);
    assert q4 == Selected(l4, source, linkType, tag) by {
      QueryCons(l4, [], source, linkType, tag);
      assert [l4] + [] == [l4];
    }
    var q3 := Query([l3, l4], source, linkType, tag);
    assert q3 == Selected(l3, source, linkType, tag) + q4 by {
      QueryCons(l3, [l4], source, linkType, tag);
      assert [l3] + [l4] == [l3, l4];
    }
    var q2 := Query([l2, l3, l4], source, linkType, tag);
    assert q2 == Selected(l2, source, linkType, tag) + q3 by {
      QueryCons(l2, [l3, l4], source, linkType, tag);
      assert [l2] + [l3, l4] == [l2, l3, l4];
    }
    var q1 := Query([l1, l2, l3, l4], source, linkType, tag);
    assert q1 == Selected(l1, source, linkType, tag) + q2 by {
      QueryCons(l1, [l2, l3, l4], source, linkType, tag);
      assert [l1] + [l2, l3, l4] == [l1, l2, l3, l4];
    }
    QueryCons(l0, [l1, l2, l3, l4], source, linkType, tag);
    assert [l0] + [l1, l2, l3, l4] == [l0, l1, l2, l3, l4];
  }

  function Targets(links: seq<Link>): (r: seq<Address>)
    ensures |r| == |links| && forall i :: 0 <= i < |links| ==> r[i] == links[i].target
  {
    seq(|links|, i requires 0 <= i < |links| => links[i].target)
  }

  lemma TargetsConcat(a: seq<Link>, b: seq<Link>)
    ensures Targets(a + b) == Targets(a) + Targets(b)
  {
  }

  /** Messages of a failed typed read (the hdk's `get_as_type`). */
  const NoEntry := "No entry at this address"
  const WrongType := "Could not convert entry to requested type"

  /** Read `a` as a `T`: the entry must exist and `cast` must accept it. */
  function Load<E, T>(db: Db<E>, a: Address, cast: E -> Option<T>, latest: bool): (r: Result<T>)
    ensures r.Ok? <==> Readable(db, a, cast, latest)
    ensures r.Ok? ==> cast(Read(db, a, latest).value) == Some(r.value)
    ensures r.Err? ==> r.msg == (if Read(db, a, latest).None? then NoEntry else WrongType)
  {
    match Read(db, a, latest)
    case None => Err(NoEntry)
    case Some(e) => match cast(e) { case None => Err(WrongType) case Some(t) => Ok(t) }
  }

  function Read<E>(db: Db<E>, a: Address, latest: bool): Option<E>
  {
    if latest then LatestAt(db, a) else EntryAt(db, a)
  }

  predicate Readable<E, T>(db: Db<E>, a: Address, cast: E -> Option<T>, latest: bool)
  {
    Read(db, a, latest).Some? && cast(Read(db, a, latest).value).Some?
  }

  /** Read every address of `addrs` as a `T`, failing at the first that does not
      load. */
  function LoadAll<E, T>(db: Db<E>, addrs: seq<Address>, cast: E -> Option<T>, latest: bool): (r: Result<seq<T>>)
    ensures r.Ok? ==> |r.value| == |addrs|
  {
    if addrs == [] then Ok([])
    else
      match Load(db, addrs[0], cast, latest)
      case Err(e) => Err(e)
      case Ok(t) =>
        match LoadAll(db, addrs[1..], cast, latest)
        case Err(e) => Err(e)
        case Ok(ts) => Ok([t] + ts)
  }

  /** Loading all addresses succeeds exactly when each one loads, and then
      yields each one's value in order. */
  lemma {:induction false} LoadAllMeaning<E, T>(db: Db<E>, addrs: seq<Address>, cast: E -> Option<T>, latest: bool)
    ensures LoadAll(db, addrs, cast, latest).Ok? <==> forall i :: 0 <= i < |addrs| ==> Readable(db, addrs[i], cast, latest)
    ensures LoadAll(db, addrs, cast, latest).Ok? ==>
              forall i :: 0 <= i < |addrs| ==> Load(db, addrs[i], cast, latest) == Ok(LoadAll(db, addrs, cast, latest).value[i])
  {
    if addrs != [] {
      LoadAllMeaning(db, addrs[1..], cast, latest);
      assert forall i :: 1 <= i < |addrs| ==> addrs[i] == addrs[1..][i - 1];
    }
  }

  lemma {:induction false} LoadAllConcat<E, T>(db: Db<E>, a: seq<Address>, b: seq<Address>, cast: E -> Option<T>, latest: bool)
    requires LoadAll(db, a, cast, latest).Ok? && LoadAll(db, b, cast, latest).Ok?
    ensures LoadAll(db, a + b, cast, latest) == Ok(LoadAll(db, a, cast, latest).value + LoadAll(db, b, cast, latest).value)
  {
    if a == [] {
      assert a + b == b;
      assert LoadAll(db, a, cast, latest).value == [];
      assert [] + LoadAll(db, b, cast, latest).value == LoadAll(db, b, cast, latest).value;
    } else {
      assert (a + b)[0] == a[0];
      assert (a + b)[1..] == a[1..] + b;
      LoadAllConcat(db, a[1..], b, cast, latest);
      var t := Load(db, a[0], cast, latest).value;
      var rest := LoadAll(db, a[1..], cast, latest).value;
      var tb := LoadAll(db, b, cast, latest).value;
      assert [t] + (rest + tb) == ([t] + rest) + tb;
    }
  }

  /** Loading addresses each of which loads gives their values, in order. */
  lemma {:induction false} LoadAllOfLoads<E, T>(db: Db<E>, addrs: seq<Address>, vals: seq<T>, cast: E -> Option<T>, latest: bool)
    requires |addrs| == |vals|
    requires forall i :: 0 <= i < |addrs| ==> Load(db, addrs[i], cast, latest) == Ok(vals[i])
    ensures LoadAll(db, addrs, cast, latest) == Ok(vals)
  {
    if addrs != [] {
      assert Load(db, addrs[0], cast, latest) == Ok(vals[0]);
      assert forall i :: 0 <= i < |addrs[1..]| ==> addrs[1..][i] == addrs[i + 1] && vals[1..][i] == vals[i + 1];
      LoadAllOfLoads(db, addrs[1..], vals[1..], cast, latest);
      assert [vals[0]] + vals[1..] == vals;
    }
  }

  /** Loading addresses that load before some writes gives the same values after them. */
  lemma {:induction false} LoadAllStable<E(!new), T>(hash: E -> Address, db: Db<E>, ws: seq<Write<E>>, addrs: seq<Address>, cast: E -> Option<T>, latest: bool)
    requires Injective(hash) && ContentAddressed(hash, db) && Addressed(hash, ws) && NoSupersede(ws)
    requires LoadAll(db, addrs, cast, latest).Ok?
    ensures LoadAll(ApplyAll(db, ws), addrs, cast, latest) == LoadAll(db, addrs, cast, latest)
  {
    if addrs != [] {
      ReadsStable(hash, db, ws, addrs[0], latest);
      LoadAllStable(hash, db, ws, addrs[1..], cast, latest);
    }
  }

  /** Read every target of the links from `source` that the filters select. */
  function LoadTargets<E, T>(db: Db<E>, source: Address, linkType: Match, tag: Match, cast: E -> Option<T>, latest: bool): (r: Result<seq<T>>)
    ensures r.Ok? ==> |r.value| == |Query(db.links, source, linkType, tag)|
  {
    LoadAll(db, Targets(Query(db.links, source, linkType, tag)), cast, latest)
  }

  /** After writes that supersede nothing, a link-and-load read returns what it
      returned before followed by the targets of the newly appended links. */
  lemma LoadTargetsAfter<E(!new), T>(hash: E -> Address, db: Db<E>, ws: seq<Write<E>>, source: Address, linkType: Match, tag: Match, cast: E -> Option<T>, latest: bool)
    requires Injective(hash) && ContentAddressed(hash, db) && Addressed(hash, ws) && NoSupersede(ws)
    requires LoadTargets(db, source, linkType, tag, cast, latest).Ok?
    requires LoadAll(ApplyAll(db, ws), Targets(Query(AppendedLinks(ws), source, linkType, tag)), cast, latest).Ok?
    ensures LoadTargets(ApplyAll(db, ws), source, linkType, tag, cast, latest)
         == Ok(LoadTargets(db, source, linkType, tag, cast, latest).value
               + LoadAll(ApplyAll(db, ws), Targets(Query(AppendedLinks(ws), source, linkType, tag)), cast, latest).value)
  {
    var db' := ApplyAll(db, ws);
    LinksAfter(db, ws);
    QueryConcat(db.links, AppendedLinks(ws), source, linkType, tag);
    var oldT := Targets(Query(db.links, source, linkType, tag));
    var newT := Targets(Query(AppendedLinks(ws), source, linkType, tag));
    TargetsConcat(Query(db.links, source, linkType, tag), Query(AppendedLinks(ws), source, linkType, tag));
    LoadAllStable(hash, db, ws, oldT, cast, latest);
    LoadAllConcat(db', oldT, newT, cast, latest);
  }

  // ----- the classic hdk's get_links_and_load_type -----

  /** The panic of `Option::unwrap` on a missing entry. */
  const UnwrapNone := "called `Option::unwrap()` on a `None` value"

  /** The entries at `addrs`, when every one of them exists. */
  function ReadAll<E>(db: Db<E>, addrs: seq<Address>, latest: bool): (r: Option<seq<E>>)
    ensures r.Some? <==> forall i :: 0 <= i < |addrs| ==> Read(db, addrs[i], latest).Some?
    ensures r.Some? ==> |r.value| == |addrs| && forall i :: 0 <= i < |addrs| ==> Read(db, addrs[i], latest) == Some(r.value[i])
  {
    if forall i :: 0 <= i < |addrs| ==> Read(db, addrs[i], latest).Some?
    then Some(seq(|addrs|, i requires 0 <= i < |addrs| => Read(db, addrs[i], latest).value))
    else None
  }

  /** The values `cast` accepts among `es`, in order (a `filter_map`). */
  function Kept<E, T>(es: seq<E>, cast: E -> Option<T>): (r: seq<T>)
    ensures |r| <= |es|
  {
    if es == [] then []
    else (if cast(es[0]).Some? then [cast(es[0]).value] else []) + Kept(es[1..], cast)
  }

  lemma {:induction false} KeptConcat<E, T>(a: seq<E>, b: seq<E>, cast: E -> Option<T>)
    ensures Kept(a + b, cast) == Kept(a, cast) + Kept(b, cast)
  {
    if a == [] {
      assert a + b == b;
    } else {
      assert (a + b)[0] == a[0];
      assert (a + b)[1..] == a[1..] + b;
      KeptConcat(a[1..], b, cast);
      var h := if cast(a[0]).Some? then [cast(a[0]).value] else [];
      assert Kept(a + b, cast) == h + Kept(a[1..] + b, cast);
      assert Kept(a, cast) == h + Kept(a[1..], cast);
      assert h + (Kept(a[1..], cast) + Kept(b, cast)) == (h + Kept(a[1..], cast)) + Kept(b, cast);
    }
  }

  /** When `cast` accepts every entry, nothing is dropped. */
  lemma {:induction false} KeptAll<E, T>(es: seq<E>, vals: seq<T>, cast: E -> Option<T>)
    requires |es| == |vals| && forall i :: 0 <= i < |es| ==> cast(es[i]) == Some(vals[i])
    ensures Kept(es, cast) == vals
  {
    if es != [] {
      assert forall i :: 0 <= i < |es[1..]| ==> es[1..][i] == es[i + 1] && vals[1..][i] == vals[i + 1];
      KeptAll(es[1..], vals[1..], cast);
      assert [vals[0]] + vals[1..] == vals;
    }
  }

  /** Entries that `cast` maps alike keep alike. */
  lemma {:induction false} KeptSame<E, T>(es: seq<E>, fs: seq<E>, cast: E -> Option<T>)
    requires |es| == |fs| && forall i :: 0 <= i < |es| ==> cast(es[i]) == cast(fs[i])
    ensures Kept(es, cast) == Kept(fs, cast)
  {
    if es != [] {
      assert cast(es[0]) == cast(fs[0]);
      assert forall i :: 0 <= i < |es[1..]| ==> es[1..][i] == es[i + 1] && fs[1..][i] == fs[i + 1];
      KeptSame(es[1..], fs[1..], cast);
    }
  }

  /** Every kept value comes from an entry `cast` accepts. */
  lemma {:induction false} KeptOrigin<E, T>(es: seq<E>, cast: E -> Option<T>)
    ensures forall t :: t in Kept(es, cast) ==> exists i :: 0 <= i < |es| && cast(es[i]) == Some(t)
  {
    if es != [] {
      KeptOrigin(es[1..], cast);
      forall t | t in Kept(es, cast)
        ensures exists i :: 0 <= i < |es| && cast(es[i]) == Some(t)
      {
        if !(cast(es[0]) == Some(t)) {
          assert t in Kept(es[1..], cast);
          var i :| 0 <= i < |es[1..]| && cast(es[1..][i]) == Some(t);
          assert cast(es[i + 1]) == Some(t);
        }
      }
    }
  }

  /** Nothing is kept exactly when `cast` accepts no entry. */
  lemma {:induction false} KeptEmpty<E, T>(es: seq<E>, cast: E -> Option<T>)
    ensures Kept(es, cast) == [] <==> forall i :: 0 <= i < |es| ==> cast(es[i]).None?
  {
    if es != [] {
      KeptEmpty(es[1..], cast);
      assert forall i :: 0 <= i < |es[1..]| ==> es[1..][i] == es[i + 1];
      if cast(es[0]).None? {
        assert Kept(es, cast) == Kept(es[1..], cast);
        assert (forall i :: 0 <= i < |es| ==> cast(es[i]).None?) <==> (forall i :: 0 <= i < |es[1..]| ==> cast(es[1..][i]).None?) by {
          if forall i :: 0 <= i < |es[1..]| ==> cast(es[1..][i]).None? {
            forall i | 0 <= i < |es| ensures cast(es[i]).None? {
              if i > 0 { assert es[i] == es[1..][i - 1]; }
            }
          }
        }
      }
    }
  }

  /** The first value kept comes from the first entry `cast` accepts. */
  lemma {:induction false} KeptFirst<E, T>(es: seq<E>, cast: E -> Option<T>)
    requires Kept(es, cast) != []
    ensures exists k :: 0 <= k < |es| && cast(es[k]) == Some(Kept(es, cast)[0]) && forall j :: 0 <= j < k ==> cast(es[j]).None?
  {
    if cast(es[0]).None? {
      assert Kept(es, cast) == Kept(es[1..], cast);
      KeptFirst(es[1..], cast);
      var k :| 0 <= k < |es[1..]| && cast(es[1..][k]) == Some(Kept(es[1..], cast)[0])
               && forall j :: 0 <= j < k ==> cast(es[1..][j]).None?;
      assert cast(es[k + 1]) == Some(Kept(es, cast)[0]);
      forall j | 0 <= j < k + 1 ensures cast(es[j]).None? {
        if j > 0 { assert es[j] == es[1..][j - 1]; }
      }
    } else {
      assert Kept(es, cast)[0] == cast(es[0]).value;
    }
  }

  /** The classic hdk's `get_links_and_load_type`: the target of every selected
      link is read (a missing entry panics in `unwrap`, which the model returns
      as an error), and the entries `cast` refuses are dropped. */
  function LinksAndLoadType<E, T>(db: Db<E>, source: Address, linkType: Match, tag: Match, cast: E -> Option<T>, latest: bool): (r: Result<seq<T>>)
    ensures r.Ok? ==> |r.value| <= |Query(db.links, source, linkType, tag)|
    ensures r.Err? ==> r.msg == UnwrapNone
  {
    match ReadAll(db, Targets(Query(db.links, source, linkType, tag)), latest)
    case None => Err(UnwrapNone)
    case Some(es) => Ok(Kept(es, cast))
  }

  /** The read succeeds exactly when every selected target exists; each value
      it yields is what some target loads as; and when every target loads, the
      i-th value is the i-th target's. */
  lemma LinksAndLoadTypeMeaning<E, T>(db: Db<E>, source: Address, linkType: Match, tag: Match, cast: E -> Option<T>, latest: bool)
    ensures LinksAndLoadType(db, source, linkType, tag, cast, latest).Ok? <==>
              forall a :: a in Targets(Query(db.links, source, linkType, tag)) ==> Read(db, a, latest).Some?
    ensures var q := Query(db.links, source, linkType, tag); var r := LinksAndLoadType(db, source, linkType, tag, cast, latest);
      r.Ok? ==> forall t :: t in r.value ==> exists i :: 0 <= i < |q| && Load(db, q[i].target, cast, latest) == Ok(t)
    ensures var q := Query(db.links, source, linkType, tag); var r := LinksAndLoadType(db, source, linkType, tag, cast, latest);
      (forall i :: 0 <= i < |q| ==> Readable(db, q[i].target, cast, latest)) ==>
        r.Ok? && |r.value| == |q| && forall i :: 0 <= i < |q| ==> Load(db, q[i].target, cast, latest) == Ok(r.value[i])
  {
    var q := Query(db.links, source, linkType, tag);
    var ts := Targets(q);
    var r := LinksAndLoadType(db, source, linkType, tag, cast, latest);
    if ReadAll(db, ts, latest).Some? {
      var es := ReadAll(db, ts, latest).value;
      TargetReads(db, q, es, cast, latest);
      KeptLoaded(db, q, es, cast, latest);
      if forall i :: 0 <= i < |q| ==> Readable(db, q[i].target, cast, latest) {
        KeptAll(es, seq(|es|, i requires 0 <= i < |es| => cast(es[i]).value), cast);
      }
    } else {
      var i :| 0 <= i < |ts| && Read(db, ts[i], latest).None?;
      assert !Readable(db, q[i].target, cast, latest);
    }
  }

  /** The first value the read yields is that of the first target that loads. */
  lemma LinksAndLoadTypeFirst<E, T>(db: Db<E>, source: Address, linkType: Match, tag: Match, cast: E -> Option<T>, latest: bool, q: seq<Link>)
    requires q == Query(db.links, source, linkType, tag)
    requires LinksAndLoadType(db, source, linkType, tag, cast, latest).Ok?
    requires LinksAndLoadType(db, source, linkType, tag, cast, latest).value != []
    ensures exists k :: 0 <= k < |q| && Load(db, q[k].target, cast, latest) == Ok(LinksAndLoadType(db, source, linkType, tag, cast, latest).value[0])
                        && forall j :: 0 <= j < k ==> !Readable(db, q[j].target, cast, latest)
  {
    var es := ReadAll(db, Targets(q), latest).value;
    TargetReads(db, q, es, cast, latest);
    var v := Kept(es, cast);
    assert LinksAndLoadType(db, source, linkType, tag, cast, latest) == Ok(v);
    KeptFirst(es, cast);
    var k :| 0 <= k < |es| && cast(es[k]) == Some(v[0]) && forall j :: 0 <= j < k ==> cast(es[j]).None?;
    assert Read(db, q[k].target, latest) == Some(es[k]);
    assert Load(db, q[k].target, cast, latest) == Ok(v[0]);
    forall j | 0 <= j < k
      ensures !Readable(db, q[j].target, cast, latest)
    {
      assert cast(es[j]).None?;
    }
  }

  /** The read yields nothing exactly when no target loads. */
  lemma LinksAndLoadTypeNone<E, T>(db: Db<E>, source: Address, linkType: Match, tag: Match, cast: E -> Option<T>, latest: bool, q: seq<Link>)
    requires q == Query(db.links, source, linkType, tag)
    requires LinksAndLoadType(db, source, linkType, tag, cast, latest).Ok?
    ensures LinksAndLoadType(db, source, linkType, tag, cast, latest).value == [] <==> forall i :: 0 <= i < |q| ==> !Readable(db, q[i].target, cast, latest)
  {
    var es := ReadAll(db, Targets(q), latest).value;
    TargetReads(db, q, es, cast, latest);
    KeptEmpty(es, cast);
    assert LinksAndLoadType(db, source, linkType, tag, cast, latest) == Ok(Kept(es, cast));
  }

  /** Each value kept from the entries read for the targets of `q` is what one
      of those targets loads as. */
  lemma KeptLoaded<E, T>(db: Db<E>, q: seq<Link>, es: seq<E>, cast: E -> Option<T>, latest: bool)
    requires |es| == |q| && forall i :: 0 <= i < |q| ==> Read(db, q[i].target, latest) == Some(es[i])
    ensures forall t :: t in Kept(es, cast) ==> exists i :: 0 <= i < |q| && Load(db, q[i].target, cast, latest) == Ok(t)
  {
    KeptOrigin(es, cast);
    forall t | t in Kept(es, cast)
      ensures exists i :: 0 <= i < |q| && Load(db, q[i].target, cast, latest) == Ok(t)
    {
      var i :| 0 <= i < |es| && cast(es[i]) == Some(t);
      assert Read(db, q[i].target, latest) == Some(es[i]);
      assert Readable(db, q[i].target, cast, latest);
      assert Load(db, q[i].target, cast, latest) == Ok(t);
    }
  }

  /** The entries read for the targets of `q`, one per link. */
  lemma TargetReads<E, T>(db: Db<E>, q: seq<Link>, es: seq<E>, cast: E -> Option<T>, latest: bool)
    requires ReadAll(db, Targets(q), latest) == Some(es)
    ensures |es| == |q|
    ensures forall i :: 0 <= i < |q| ==> Read(db, q[i].target, latest) == Some(es[i])
    ensures forall i :: 0 <= i < |q| ==> (Readable(db, q[i].target, cast, latest) <==> cast(es[i]).Some?)
  {
    forall i | 0 <= i < |q|
      ensures Read(db, q[i].target, latest) == Some(es[i])
    {
      assert Targets(q)[i] == q[i].target;
    }
  }

  /** Every selected target loading as the corresponding value gives exactly those values. */
  lemma LinksAndLoadTypeOfLoads<E, T>(db: Db<E>, source: Address, linkType: Match, tag: Match, cast: E -> Option<T>, latest: bool, vals: seq<T>)
    requires var ts := Targets(Query(db.links, source, linkType, tag));
      |ts| == |vals| && forall i :: 0 <= i < |ts| ==> Load(db, ts[i], cast, latest) == Ok(vals[i])
    ensures LinksAndLoadType(db, source, linkType, tag, cast, latest) == Ok(vals)
  {
    var ts := Targets(Query(db.links, source, linkType, tag));
    assert forall i :: 0 <= i < |ts| ==> Read(db, ts[i], latest).Some?;
    KeptAll(ReadAll(db, ts, latest).value, vals, cast);
  }

  /** After writes that supersede nothing, a `get_links_and_load_type` read
      returns what it returned before followed by the values of the newly
      linked targets, when each of those loads. */
  lemma LinksAndLoadTypeAfter<E(!new), T>(hash: E -> Address, db: Db<E>, ws: seq<Write<E>>, source: Address, linkType: Match, tag: Match, cast: E -> Option<T>, latest: bool, vals: seq<T>)
    requires Injective(hash) && ContentAddressed(hash, db) && Addressed(hash, ws) && NoSupersede(ws)
    requires LinksAndLoadType(db, source, linkType, tag, cast, latest).Ok?
    requires var ts := Targets(Query(AppendedLinks(ws), source, linkType, tag));
      |ts| == |vals| && forall i :: 0 <= i < |ts| ==> Load(ApplyAll(db, ws), ts[i], cast, latest) == Ok(vals[i])
    ensures LinksAndLoadType(ApplyAll(db, ws), source, linkType, tag, cast, latest)
         == Ok(LinksAndLoadType(db, source, linkType, tag, cast, latest).value + vals)
  {
    var db' := ApplyAll(db, ws);
    LinksAfter(db, ws);
    QueryConcat(db.links, AppendedLinks(ws), source, linkType, tag);
    var oldT := Targets(Query(db.links, source, linkType, tag));
    var newT := Targets(Query(AppendedLinks(ws), source, linkType, tag));
    TargetsConcat(Query(db.links, source, linkType, tag), Query(AppendedLinks(ws), source, linkType, tag));
    ReadAllStable(hash, db, ws, oldT, latest);
    assert forall i :: 0 <= i < |newT| ==> Read(db', newT[i], latest).Some?;
    var es := ReadAll(db, oldT, latest).value;
    var fs := ReadAll(db', newT, latest).value;
    KeptAll(fs, vals, cast);
    ReadAllConcat(db', oldT, newT, latest);
    KeptConcat(es, fs, cast);
  }

  lemma ReadAllConcat<E>(db: Db<E>, a: seq<Address>, b: seq<Address>, latest: bool)
    requires ReadAll(db, a, latest).Some? && ReadAll(db, b, latest).Some?
    ensures ReadAll(db, a + b, latest) == Some(ReadAll(db, a, latest).value + ReadAll(db, b, latest).value)
  {
    var es := ReadAll(db, a, latest).value;
    var fs := ReadAll(db, b, latest).value;
    forall i | 0 <= i < |a + b|
      ensures Read(db, (a + b)[i], latest) == Some((es + fs)[i])
    {
      if i < |a| {
        assert (a + b)[i] == a[i];
      } else {
        assert (a + b)[i] == b[i - |a|];
      }
    }
    assert ReadAll(db, a + b, latest).Some?;
    assert ReadAll(db, a + b, latest).value == es + fs;
  }

  /** Reads of addresses that all exist survive writes that supersede nothing. */
  lemma ReadAllStable<E(!new)>(hash: E -> Address, db: Db<E>, ws: seq<Write<E>>, addrs: seq<Address>, latest: bool)
    requires Injective(hash) && ContentAddressed(hash, db) && Addressed(hash, ws) && NoSupersede(ws)
    requires ReadAll(db, addrs, latest).Some?
    ensures ReadAll(ApplyAll(db, ws), addrs, latest) == ReadAll(db, addrs, latest)
  {
    forall i | 0 <= i < |addrs|
      ensures Read(ApplyAll(db, ws), addrs[i], latest) == Read(db, addrs[i], latest)
    {
      ReadsStable(hash, db, ws, addrs[i], latest);
    }
    assert ReadAll(ApplyAll(db, ws), addrs, latest).Some?;
    assert ReadAll(ApplyAll(db, ws), addrs, latest).value == ReadAll(db, addrs, latest).value;
  }

  /** A store whose reads of the selected targets still exist and cast alike
      answers `get_links_and_load_type` as before. */
  lemma LinksAndLoadTypeSameReads<E, T>(db: Db<E>, db1: Db<E>, source: Address, linkType: Match, tag: Match, cast: E -> Option<T>, latest: bool)
    requires db1.links == db.links
    requires LinksAndLoadType(db, source, linkType, tag, cast, latest).Ok?
    requires forall a :: a in Targets(Query(db.links, source, linkType, tag)) ==>
               Read(db1, a, latest).Some? && cast(Read(db1, a, latest).value) == cast(Read(db, a, latest).value)
    ensures LinksAndLoadType(db1, source, linkType, tag, cast, latest) == LinksAndLoadType(db, source, linkType, tag, cast, latest)
  {
    var ts := Targets(Query(db.links, source, linkType, tag));
    assert forall i :: 0 <= i < |ts| ==> ts[i] in ts;
    KeptSame(ReadAll(db1, ts, latest).value, ReadAll(db, ts, latest).value, cast);
  }

  /** What a write stored is still there, at its address, after the remaining
      writes: under an injective hash nothing else can occupy that address. */
  lemma {:induction false} WrittenReadable<E(!new)>(hash: E -> Address, db: Db<E>, ws: seq<Write<E>>, i: nat)
    requires Injective(hash) && ContentAddressed(hash, db) && Addressed(hash, ws)
    requires i < |ws| && !ws[i].Append?
    ensures EntryAt(ApplyAll(db, ws), ws[i].at) == Some(ws[i].record.entry)
    decreases |ws|
  {
    var db1 := Apply(db, ws[0]);
    assert ContentAddressed(hash, db1);
    assert Addressed(hash, ws[1..]) by {
      AddressedPrefix(hash, ws[..1], ws);
      forall k | 0 <= k < |ws[1..]| && !ws[1..][k].Append?
        ensures ws[1..][k].at == hash(ws[1..][k].record.entry)
      {
        assert ws[1..][k] == ws[k + 1];
      }
    }
    assert ApplyAll(db, ws) == ApplyAll(db1, ws[1..]);
    if i == 0 {
      EntriesStable(hash, db1, ws[1..]);
    } else {
      assert ws[1..][i - 1] == ws[i];
      WrittenReadable(hash, db1, ws[1..], i - 1);
    }
  }

  /** Only entries satisfying `kind` have ever been superseded, and only by
      entries of that kind. */
  ghost predicate SupersedesOnly<E>(db: Db<E>, kind: E -> bool)
  {
    forall a :: a in db.updates ==>
      && a in db.entries && kind(db.entries[a].entry)
      && db.updates[a] in db.entries && kind(db.entries[db.updates[a]].entry)
  }

  /** An entry of another kind sits at an address that was never superseded. */
  lemma NotSuperseded<E(!new)>(hash: E -> Address, db: Db<E>, kind: E -> bool, e: E)
    requires Injective(hash) && ContentAddressed(hash, db) && SupersedesOnly(db, kind) && !kind(e)
    ensures hash(e) !in db.updates
  {
  }

  /** Writes that supersede nothing keep the set of superseded entries, and
      their kind, as it was. */
  lemma SupersedesOnlyAfter<E(!new)>(hash: E -> Address, db: Db<E>, ws: seq<Write<E>>, kind: E -> bool)
    requires Injective(hash) && ContentAddressed(hash, db) && Addressed(hash, ws) && NoSupersede(ws)
    requires SupersedesOnly(db, kind)
    ensures ContentAddressed(hash, ApplyAll(db, ws)) && SupersedesOnly(ApplyAll(db, ws), kind)
  {
    EntriesStable(hash, db, ws);
    UpdatesAfter(db, ws);
  }

  /** Superseding keeps the store content addressed. */
  lemma SupersedeAddressed<E>(hash: E -> Address, db: Db<E>, from: Address, e: E, author: Address)
    requires ContentAddressed(hash, db)
    ensures ContentAddressed(hash, Apply(db, SupersedeEntry(hash, from, e, author)))
  {
  }

  /** Superseding an entry of kind `kind` by another of that kind keeps every
      update within that kind. */
  lemma SupersedeKind<E>(hash: E -> Address, db: Db<E>, from: Address, e: E, author: Address, kind: E -> bool)
    requires ContentAddressed(hash, db) && SupersedesOnly(db, kind)
    requires from in db.entries && kind(db.entries[from].entry) && kind(e)
    ensures SupersedesOnly(Apply(db, SupersedeEntry(hash, from, e, author)), kind)
  {
    var db1 := Apply(db, SupersedeEntry(hash, from, e, author));
    forall a | a in db1.updates
      ensures a in db1.entries && kind(db1.entries[a].entry)
              && db1.updates[a] in db1.entries && kind(db1.entries[db1.updates[a]].entry)
    {
      if a != from {
        assert a in db.updates;
      }
    }
  }

  /** Superseding an entry of kind `kind` by another entry of that kind keeps
      the store well formed and changes no read that yields another kind. */
  lemma SupersedeStable<E(!new)>(hash: E -> Address, db: Db<E>, from: Address, e: E, author: Address, kind: E -> bool)
    requires Injective(hash) && ContentAddressed(hash, db) && SupersedesOnly(db, kind)
    requires from in db.entries && kind(db.entries[from].entry) && kind(e)
    ensures ContentAddressed(hash, Apply(db, SupersedeEntry(hash, from, e, author)))
    ensures SupersedesOnly(Apply(db, SupersedeEntry(hash, from, e, author)), kind)
    ensures forall a :: LatestAt(db, a).Some? && !kind(LatestAt(db, a).value) ==>
              LatestAt(Apply(db, SupersedeEntry(hash, from, e, author)), a) == LatestAt(db, a)
  {
    var db1 := Apply(db, SupersedeEntry(hash, from, e, author));
    SupersedeAddressed(hash, db, from, e, author);
    SupersedeKind(hash, db, from, e, author, kind);
    forall a | LatestAt(db, a).Some? && !kind(LatestAt(db, a).value)
      ensures LatestAt(db1, a) == LatestAt(db, a)
    {
      assert a !in db.updates;
      assert a in db.entries && !kind(db.entries[a].entry);
      assert a != hash(e);
    }
  }

  /** Superseding an entry of kind `kind` by another of that kind leaves every
      latest read in place: still there, of the same kind, and unchanged when of
      another kind. */
  lemma SupersedeLatest<E(!new)>(hash: E -> Address, db: Db<E>, from: Address, e: E, author: Address, kind: E -> bool, a: Address)
    requires Injective(hash) && ContentAddressed(hash, db) && SupersedesOnly(db, kind)
    requires from in db.entries && kind(db.entries[from].entry) && kind(e)
    requires LatestAt(db, a).Some?
    ensures var l := LatestAt(Apply(db, SupersedeEntry(hash, from, e, author)), a);
            && l.Some? && (kind(l.value) <==> kind(LatestAt(db, a).value))
            && (!kind(LatestAt(db, a).value) ==> l == LatestAt(db, a))
  {
    SupersedeStable(hash, db, from, e, author, kind);
  }

  /** Two stores that answer the same reads for `addrs` load the same values. */
  lemma {:induction false} LoadAllSameReads<E, T>(db: Db<E>, db1: Db<E>, addrs: seq<Address>, cast: E -> Option<T>, latest: bool)
    requires forall i :: 0 <= i < |addrs| ==> Read(db1, addrs[i], latest) == Read(db, addrs[i], latest)
    ensures LoadAll(db1, addrs, cast, latest) == LoadAll(db, addrs, cast, latest)
  {
    if addrs != [] {
      assert Read(db1, addrs[0], latest) == Read(db, addrs[0], latest);
      assert forall i :: 0 <= i < |addrs[1..]| ==> addrs[1..][i] == addrs[i + 1];
      LoadAllSameReads(db, db1, addrs[1..], cast, latest);
    }
  }

  // ----- the store -----

  class Store<E> {
    /** The content hash (`hash_entry`). */
    const hash: E -> Address
    var entries: map<Address, Record<E>>
    var updates: map<Address, Address>
    var links: seq<Link>

    function State(): Db<E>
      reads this
    {
      Db(entries, updates, links)
    }

    ghost predicate Valid()
      reads this
    {
      ContentAddressed(hash, State())
    }

    constructor (hash: E -> Address)
      ensures this.hash == hash
      ensures State() == Db(map[], map[], [])
      ensures Valid()
    {
      this.hash := hash;
      entries, updates, links := map[], map[], [];
    }

    /** `commit_entry` / `create_entry`: store `e` at its hash. The substrate
        may refuse, with a message of its own. */
    method Commit(e: E, author: Address) returns (r: Result<Address>)
      requires Valid()
      modifies this
      ensures Valid()
      ensures r.Ok? ==> r.value == hash(e) && State() == Apply(old(State()), PutEntry(hash, e, author))
      ensures r.Err? ==> State() == old(State())
    {
      var accepted: bool :| true;
      if accepted {
        entries := entries[hash(e) := Record(e, author)];
        r := Ok(hash(e));
      } else {
        var why: string :| true;
        r := Err(why);
      }
    }

    /** `update_entry` / `update`: store `e` at its hash as the new version of the
        entry at `from`. */
    method Update(from: Address, e: E, author: Address) returns (r: Result<Address>)
      requires Valid()
      modifies this
      ensures Valid()
      ensures r.Ok? ==> r.value == hash(e) && State() == Apply(old(State()), SupersedeEntry(hash, from, e, author))
      ensures r.Err? ==> State() == old(State())
    {
      var accepted: bool :| true;
      if accepted {
        entries := entries[hash(e) := Record(e, author)];
        updates := updates[from := hash(e)];
        r := Ok(hash(e));
      } else {
        var why: string :| true;
        r := Err(why);
      }
    }

    /** `link_entries` / `create_link`: append `l`. */
    method CreateLink(l: Link) returns (r: Result<()>)
      requires Valid()
      modifies this
      ensures Valid()
      ensures r.Ok? ==> State() == Apply(old(State()), Append(l))
      ensures r.Err? ==> State() == old(State())
    {
      var accepted: bool :| true;
      if accepted {
        links := links + [l];
        r := Ok(());
      } else {
        var why: string :| true;
        r := Err(why);
      }
    }
  }

  /** `agent_info()`: the calling agent's key, or a host failure. */
  method AgentInfo(agent: Address) returns (r: Result<Address>)
    ensures r.Ok? ==> r.value == agent
  {
    var answered: bool :| true;
    if answered {
      r := Ok(agent);
    } else {
      var why: string :| true;
      r := Err(why);
    }
  }
}
