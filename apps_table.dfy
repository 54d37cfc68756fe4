/**
 * The `apps` collection of the application store, as the commands use it:
 * `find_one` returns the first matching record in natural (insertion) order,
 * `insert_one` appends a record under a fresh id, and `update`/`update_one`
 * with `$set` change the first record with the given id.
 */
module AppsDb {
  import opened Wrappers
  import opened Records

  predicate HasId(recs: seq<App>, id: Id) {
    exists i :: 0 <= i < |recs| && recs[i].id == Some(id)
  }

  /** Every record has an id and no two records share one. */
  predicate UniqueIds(recs: seq<App>) {
    (forall i :: 0 <= i < |recs| ==> recs[i].id.Some?)
    && (forall i, j :: 0 <= i < j < |recs| ==> recs[i].id != recs[j].id)
  }

  /** `find_one({'_id': id})`. */
  function FindById(recs: seq<App>, id: Id): (r: Option<App>)
    ensures r.Some? <==> HasId(recs, id)
    ensures r.Some? ==> r.value in recs && r.value.id == Some(id)
  {
    if recs == [] then None
    else if recs[0].id == Some(id) then Some(recs[0])
    else
      var r := FindById(recs[1..], id);
      assert HasId(recs, id) <==> HasId(recs[1..], id) by {
        if HasId(recs, id) {
          var i :| 0 <= i < |recs| && recs[i].id == Some(id);
          assert recs[1..][i - 1].id == Some(id);
        }
        if HasId(recs[1..], id) {
          var i :| 0 <= i < |recs[1..]| && recs[1..][i].id == Some(id);
          assert recs[i + 1].id == Some(id);
        }
      }
      r
  }

  /**
   * An update by id: the first record whose id is `id` becomes `f` of itself;
   * every other record, and the order, stay as they were.
   */
  function UpdateFirst(recs: seq<App>, id: Id, f: App -> App): (r: seq<App>)
    ensures |r| == |recs|
  {
    if recs == [] then []
    else if recs[0].id == Some(id) then [f(recs[0])] + recs[1..]
    else [recs[0]] + UpdateFirst(recs[1..], id, f)
  }

  /** Whether `recs[i]` is the first record whose id is `id`. */
  predicate FirstWith(recs: seq<App>, id: Id, i: nat)
    requires i < |recs|
  {
    recs[i].id == Some(id) && forall k :: 0 <= k < i ==> recs[k].id != Some(id)
  }

  /** Position by position, an update by id changes exactly the first record with that id. */
  lemma {:induction false} UpdateFirstAt(recs: seq<App>, id: Id, f: App -> App, i: nat)
    requires i < |recs|
    ensures UpdateFirst(recs, id, f)[i] == if FirstWith(recs, id, i) then f(recs[i]) else recs[i]
    decreases i
  {
    if recs[0].id == Some(id) {
      if i > 0 {
        assert !FirstWith(recs, id, i);
      }
    } else if i > 0 {
      UpdateFirstAt(recs[1..], id, f, i - 1);
      assert recs[1..][i - 1] == recs[i];
      assert FirstWith(recs, id, i) <==> FirstWith(recs[1..], id, i - 1) by {
        if FirstWith(recs[1..], id, i - 1) {
          forall k | 0 < k < i ensures recs[k].id != Some(id) {
            assert recs[k] == recs[1..][k - 1];
          }
        }
        if FirstWith(recs, id, i) {
          forall k | 0 <= k < i - 1 ensures recs[1..][k].id != Some(id) {
            assert recs[1..][k] == recs[k + 1];
          }
        }
      }
    }
  }

  /** An update that keeps ids keeps every record's id, hence `UniqueIds`. */
  lemma UpdateKeepsUnique(recs: seq<App>, id: Id, f: App -> App)
    requires UniqueIds(recs)
    requires forall a: App :: f(a).id == a.id
    ensures UniqueIds(UpdateFirst(recs, id, f))
  {
    forall i | 0 <= i < |recs| ensures UpdateFirst(recs, id, f)[i].id == recs[i].id {
      UpdateFirstAt(recs, id, f, i);
    }
  }

  /** After an update by id, looking that id up finds the updated record (for an `f` that keeps the id). */
  lemma {:induction false} FindUpdated(recs: seq<App>, id: Id, f: App -> App)
    requires HasId(recs, id)
    requires forall a: App :: f(a).id == a.id
    ensures FindById(UpdateFirst(recs, id, f), id) == Some(f(FindById(recs, id).value))
    decreases |recs|
  {
    if recs[0].id != Some(id) {
      FindUpdated(recs[1..], id, f);
    }
  }

  /** An update by id leaves the lookup of every other id as it was (for an `f` that keeps the id). */
  lemma {:induction false} FindOtherAfterUpdate(recs: seq<App>, id: Id, other: Id, f: App -> App)
    requires other != id
    requires forall a: App :: f(a).id == a.id
    ensures FindById(UpdateFirst(recs, id, f), other) == FindById(recs, other)
    decreases |recs|
  {
    if recs != [] && recs[0].id != Some(id) {
      FindOtherAfterUpdate(recs[1..], id, other, f);
    }
  }

  /** An appended record is found by its id when no earlier record has that id. */
  lemma {:induction false} FindAppended(recs: seq<App>, x: App, id: Id)
    ensures FindById(recs + [x], id) ==
              if HasId(recs, id) then FindById(recs, id)
              else if x.id == Some(id) then Some(x) else None
    decreases |recs|
  {
    if recs == [] {
      assert recs + [x] == [x];
    } else {
      assert (recs + [x])[1..] == recs[1..] + [x];
      FindAppended(recs[1..], x, id);
    }
  }

  /** The `apps` collection. */
  class AppsTable {
    var records: seq<App>

    ghost predicate Valid()
      reads this
    {
      UniqueIds(records)
    }

    constructor (initial: seq<App>)
      requires UniqueIds(initial)
      ensures Valid() && records == initial
    {
      records := initial;
    }

    /**
     * `insert_one(doc)` for a document without an `_id`: the store appends it
     * under the fresh id `newId` and returns that id.
     */
    method InsertOne(doc: App, newId: Id) returns (id: Id)
      requires Valid()
      requires doc.id.None? && !HasId(records, newId)
      modifies this
      ensures Valid()
      ensures id == newId
      ensures records == old(records) + [doc.(id := Some(newId))]
    {
      records := records + [doc.(id := Some(newId))];
      id := newId;
    }

    /** `update_one({'_id': id}, {'$set': {'blue_green': bg}})`. */
    method SetBlueGreen(id: Id, bg: BlueGreen)
      requires Valid()
      modifies this
      ensures Valid()
      ensures records == UpdateFirst(old(records), id, (a: App) => a.(blueGreen := Val(bg)))
    {
      UpdateKeepsUnique(records, id, (a: App) => a.(blueGreen := Val(bg)));
      records := UpdateFirst(records, id, (a: App) => a.(blueGreen := Val(bg)));
    }

    /**
     * `update({'_id': id}, {'$set': {'autoscale.min': ..., 'autoscale.max': ...,
     * 'autoscale.current': ...}})`: only those three keys change; a record
     * without an `autoscale` document gets one holding just them.
     */
    method SetAutoscaleSizing(id: Id, min: int, max: int, current: int)
      requires Valid()
      modifies this
      ensures Valid()
      ensures records == UpdateFirst(old(records), id, Sized(min, max, current))
    {
      UpdateKeepsUnique(records, id, Sized(min, max, current));
      records := UpdateFirst(records, id, Sized(min, max, current));
    }
  }

  /** The record after `$set` of the three autoscale sizing keys. */
  function WithSizing(a: App, min: int, max: int, current: int): (r: App)
    ensures r.autoscale.Some?
    ensures r.autoscale.value.name == (if a.autoscale.Some? then a.autoscale.value.name else None)
    ensures r == a.(autoscale := r.autoscale)
  {
    var name := if a.autoscale.Some? then a.autoscale.value.name else None;
    a.(autoscale := Some(Autoscale(name, min, max, current)))
  }

  /** The update that `$set`s the three sizing keys. */
  function Sized(min: int, max: int, current: int): App -> App {
    (a: App) => WithSizing(a, min, max, current)
  }
}
