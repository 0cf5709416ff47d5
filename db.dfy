/**
  Package db: a key/value store reached through a lazily created,
  process-wide singleton. The read/write mutex and `sync.Once` serve only
  concurrent callers; the model is sequential.
*/
module Db {
  import opened Wrappers

  /** The error `repository.Get` returns for a key that is not stored. */
  datatype KeyError = NotPresented(key: string)
  {
    /** The Go error text. */
    function Message(): string
    {
      "The '" + key + "' is not presented"
    }
  }

  /** Go `repository`: a map from keys to stored data. */
  class Repository {
    var items: map<string, string>

    /** The `&repository{items: make(map[string]string)}` literal: an empty store. */
    constructor ()
      ensures items == map[]
    {
      items := map[];
    }

    /** `repository.Set`: stores `data` under `key`, overwriting any earlier value. */
    method Set(key: string, data: string)
      modifies this
      ensures items == old(items)[key := data]
      ensures key in items && items[key] == data
      ensures forall k :: k != key ==> (k in items <==> k in old(items))
      ensures forall k :: k != key && k in items ==> items[k] == old(items)[k]
    {
      items := items[key := data];
    }

    /** `repository.Get`: the stored value, or `""` and an error when `key` is absent. */
    method Get(key: string) returns (item: string, err: Option<KeyError>)
      ensures err.None? <==> key in items
      ensures err.None? ==> item == items[key]
      ensures err.Some? ==> item == "" && err.value == NotPresented(key)
    {
      if key !in items {
        return "", Some(NotPresented(key));
      }
      return items[key], None;
    }
  }

  /** The package-level variable `r`, shared by `Repository()` and `Get`. */
  class Package {
    var r: Repository?

    /** Program start: `r` is nil. */
    constructor ()
      ensures r == null
    {
      r := null;
    }

    /**
      `Repository()`: creates an empty store on the first call and returns
      the same store on every later call.
    */
    method Repository() returns (m: Repository)
      modifies this
      ensures old(r) == null ==> fresh(m) && m.items == map[]
      ensures old(r) != null ==> m == old(r)
      ensures r == m
    {
      if r == null {
        r := new Repository();
      }
      m := r;
    }

    /** Package-level `Get`: reads through `r`, which Go dereferences without a nil check. */
    method Get(key: string) returns (item: string, err: Option<KeyError>)
      requires r != null
      ensures err.None? <==> key in r.items
      ensures err.None? ==> item == r.items[key]
      ensures err.Some? ==> item == "" && err.value == NotPresented(key)
    {
      item, err := r.Get(key);
    }
  }

  /**
    A store answers a `Get` of a key with the value of the latest `Set` of
    that key: `v` after `Set(k, v)`, then `w` once `Set(k, w)` overwrites it.
  */
  method SetThenGet(repo: Repository, k: string, v: string, w: string)
    returns (first: string, second: string, errs: seq<Option<KeyError>>)
    modifies repo
    ensures first == v && second == w && errs == [None, None]
    ensures repo.items == old(repo.items)[k := w]
  {
    repo.Set(k, v);
    var err1, err2;
    first, err1 := repo.Get(k);
    repo.Set(k, w);
    second, err2 := repo.Get(k);
    errs := [err1, err2];
  }

  /**
    The demo `db.Repository().Get("id")`. On a store the accessor just
    created the lookup fails with `NotPresented("id")`, the error the demo
    panics on. The demo calls the accessor once; the second call is added
    here to show that it yields the same store.
  */
  method FirstUseScenario(p: Package) returns (a: Repository, b: Repository, err: Option<KeyError>)
    modifies p
    ensures a == b && p.r == a
    ensures old(p.r) == null ==> fresh(a) && err == Some(NotPresented("id"))
    ensures old(p.r) != null ==> a == old(p.r)
  {
    a := p.Repository();
    b := p.Repository();
    var item;
    item, err := b.Get("id");
  }
}
