/** The store's two indexes of applications: by ID and by application key. */
module AppIndex {

  datatype App = App(id: string, name: string, appKey: string, ownerID: string,
                     createdAt: int, updatedAt: int)

  datatype Error = NotFound | AlreadyExists
  datatype Result<T> = Ok(value: T) | Err(error: Error)

  datatype Tables = Tables(apps: map<string, App>, appsByKey: map<string, App>)

  function Create(t: Tables, app: App, now: int): (Tables, Result<()>) {
    if app.id in t.apps || app.appKey in t.appsByKey then (t, Err(AlreadyExists))
    else
      var a := app.(createdAt := now, updatedAt := now);
      (Tables(t.apps[a.id := a], t.appsByKey[a.appKey := a]), Ok(()))
  }

  function Update(t: Tables, app: App, now: int): (Tables, Result<()>) {
    if app.id !in t.apps then (t, Err(NotFound))
    else
      var a := app.(createdAt := t.apps[app.id].createdAt, updatedAt := now);
      (Tables(t.apps[a.id := a], t.appsByKey[a.appKey := a]), Ok(()))
  }

  function Delete(t: Tables, id: string): (Tables, Result<()>) {
    if id !in t.apps then (t, Err(NotFound))
    else (Tables(t.apps - {id}, t.appsByKey - {t.apps[id].appKey}), Ok(()))
  }

  /** Looking a key up gives what a scan of `apps` for that key would. */
  ghost predicate Agree(t: Tables) {
    && (forall id :: id in t.apps ==>
          && t.apps[id].id == id
          && t.apps[id].appKey in t.appsByKey && t.appsByKey[t.apps[id].appKey] == t.apps[id])
    && (forall k :: k in t.appsByKey ==>
          && t.appsByKey[k].appKey == k
          && t.appsByKey[k].id in t.apps && t.apps[t.appsByKey[k].id] == t.appsByKey[k])
  }

  /** In agreement, key lookup is the scan, and no two applications share a key. */
  lemma AgreeIsScan(t: Tables, k: string)
    requires Agree(t)
    ensures k in t.appsByKey <==> exists id :: id in t.apps && t.apps[id].appKey == k
    ensures forall id :: id in t.apps && t.apps[id].appKey == k ==> t.appsByKey[k] == t.apps[id]
    ensures forall id, id' :: id in t.apps && id' in t.apps && t.apps[id].appKey == t.apps[id'].appKey ==> id == id'
  {
    if k in t.appsByKey {
      assert t.apps[t.appsByKey[k].id].appKey == k;
    }
    forall id, id' | id in t.apps && id' in t.apps && t.apps[id].appKey == t.apps[id'].appKey
      ensures id == id'
    {
      assert t.appsByKey[t.apps[id].appKey] == t.apps[id];
    }
  }

  /** Updating an existing application keeps the indexes in agreement exactly when it keeps the key. */
  lemma UpdateKeepsAgreementIff(t: Tables, app: App, now: int)
    requires Agree(t) && app.id in t.apps
    ensures Agree(Update(t, app, now).0) <==> app.appKey == t.apps[app.id].appKey
  {
    var t' := Update(t, app, now).0;
    var k := t.apps[app.id].appKey;
    if app.appKey == k {
      forall id | id in t'.apps
        ensures t'.apps[id].id == id
        ensures t'.apps[id].appKey in t'.appsByKey && t'.appsByKey[t'.apps[id].appKey] == t'.apps[id]
      {
        if id != app.id && t.apps[id].appKey == k {
          AgreeIsScan(t, k);
        }
      }
    } else {
      assert k in t'.appsByKey && t'.appsByKey[k].id == app.id;
      assert t'.apps[app.id].appKey == app.appKey;
    }
  }

  /** An update that moves the key leaves the old key with the old record, even after the application is deleted. */
  lemma MovedKeyOutlives(t: Tables, app: App, now: int)
    requires Agree(t) && app.id in t.apps && app.appKey != t.apps[app.id].appKey
    ensures var k, t' := t.apps[app.id].appKey, Delete(Update(t, app, now).0, app.id).0;
            app.id !in t'.apps && k in t'.appsByKey && t'.appsByKey[k] == t.apps[app.id]
  {
    assert Update(t, app, now).0.apps[app.id].appKey == app.appKey;
  }

  datatype Op = CreateOp(app: App, now: int) | UpdateOp(app: App, now: int) | DeleteOp(id: string)

  function Apply(t: Tables, op: Op): Tables {
    match op
    case CreateOp(app, now) => Create(t, app, now).0
    case UpdateOp(app, now) => Update(t, app, now).0
    case DeleteOp(id) => Delete(t, id).0
  }

  /** The operation is not an update that moves an existing application to another key. */
  predicate KeepsKey(t: Tables, op: Op) {
    op.UpdateOp? && op.app.id in t.apps ==> op.app.appKey == t.apps[op.app.id].appKey
  }

  lemma StepAgreesIff(t: Tables, op: Op)
    requires Agree(t)
    ensures Agree(Apply(t, op)) <==> KeepsKey(t, op)
  {
    match op
    case CreateOp(app, now) =>
    case UpdateOp(app, now) =>
      if app.id in t.apps {
        UpdateKeepsAgreementIff(t, app, now);
      }
    case DeleteOp(id) =>
      if id in t.apps {
        AgreeIsScan(t, t.apps[id].appKey);
      }
  }

  function Run(ops: seq<Op>): Tables {
    if ops == [] then Tables(map[], map[])
    else Apply(Run(ops[..|ops| - 1]), ops[|ops| - 1])
  }

  lemma {:induction false} RunAgrees(ops: seq<Op>)
    requires forall n :: 0 <= n < |ops| ==> KeepsKey(Run(ops[..n]), ops[n])
    ensures Agree(Run(ops))
  {
    if ops != [] {
      var most := ops[..|ops| - 1];
      forall n | 0 <= n < |most| ensures KeepsKey(Run(most[..n]), most[n]) {
        assert most[..n] == ops[..n];
      }
      RunAgrees(most);
      StepAgreesIff(Run(most), ops[|ops| - 1]);
    }
  }

  /** The indexes agree all along a run exactly when every update in it keeps its key. */
  lemma RunAgreesIff(ops: seq<Op>)
    ensures (forall n :: 0 <= n <= |ops| ==> Agree(Run(ops[..n]))) <==>
            (forall n :: 0 <= n < |ops| ==> KeepsKey(Run(ops[..n]), ops[n]))
  {
    hide Agree, KeepsKey, Apply;
    if forall n :: 0 <= n <= |ops| ==> Agree(Run(ops[..n])) {
      forall n | 0 <= n < |ops| ensures KeepsKey(Run(ops[..n]), ops[n]) {
        assert ops[..n + 1][..n] == ops[..n] && Agree(Run(ops[..n + 1]));
        StepAgreesIff(Run(ops[..n]), ops[n]);
      }
    }
    if forall n :: 0 <= n < |ops| ==> KeepsKey(Run(ops[..n]), ops[n]) {
      forall n | 0 <= n <= |ops| ensures Agree(Run(ops[..n])) {
        assert forall m :: 0 <= m < n ==> ops[..n][..m] == ops[..m];
        RunAgrees(ops[..n]);
      }
    }
  }

  /** Operation `n` created the application, and it was not deleted since. */
  predicate Created(ops: seq<Op>, id: string, n: nat) {
    && n < |ops| && ops[n].CreateOp? && ops[n].app.id == id
    && id !in Run(ops[..n]).apps && ops[n].app.appKey !in Run(ops[..n]).appsByKey
    && forall i :: n < i < |ops| ==> ops[i] != DeleteOp(id)
  }

  /** No operation after `m` updates the application. */
  predicate Unchanged(ops: seq<Op>, id: string, m: nat) {
    forall i :: m < i < |ops| ==> !(ops[i].UpdateOp? && ops[i].app.id == id)
  }

  lemma CreatedBefore(ops: seq<Op>, id: string, n: nat)
    requires n < |ops| - 1
    ensures Created(ops, id, n) <==> Created(ops[..|ops| - 1], id, n) && ops[|ops| - 1] != DeleteOp(id)
  {
    assert ops[..|ops| - 1][..n] == ops[..n];
  }

  lemma CreatedNow(ops: seq<Op>, id: string)
    requires ops != []
    ensures var t, op := Run(ops[..|ops| - 1]), ops[|ops| - 1];
            Created(ops, id, |ops| - 1) <==>
            op.CreateOp? && op.app.id == id && id !in t.apps && op.app.appKey !in t.appsByKey
  {}

  lemma StoredStep(t: Tables, op: Op, id: string)
    ensures id in Apply(t, op).apps <==>
            || (id in t.apps && op != DeleteOp(id))
            || (op.CreateOp? && op.app.id == id && id !in t.apps && op.app.appKey !in t.appsByKey)
  {}

  /** An application is stored exactly if it was created and not deleted since. */
  lemma {:induction false} StoredIff(ops: seq<Op>, id: string)
    ensures id in Run(ops).apps <==> exists n: nat :: Created(ops, id, n)
  {
    if ops != [] {
      var most := ops[..|ops| - 1];
      StoredIff(most, id);
      StoredStep(Run(most), ops[|ops| - 1], id);
      CreatedNow(ops, id);
      forall n: nat | n < |most|
        ensures Created(ops, id, n) <==> Created(most, id, n) && ops[|ops| - 1] != DeleteOp(id)
      {
        CreatedBefore(ops, id, n);
      }
      assert forall n: nat :: Created(ops, id, n) ==> n < |ops|;
      assert forall n: nat :: Created(most, id, n) ==> n < |most|;
      hide Apply, Created;
    }
  }

  /** Whatever was written since, the creation's time stays. */
  lemma {:induction false} CreationTimeStays(ops: seq<Op>, id: string, n: nat)
    requires Created(ops, id, n)
    ensures id in Run(ops).apps && Run(ops).apps[id].createdAt == ops[n].now && Run(ops).apps[id].id == id
    decreases |ops|
  {
    var most := ops[..|ops| - 1];
    if n == |ops| - 1 {
      assert ops[..n] == most;
    } else {
      assert most[..n] == ops[..n];
      CreationTimeStays(most, id, n);
    }
  }

  /** It then has the creation's time, and everything else from the last update since, or else from the creation. */
  lemma {:induction false} StoredIsLatest(ops: seq<Op>, id: string, n: nat, m: nat)
    requires Created(ops, id, n) && n <= m < |ops| && Unchanged(ops, id, m)
    requires m == n || (ops[m].UpdateOp? && ops[m].app.id == id)
    ensures id in Run(ops).apps
    ensures Run(ops).apps[id] ==
            App(id, ops[m].app.name, ops[m].app.appKey, ops[m].app.ownerID, ops[n].now, ops[m].now)
  {
    var most, last := ops[..|ops| - 1], ops[|ops| - 1];
    if n == |ops| - 1 {
      assert ops[..n] == most;
    } else {
      assert most[..n] == ops[..n];
      assert Created(most, id, n);
      if m == |ops| - 1 {
        CreationTimeStays(most, id, n);
      } else {
        StoredIsLatest(most, id, n, m);
      }
    }
  }

  class AppStore {
    var apps: map<string, App>
    var appsByKey: map<string, App>

    function State(): Tables
      reads this
    {
      Tables(apps, appsByKey)
    }

    constructor ()
      ensures State() == Run([])
    {
      apps, appsByKey := map[], map[];
    }

    method CreateApp(app: App, now: int) returns (r: Result<()>)
      modifies this
      ensures (State(), r) == Create(old(State()), app, now)
      ensures r == if app.id in old(apps) || app.appKey in old(appsByKey) then Err(AlreadyExists) else Ok(())
      ensures r.Err? ==> apps == old(apps) && appsByKey == old(appsByKey)
      ensures var stored := App(app.id, app.name, app.appKey, app.ownerID, now, now);
              r.Ok? ==> apps == old(apps)[app.id := stored] && appsByKey == old(appsByKey)[app.appKey := stored]
    {
      if app.id in apps {
        return Err(AlreadyExists);
      }
      if app.appKey in appsByKey {
        return Err(AlreadyExists);
      }
      var stored := app.(createdAt := now, updatedAt := now);
      apps := apps[stored.id := stored];
      appsByKey := appsByKey[stored.appKey := stored];
      return Ok(());
    }

    method GetAppByID(id: string) returns (r: Result<App>)
      ensures r == if id in apps then Ok(apps[id]) else Err(NotFound)
    {
      if id !in apps {
        return Err(NotFound);
      }
      return Ok(apps[id]);
    }

    method GetAppByKey(key: string) returns (r: Result<App>)
      ensures r == if key in appsByKey then Ok(appsByKey[key]) else Err(NotFound)
      ensures Agree(State()) ==>
        && (r.Ok? <==> exists id :: id in apps && apps[id].appKey == key)
        && (r.Ok? ==> r.value.appKey == key && r.value.id in apps && apps[r.value.id] == r.value)
    {
      if Agree(State()) {
        AgreeIsScan(State(), key);
      }
      if key !in appsByKey {
        return Err(NotFound);
      }
      return Ok(appsByKey[key]);
    }

    method UpdateApp(app: App, now: int) returns (r: Result<()>)
      modifies this
      ensures (State(), r) == Update(old(State()), app, now)
      ensures r == if app.id in old(apps) then Ok(()) else Err(NotFound)
      ensures r.Err? ==> apps == old(apps) && appsByKey == old(appsByKey)
      ensures r.Ok? ==>
        var stored := App(app.id, app.name, app.appKey, app.ownerID, old(apps)[app.id].createdAt, now);
        apps == old(apps)[app.id := stored] && appsByKey == old(appsByKey)[app.appKey := stored]
    {
      if app.id !in apps {
        return Err(NotFound);
      }
      var stored := app.(updatedAt := now, createdAt := apps[app.id].createdAt);
      apps := apps[stored.id := stored];
      appsByKey := appsByKey[stored.appKey := stored];
      return Ok(());
    }

    method DeleteApp(id: string) returns (r: Result<()>)
      modifies this
      ensures (State(), r) == Delete(old(State()), id)
      ensures r == if id in old(apps) then Ok(()) else Err(NotFound)
      ensures r.Err? ==> apps == old(apps) && appsByKey == old(appsByKey)
      ensures r.Ok? ==> apps == old(apps) - {id} && appsByKey == old(appsByKey) - {old(apps)[id].appKey}
    {
      if id !in apps {
        return Err(NotFound);
      }
      appsByKey := appsByKey - {apps[id].appKey};
      apps := apps - {id};
      return Ok(());
    }
  }
}
