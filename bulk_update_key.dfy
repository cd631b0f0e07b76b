/** The `api/components/bulk_update_key` action: rename the key of a project
    or module and of its sub-components, or preview that rename with a dry run.

    The key updater that computes the new keys, checks which of them already
    exist and writes them is a collaborator whose rules are not part of this
    model: it enters as three functions of the stored keys (KeyUpdater). */
module BulkUpdateKey {
  import opened Ws
  import opened StringOrder

  type Uuid = string
  type Key = string

  /** A component's qualifier, as far as checkIsProjectOrModule looks at it. */
  datatype Qualifier = Project | Module | Other

  /** The request after parameter parsing (`toWsRequest`). */
  datatype BulkUpdateWsRequest = BulkUpdateWsRequest(
    id: Option<Uuid>, key: Option<Key>, from: string, to: string, dryRun: bool)

  /** One entry of the response: the old key, the new key, and whether the new
      key is already taken. */
  datatype KeyEntry = KeyEntry(key: Key, newKey: Key, duplicate: bool)

  /** The key-updater collaborators, each a function of the stored keys:
      `simulate` is simulateBulkUpdateKey (old key -> new key for the affected
      components of the subtree rooted at the given uuid), `checkComponentKeys`
      maps each proposed new key to "already exists", and `bulkUpdateKey` is the
      stored key map after ComponentService.bulkUpdateKey and the commit. */
  datatype KeyUpdater = KeyUpdater(
    simulate: (map<Uuid, Key>, Uuid, string, string) -> map<Key, Key>,
    checkComponentKeys: (map<Uuid, Key>, set<Key>) -> map<Key, bool>,
    bulkUpdateKey: (map<Uuid, Key>, Uuid, string, string) -> map<Uuid, Key>)

  // ---------------------------------------------------------------------------
  // Request parameters

  const PARAM_ID := "id"
  const PARAM_KEY := "key"
  const PARAM_FROM := "from"
  const PARAM_TO := "to"
  const PARAM_DRY_RUN := "dryRun"

  function Param(params: map<string, string>, name: string): Option<string> {
    if name in params then Some(params[name]) else None
  }

  /** Request.mandatoryParamAsBoolean on a value: true/yes and false/no. */
  function ParseBoolean(name: string, value: string): (r: Result<bool>)
    ensures r.Success? <==> value in {"true", "yes", "false", "no"}
    ensures r.Success? ==> (r.value <==> value in {"true", "yes"})
    ensures r.Failure? ==> r.error == InvalidBoolean(name)
  {
    if value == "true" || value == "yes" then Success(true)
    else if value == "false" || value == "no" then Success(false)
    else Failure(InvalidBoolean(name))
  }

  /** toWsRequest: `id` and `key` are optional, `from` and `to` are mandatory
      (and must not be empty when the request is built), `dryRun` defaults to
      false. Parameters are read in the order the builder is fed. */
  function ToWsRequest(params: map<string, string>): (r: Result<BulkUpdateWsRequest>)
    ensures PARAM_FROM !in params ==> r == Failure(MissingParameter(PARAM_FROM))
    ensures PARAM_FROM in params && PARAM_TO !in params ==> r == Failure(MissingParameter(PARAM_TO))
    ensures r.Success? <==>
      && PARAM_FROM in params && params[PARAM_FROM] != ""
      && PARAM_TO in params && params[PARAM_TO] != ""
      && (PARAM_DRY_RUN in params ==> params[PARAM_DRY_RUN] in {"true", "yes", "false", "no"})
    ensures r.Success? ==>
      && r.value.id == Param(params, PARAM_ID)
      && r.value.key == Param(params, PARAM_KEY)
      && r.value.from == params[PARAM_FROM]
      && r.value.to == params[PARAM_TO]
      && (r.value.dryRun <==> PARAM_DRY_RUN in params && params[PARAM_DRY_RUN] in {"true", "yes"})
  {
    if PARAM_FROM !in params then Failure(MissingParameter(PARAM_FROM))
    else if PARAM_TO !in params then Failure(MissingParameter(PARAM_TO))
    else
      var dryRunValue := if PARAM_DRY_RUN in params then params[PARAM_DRY_RUN] else "false";
      match ParseBoolean(PARAM_DRY_RUN, dryRunValue)
      case Failure(e) => Failure(e)
      case Success(dryRun) =>
        if params[PARAM_FROM] == "" then Failure(EmptyParameter(PARAM_FROM))
        else if params[PARAM_TO] == "" then Failure(EmptyParameter(PARAM_TO))
        else Success(BulkUpdateWsRequest(Param(params, PARAM_ID), Param(params, PARAM_KEY),
                                         params[PARAM_FROM], params[PARAM_TO], dryRun))
  }

  /** The parameters a client sends for a request. */
  function ToParams(req: BulkUpdateWsRequest): map<string, string> {
    var base := map[PARAM_FROM := req.from, PARAM_TO := req.to,
                    PARAM_DRY_RUN := if req.dryRun then "true" else "false"];
    var withId := if req.id.Some? then base[PARAM_ID := req.id.value] else base;
    if req.key.Some? then withId[PARAM_KEY := req.key.value] else withId
  }

  /** Sending a request's parameters and parsing them gives the request back. */
  lemma ParamsRoundTrip(req: BulkUpdateWsRequest)
    requires req.from != "" && req.to != ""
    ensures ToWsRequest(ToParams(req)) == Success(req)
  {
    var p := ToParams(req);
    assert PARAM_FROM in p && p[PARAM_FROM] == req.from;
    assert PARAM_TO in p && p[PARAM_TO] == req.to;
    assert PARAM_DRY_RUN in p && p[PARAM_DRY_RUN] == if req.dryRun then "true" else "false";
    assert Param(p, PARAM_ID) == req.id;
    assert Param(p, PARAM_KEY) == req.key;
  }

  /** Without a `dryRun` parameter the request is a real run. */
  lemma DryRunDefaultsToFalse(params: map<string, string>)
    requires PARAM_DRY_RUN !in params
    requires ToWsRequest(params).Success?
    ensures !ToWsRequest(params).value.dryRun
  {
  }

  // ---------------------------------------------------------------------------
  // Resolving and checking the target

  /** ComponentFinder.getByUuidOrKey: exactly one of `id` and `key` must be
      given, and it must name a stored component. For a key, the least uuid
      carrying it is taken; the store is assumed, not proved, to hold each
      key at most once. */
  function GetByUuidOrKey(keys: map<Uuid, Key>, id: Option<Uuid>, key: Option<Key>): (r: Result<Uuid>)
    ensures id.Some? == key.Some? ==> r == Failure(IdOrKeyRequired)
    ensures id.Some? && key.None? ==> (r.Success? <==> id.value in keys)
    ensures key.Some? && id.None? ==> (r.Success? <==> exists u :: u in keys && keys[u] == key.value)
    ensures r.Success? ==> r.value in keys
    ensures r.Success? && id.Some? ==> r.value == id.value
    ensures r.Success? && key.Some? ==> keys[r.value] == key.value
    ensures r.Failure? ==> r.error in {IdOrKeyRequired, ComponentNotFound}
    ensures id.Some? != key.Some? && r.Failure? ==> r.error == ComponentNotFound
  {
    if id.Some? == key.Some? then Failure(IdOrKeyRequired)
    else if id.Some? then
      if id.value in keys then Success(id.value) else Failure(ComponentNotFound)
    else
      var carriers := set u | u in keys.Keys && keys[u] == key.value;
      assert forall u :: u in keys && keys[u] == key.value ==> u in carriers;
      if carriers == {} then Failure(ComponentNotFound) else Success(Least(carriers))
  }

  /** checkIsProjectOrModule */
  predicate IsProjectOrModule(qualifiers: map<Uuid, Qualifier>, uuid: Uuid) {
    uuid in qualifiers && qualifiers[uuid] in {Project, Module}
  }

  // ---------------------------------------------------------------------------
  // The duplicate guard and the response

  function DuplicateMessage(key: Key): string {
    "Impossible to update key: a component with key \"" + key + "\" already exists."
  }

  /** The duplicate message names its key: different keys give different messages. */
  lemma DuplicateMessageNamesKey(k1: Key, k2: Key)
    requires DuplicateMessage(k1) == DuplicateMessage(k2)
    ensures k1 == k2
  {
    MessageNamesArgument("Impossible to update key: a component with key \"", k1, k2, "\" already exists.");
  }

  /** checkNoDuplicate: fails with a bad request naming a colliding key as soon
      as any new key is marked as already existing. The source names whichever
      entry its hash map yields first; here the least such key is named. */
  function CheckNoDuplicate(duplicates: map<Key, bool>): (r: Result<()>)
    ensures r.Success? <==> forall k :: k in duplicates ==> !duplicates[k]
    ensures r.Failure? ==>
      exists k :: k in duplicates && duplicates[k] && r.error == BadRequest(DuplicateMessage(k))
  {
    var colliding := set k | k in duplicates.Keys && duplicates[k];
    assert forall k :: k in duplicates && duplicates[k] ==> k in colliding;
    if colliding == {} then Success(())
    else
      var k := Least(colliding);
      Failure(BadRequest(DuplicateMessage(k)))
  }

  /** Map.getOrDefault(newKey, false) */
  predicate IsDuplicate(duplicates: map<Key, bool>, newKey: Key) {
    newKey in duplicates && duplicates[newKey]
  }

  /** buildResponse: one entry per planned rename, in ascending order of old
      key, each carrying its new key and its duplicate flag. */
  function BuildResponse(newKeysByOldKeys: map<Key, Key>, duplicates: map<Key, bool>): (r: seq<KeyEntry>)
    ensures |r| == |newKeysByOldKeys|
    ensures forall i :: 0 <= i < |r| ==>
      && r[i].key in newKeysByOldKeys
      && r[i].newKey == newKeysByOldKeys[r[i].key]
      && r[i].duplicate == IsDuplicate(duplicates, r[i].newKey)
    ensures forall k :: k in newKeysByOldKeys ==> exists i :: 0 <= i < |r| && r[i].key == k
    ensures forall i, j :: 0 <= i < j < |r| ==> Less(r[i].key, r[j].key)
  {
    var oldKeys := Ascending(newKeysByOldKeys.Keys);
    var r := seq(|oldKeys|, i requires 0 <= i < |oldKeys| => Entry(newKeysByOldKeys, duplicates, oldKeys[i]));
    assert forall i :: 0 <= i < |r| ==> r[i].key == oldKeys[i];
    forall i | 0 <= i < |r|
      ensures r[i].duplicate == IsDuplicate(duplicates, r[i].newKey)
    {
      assert r[i] == Entry(newKeysByOldKeys, duplicates, oldKeys[i]);
    }
    forall k | k in newKeysByOldKeys
      ensures exists i :: 0 <= i < |r| && r[i].key == k
    {
      assert k in oldKeys;
      var i :| 0 <= i < |oldKeys| && oldKeys[i] == k;
      assert r[i].key == k;
    }
    r
  }

  /** The response entry for one old key of the plan. */
  function Entry(newKeysByOldKeys: map<Key, Key>, duplicates: map<Key, bool>, oldKey: Key): KeyEntry
    requires oldKey in newKeysByOldKeys
  {
    var newKey := newKeysByOldKeys[oldKey];
    KeyEntry(oldKey, newKey, IsDuplicate(duplicates, newKey))
  }

  // ---------------------------------------------------------------------------
  // The whole action

  /** What doHandle answers and what the stored keys are afterwards. */
  datatype Outcome = Outcome(response: Result<seq<KeyEntry>>, keys: map<Uuid, Key>)

  /** The specification of doHandle: resolve the target, check that it is a
      project or module and that the caller administers it, then compute the
      plan and the duplicate map; a real run checks for duplicates and applies
      the update; both kinds of run answer with the response built from the
      plan and the duplicate map. */
  function Run(keys: map<Uuid, Key>, qualifiers: map<Uuid, Qualifier>, admins: set<Uuid>,
               updater: KeyUpdater, req: BulkUpdateWsRequest): Outcome
  {
    match GetByUuidOrKey(keys, req.id, req.key)
    case Failure(e) => Outcome(Failure(e), keys)
    case Success(uuid) =>
      if !IsProjectOrModule(qualifiers, uuid) then Outcome(Failure(NotProjectOrModule), keys)
      else if uuid !in admins then Outcome(Failure(InsufficientPrivileges), keys)
      else
        var plan := updater.simulate(keys, uuid, req.from, req.to);
        var duplicates := updater.checkComponentKeys(keys, plan.Values);
        var response := Success(BuildResponse(plan, duplicates));
        if req.dryRun then Outcome(response, keys)
        else match CheckNoDuplicate(duplicates)
          case Failure(e) => Outcome(Failure(e), keys)
          case Success(_) => Outcome(response, updater.bulkUpdateKey(keys, uuid, req.from, req.to))
  }

  /** The target passes every check that precedes the simulation. */
  predicate TargetAccepted(keys: map<Uuid, Key>, qualifiers: map<Uuid, Qualifier>, admins: set<Uuid>,
                           req: BulkUpdateWsRequest)
  {
    var found := GetByUuidOrKey(keys, req.id, req.key);
    found.Success? && IsProjectOrModule(qualifiers, found.value) && found.value in admins
  }

  /** A dry run never changes a key. */
  lemma DryRunNeverMutates(keys: map<Uuid, Key>, qualifiers: map<Uuid, Qualifier>, admins: set<Uuid>,
                           updater: KeyUpdater, req: BulkUpdateWsRequest)
    requires req.dryRun
    ensures Run(keys, qualifiers, admins, updater, req).keys == keys
  {
  }

  /** A real run fails, changing nothing, as soon as one new key is taken, and
      its message names a taken key. */
  lemma DuplicateBlocksUpdate(keys: map<Uuid, Key>, qualifiers: map<Uuid, Qualifier>, admins: set<Uuid>,
                              updater: KeyUpdater, req: BulkUpdateWsRequest)
    requires !req.dryRun && TargetAccepted(keys, qualifiers, admins, req)
    requires var uuid := GetByUuidOrKey(keys, req.id, req.key).value;
             var plan := updater.simulate(keys, uuid, req.from, req.to);
             exists k :: IsDuplicate(updater.checkComponentKeys(keys, plan.Values), k)
    ensures var o := Run(keys, qualifiers, admins, updater, req);
      var uuid := GetByUuidOrKey(keys, req.id, req.key).value;
      var duplicates := updater.checkComponentKeys(keys, updater.simulate(keys, uuid, req.from, req.to).Values);
      && o.keys == keys
      && o.response.Failure?
      && exists k :: IsDuplicate(duplicates, k) && o.response.error == BadRequest(DuplicateMessage(k))
  {
  }

  /** The keys change only through the key updater, on a real run whose target
      passed every check and whose new keys are all free. */
  lemma UpdateOnlyWhenAllowed(keys: map<Uuid, Key>, qualifiers: map<Uuid, Qualifier>, admins: set<Uuid>,
                              updater: KeyUpdater, req: BulkUpdateWsRequest)
    ensures var o := Run(keys, qualifiers, admins, updater, req);
      o.keys == keys ||
      (&& !req.dryRun
       && TargetAccepted(keys, qualifiers, admins, req)
       && var uuid := GetByUuidOrKey(keys, req.id, req.key).value;
          var duplicates := updater.checkComponentKeys(keys, updater.simulate(keys, uuid, req.from, req.to).Values);
          && (forall k :: k in duplicates ==> !duplicates[k])
          && o.response.Success?
          && o.keys == updater.bulkUpdateKey(keys, uuid, req.from, req.to))
  {
  }

  /** Conversely, a real run whose target passed every check and whose new
      keys are all free succeeds and applies the key updater's result. */
  lemma AllowedRunApplies(keys: map<Uuid, Key>, qualifiers: map<Uuid, Qualifier>, admins: set<Uuid>,
                          updater: KeyUpdater, req: BulkUpdateWsRequest)
    requires !req.dryRun && TargetAccepted(keys, qualifiers, admins, req)
    requires var uuid := GetByUuidOrKey(keys, req.id, req.key).value;
             var duplicates := updater.checkComponentKeys(keys, updater.simulate(keys, uuid, req.from, req.to).Values);
             forall k :: k in duplicates ==> !duplicates[k]
    ensures var o := Run(keys, qualifiers, admins, updater, req);
      var uuid := GetByUuidOrKey(keys, req.id, req.key).value;
      && o.response.Success?
      && o.keys == updater.bulkUpdateKey(keys, uuid, req.from, req.to)
  {
  }

  /** Resolution, the qualifier check and the permission check come before the
      simulation: when one of them fails, the key updater is never consulted
      and nothing changes. */
  lemma ChecksPrecedeSimulation(keys: map<Uuid, Key>, qualifiers: map<Uuid, Qualifier>, admins: set<Uuid>,
                                u1: KeyUpdater, u2: KeyUpdater, req: BulkUpdateWsRequest)
    requires !TargetAccepted(keys, qualifiers, admins, req)
    ensures Run(keys, qualifiers, admins, u1, req) == Run(keys, qualifiers, admins, u2, req)
    ensures Run(keys, qualifiers, admins, u1, req).keys == keys
    ensures Run(keys, qualifiers, admins, u1, req).response.Failure?
  {
  }

  /** Each rejection has its own error, and the checks run in the order of the
      source: resolution, then the qualifier, then the ADMIN permission. */
  lemma RejectedTargetErrors(keys: map<Uuid, Key>, qualifiers: map<Uuid, Qualifier>, admins: set<Uuid>,
                             updater: KeyUpdater, req: BulkUpdateWsRequest)
    ensures var o := Run(keys, qualifiers, admins, updater, req);
      var found := GetByUuidOrKey(keys, req.id, req.key);
      && (found.Failure? ==> o.response == Failure(found.error))
      && (found.Success? && !IsProjectOrModule(qualifiers, found.value) ==> o.response == Failure(NotProjectOrModule))
      && (found.Success? && IsProjectOrModule(qualifiers, found.value) && found.value !in admins
          ==> o.response == Failure(InsufficientPrivileges))
  {
  }

  /** The response is built from the plan computed before any update: a
      successful real run answers exactly what a dry run of the same request on
      the same keys answers. */
  lemma RealRunAnswersLikeDryRun(keys: map<Uuid, Key>, qualifiers: map<Uuid, Qualifier>, admins: set<Uuid>,
                                 updater: KeyUpdater, req: BulkUpdateWsRequest)
    requires Run(keys, qualifiers, admins, updater, req).response.Success?
    ensures Run(keys, qualifiers, admins, updater, req.(dryRun := true)).response
         == Run(keys, qualifiers, admins, updater, req).response
  {
  }

  /** The response of an accepted dry run is the plan sorted by old key. */
  lemma DryRunReportsPlan(keys: map<Uuid, Key>, qualifiers: map<Uuid, Qualifier>, admins: set<Uuid>,
                           updater: KeyUpdater, req: BulkUpdateWsRequest)
    requires req.dryRun && TargetAccepted(keys, qualifiers, admins, req)
    ensures var o := Run(keys, qualifiers, admins, updater, req);
      var uuid := GetByUuidOrKey(keys, req.id, req.key).value;
      var plan := updater.simulate(keys, uuid, req.from, req.to);
      var duplicates := updater.checkComponentKeys(keys, plan.Values);
      && o.response.Success?
      && |o.response.value| == |plan|
      && (forall i :: 0 <= i < |o.response.value| ==>
            && o.response.value[i].key in plan
            && o.response.value[i].newKey == plan[o.response.value[i].key]
            && o.response.value[i].duplicate == IsDuplicate(duplicates, o.response.value[i].newKey))
      && (forall k :: k in plan ==> exists i :: 0 <= i < |o.response.value| && o.response.value[i].key == k)
      && (forall i, j :: 0 <= i < j < |o.response.value| ==> Less(o.response.value[i].key, o.response.value[j].key))
  {
  }

  // ---------------------------------------------------------------------------
  // The component store and the handler

  /** The stored components: their keys, which a bulk update rewrites, and
      their qualifiers, which it leaves alone. */
  class ComponentStore {
    var keys: map<Uuid, Key>
    var qualifiers: map<Uuid, Qualifier>

    constructor (keys: map<Uuid, Key>, qualifiers: map<Uuid, Qualifier>)
      ensures this.keys == keys && this.qualifiers == qualifiers
    {
      this.keys := keys;
      this.qualifiers := qualifiers;
    }

    /** bulkUpdateKey: the key updater rewrites the subtree's keys and the
        session commits them, as one update of the stored keys. */
    method BulkUpdateKey(updater: KeyUpdater, uuid: Uuid, from: string, to: string)
      modifies this
      ensures keys == updater.bulkUpdateKey(old(keys), uuid, from, to)
      ensures qualifiers == old(qualifiers)
    {
      keys := updater.bulkUpdateKey(keys, uuid, from, to);
    }
  }

  /** doHandle, step by step as the source takes them. */
  method DoHandle(store: ComponentStore, admins: set<Uuid>, updater: KeyUpdater, req: BulkUpdateWsRequest)
    returns (r: Result<seq<KeyEntry>>)
    modifies store
    ensures var o := Run(old(store.keys), old(store.qualifiers), admins, updater, req);
      r == o.response && store.keys == o.keys
    ensures store.qualifiers == old(store.qualifiers)
  {
    var found := GetByUuidOrKey(store.keys, req.id, req.key);
    if found.Failure? {
      return Failure(found.error);
    }
    var projectOrModule := found.value;
    if !IsProjectOrModule(store.qualifiers, projectOrModule) {
      return Failure(NotProjectOrModule);
    }
    if projectOrModule !in admins {
      return Failure(InsufficientPrivileges);
    }

    var newKeysByOldKeys := updater.simulate(store.keys, projectOrModule, req.from, req.to);
    var newKeysWithDuplicateMap := updater.checkComponentKeys(store.keys, newKeysByOldKeys.Values);

    if !req.dryRun {
      var check := CheckNoDuplicate(newKeysWithDuplicateMap);
      if check.Failure? {
        return Failure(check.error);
      }
      store.BulkUpdateKey(updater, projectOrModule, req.from, req.to);
    }

    r := Success(BuildResponse(newKeysByOldKeys, newKeysWithDuplicateMap));
  }

  /** handle: parse the parameters, then run doHandle. */
  method Handle(store: ComponentStore, admins: set<Uuid>, updater: KeyUpdater, params: map<string, string>)
    returns (r: Result<seq<KeyEntry>>)
    modifies store
    ensures ToWsRequest(params).Failure? ==>
      r == Failure(ToWsRequest(params).error) && store.keys == old(store.keys)
    ensures ToWsRequest(params).Success? ==>
      var o := Run(old(store.keys), old(store.qualifiers), admins, updater, ToWsRequest(params).value);
      r == o.response && store.keys == o.keys
    ensures store.qualifiers == old(store.qualifiers)
  {
    var request := ToWsRequest(params);
    if request.Failure? {
      return Failure(request.error);
    }
    r := DoHandle(store, admins, updater, request.value);
  }
}
