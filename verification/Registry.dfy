/** The in-memory workflow provider. */
module Registry {
  import opened Common
  import opened Models
  import opened Workflow

  /** What a version's text sorts by: the place of its numbers, or of the text as a word. The two kinds do
      not compare. */
  datatype VersionKey = Numbers(place: nat) | Word(place: nat) {
    predicate Compares(other: VersionKey) {
      Numbers? == other.Numbers?
    }
  }

  /** Definitions by workflow and version. */
  type Definitions = map<Id, map<Id, Definition>>

  /** Definitions are filed under their own names. */
  ghost predicate Filed(definitions: Definitions) {
    forall w, v | w in definitions && v in definitions[w] ::
      definitions[w][v].workflowId == w && definitions[w][v].version == v && definitions[w][v].Valid()
  }

  /** Every name of the cache has a definition. */
  ghost predicate Defined<C>(cache: map<(Id, Id), C>, definitions: Definitions) {
    forall k | k in cache :: k.0 in definitions && k.1 in definitions[k.0]
  }

  lemma DefinedName<C>(cache: map<(Id, Id), C>, definitions: Definitions, key: (Id, Id))
    requires Defined(cache, definitions) && key in cache
    ensures key.0 in definitions && key.1 in definitions[key.0]
  {
  }

  lemma DefinedOne<C>(cache: map<(Id, Id), C>, definitions: Definitions, key: (Id, Id), compiled: C)
    requires Defined(cache, definitions) && key.0 in definitions && key.1 in definitions[key.0]
    ensures Defined(cache[key := compiled], definitions)
  {
  }

  lemma FiledNames(definitions: Definitions, workflowId: Id, version: Id)
    requires Filed(definitions) && workflowId in definitions && version in definitions[workflowId]
    ensures var d := definitions[workflowId][version]; d.workflowId == workflowId && d.version == version && d.Valid()
  {
  }

  /** A version that no other exceeds. */
  ghost predicate IsLatest(key: Id -> VersionKey, versions: map<Id, Definition>, v: Id) {
    v in versions && forall u | u in versions :: key(u).Compares(key(v)) && key(u).place <= key(v).place
  }

  /** There is a definition of that version, or of any if none is given. */
  predicate KnownVersion(definitions: Definitions, workflowId: Id, version: Option<Id>) {
    && workflowId in definitions && definitions[workflowId] != map[]
    && (version.Some? ==> version.value in definitions[workflowId])
  }

  ghost predicate AllCompare(key: Id -> VersionKey, versions: map<Id, Definition>) {
    forall u, v | u in versions && v in versions :: key(u).Compares(key(v))
  }

  class WorkflowProvider {
    const key: Id -> VersionKey
    var definitions: Definitions

    constructor (key: Id -> VersionKey)
      ensures this.key == key && definitions == map[]
    {
      this.key, definitions := key, map[];
    }

    method Register(d: Definition)
      requires Filed(definitions) && d.Valid()
      modifies this
      ensures Filed(definitions)
      ensures definitions == old(definitions)[d.workflowId :=
        (if d.workflowId in old(definitions) then old(definitions)[d.workflowId] else map[])[d.version := d]]
    {
      var versions := if d.workflowId in definitions then definitions[d.workflowId] else map[];
      definitions := definitions[d.workflowId := versions[d.version := d]];
    }

    /** The version asked for, or the latest one; which is the latest cannot be told exactly when two
        versions do not compare. */
    method GetDefinition(workflowId: Id, version: Option<Id>) returns (r: Result<Option<Definition>, Error>)
      ensures r.Ok? && r.value.Some? ==>
        workflowId in definitions
        && exists v :: v in definitions[workflowId] && r.value.value == definitions[workflowId][v]
      ensures workflowId !in definitions || definitions[workflowId] == map[] ==> r == Ok(None)
      ensures workflowId in definitions && version.Some? ==>
        r == Ok(if version.value in definitions[workflowId] then Some(definitions[workflowId][version.value]) else None)
      ensures workflowId in definitions && definitions[workflowId] != map[] && version.None? ==>
        if AllCompare(key, definitions[workflowId]) then
          exists v :: IsLatest(key, definitions[workflowId], v) && r == Ok(Some(definitions[workflowId][v]))
        else r == Err(TypeError)
    {
      if workflowId !in definitions || definitions[workflowId] == map[] {
        return Ok(None);
      }
      var versions := definitions[workflowId];
      if version.Some? {
        return Ok(if version.value in versions then Some(versions[version.value]) else None);
      }
      var latest :| latest in versions.Keys;
      var todo := versions.Keys - {latest};
      while todo != {}
        invariant latest in versions && todo <= versions.Keys
        invariant forall u :: u in versions && u !in todo ==>
          key(u).Compares(key(latest)) && key(u).place <= key(latest).place
        decreases todo
      {
        var v :| v in todo;
        if !key(v).Compares(key(latest)) {
          return Err(TypeError);
        }
        if key(v).place > key(latest).place {
          latest := v;
        }
        todo := todo - {v};
      }
      assert IsLatest(key, versions, latest);
      return Ok(Some(versions[latest]));
    }
  }
}
