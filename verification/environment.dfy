/** Resolution of a container's environment from `.envFrom`, `.env` and the services of the pod's namespace. */
module Environment {
  import opened Pods
  import opened Expansion

  type Env = map<Bytes, Bytes>

  datatype Kind = ConfigMap | Secret

  /** What reading a config map or a secret yields. */
  datatype Fetch = Found(data: Env) | Missing | Broken

  datatype Error =
    | NotFound(kind: Kind, name: Bytes)
    | ReadFailed(kind: Kind, name: Bytes)
    | KeyMissing(kind: Kind, name: Bytes, key: Bytes)
    | FieldError
    | ServicesUnavailable

  datatype Result<+T> = Ok(value: T) | Err(error: Error)

  /** An entry of `.envFrom`; one without a reference contributes nothing. */
  datatype EnvFromSource = EnvFrom(kind: Kind, name: Bytes, optional: bool, prefix: Bytes) | NoReference

  /** The ways to give a variable its value; the value of a field of the pod comes from elsewhere. */
  datatype ValueSource =
    | Value(text: Bytes)
    | KeyRef(kind: Kind, name: Bytes, key: Bytes, optional: bool)
    | FieldRef(field: Option<Bytes>)
    | Unsupported

  datatype EnvVar = EnvVar(name: Bytes, source: ValueSource)

  type Objects = map<(Kind, Bytes), Fetch>

  function FetchObject(objects: Objects, kind: Kind, name: Bytes): Fetch {
    if (kind, name) in objects then objects[(kind, name)] else Missing
  }

  function FetchError(f: Fetch, kind: Kind, name: Bytes): Error
    requires !f.Found?
  {
    if f.Missing? then NotFound(kind, name) else ReadFailed(kind, name)
  }

  // ----- .envFrom -----

  const DOT: Byte := 0x2E

  predicate NameStart(b: Byte) {
    b == 0x2D || b == DOT || b == 0x5F || 0x41 <= b <= 0x5A || 0x61 <= b <= 0x7A
  }

  /** IsEnvVarName: a C identifier that may also contain dashes and dots, but is no path prefix. */
  predicate IsEnvVarName(s: Bytes) {
    && s != [] && NameStart(s[0])
    && (forall i | 0 <= i < |s| :: NameStart(s[i]) || 0x30 <= s[i] <= 0x39)
    && s != [DOT] && !([DOT, DOT] <= s)
  }

  function Prefixed(prefix: Bytes, keys: set<Bytes>): set<Bytes> {
    set k | k in keys :: prefix + k
  }

  /** What the keys `keys` of one object contribute: every valid prefixed name with its value. */
  function Contribution(prefix: Bytes, data: Env, keys: set<Bytes>): Env
    requires keys <= data.Keys
  {
    Unprefix(prefix, keys);
    map name | name in Prefixed(prefix, keys) && IsEnvVarName(name) :: data[name[|prefix|..]]
  }

  /** Prefixed keys stay distinct. */
  lemma Unprefix(prefix: Bytes, keys: set<Bytes>)
    ensures forall name | name in Prefixed(prefix, keys) :: |name| >= |prefix| && name[|prefix|..] in keys
  {
    forall name | name in Prefixed(prefix, keys)
      ensures |name| >= |prefix| && name[|prefix|..] in keys
    {
      var k :| k in keys && name == prefix + k;
      assert name[|prefix|..] == k;
    }
  }

  lemma ContributionGrows(prefix: Bytes, data: Env, start: Env, keys: set<Bytes>, key: Bytes)
    requires keys <= data.Keys && key in data
    ensures start + Contribution(prefix, data, keys + {key}) ==
            if IsEnvVarName(prefix + key) then (start + Contribution(prefix, data, keys))[prefix + key := data[key]]
            else start + Contribution(prefix, data, keys)
  {
    assert (prefix + key)[|prefix|..] == key;
    assert Prefixed(prefix, keys + {key}) == Prefixed(prefix, keys) + {prefix + key};
  }

  /** The loop over the entries of one object, in whatever order the map yields them. */
  method AddEntries(prefix: Bytes, data: Env, start: Env) returns (res: Env)
    ensures res == start + Contribution(prefix, data, data.Keys)
  {
    res := start;
    var left := data.Keys;
    ghost var done: set<Bytes> := {};
    assert start == start + Contribution(prefix, data, done);
    while left != {}
      invariant left + done == data.Keys
      invariant res == start + Contribution(prefix, data, done)
    {
      var key :| key in left;
      ContributionGrows(prefix, data, start, done, key);
      if IsEnvVarName(prefix + key) {
        res := res[prefix + key := data[key]];
      }
      left := left - {key};
      done := done + {key};
    }
    assert done == data.Keys;
  }

  /** One `.envFrom` entry: later entries win, an unreadable optional object is passed over. */
  function AddSource(res: Env, source: EnvFromSource, objects: Objects): Result<Env> {
    match source
    case NoReference => Ok(res)
    case EnvFrom(kind, name, optional, prefix) =>
      match FetchObject(objects, kind, name)
      case Found(data) => Ok(res + Contribution(prefix, data, data.Keys))
      case f => if optional then Ok(res) else Err(FetchError(f, kind, name))
  }

  function FromSources(sources: seq<EnvFromSource>, objects: Objects): Result<Env> {
    if sources == [] then Ok(map[])
    else
      match FromSources(sources[..|sources| - 1], objects)
      case Err(e) => Err(e)
      case Ok(res) => AddSource(res, sources[|sources| - 1], objects)
  }

  lemma {:induction false} SourceErrorIsFinal(sources: seq<EnvFromSource>, i: nat, objects: Objects)
    requires i <= |sources| && FromSources(sources[..i], objects).Err?
    ensures FromSources(sources, objects) == FromSources(sources[..i], objects)
    decreases |sources|
  {
    if i == |sources| {
      assert sources[..i] == sources;
    } else {
      assert sources[..|sources| - 1][..i] == sources[..i];
      SourceErrorIsFinal(sources[..|sources| - 1], i, objects);
    }
  }

  method MakeEnvironmentMapBasedOnEnvFrom(sources: seq<EnvFromSource>, objects: Objects) returns (r: Result<Env>)
    ensures r == FromSources(sources, objects)
  {
    var res: Env := map[];
    for i := 0 to |sources|
      invariant FromSources(sources[..i], objects) == Ok(res)
    {
      assert sources[..i + 1][..i] == sources[..i];
      if sources[i].EnvFrom? {
        var source := sources[i];
        var fetched := FetchObject(objects, source.kind, source.name);
        if fetched.Found? {
          res := AddEntries(source.prefix, fetched.data, res);
        } else if !source.optional {
          SourceErrorIsFinal(sources, i + 1, objects);
          return Err(FetchError(fetched, source.kind, source.name));
        }
      }
    }
    assert sources[..|sources|] == sources;
    return Ok(res);
  }

  // ----- Services -----

  datatype Service = Service(namespace: Bytes, name: Bytes, clusterIP: string, vars: seq<(Bytes, Bytes)>)

  predicate IsServiceIPSet(s: Service) {
    s.clusterIP != "" && s.clusterIP != "None"
  }

  /** "default" and "kubernetes". */
  const DEFAULT_NAMESPACE: Bytes := [0x64, 0x65, 0x66, 0x61, 0x75, 0x6C, 0x74]
  const MASTER_SERVICE: Bytes := [0x6B, 0x75, 0x62, 0x65, 0x72, 0x6E, 0x65, 0x74, 0x65, 0x73]

  predicate IsMaster(s: Service) {
    IsServiceIPSet(s) && s.namespace == DEFAULT_NAMESPACE && s.name == MASTER_SERVICE
  }

  /** A service of the pod's own namespace that counts when service links are enabled. */
  predicate IsLinked(s: Service, ns: Bytes, links: bool) {
    IsServiceIPSet(s) && !IsMaster(s) && s.namespace == ns && links
  }

  function AddService(m: map<Bytes, Service>, s: Service, ns: Bytes, links: bool): map<Bytes, Service> {
    if IsMaster(s) then (if s.name in m then m else m[s.name := s])
    else if IsLinked(s, ns, links) then m[s.name := s]
    else m
  }

  function Select(services: seq<Service>, ns: Bytes, links: bool): map<Bytes, Service> {
    if services == [] then map[]
    else AddService(Select(services[..|services| - 1], ns, links), services[|services| - 1], ns, links)
  }

  method SelectServices(services: seq<Service>, ns: Bytes, links: bool) returns (m: map<Bytes, Service>)
    ensures m == Select(services, ns, links)
  {
    m := map[];
    for i := 0 to |services|
      invariant m == Select(services[..i], ns, links)
    {
      assert services[..i + 1][..i] == services[..i];
      var s := services[i];
      if !IsServiceIPSet(s) {
        continue;
      }
      if s.namespace == DEFAULT_NAMESPACE && s.name == MASTER_SERVICE {
        if s.name !in m {
          m := m[s.name := s];
        }
      } else if s.namespace == ns && links {
        m := m[s.name := s];
      }
    }
    assert services[..|services|] == services;
  }

  /** The variables of one service; a later one wins. */
  function OwnVars(vars: seq<(Bytes, Bytes)>): Env {
    if vars == [] then map[] else OwnVars(vars[..|vars| - 1])[vars[|vars| - 1].0 := vars[|vars| - 1].1]
  }

  /** The variables of the selected services, visited in the given order; a later service wins. */
  function Visit(selected: map<Bytes, Service>, order: seq<Bytes>): Env
    requires forall k <- order :: k in selected
  {
    if order == [] then map[]
    else Visit(selected, order[..|order| - 1]) + OwnVars(selected[order[|order| - 1]].vars)
  }

  /** An order in which a map with these keys may be visited. */
  ghost predicate IsOrder(order: seq<Bytes>, keys: set<Bytes>) {
    && (forall i, j | 0 <= i < j < |order| :: order[i] != order[j])
    && (forall k :: k in order <==> k in keys)
  }

  /** What visiting the selected services in some order yields. */
  ghost predicate IsServiceEnv(env: Env, selected: map<Bytes, Service>) {
    exists order :: IsOrder(order, selected.Keys) && env == Visit(selected, order)
  }

  /** The loop over the variables of one service. */
  method AddVars(start: Env, vars: seq<(Bytes, Bytes)>) returns (env: Env)
    ensures env == start + OwnVars(vars)
  {
    env := start;
    for i := 0 to |vars|
      invariant env == start + OwnVars(vars[..i])
    {
      assert vars[..i + 1][..i] == vars[..i];
      env := env[vars[i].0 := vars[i].1];
    }
    assert vars[..|vars|] == vars;
  }

  method ServiceVars(selected: map<Bytes, Service>) returns (env: Env)
    ensures IsServiceEnv(env, selected)
  {
    env := map[];
    var left := selected.Keys;
    ghost var order: seq<Bytes> := [];
    while left != {}
      invariant left <= selected.Keys && IsOrder(order, selected.Keys - left)
      invariant env == Visit(selected, order)
    {
      var k :| k in left;
      env := AddVars(env, selected[k].vars);
      ghost var order' := order + [k];
      assert order'[..|order|] == order;
      order := order';
      left := left - {k};
    }
    assert IsOrder(order, selected.Keys);
  }

  method GetServiceEnvVarMap(services: seq<Service>, ns: Bytes, links: bool) returns (env: Env)
    ensures IsServiceEnv(env, Select(services, ns, links))
  {
    var selected := SelectServices(services, ns, links);
    env := ServiceVars(selected);
  }

  // ----- .env -----

  /** getEnvironmentVariableValue: `None` for an entry that is skipped. */
  function Resolve(v: EnvVar, res: Env, services: Env, objects: Objects): Result<Option<Bytes>> {
    match v.source
    case Value(text) => Ok(Some(Meaning(text, MappingFuncFor([res, services]))))
    case FieldRef(field) => if field.Some? then Ok(field) else Err(FieldError)
    case Unsupported => Ok(None)
    case KeyRef(kind, name, key, optional) =>
      match FetchObject(objects, kind, name)
      case Found(data) =>
        if key in data then Ok(Some(data[key]))
        else if optional then Ok(None) else Err(KeyMissing(kind, name, key))
      case f => if optional then Ok(None) else Err(FetchError(f, kind, name))
  }

  function AddVar(res: Env, v: EnvVar, services: Env, objects: Objects): Result<Env> {
    match Resolve(v, res, services, objects)
    case Err(e) => Err(e)
    case Ok(None) => Ok(res)
    case Ok(Some(value)) => Ok(res[v.name := value])
  }

  /** The left-to-right fold: each entry sees `.envFrom` and the entries before it. */
  function FromVars(start: Env, vars: seq<EnvVar>, services: Env, objects: Objects): Result<Env> {
    if vars == [] then Ok(start)
    else
      match FromVars(start, vars[..|vars| - 1], services, objects)
      case Err(e) => Err(e)
      case Ok(res) => AddVar(res, vars[|vars| - 1], services, objects)
  }

  lemma {:induction false} VarErrorIsFinal(start: Env, vars: seq<EnvVar>, i: nat, services: Env, objects: Objects)
    requires i <= |vars| && FromVars(start, vars[..i], services, objects).Err?
    ensures FromVars(start, vars, services, objects) == FromVars(start, vars[..i], services, objects)
    decreases |vars|
  {
    if i == |vars| {
      assert vars[..i] == vars;
    } else {
      assert vars[..|vars| - 1][..i] == vars[..i];
      VarErrorIsFinal(start, vars[..|vars| - 1], i, services, objects);
    }
  }

  method GetEnvironmentVariableValue(v: EnvVar, res: Env, services: Env, objects: Objects)
    returns (r: Result<Option<Bytes>>)
    ensures r == Resolve(v, res, services, objects)
  {
    match v.source {
      case Value(text) =>
        var expanded := Expand(text, MappingFuncFor([res, services]));
        return Ok(Some(expanded));
      case FieldRef(field) =>
        return if field.Some? then Ok(field) else Err(FieldError);
      case Unsupported =>
        return Ok(None);
      case KeyRef(kind, name, key, optional) =>
        var fetched := FetchObject(objects, kind, name);
        if !fetched.Found? {
          return if optional then Ok(None) else Err(FetchError(fetched, kind, name));
        }
        if key !in fetched.data {
          return if optional then Ok(None) else Err(KeyMissing(kind, name, key));
        }
        return Ok(Some(fetched.data[key]));
    }
  }

  method MakeEnvironmentMap(start: Env, vars: seq<EnvVar>, services: Env, objects: Objects) returns (r: Result<Env>)
    ensures r == match FromVars(start, vars, services, objects)
                 case Err(e) => Err(e)
                 case Ok(res) => Ok(services + res)
  {
    var res := start;
    for i := 0 to |vars|
      invariant FromVars(start, vars[..i], services, objects) == Ok(res)
    {
      assert vars[..i + 1][..i] == vars[..i];
      var value := GetEnvironmentVariableValue(vars[i], res, services, objects);
      if value.Err? {
        VarErrorIsFinal(start, vars, i + 1, services, objects);
        return Err(value.error);
      }
      if value.value.Some? {
        res := res[vars[i].name := value.value.value];
      }
    }
    assert vars[..|vars|] == vars;
    res := AddMissing(res, services);
    return Ok(res);
  }

  /** The service variables fill the gaps, whatever the order of the map. */
  method AddMissing(start: Env, services: Env) returns (res: Env)
    ensures res == services + start
  {
    res := start;
    var left := services.Keys;
    while left != {}
      invariant left <= services.Keys
      invariant res.Keys == start.Keys + (services.Keys - left)
      invariant forall n <- res :: res[n] == if n in start then start[n] else services[n]
    {
      var n :| n in left;
      if n !in res {
        res := res[n := services[n]];
      }
      left := left - {n};
    }
  }

  // ----- The container -----

  class Container {
    var env: seq<EnvVar>
    var envFrom: seq<EnvFromSource>
  }

  predicate UniqueNames(vars: seq<EnvVar>) {
    forall i, j | 0 <= i < j < |vars| :: vars[i].name != vars[j].name
  }

  /** The list names every variable of the map once, with its final value. */
  ghost predicate Lists(vars: seq<EnvVar>, env: Env) {
    && UniqueNames(vars)
    && (forall i | 0 <= i < |vars| :: vars[i].name in env && vars[i].source == Value(env[vars[i].name]))
    && (forall n <- env :: exists i :: 0 <= i < |vars| && vars[i].name == n)
  }

  method ListOf(env: Env) returns (vars: seq<EnvVar>)
    ensures Lists(vars, env)
  {
    vars := [];
    var left := env.Keys;
    while left != {}
      invariant left <= env.Keys
      invariant UniqueNames(vars)
      invariant forall i | 0 <= i < |vars| ::
                  vars[i].name in env && vars[i].name !in left && vars[i].source == Value(env[vars[i].name])
      invariant forall n | n in env && n !in left :: exists i :: 0 <= i < |vars| && vars[i].name == n
    {
      var name :| name in left;
      ghost var before := vars;
      vars := vars + [EnvVar(name, Value(env[name]))];
      left := left - {name};
      forall n | n in env && n !in left
        ensures exists i :: 0 <= i < |vars| && vars[i].name == n
      {
        if n == name {
          assert vars[|vars| - 1].name == n;
        } else {
          var i :| 0 <= i < |before| && before[i].name == n;
          assert vars[i].name == n;
        }
      }
    }
  }

  /** The environment that a container's entries stand for. */
  function FinalEnvironment(env: seq<EnvVar>, envFrom: seq<EnvFromSource>, services: Env,
                            objects: Objects): Result<Env> {
    match FromSources(envFrom, objects)
    case Err(e) => Err(e)
    case Ok(start) =>
      match FromVars(start, env, services, objects)
      case Err(e) => Err(e)
      case Ok(res) => Ok(services + res)
  }

  /** `services` is `None` when the services cannot be listed; `seen` are the service variables used. */
  method PopulateContainerEnvironment(c: Container, services: Option<seq<Service>>, ns: Bytes, links: bool,
                                      objects: Objects)
    returns (error: Option<Error>, seen: Env)
    modifies c
    ensures services.Some? && FromSources(old(c.envFrom), objects).Ok? ==>
              IsServiceEnv(seen, Select(services.value, ns, links))
    ensures error.Some? ==> c.env == old(c.env) && c.envFrom == old(c.envFrom)
    ensures error.None? ==>
              && services.Some? && c.envFrom == []
              && FinalEnvironment(old(c.env), old(c.envFrom), seen, objects).Ok?
              && Lists(c.env, FinalEnvironment(old(c.env), old(c.envFrom), seen, objects).value)
    ensures error.Some? && services.Some? ==>
              FinalEnvironment(old(c.env), old(c.envFrom), seen, objects) == Err(error.value)
    ensures services.None? ==>
              match FromSources(old(c.envFrom), objects)
              case Err(e) => error == Some(e)
              case Ok(_) => error == Some(ServicesUnavailable)
  {
    seen := map[];
    var start := MakeEnvironmentMapBasedOnEnvFrom(c.envFrom, objects);
    if start.Err? {
      return Some(start.error), seen;
    }
    if services.None? {
      return Some(ServicesUnavailable), seen;
    }
    seen := GetServiceEnvVarMap(services.value, ns, links);
    var final := MakeEnvironmentMap(start.value, c.env, seen, objects);
    if final.Err? {
      return Some(final.error), seen;
    }
    c.envFrom := [];
    c.env := ListOf(final.value);
    return None, seen;
  }
}
