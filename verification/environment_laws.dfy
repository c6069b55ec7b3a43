/** What the resolution of an environment amounts to, and what it does not depend on. */
module EnvironmentLaws {
  import opened Pods
  import opened Expansion
  import opened ExpansionLaws
  import opened Environment

  // ----- The last assignment wins, over .envFrom, over the services -----

  /** The value that entry `i` assigns, given the entries before it; `None` when it is skipped or fails. */
  function Assigned(start: Env, vars: seq<EnvVar>, services: Env, objects: Objects, i: nat): Option<Bytes>
    requires i < |vars|
  {
    match FromVars(start, vars[..i], services, objects)
    case Err(_) => None
    case Ok(res) =>
      match Resolve(vars[i], res, services, objects)
      case Err(_) => None
      case Ok(value) => value
  }

  predicate Assigns(start: Env, vars: seq<EnvVar>, services: Env, objects: Objects, name: Bytes, i: nat)
    requires i < |vars|
  {
    vars[i].name == name && Assigned(start, vars, services, objects, i).Some?
  }

  /** The last of the first `n` entries that assigns `name`. */
  function LastAssigned(start: Env, vars: seq<EnvVar>, services: Env, objects: Objects,
                        name: Bytes, n: nat): Option<nat>
    requires n <= |vars|
  {
    if n == 0 then None
    else if Assigns(start, vars, services, objects, name, n - 1) then Some(n - 1)
    else LastAssigned(start, vars, services, objects, name, n - 1)
  }

  /** `LastAssigned` is one of the entries that assign `name`, and none of them comes after it. */
  lemma {:induction false} LastAssignedIsLast(start: Env, vars: seq<EnvVar>, services: Env, objects: Objects,
                                              name: Bytes, n: nat, j: nat)
    requires j < n <= |vars|
    ensures var last := LastAssigned(start, vars, services, objects, name, n);
            && (last.Some? ==> last.value < n && Assigns(start, vars, services, objects, name, last.value))
            && (Assigns(start, vars, services, objects, name, j) ==> last.Some? && j <= last.value)
  {
    if !Assigns(start, vars, services, objects, name, n - 1) && n > 1 {
      LastAssignedIsLast(start, vars, services, objects, name, n - 1, if j < n - 1 then j else 0);
    }
  }

  lemma {:induction false} FoldLookup(start: Env, vars: seq<EnvVar>, services: Env, objects: Objects,
                                      name: Bytes, n: nat)
    requires n <= |vars| && FromVars(start, vars[..n], services, objects).Ok?
    ensures var res := FromVars(start, vars[..n], services, objects).value;
            match LastAssigned(start, vars, services, objects, name, n)
            case Some(i) =>
              i < |vars| && name in res && Some(res[name]) == Assigned(start, vars, services, objects, i)
            case None => (name in res <==> name in start) && (name in start ==> res[name] == start[name])
  {
    if n > 0 {
      assert vars[..n][..n - 1] == vars[..n - 1];
      FoldLookup(start, vars, services, objects, name, n - 1);
    }
  }

  /** The value of every name in the final environment: from the last `.env` entry that assigns it, expanded
      against what came before that entry; else from `.envFrom`; else from the services. */
  lemma FinalValue(env: seq<EnvVar>, envFrom: seq<EnvFromSource>, services: Env, objects: Objects, name: Bytes)
    requires FinalEnvironment(env, envFrom, services, objects).Ok?
    ensures FromSources(envFrom, objects).Ok?
    ensures var final := FinalEnvironment(env, envFrom, services, objects).value;
            var start := FromSources(envFrom, objects).value;
            match LastAssigned(start, env, services, objects, name, |env|)
            case Some(i) =>
              i < |env| && name in final && Some(final[name]) == Assigned(start, env, services, objects, i)
            case None =>
              if name in start then name in final && final[name] == start[name]
              else if name in services then name in final && final[name] == services[name]
              else name !in final
  {
    var start := FromSources(envFrom, objects).value;
    assert env[..|env|] == env;
    FoldLookup(start, env, services, objects, name, |env|);
  }

  // ----- What an entry resolves to -----

  /** What a name refers to: the variables of the container first, then the services; else the reference stays. */
  function Referent(x: Bytes, res: Env, services: Env): Bytes {
    if x in res then res[x] else if x in services then services[x] else [0x24, 0x28] + x + [0x29]
  }

  /** A literal value is expanded with every reference replaced by its referent. */
  lemma LiteralIsExpanded(n: Bytes, text: Bytes, res: Env, services: Env, objects: Objects, mapping: Bytes -> Bytes)
    requires forall x :: mapping(x) == Referent(x, res, services)
    ensures Resolve(EnvVar(n, Value(text)), res, services, objects) == Ok(Some(Meaning(text, mapping)))
  {
    var contexts := [res, services];
    forall x: Bytes
      ensures MappingFuncFor(contexts)(x) == mapping(x)
    {
      if x in res {
        FirstMapDecides(contexts, 0, x);
      } else if x in services {
        FirstMapDecides(contexts, 1, x);
      } else {
        UndefinedStays(contexts, x);
      }
    }
    RenderCongruence(Scan(text), MappingFuncFor(contexts), mapping);
  }

  lemma ReferenceResolves(n: Bytes, x: Bytes, res: Env, services: Env, objects: Objects)
    requires CLOSER !in x
    ensures Resolve(EnvVar(n, Value(SyntaxWrap(x))), res, services, objects) == Ok(Some(Referent(x, res, services)))
  {
    var mapping := y => Referent(y, res, services);
    LiteralIsExpanded(n, SyntaxWrap(x), res, services, objects, mapping);
    ReferenceExpands(x, mapping);
  }

  /** A reference in entry `i` takes the value of the last earlier entry that assigns the name, else of `.envFrom`, else
      of the services; else it stays as it is. */
  lemma ReferenceValue(start: Env, vars: seq<EnvVar>, services: Env, objects: Objects, i: nat, x: Bytes)
    requires i < |vars| && CLOSER !in x && vars[i].source == Value(SyntaxWrap(x))
    requires FromVars(start, vars[..i], services, objects).Ok?
    ensures match LastAssigned(start, vars, services, objects, x, i)
            case Some(j) =>
              j < i && Assigned(start, vars, services, objects, i) == Assigned(start, vars, services, objects, j)
            case None => Assigned(start, vars, services, objects, i) == Some(Referent(x, start, services))
  {
    var res := FromVars(start, vars[..i], services, objects).value;
    ReferenceResolves(vars[i].name, x, res, services, objects);
    assert vars[i] == EnvVar(vars[i].name, Value(SyntaxWrap(x)));
    FoldLookup(start, vars, services, objects, x, i);
    if i > 0 {
      LastAssignedIsLast(start, vars, services, objects, x, i, 0);
    }
  }

  /** The value that a key of a config map or secret has, if it can be read. */
  function KeyValue(objects: Objects, kind: Kind, name: Bytes, key: Bytes): Option<Bytes> {
    if (kind, name) in objects && objects[(kind, name)].Found? && key in objects[(kind, name)].data
    then Some(objects[(kind, name)].data[key]) else None
  }

  /** Why a key cannot be read. */
  function ReadError(objects: Objects, kind: Kind, name: Bytes, key: Bytes): Error {
    if (kind, name) !in objects || objects[(kind, name)].Missing? then NotFound(kind, name)
    else if objects[(kind, name)].Broken? then ReadFailed(kind, name)
    else KeyMissing(kind, name, key)
  }

  /** An entry that refers to a key: a readable key is assigned, an unreadable one is passed over if it is optional,
      and otherwise makes the whole list fail, whatever follows. */
  lemma KeyReference(start: Env, a: seq<EnvVar>, v: EnvVar, b: seq<EnvVar>, services: Env, objects: Objects)
    requires v.source.KeyRef? && FromVars(start, a, services, objects).Ok?
    ensures var res := FromVars(start, a, services, objects).value;
            var all := FromVars(start, a + [v] + b, services, objects);
            match KeyValue(objects, v.source.kind, v.source.name, v.source.key)
            case Some(value) => all == FromVars(res[v.name := value], b, services, objects)
            case None =>
              if v.source.optional then all == FromVars(res, b, services, objects)
              else all == Err(ReadError(objects, v.source.kind, v.source.name, v.source.key))
  {
    FoldInTheMiddle(start, a, [v], b, services, objects);
    var res := FromVars(start, a, services, objects).value;
    assert [v][..0] == [] && FromVars(res, [], services, objects) == Ok(res);
    assert FromVars(res, [v], services, objects) == AddVar(res, v, services, objects);
  }

  /** Entries of a kind that is not supported are passed over; a field of the pod is assigned or makes the list fail. */
  lemma OtherReference(start: Env, a: seq<EnvVar>, v: EnvVar, b: seq<EnvVar>, services: Env, objects: Objects)
    requires (v.source.Unsupported? || v.source.FieldRef?) && FromVars(start, a, services, objects).Ok?
    ensures var res := FromVars(start, a, services, objects).value;
            var all := FromVars(start, a + [v] + b, services, objects);
            if v.source.Unsupported? then all == FromVars(res, b, services, objects)
            else if v.source.field.None? then all == Err(FieldError)
            else all == FromVars(res[v.name := v.source.field.value], b, services, objects)
  {
    FoldInTheMiddle(start, a, [v], b, services, objects);
    var res := FromVars(start, a, services, objects).value;
    assert [v][..0] == [] && FromVars(res, [], services, objects) == Ok(res);
    assert FromVars(res, [v], services, objects) == AddVar(res, v, services, objects);
  }

  // ----- .envFrom: the last source that provides a name decides it -----

  /** What one source provides for a name: the value of the key that the prefix turns into the name. */
  function Provided(source: EnvFromSource, objects: Objects, name: Bytes): Option<Bytes> {
    if source.EnvFrom? && source.prefix <= name && IsEnvVarName(name)
    then KeyValue(objects, source.kind, source.name, name[|source.prefix|..]) else None
  }

  lemma ContributionValue(prefix: Bytes, data: Env, name: Bytes)
    ensures name in Contribution(prefix, data, data.Keys) <==>
            prefix <= name && IsEnvVarName(name) && name[|prefix|..] in data
    ensures name in Contribution(prefix, data, data.Keys) ==>
            Contribution(prefix, data, data.Keys)[name] == data[name[|prefix|..]]
  {
    Unprefix(prefix, data.Keys);
    if prefix <= name {
      assert name == prefix + name[|prefix|..];
    }
    if name in Prefixed(prefix, data.Keys) {
      var k :| k in data.Keys && name == prefix + k;
      assert prefix <= name;
    }
  }

  /** The last of the sources that provides `name`. */
  function LastProvided(sources: seq<EnvFromSource>, objects: Objects, name: Bytes): Option<Bytes> {
    if sources == [] then None
    else
      var last := Provided(sources[|sources| - 1], objects, name);
      if last.Some? then last else LastProvided(sources[..|sources| - 1], objects, name)
  }

  /** The variables of `.envFrom` are exactly the names that some source provides, with the value of the last. */
  lemma {:induction false} SourceLookup(sources: seq<EnvFromSource>, objects: Objects, name: Bytes)
    requires FromSources(sources, objects).Ok?
    ensures var res := FromSources(sources, objects).value;
            LastProvided(sources, objects, name) == if name in res then Some(res[name]) else None
    decreases |sources|
  {
    if sources != [] {
      var n := |sources| - 1;
      SourceLookup(sources[..n], objects, name);
      var source := sources[n];
      if source.EnvFrom? && FetchObject(objects, source.kind, source.name).Found? {
        ContributionValue(source.prefix, FetchObject(objects, source.kind, source.name).data, name);
      }
    }
  }

  /** The object that a source names cannot be read, and it is not optional. */
  predicate Unreadable(source: EnvFromSource, objects: Objects) {
    && source.EnvFrom? && !source.optional
    && ((source.kind, source.name) !in objects || !objects[(source.kind, source.name)].Found?)
  }

  /** `.envFrom` fails exactly if a source that is not optional cannot be read. */
  lemma {:induction false} SourcesFailIff(sources: seq<EnvFromSource>, objects: Objects)
    ensures FromSources(sources, objects).Err? <==> exists s <- sources :: Unreadable(s, objects)
    decreases |sources|
  {
    if sources != [] {
      var n := |sources| - 1;
      SourcesFailIff(sources[..n], objects);
      assert sources == sources[..n] + [sources[n]];
      if FromSources(sources, objects).Err? && FromSources(sources[..n], objects).Ok? {
        assert Unreadable(sources[n], objects);
      }
    }
  }

  /** Folding a longer list continues the fold of its beginning, so an entry never sees a later one. */
  lemma {:induction false} FoldContinues(start: Env, a: seq<EnvVar>, b: seq<EnvVar>, services: Env, objects: Objects)
    ensures FromVars(start, a + b, services, objects) ==
            match FromVars(start, a, services, objects)
            case Err(e) => Err(e)
            case Ok(res) => FromVars(res, b, services, objects)
    decreases |b|
  {
    if b == [] {
      assert a + b == a;
    } else {
      var n := |b| - 1;
      assert (a + b)[..|a| + n] == a + b[..n] && (a + b)[|a| + n] == b[n];
      FoldContinues(start, a, b[..n], services, objects);
    }
  }

  // ----- Entries that do not mention each other commute -----

  predicate Mentions(v: EnvVar, name: Bytes) {
    v.source.Value? && Reference(name) in Scan(v.source.text)
  }

  lemma ResolveIgnores(v: EnvVar, res: Env, name: Bytes, value: Bytes, services: Env, objects: Objects)
    requires !Mentions(v, name)
    ensures Resolve(v, res[name := value], services, objects) == Resolve(v, res, services, objects)
  {
    if v.source.Value? {
      var ts := Scan(v.source.text);
      var m1, m2 := MappingFuncFor([res[name := value], services]), MappingFuncFor([res, services]);
      forall i | 0 <= i < |ts| && ts[i].Reference?
        ensures m1(ts[i].name) == m2(ts[i].name)
      {
        assert ts[i] != Reference(name);
        assert [res[name := value], services][1..] == [res, services][1..];
      }
      RenderCongruence(ts, m1, m2);
    }
  }

  function Put(res: Env, name: Bytes, value: Option<Bytes>): Env {
    if value.None? then res else res[name := value.value]
  }

  /** The fold of two entries, the second of which does not mention the first. */
  lemma TwoEntries(start: Env, x: EnvVar, y: EnvVar, services: Env, objects: Objects)
    requires !Mentions(y, x.name)
    ensures FromVars(start, [x, y], services, objects) ==
            match Resolve(x, start, services, objects)
            case Err(e) => Err(e)
            case Ok(vx) =>
              match Resolve(y, start, services, objects)
              case Err(e) => Err(e)
              case Ok(vy) => Ok(Put(Put(start, x.name, vx), y.name, vy))
  {
    assert [x, y][..1] == [x] && [x][..0] == [];
    assert FromVars(start, [], services, objects) == Ok(start);
    assert FromVars(start, [x], services, objects) == AddVar(start, x, services, objects);
    var vx := Resolve(x, start, services, objects);
    if vx.Ok? && vx.value.Some? {
      ResolveIgnores(y, start, x.name, vx.value.value, services, objects);
    }
  }

  /** Two neighbouring entries with different names, neither of which mentions the other, may be exchanged
      anywhere in the list: the result is the same, except that when both fail the first of them is reported. */
  lemma IndependentEntriesCommute(start: Env, a: seq<EnvVar>, x: EnvVar, y: EnvVar, b: seq<EnvVar>,
                                  services: Env, objects: Objects)
    requires x.name != y.name && !Mentions(x, y.name) && !Mentions(y, x.name)
    ensures var before := FromVars(start, a, services, objects);
            var xy := FromVars(start, a + [x, y] + b, services, objects);
            var yx := FromVars(start, a + [y, x] + b, services, objects);
            if && before.Ok?
               && Resolve(x, before.value, services, objects).Err? && Resolve(y, before.value, services, objects).Err?
            then xy == Err(Resolve(x, before.value, services, objects).error) &&
                 yx == Err(Resolve(y, before.value, services, objects).error)
            else xy == yx
  {
    FoldInTheMiddle(start, a, [x, y], b, services, objects);
    FoldInTheMiddle(start, a, [y, x], b, services, objects);
    var before := FromVars(start, a, services, objects);
    if before.Ok? {
      var res := before.value;
      TwoEntries(res, x, y, services, objects);
      TwoEntries(res, y, x, services, objects);
      var vx, vy := Resolve(x, res, services, objects), Resolve(y, res, services, objects);
      if vx.Ok? && vy.Ok? {
        PutsCommute(res, x.name, vx.value, y.name, vy.value);
      }
    }
  }

  lemma FoldInTheMiddle(start: Env, a: seq<EnvVar>, m: seq<EnvVar>, b: seq<EnvVar>, services: Env, objects: Objects)
    ensures FromVars(start, a + m + b, services, objects) ==
            match FromVars(start, a, services, objects)
            case Err(e) => Err(e)
            case Ok(res) =>
              match FromVars(res, m, services, objects)
              case Err(e) => Err(e)
              case Ok(next) => FromVars(next, b, services, objects)
  {
    FoldContinues(start, a + m, b, services, objects);
    FoldContinues(start, a, m, services, objects);
  }

  lemma PutsCommute(res: Env, m: Bytes, x: Option<Bytes>, n: Bytes, y: Option<Bytes>)
    requires m != n
    ensures Put(Put(res, m, x), n, y) == Put(Put(res, n, y), m, x)
  {
  }

  // ----- The order of the listing does not matter -----

  predicate DistinctServices(services: seq<Service>) {
    forall i, j | 0 <= i < j < |services| ::
      services[i].namespace != services[j].namespace || services[i].name != services[j].name
  }

  /** The service that a name stands for, described without reference to order: the namespace's own service
      when links are enabled, else the master service. */
  ghost predicate Chosen(services: seq<Service>, ns: Bytes, links: bool, name: Bytes, s: Service) {
    && s in services && s.name == name && HasAddress(s)
    && (Own(s, ns, links) ||
        (Default(s) && forall t <- services :: t.name == name && HasAddress(t) ==> !Own(t, ns, links)))
  }

  predicate HasAddress(s: Service) {
    s.clusterIP != "" && s.clusterIP != "None"
  }

  predicate Default(s: Service) {
    s.namespace == DEFAULT_NAMESPACE && s.name == MASTER_SERVICE
  }

  /** A service of the pod's own namespace, other than the default namespace's `kubernetes`, with links enabled. */
  predicate Own(s: Service, ns: Bytes, links: bool) {
    links && s.namespace == ns && !Default(s)
  }

  lemma {:induction false} SelectIsChosen(services: seq<Service>, ns: Bytes, links: bool, name: Bytes)
    requires DistinctServices(services)
    ensures name in Select(services, ns, links) ==>
              Chosen(services, ns, links, name, Select(services, ns, links)[name])
    ensures name !in Select(services, ns, links) ==>
              forall s <- services :: s.name == name && HasAddress(s) ==> !Own(s, ns, links) && !Default(s)
    decreases |services|
  {
    if services != [] {
      var n := |services| - 1;
      SelectIsChosen(services[..n], ns, links, name);
      assert services == services[..n] + [services[n]];
    }
  }

  lemma ChosenUnique(services: seq<Service>, ns: Bytes, links: bool, name: Bytes, s: Service, t: Service)
    requires DistinctServices(services)
    requires Chosen(services, ns, links, name, s) && Chosen(services, ns, links, name, t)
    ensures s == t
  {
    var i :| 0 <= i < |services| && services[i] == s;
    var j :| 0 <= j < |services| && services[j] == t;
  }

  lemma {:induction false} OccursOnce(a: seq<Service>, s: Service)
    requires DistinctServices(a)
    ensures multiset(a)[s] <= 1
    decreases |a|
  {
    if a != [] {
      var n := |a| - 1;
      assert a == a[..n] + [a[n]];
      OccursOnce(a[..n], s);
      if s == a[n] {
        assert s !in a[..n];
      }
    }
  }

  lemma PermutationStaysDistinct(a: seq<Service>, b: seq<Service>)
    requires DistinctServices(a) && multiset(a) == multiset(b)
    ensures DistinctServices(b)
  {
    forall i, j | 0 <= i < j < |b|
      ensures b[i].namespace != b[j].namespace || b[i].name != b[j].name
    {
      assert b[i] in multiset(a) && b[j] in multiset(a);
      if b[i] == b[j] {
        assert b == b[..j] + b[j..] && b[i] in b[..j] && b[j] in b[j..];
        OccursOnce(a, b[i]);
      }
    }
  }

  /** For listings with distinct namespaced names, every permutation selects the same services. */
  lemma SelectionOrderIndependent(a: seq<Service>, b: seq<Service>, ns: Bytes, links: bool)
    requires DistinctServices(a) && multiset(a) == multiset(b)
    ensures Select(a, ns, links) == Select(b, ns, links)
  {
    PermutationStaysDistinct(a, b);
    var x, y := Select(a, ns, links), Select(b, ns, links);
    forall s: Service
      ensures s in a <==> s in b
    {
      assert s in multiset(a) <==> s in multiset(b);
    }
    forall name: Bytes
      ensures name in x <==> name in y
      ensures name in x ==> x[name] == y[name]
    {
      SelectIsChosen(a, ns, links, name);
      SelectIsChosen(b, ns, links, name);
      if name in x && name in y {
        ChosenUnique(a, ns, links, name, x[name], y[name]);
      }
    }
  }

  /** With links enabled the pod namespace's own `kubernetes` service is preferred to the default one. */
  lemma OwnMasterWins(services: seq<Service>, ns: Bytes, s: Service)
    requires DistinctServices(services) && s in services
    requires HasAddress(s) && s.name == MASTER_SERVICE && s.namespace == ns
    ensures MASTER_SERVICE in Select(services, ns, true) && Select(services, ns, true)[MASTER_SERVICE] == s
  {
    SelectIsChosen(services, ns, true, MASTER_SERVICE);
    assert Own(s, ns, true) || Default(s);
    assert Chosen(services, ns, true, MASTER_SERVICE, s);
    ChosenUnique(services, ns, true, MASTER_SERVICE, s, Select(services, ns, true)[MASTER_SERVICE]);
  }

  // ----- Whether the order in which the services are visited matters -----

  /** A service defines a name if its list has it, with the value of the last occurrence. */
  lemma {:induction false} OwnVarsLookup(vars: seq<(Bytes, Bytes)>, n: Bytes)
    ensures n in OwnVars(vars) <==> exists i :: 0 <= i < |vars| && vars[i].0 == n
    ensures forall i | 0 <= i < |vars| && vars[i].0 == n && (forall j | i < j < |vars| :: vars[j].0 != n) ::
              n in OwnVars(vars) && OwnVars(vars)[n] == vars[i].1
    decreases |vars|
  {
    if vars != [] {
      var m := |vars| - 1;
      var before := vars[..m];
      OwnVarsLookup(before, n);
      assert forall i | 0 <= i < m :: before[i] == vars[i];
      if n in OwnVars(vars) && vars[m].0 != n {
        var i :| 0 <= i < |before| && before[i].0 == n;
        assert vars[i].0 == n;
      }
    }
  }

  /** The last of the visited services that defines `n`. */
  lemma {:induction false} VisitValue(selected: map<Bytes, Service>, order: seq<Bytes>, n: Bytes)
    requires forall k <- order :: k in selected
    ensures n in Visit(selected, order) <==> exists k <- order :: n in OwnVars(selected[k].vars)
    ensures n in Visit(selected, order) ==>
              exists k <- order ::
                n in OwnVars(selected[k].vars) && OwnVars(selected[k].vars)[n] == Visit(selected, order)[n]
    decreases |order|
  {
    if order != [] {
      var m := |order| - 1;
      assert order == order[..m] + [order[m]];
      VisitValue(selected, order[..m], n);
    }
  }

  lemma {:induction false} OrderOf(keys: set<Bytes>) returns (order: seq<Bytes>)
    ensures IsOrder(order, keys)
    decreases |keys|
  {
    if keys == {} {
      order := [];
    } else {
      var k :| k in keys;
      var rest := OrderOf(keys - {k});
      order := rest + [k];
    }
  }

  /** Some order visits the service `k` last, so that all its values prevail. */
  lemma VisitLast(selected: map<Bytes, Service>, k: Bytes) returns (env: Env)
    requires k in selected
    ensures IsServiceEnv(env, selected)
    ensures forall n <- OwnVars(selected[k].vars) :: n in env && env[n] == OwnVars(selected[k].vars)[n]
  {
    var rest := OrderOf(selected.Keys - {k});
    var order := rest + [k];
    assert order[..|rest|] == rest;
    assert IsOrder(order, selected.Keys);
    env := Visit(selected, order);
  }

  /** No two selected services give a name different final values. */
  ghost predicate ServicesAgree(selected: map<Bytes, Service>) {
    forall j, k, n |
        j in selected && k in selected && n in OwnVars(selected[j].vars) && n in OwnVars(selected[k].vars) ::
      OwnVars(selected[j].vars)[n] == OwnVars(selected[k].vars)[n]
  }

  lemma AgreeingServicesDetermine(selected: map<Bytes, Service>, o1: seq<Bytes>, o2: seq<Bytes>)
    requires ServicesAgree(selected) && IsOrder(o1, selected.Keys) && IsOrder(o2, selected.Keys)
    ensures Visit(selected, o1) == Visit(selected, o2)
  {
    var x, y := Visit(selected, o1), Visit(selected, o2);
    forall n: Bytes
      ensures (n in x <==> n in y) && (n in x && n in y ==> x[n] == y[n])
    {
      VisitValue(selected, o1, n);
      VisitValue(selected, o2, n);
    }
  }

  /** The service variables are independent of the order in which the map of selected services is visited if and only
      if the services agree on the final values of the names that they share. */
  lemma ServiceEnvDeterminedIffAgree(selected: map<Bytes, Service>)
    ensures (forall x, y | IsServiceEnv(x, selected) && IsServiceEnv(y, selected) :: x == y) <==>
            ServicesAgree(selected)
  {
    if ServicesAgree(selected) {
      forall x, y | IsServiceEnv(x, selected) && IsServiceEnv(y, selected)
        ensures x == y
      {
        var o1 :| IsOrder(o1, selected.Keys) && x == Visit(selected, o1);
        var o2 :| IsOrder(o2, selected.Keys) && y == Visit(selected, o2);
        AgreeingServicesDetermine(selected, o1, o2);
      }
    } else {
      var j, k, n :| j in selected && k in selected &&
                     n in OwnVars(selected[j].vars) && n in OwnVars(selected[k].vars) &&
                     OwnVars(selected[j].vars)[n] != OwnVars(selected[k].vars)[n];
      var x := VisitLast(selected, j);
      var y := VisitLast(selected, k);
      assert x[n] != y[n];
    }
  }
}
