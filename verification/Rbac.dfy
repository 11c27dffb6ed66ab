/** finance_config/compiler.py (_validate_and_compile_rbac) and finance_services/rbac_authority.py:
    role inheritance checked for cycles and depth, flattened into a permission map, and consulted. */
module Rbac {
  import opened Common
  import opened Graphs

  datatype Role = Role(name: string, permissions: set<string>, inherits: seq<string>)

  datatype RbacError =
    | InheritanceCycle(role: string)
    | TooDeep(role: string, parent: string)
    | NotInTaxonomy(permission: string)
    | Orphan(permission: string)

  type RoleMap = map<string, Role>

  /** Roles by name; a later definition of the same name wins. */
  function RolesByName(roles: seq<Role>): (m: RoleMap)
    ensures forall n :: n in m <==> exists i :: 0 <= i < |roles| && roles[i].name == n
  {
    if roles == [] then map[]
    else RolesByName(roles[..|roles| - 1])[roles[|roles| - 1].name := roles[|roles| - 1]]
  }

  function Inheritance(m: RoleMap): Graph<string> {
    set n, p | n in m.Keys && p in m[n].inherits :: (n, p)
  }

  predicate HasCycle(errors: seq<RbacError>) { exists e :: e in errors && e.InheritanceCycle? }

  predicate HasDeep(errors: seq<RbacError>) { exists e :: e in errors && e.TooDeep? }

  /** A walk that repeats no role and stays off the given path. */
  ghost predicate Fresh(w: seq<string>, path: seq<string>) {
    && (forall i, j :: 0 <= i < j < |w| ==> w[i] != w[j])
    && (forall i :: 0 <= i < |w| ==> w[i] !in path)
  }

  ghost predicate WalksFresh(m: RoleMap, name: string, path: seq<string>) {
    forall w :: IsPath(Inheritance(m), w) && w[0] == name ==> Fresh(w, path)
  }

  /** A line of inheritance through defined roles. */
  ghost predicate Chain(m: RoleMap, w: seq<string>, name: string) {
    IsPath(Inheritance(m), w) && w[0] == name && forall i :: 0 <= i < |w| ==> w[i] in m
  }

  /** depth is the number of roles on the longest line of inheritance from name. */
  ghost predicate LongestChain(m: RoleMap, name: string, depth: nat) {
    && (forall w :: Chain(m, w, name) ==> |w| <= depth)
    && (depth > 0 ==> exists w :: Chain(m, w, name) && |w| == depth)
  }

  ghost predicate SomeChainExceeds(m: RoleMap, limit: int) {
    exists w :: w != [] && Chain(m, w, w[0]) && |w| > limit
  }

  ghost predicate SomeInherits(m: RoleMap) { exists n :: n in m && m[n].inherits != [] }

  /** When a depth limit is exceeded: below one, by any inheritance at all. */
  ghost predicate Exceeds(m: RoleMap, limit: int) {
    if limit >= 1 then SomeChainExceeds(m, limit) else SomeInherits(m)
  }

  lemma LeafWalks(m: RoleMap, name: string, path: seq<string>)
    requires name !in path && (name !in m || m[name].inherits == [])
    ensures WalksFresh(m, name, path)
    ensures LongestChain(m, name, if name in m then 1 else 0)
  {
    var g := Inheritance(m);
    assert forall w | IsPath(g, w) && |w| > 1 :: (w[0], w[1]) in g;
    assert forall w | IsPath(g, w) && w[0] == name :: |w| == 1;
    if name in m {
      assert Chain(m, [name], name);
    }
  }

  lemma WalksThroughParents(m: RoleMap, name: string, path: seq<string>)
    requires name in m && name !in path
    requires forall p :: p in m[name].inherits ==> WalksFresh(m, p, path + [name])
    ensures WalksFresh(m, name, path)
  {
    forall w | IsPath(Inheritance(m), w) && w[0] == name ensures Fresh(w, path) {
      if |w| > 1 {
        assert (w[0], w[1]) in Inheritance(m);
        var rest := w[1..];
        assert IsPath(Inheritance(m), rest) && rest[0] == w[1];
        assert forall i :: 1 <= i < |w| ==> w[i] == rest[i - 1] && w[i] !in path && w[i] != name by {
          assert name in path + [name];
        }
      }
    }
  }

  lemma ChainThroughParents(m: RoleMap, name: string, depths: seq<nat>, longest: nat)
    requires name in m && m[name].inherits != [] && |depths| == |m[name].inherits|
    requires forall i :: 0 <= i < |depths| ==> LongestChain(m, m[name].inherits[i], depths[i])
    requires forall i :: 0 <= i < |depths| ==> depths[i] + 1 <= longest
    requires exists i :: 0 <= i < |depths| && longest == depths[i] + 1
    ensures LongestChain(m, name, longest)
  {
    hide Chain;
    var parents := m[name].inherits;
    forall w | Chain(m, w, name) ensures |w| <= longest {
      ChainTail(m, w, name);
      if |w| > 1 {
        var i :| 0 <= i < |parents| && parents[i] == w[1];
        assert Chain(m, w[1..], parents[i]);
      }
    }
    var i :| 0 <= i < |depths| && longest == depths[i] + 1;
    if depths[i] == 0 {
      ChainStart(m, name);
    } else {
      var w :| Chain(m, w, parents[i]) && |w| == depths[i];
      ChainGrows(m, name, parents[i], w);
    }
  }

  lemma ChainTail(m: RoleMap, w: seq<string>, name: string)
    requires Chain(m, w, name)
    ensures |w| > 1 ==> name in m && w[1] in m[name].inherits && Chain(m, w[1..], w[1])
  {
    if |w| > 1 {
      assert (w[0], w[1]) in Inheritance(m);
    }
  }

  lemma ChainStart(m: RoleMap, name: string)
    requires name in m
    ensures Chain(m, [name], name)
  {
  }

  lemma ChainGrows(m: RoleMap, name: string, parent: string, w: seq<string>)
    requires name in m && parent in m[name].inherits && Chain(m, w, parent)
    ensures Chain(m, [name] + w, name)
  {
    assert (name, parent) in Inheritance(m);
  }

  lemma ErrorsAppend(a: seq<RbacError>, b: seq<RbacError>)
    ensures HasCycle(a + b) <==> HasCycle(a) || HasCycle(b)
    ensures HasDeep(a + b) <==> HasDeep(a) || HasDeep(b)
  {
    assert forall e :: e in a + b <==> e in a || e in b;
  }

  lemma PathRevisited(m: RoleMap, name: string, path: seq<string>)
    requires IsPath(Inheritance(m), path + [name]) && name in path
    ensures Cyclic(Inheritance(m))
  {
    var i :| 0 <= i < |path| && path[i] == name;
    var cycle := (path + [name])[i..];
    assert IsPath(Inheritance(m), cycle) && cycle[0] == cycle[|cycle| - 1];
  }

  lemma PathExtends(m: RoleMap, name: string, path: seq<string>, i: nat)
    requires IsPath(Inheritance(m), path + [name]) && name in m && i < |m[name].inherits|
    ensures IsPath(Inheritance(m), path + [name] + [m[name].inherits[i]])
  {
    assert (name, m[name].inherits[i]) in Inheritance(m);
  }

  lemma DeepChain(m: RoleMap, name: string, i: nat, d: nat, limit: int)
    requires name in m && i < |m[name].inherits| && LongestChain(m, m[name].inherits[i], d)
    requires d + 1 > limit >= 1
    ensures SomeChainExceeds(m, limit)
  {
    var parent := m[name].inherits[i];
    var w :| Chain(m, w, parent) && |w| == d;
    ChainGrows(m, name, parent, w);
    assert |[name] + w| > limit;
  }

  lemma PathShrinksRest(m: RoleMap, name: string, path: seq<string>)
    requires name in m && name !in path
    ensures (m.Keys - set p | p in path + [name]) < (m.Keys - set p | p in path)
  {
    assert name in path + [name];
    assert name in m.Keys - set p | p in path;
  }

  /** The recursion of _resolve_depth. path holds the roles being resolved, so it terminates. */
  method ResolveDepth(m: RoleMap, limit: int, name: string, path: seq<string>)
      returns (depth: nat, errors: seq<RbacError>)
    requires IsPath(Inheritance(m), path + [name])
    ensures HasCycle(errors) ==> Cyclic(Inheritance(m))
    ensures !HasCycle(errors) ==> WalksFresh(m, name, path) && LongestChain(m, name, depth)
    ensures !HasCycle(errors) && !HasDeep(errors) ==> depth <= Max(limit, 1)
    ensures !HasCycle(errors) && HasDeep(errors) && limit >= 1 ==> SomeChainExceeds(m, limit)
    ensures HasDeep(errors) ==> SomeInherits(m)
    ensures limit < 1 && name in m && name !in path && m[name].inherits != [] ==> HasDeep(errors)
    ensures forall e :: e in errors ==> e.InheritanceCycle? || e.TooDeep?
    decreases m.Keys - set p | p in path
  {
    hide WalksFresh, LongestChain, SomeChainExceeds, Cyclic, Inheritance, IsPath;
    errors := [];
    if name in path {
      PathRevisited(m, name, path);
      errors := [InheritanceCycle(name)];
      assert errors[0].InheritanceCycle?;
      return 0, errors;
    }
    if name !in m || m[name].inherits == [] {
      LeafWalks(m, name, path);
      return if name in m then 1 else 0, [];
    }
    depth := 0;
    ghost var depths: seq<nat>, deepest: nat := [], 0;
    var parents := m[name].inherits;
    PathShrinksRest(m, name, path);
    for i := 0 to |parents|
      invariant |depths| == i
      invariant HasCycle(errors) ==> Cyclic(Inheritance(m))
      invariant !HasCycle(errors) ==> forall j :: 0 <= j < i ==>
                  WalksFresh(m, parents[j], path + [name]) && LongestChain(m, parents[j], depths[j])
      invariant forall j :: 0 <= j < i ==> depths[j] + 1 <= depth
      invariant if i == 0 then depth == 0 else deepest < i && depth == depths[deepest] + 1
      invariant !HasCycle(errors) && !HasDeep(errors) ==> depth <= Max(limit, 1)
      invariant !HasCycle(errors) && HasDeep(errors) && limit >= 1 ==> SomeChainExceeds(m, limit)
      invariant limit < 1 && i > 0 ==> HasDeep(errors)
      invariant forall e :: e in errors ==> e.InheritanceCycle? || e.TooDeep?
    {
      PathExtends(m, name, path, i);
      var d, more := ResolveDepth(m, limit, parents[i], path + [name]);
      if d + 1 > limit {
        if !HasCycle(more) && limit >= 1 {
          DeepChain(m, name, i, d, limit);
        }
        ErrorsAppend(more, [TooDeep(name, parents[i])]);
        assert [TooDeep(name, parents[i])][0].TooDeep?;
        more := more + [TooDeep(name, parents[i])];
      }
      ErrorsAppend(errors, more);
      errors, depths := errors + more, depths + [d];
      if d + 1 >= depth {
        deepest := i;
      }
      depth := Max(depth, d + 1);
    }
    if !HasCycle(errors) {
      WalksThroughParents(m, name, path);
      ChainThroughParents(m, name, depths, depth);
    }
  }

  // ---- Flattening ----

  /** Some role that name inherits from, or name itself, declares the permission. */
  ghost predicate Grants(m: RoleMap, name: string, permission: string) {
    exists q :: q in m && Reaches(Inheritance(m), name, q) && permission in m[q].permissions
  }

  function PermissionsOf(m: RoleMap, names: set<string>): set<string> {
    set n, p | n in names && n in m && p in m[n].permissions :: p
  }

  /** The shared-seen recursion of _expanded_permissions: it returns the permissions of the roles it
      adds to seen, and leaves no added role with a defined parent outside. */
  method Expand(m: RoleMap, name: string, seen: set<string>) returns (perms: set<string>, seen': set<string>)
    requires seen <= m.Keys
    ensures seen <= seen' <= m.Keys && (name in m ==> name in seen')
    ensures perms == PermissionsOf(m, seen' - seen)
    ensures forall x :: x in seen' - seen ==> Reaches(Inheritance(m), name, x)
    ensures forall x, y :: x in seen' - seen && (x, y) in Inheritance(m) && y in m ==> y in seen'
    decreases m.Keys - seen
  {
    if name in seen || name !in m {
      return {}, seen;
    }
    seen' := seen + {name};
    perms := m[name].permissions;
    ReachesItself(Inheritance(m), name);
    var parents := m[name].inherits;
    for i := 0 to |parents|
      invariant seen + {name} <= seen' <= m.Keys
      invariant perms == PermissionsOf(m, seen' - seen)
      invariant forall x :: x in seen' - seen ==> Reaches(Inheritance(m), name, x)
      invariant forall j :: 0 <= j < i && parents[j] in m ==> parents[j] in seen'
      invariant forall x, y :: x in seen' - seen - {name} && (x, y) in Inheritance(m) && y in m ==> y in seen'
    {
      var more, grown := Expand(m, parents[i], seen');
      forall x | x in grown - seen' ensures Reaches(Inheritance(m), name, x) {
        assert (name, parents[i]) in Inheritance(m);
        ReachesNext(Inheritance(m), name, parents[i], x);
      }
      assert grown - seen == (seen' - seen) + (grown - seen');
      perms, seen' := perms + more, grown;
    }
  }

  /** Flattening is exact: a role is given the permissions it or its ancestors declare, no others. */
  method Flatten(m: RoleMap, name: string) returns (perms: set<string>)
    ensures forall p :: p in perms <==> Grants(m, name, p)
  {
    var seen;
    perms, seen := Expand(m, name, {});
    forall p | Grants(m, name, p) ensures p in perms {
      var q :| q in m && Reaches(Inheritance(m), name, q) && p in m[q].permissions;
      DefinedAncestorsSeen(m, name, seen, q);
    }
  }

  lemma DefinedAncestorsSeen(m: RoleMap, name: string, seen: set<string>, q: string)
    requires name in m ==> name in seen
    requires forall x, y :: x in seen && (x, y) in Inheritance(m) && y in m ==> y in seen
    requires q in m && Reaches(Inheritance(m), name, q)
    ensures q in seen
  {
    var p :| PathFromTo(Inheritance(m), p, name, q);
    PathStaysSeen(m, seen, p);
  }

  lemma {:induction false} PathStaysSeen(m: RoleMap, seen: set<string>, p: seq<string>)
    requires forall x, y :: x in seen && (x, y) in Inheritance(m) && y in m ==> y in seen
    requires IsPath(Inheritance(m), p) && p[|p| - 1] in m && (p[0] in m ==> p[0] in seen)
    ensures p[|p| - 1] in seen
    decreases |p|
  {
    if |p| > 1 {
      assert (p[0], p[1]) in Inheritance(m);
      PathStaysSeen(m, seen, p[1..]);
    }
  }

  // ---- Compilation ----

  datatype CompiledRbac = CompiledRbac(
    authorityRequired: bool,
    rolePermissions: seq<(string, set<string>)>,
    roleConflicts: seq<set<string>>,
    hardConflicts: seq<set<string>>)

  ghost predicate AllWalksFresh(m: RoleMap, roles: seq<Role>, n: nat)
    requires n <= |roles|
  {
    forall j :: 0 <= j < n ==> WalksFresh(m, roles[j].name, [])
  }

  ghost predicate AllWithin(m: RoleMap, roles: seq<Role>, n: nat, bound: int)
    requires n <= |roles|
  {
    forall j, w :: 0 <= j < n && Chain(m, w, roles[j].name) ==> |w| <= bound
  }

  lemma FreshWalksAcyclic(roles: seq<Role>)
    requires AllWalksFresh(RolesByName(roles), roles, |roles|)
    ensures !Cyclic(Inheritance(RolesByName(roles)))
  {
    var m := RolesByName(roles);
    forall p | IsPath(Inheritance(m), p) && |p| >= 2 ensures p[0] != p[|p| - 1] {
      assert (p[0], p[1]) in Inheritance(m);
      var j :| 0 <= j < |roles| && roles[j].name == p[0];
      assert Fresh(p, []);
    }
  }

  lemma ChainsWithin(roles: seq<Role>, limit: int)
    requires limit >= 1 && AllWithin(RolesByName(roles), roles, |roles|, limit)
    ensures !SomeChainExceeds(RolesByName(roles), limit)
  {
    var m := RolesByName(roles);
    forall w | w != [] && Chain(m, w, w[0]) ensures |w| <= limit {
      var j :| 0 <= j < |roles| && roles[j].name == w[0];
    }
  }

  lemma SingletonPath(m: RoleMap, name: string)
    ensures IsPath(Inheritance(m), [] + [name])
  {
  }

  lemma NextWithin(m: RoleMap, roles: seq<Role>, i: nat, depth: nat, bound: int)
    requires i < |roles| && AllWithin(m, roles, i, bound)
    requires LongestChain(m, roles[i].name, depth) && depth <= bound
    ensures AllWithin(m, roles, i + 1, bound)
  {
  }

  /** Validation of the inheritance graph: a cycle is reported exactly when there is one, and on an
      acyclic graph the depth limit exactly when some line of inheritance is longer. */
  method ValidateInheritance(roles: seq<Role>, limit: int) returns (errors: seq<RbacError>)
    ensures HasCycle(errors) <==> Cyclic(Inheritance(RolesByName(roles)))
    ensures !HasCycle(errors) || limit < 1 ==> (HasDeep(errors) <==> Exceeds(RolesByName(roles), limit))
    ensures forall e :: e in errors ==> e.InheritanceCycle? || e.TooDeep?
  {
    hide WalksFresh, LongestChain, SomeChainExceeds, Cyclic, Inheritance, IsPath, HasDeep, HasCycle, AllWithin,
      RolesByName, SomeInherits;
    var m := RolesByName(roles);
    errors := [];
    NoErrors();
    NobodyWithin(m, roles, Max(limit, 1));
    for i := 0 to |roles|
      invariant HasCycle(errors) ==> Cyclic(Inheritance(m))
      invariant !HasCycle(errors) ==> AllWalksFresh(m, roles, i)
      invariant !HasCycle(errors) && !HasDeep(errors) ==> AllWithin(m, roles, i, Max(limit, 1))
      invariant !HasCycle(errors) && HasDeep(errors) && limit >= 1 ==> SomeChainExceeds(m, limit)
      invariant HasDeep(errors) ==> SomeInherits(m)
      invariant limit < 1 && !HasDeep(errors) ==> NoneInherits(m, roles, i)
      invariant forall e :: e in errors ==> e.InheritanceCycle? || e.TooDeep?
    {
      SingletonPath(m, roles[i].name);
      var depth, more := ResolveDepth(m, limit, roles[i].name, []);
      ErrorsAppend(errors, more);
      errors := errors + more;
      if !HasCycle(errors) && !HasDeep(errors) {
        NextWithin(m, roles, i, depth, Max(limit, 1));
      }
    }
    if limit < 1 && !HasDeep(errors) {
      NobodyInherits(roles);
    }
    if !HasCycle(errors) {
      FreshWalksAcyclic(roles);
      if !HasDeep(errors) && limit >= 1 {
        ChainsWithin(roles, limit);
      }
    }
  }

  ghost predicate NoneInherits(m: RoleMap, roles: seq<Role>, n: nat)
    requires n <= |roles|
  {
    forall j :: 0 <= j < n && roles[j].name in m ==> m[roles[j].name].inherits == []
  }

  lemma NobodyInherits(roles: seq<Role>)
    requires NoneInherits(RolesByName(roles), roles, |roles|)
    ensures !SomeInherits(RolesByName(roles))
  {
  }

  lemma NoErrors()
    ensures !HasCycle([]) && !HasDeep([])
  {
  }

  lemma NobodyWithin(m: RoleMap, roles: seq<Role>, bound: int)
    ensures AllWithin(m, roles, 0, bound)
  {
  }

  method MissingFrom(wanted: set<string>, present: set<string>) returns (missing: seq<string>)
    ensures forall p :: p in missing <==> p in wanted && p !in present
  {
    missing := [];
    var rest := wanted;
    while rest != {}
      invariant rest <= wanted
      invariant forall p :: p in missing <==> p in wanted - rest && p !in present
      decreases |rest|
    {
      var p :| p in rest;
      rest := rest - {p};
      if p !in present {
        missing := missing + [p];
      }
    }
  }

  /** Every role's flattened permissions, in the order the roles are listed. */
  method FlattenAll(roles: seq<Role>) returns (table: seq<(string, set<string>)>, granted: set<string>)
    ensures Flattened(roles, table)
    ensures forall p :: p in granted <==> exists i :: 0 <= i < |roles| && Grants(RolesByName(roles), roles[i].name, p)
  {
    hide Grants, RolesByName;
    var m := RolesByName(roles);
    table, granted := [], {};
    for i := 0 to |roles|
      invariant |table| == i
      invariant forall j :: 0 <= j < i ==> table[j].0 == roles[j].name
      invariant forall j, p :: 0 <= j < i ==> (p in table[j].1 <==> Grants(m, roles[j].name, p))
      invariant forall p :: p in granted <==> exists j :: 0 <= j < i && Grants(m, roles[j].name, p)
    {
      var perms := Flatten(m, roles[i].name);
      table, granted := table + [(roles[i].name, perms)], granted + perms;
    }
  }

  /** The table gives each listed role exactly the permissions inheritance grants it. */
  ghost predicate Flattened(roles: seq<Role>, table: seq<(string, set<string>)>) {
    && |table| == |roles|
    && (forall i :: 0 <= i < |roles| ==> table[i].0 == roles[i].name)
    && (forall i, p :: 0 <= i < |roles| ==> (p in table[i].1 <==> Grants(RolesByName(roles), roles[i].name, p)))
  }

  function Declared(roles: seq<Role>): set<string> {
    set r, p | r in roles && p in r.permissions :: p
  }

  /** The configuration is accepted exactly when inheritance is acyclic and within the limit, only
      taxonomy permissions are used, and every taxonomy permission is assigned to someone. */
  method CompileRbac(
      roles: seq<Role>, overrides: set<string>, taxonomy: set<string>, limit: int,
      authorityRequired: bool, roleConflicts: seq<set<string>>, hardConflicts: seq<set<string>>)
      returns (r: Outcome<CompiledRbac, seq<RbacError>>)
    ensures r.Ok? ==> !Cyclic(Inheritance(RolesByName(roles))) && Flattened(roles, r.value.rolePermissions)
    ensures r.Ok? ==> r.value == CompiledRbac(authorityRequired, r.value.rolePermissions, roleConflicts, hardConflicts)
    ensures r.Ok? <==>
      && !Cyclic(Inheritance(RolesByName(roles)))
      && !Exceeds(RolesByName(roles), limit)
      && (forall i, p :: 0 <= i < |roles| && p in roles[i].permissions ==> p in taxonomy)
      && overrides <= taxonomy
      && forall p :: p in taxonomy && p !in overrides ==>
         exists i :: 0 <= i < |roles| && Grants(RolesByName(roles), roles[i].name, p)
  {
    hide Cyclic, Inheritance, Exceeds, Grants, Flattened, RolesByName, Declared;
    var errors := ValidateInheritance(roles, limit);
    var table, granted := FlattenAll(roles);
    var foreign := MissingFrom(Declared(roles) + overrides, taxonomy);
    var orphans := MissingFrom(taxonomy, granted + overrides);
    NoKindNoError(errors);
    assert foreign == [] <==> Declared(roles) + overrides <= taxonomy by {
      assert foreign != [] ==> foreign[0] in foreign;
    }
    DeclaredWithin(roles, taxonomy);
    assert orphans == [] <==> forall p :: p in taxonomy - overrides ==> p in granted by {
      assert orphans != [] ==> orphans[0] in orphans;
    }
    if errors != [] || foreign != [] || orphans != [] {
      return Err(errors + seq(|foreign|, i requires 0 <= i < |foreign| => NotInTaxonomy(foreign[i]))
                        + seq(|orphans|, i requires 0 <= i < |orphans| => Orphan(orphans[i])));
    }
    NoErrors();
    r := Ok(CompiledRbac(authorityRequired, table, roleConflicts, hardConflicts));
  }

  lemma DeclaredWithin(roles: seq<Role>, taxonomy: set<string>)
    ensures Declared(roles) <= taxonomy <==>
            forall i, p :: 0 <= i < |roles| && p in roles[i].permissions ==> p in taxonomy
  {
    forall i, p | 0 <= i < |roles| && p in roles[i].permissions ensures p in Declared(roles) {
      assert roles[i] in roles;
    }
  }

  lemma NoKindNoError(errors: seq<RbacError>)
    requires forall e :: e in errors ==> e.InheritanceCycle? || e.TooDeep?
    ensures errors == [] <==> !HasCycle(errors) && !HasDeep(errors)
  {
    assert errors != [] ==> errors[0] in errors;
  }

  // ---- Runtime check ----

  predicate Blank(s: string) { forall c :: c in s ==> c in [' ', '\t', '\n', '\r'] }

  /** Something is left of the name when white space is stripped. */
  predicate HasInk(s: string) { exists ch :: ch in s && ch != ' ' && ch != '\t' && ch != '\n' && ch != '\r' }

  predicate MayActAs(authority: Option<string>, possessed: seq<string>) {
    authority.Some? && authority.value in possessed && HasInk(authority.value)
  }

  /** dict(role_permissions): a later entry for the same name wins. */
  function PermissionMap(table: seq<(string, set<string>)>): map<string, set<string>> {
    if table == [] then map[]
    else PermissionMap(table[..|table| - 1])[table[|table| - 1].0 := table[|table| - 1].1]
  }

  function Held(table: seq<(string, set<string>)>, roles: seq<string>): set<string> {
    set r, p | r in roles && r in PermissionMap(table) && p in PermissionMap(table)[r] :: p
  }

  /** The roles the actor acts under, or None when the authority role requirement is not met. */
  function Acting(c: CompiledRbac, possessed: seq<string>, authority: Option<string>): Option<seq<string>> {
    if !c.authorityRequired then Some(possessed)
    else if authority.None? || Blank(authority.value) || authority.value !in possessed then None
    else Some([authority.value])
  }

  /** No pair of conflicting roles is held, and no permission held conflicts with the required one. */
  ghost predicate DutiesSegregated(c: CompiledRbac, possessed: seq<string>, held: set<string>, required: string) {
    && (forall pair :: pair in c.roleConflicts ==> exists r :: r in pair && r !in possessed)
    && (forall pair :: pair in c.hardConflicts && required in pair ==> (pair - {required}) !! held)
  }

  method CheckRbac(c: CompiledRbac, possessed: seq<string>, authority: Option<string>, required: string)
      returns (allowed: bool)
    ensures var acting := Acting(c, possessed, authority);
            allowed <==>
            && acting.Some?
            && (acting.value == [] ||
                (var held := Held(c.rolePermissions, acting.value);
                 required in held && DutiesSegregated(c, possessed, held, required)))
    // Who is acting: an authority role, where one is required, must be named and possessed.
    ensures allowed && c.authorityRequired ==>
      && authority.Some? && authority.value in possessed && HasInk(authority.value)
      && required in Held(c.rolePermissions, [authority.value])
    ensures allowed && !c.authorityRequired && possessed != [] ==> required in Held(c.rolePermissions, possessed)
    // End to end: what is allowed to someone with roles, the configuration grants to one of those roles.
    ensures forall roles :: Flattened(roles, c.rolePermissions) && allowed && possessed != [] ==>
      exists r :: && r in possessed && Grants(RolesByName(roles), r, required)
                  && (c.authorityRequired ==> authority == Some(r))
    // Segregation of duties, over the roles possessed and the permissions held while acting.
    ensures allowed && (c.authorityRequired || possessed != []) ==>
      forall pair :: pair in c.roleConflicts ==> exists r :: r in pair && r !in possessed
    ensures allowed && c.authorityRequired ==>
      forall pair, p :: pair in c.hardConflicts && required in pair && p in pair && p != required ==>
        p !in Held(c.rolePermissions, [authority.value])
    ensures allowed && !c.authorityRequired && possessed != [] ==>
      forall pair, p :: pair in c.hardConflicts && required in pair && p in pair && p != required ==>
        p !in Held(c.rolePermissions, possessed)
    // Nothing else is refused.
    ensures !c.authorityRequired && possessed == [] ==> allowed
    ensures !allowed && !c.authorityRequired && required in Held(c.rolePermissions, possessed) ==>
      || (exists pair :: pair in c.roleConflicts && forall r :: r in pair ==> r in possessed)
      || (exists pair, p :: pair in c.hardConflicts && required in pair && p in pair && p != required &&
                            p in Held(c.rolePermissions, possessed))
    ensures !allowed && c.authorityRequired && MayActAs(authority, possessed) ==>
      || required !in Held(c.rolePermissions, [authority.value])
      || (exists pair :: pair in c.roleConflicts && forall r :: r in pair ==> r in possessed)
      || (exists pair, p :: pair in c.hardConflicts && required in pair && p in pair && p != required &&
                            p in Held(c.rolePermissions, [authority.value]))
  {
    var acting := Acting(c, possessed, authority);
    if acting.None? {
      return false;
    }
    if acting.value == [] {
      return true;
    }
    var table, held := PermissionMap(c.rolePermissions), {};
    for i := 0 to |acting.value|
      invariant held == set r, p | r in acting.value[..i] && r in table && p in table[r] :: p
    {
      var role := acting.value[i];
      assert acting.value[..i + 1] == acting.value[..i] + [role];
      held := held + if role in table then table[role] else {};
    }
    assert acting.value[..|acting.value|] == acting.value;
    assert held == Held(c.rolePermissions, acting.value);
    if required !in held {
      return false;
    }
    for i := 0 to |c.roleConflicts|
      invariant forall j :: 0 <= j < i ==> exists r :: r in c.roleConflicts[j] && r !in possessed
    {
      var pair := c.roleConflicts[i];
      if pair <= set r | r in possessed {
        assert pair in c.roleConflicts;
        return false;
      }
    }
    for i := 0 to |c.hardConflicts|
      invariant forall j :: 0 <= j < i && required in c.hardConflicts[j] ==> (c.hardConflicts[j] - {required}) !! held
    {
      var pair := c.hardConflicts[i];
      if required in pair && !((pair - {required}) !! held) {
        assert pair in c.hardConflicts;
        return false;
      }
    }
    forall roles | Flattened(roles, c.rolePermissions)
      ensures exists r :: r in possessed && Grants(RolesByName(roles), r, required) &&
                          (c.authorityRequired ==> authority == Some(r)) {
      HeldIff(roles, c.rolePermissions, acting.value, required);
    }
    return true;
  }

  lemma {:induction false} MapEntryIsFlattened(roles: seq<Role>, table: seq<(string, set<string>)>, n: nat, r: string)
    requires Flattened(roles, table) && n <= |table| && r in PermissionMap(table[..n])
    ensures forall p :: p in PermissionMap(table[..n])[r] <==> Grants(RolesByName(roles), r, p)
  {
    hide Grants, RolesByName;
    if n > 0 {
      assert table[..n][..n - 1] == table[..n - 1];
      if r != table[n - 1].0 {
        MapEntryIsFlattened(roles, table, n - 1, r);
      }
    }
  }

  lemma {:induction false} MapHasListed(roles: seq<Role>, table: seq<(string, set<string>)>, n: nat, r: string)
    requires Flattened(roles, table) && n <= |table|
    ensures r in PermissionMap(table[..n]) <==> exists i :: 0 <= i < n && roles[i].name == r
  {
    hide Grants, RolesByName;
    if n > 0 {
      assert table[..n][..n - 1] == table[..n - 1];
      MapHasListed(roles, table, n - 1, r);
    }
  }

  /** End to end: acting roles hold exactly what the configuration, as written, grants to one of them. */
  lemma HeldIff(roles: seq<Role>, table: seq<(string, set<string>)>, acting: seq<string>, required: string)
    requires Flattened(roles, table)
    ensures required in Held(table, acting) <==> exists r :: r in acting && Grants(RolesByName(roles), r, required)
  {
    hide Grants, RolesByName, PermissionMap, Flattened;
    assert table[..|table|] == table;
    if required in Held(table, acting) {
      var r :| r in acting && r in PermissionMap(table) && required in PermissionMap(table)[r];
      MapEntryIsFlattened(roles, table, |table|, r);
    }
    if r :| r in acting && Grants(RolesByName(roles), r, required) {
      GrantedIsListed(roles, table, r, required);
      MapEntryIsFlattened(roles, table, |table|, r);
    }
  }

  lemma GrantedIsListed(roles: seq<Role>, table: seq<(string, set<string>)>, r: string, permission: string)
    requires Flattened(roles, table) && Grants(RolesByName(roles), r, permission)
    ensures r in PermissionMap(table) && |table| == |roles|
  {
    hide RolesByName, PermissionMap;
    var m := RolesByName(roles);
    var q :| q in m && Reaches(Inheritance(m), r, q) && permission in m[q].permissions;
    var p :| PathFromTo(Inheritance(m), p, r, q);
    assert |p| > 1 ==> (p[0], p[1]) in Inheritance(m);
    MapHasListed(roles, table, |table|, r);
    assert table[..|table|] == table;
  }

  /** Of several roles with one name the last one counts. */
  lemma {:induction false} LastDefinitionWins(roles: seq<Role>, i: nat)
    requires i < |roles| && forall j :: i < j < |roles| ==> roles[j].name != roles[i].name
    ensures roles[i].name in RolesByName(roles) && RolesByName(roles)[roles[i].name] == roles[i]
  {
    if i < |roles| - 1 {
      LastDefinitionWins(roles[..|roles| - 1], i);
    }
  }

  /** Soundness of an allow: an actor acting under some role is allowed only if one of the roles it
      acts under inherits, in the configuration as written, from a role declaring the permission. */
  lemma AllowImpliesGrant(roles: seq<Role>, c: CompiledRbac, acting: seq<string>, required: string)
    requires Flattened(roles, c.rolePermissions)
    requires required in Held(c.rolePermissions, acting)
    ensures exists r :: r in acting && Grants(RolesByName(roles), r, required)
  {
    var table := c.rolePermissions;
    var r :| r in acting && r in PermissionMap(table) && required in PermissionMap(table)[r];
    assert table[..|table|] == table;
    MapEntryIsFlattened(roles, table, |table|, r);
  }
}
