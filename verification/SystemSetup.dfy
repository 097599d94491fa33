/** `BootstrapService`: the calls that set the system up, against repositories that may stop
    taking writes at any point. A call makes at most one write per task; one that fails has
    done a prefix of its tasks. */
module SystemSetup {
  import opened Text
  import opened NamedRows
  import opened SystemBaseline
  import opened SystemPlan
  import opened SystemOutcome
  import opened SystemFrame

  datatype SetupError = Interrupted | PasswordRequired

  // ---------------------------------------------------------------- runs that are cut off

  /** `v` is where doing some prefix of the tasks leads. */
  ghost predicate CutShort(tasks: seq<Task>, w: World, v: World) {
    exists done: seq<Task> :: done <= tasks && v == Perform(done, w)
  }

  lemma CutHere(a: seq<Task>, b: seq<Task>, w: World, v: World)
    requires CutShort(a, w, v)
    ensures CutShort(a + b, w, v)
  {
    var done :| done <= a && v == Perform(done, w);
    assert done <= a + b;
  }

  lemma CutLater(a: seq<Task>, b: seq<Task>, w: World, v: World)
    requires CutShort(b, Perform(a, w), v)
    ensures CutShort(a + b, w, v)
  {
    var done :| done <= b && v == Perform(done, Perform(a, w));
    PerformConcat(a, done, w);
    assert a + done <= a + b;
  }

  lemma CutAtStart(tasks: seq<Task>, w: World)
    ensures CutShort(tasks, w, w)
  {
    assert w == Perform([], w);
    assert [] <= tasks;
  }

  lemma MasterFirst(owner: Owner)
    ensures KeyTasks(owner) == [MasterTask(owner)] + [RootTask(owner), StoreTask(owner)]
  {
  }

  /** What a call that does one task, with the writes it has left, has done. */
  predicate Did(t: Task, ok: bool, w: World, b: nat, v: World, c: nat) {
    && (ok ==> v == Do(t, w) && b <= c + 1)
    && (!ok ==> v == w && b == 0)
    && (Done(t, w) ==> ok && c == b)
    && c <= b && Valid(v) && Kept(w, v)
  }

  ghost predicate DidAll(tasks: seq<Task>, ok: bool, w: World, b: nat, v: World, c: nat) {
    && (ok ==> v == Perform(tasks, w) && b <= c + |tasks|)
    && (!ok ==> CutShort(tasks, w, v) && b < |tasks|)
    && c <= b && Valid(v) && Kept(w, v)
  }

  lemma DidOne(t: Task, ok: bool, w: World, b: nat, v: World, c: nat)
    requires Did(t, ok, w, b, v, c)
    ensures DidAll([t], ok, w, b, v, c)
  {
    PerformOne(t, w);
    CutAtStart([t], w);
  }

  lemma DidNone(w: World, b: nat)
    requires Valid(w)
    ensures DidAll([], true, w, b, w, b)
  {
  }

  lemma DidBoth(tasks: seq<Task>, more: seq<Task>, ok: bool, w: World, b: nat, u: World, d: nat, v: World, c: nat)
    requires DidAll(tasks, true, w, b, u, d) && DidAll(more, ok, u, d, v, c)
    ensures DidAll(tasks + more, ok, w, b, v, c)
  {
    PerformConcat(tasks, more, w);
    KeptTransitive(w, u, v);
    if !ok { CutLater(tasks, more, w, v); }
  }

  lemma DidFirst(tasks: seq<Task>, more: seq<Task>, w: World, b: nat, v: World, c: nat)
    requires DidAll(tasks, false, w, b, v, c)
    ensures DidAll(tasks + more, false, w, b, v, c)
  {
    CutHere(tasks, more, w, v);
  }

  /** Two tasks in turn, the last of them reached. */
  lemma DidTwo(t0: Task, t1: Task, ok: bool, w: World, b: nat, w1: World, b1: nat, v: World, c: nat)
    requires Did(t0, true, w, b, w1, b1) && Did(t1, ok, w1, b1, v, c)
    ensures DidAll([t0, t1], ok, w, b, v, c)
  {
    DidOne(t0, true, w, b, w1, b1);
    DidOne(t1, ok, w1, b1, v, c);
    DidBoth([t0], [t1], ok, w, b, w1, b1, v, c);
    assert [t0] + [t1] == [t0, t1];
  }

  /** The first of several fails. */
  lemma DidNotStart(t: Task, more: seq<Task>, w: World, b: nat, v: World, c: nat)
    requires Did(t, false, w, b, v, c)
    ensures DidAll([t] + more, false, w, b, v, c)
  {
    DidOne(t, false, w, b, v, c);
    DidFirst([t], more, w, b, v, c);
  }

  /** The fields of a client that differ from what is asked for are edited. The outcome is the
      client as it would have been created, under its own id. */
  method EditClient(found: Client, app: Id, spec: ClientSpec, redirects: seq<string>)
    returns (client: Client, changed: bool)
    requires found.clientId == spec.clientId && redirects == [spec.uri + "/callback"]
    ensures client == MakeClient(found.id, app, spec)
    ensures changed <==> client != found
  {
    client, changed := found, false;
    if client.app != app { client, changed := client.(app := app), true; }
    if client.name != spec.name { client, changed := client.(name := spec.name), true; }
    if client.uri != spec.uri { client, changed := client.(uri := spec.uri), true; }
    if client.scopes != spec.scopes { client, changed := client.(scopes := spec.scopes), true; }
    if client.profile != spec.profile { client, changed := client.(profile := spec.profile), true; }
    if client.redirects != redirects { client, changed := client.(redirects := redirects), true; }
  }

  // ---------------------------------------------------------------- the service

  class BootstrapService {
    var world: World
    var budget: nat // writes until the repositories fail

    /** The write of one task: `after` is what it leads to. */
    method Put(after: World) returns (ok: bool)
      modifies this
      ensures ok <==> old(budget) > 0
      ensures ok ==> world == after && budget == old(budget) - 1
      ensures !ok ==> world == old(world) && budget == old(budget)
    {
      if budget == 0 { return false; }
      budget, world := budget - 1, after;
      return true;
    }

    method EnsureApplication(name: string, uri: string) returns (r: Option<App>)
      requires Valid(world)
      modifies this
      ensures Did(AppTask(name, uri), r.Some?, old(world), old(budget), world, budget)
      ensures r.Some? ==> uri in world.apps && world.apps[uri] == r.value
    {
      DoKeeps(AppTask(name, uri), world);
      if uri in world.apps { return Some(world.apps[uri]); }
      var app := App(world.next, name, uri);
      var ok := Put(world.(next := world.next + 1, apps := world.apps[uri := app]));
      return if ok then Some(app) else None;
    }

    method EnsureAdminUser(username: string, password: string) returns (r: Result<Id, SetupError>)
      requires Valid(world)
      modifies this
      ensures r == Err(PasswordRequired) <==> UserId(old(world), username) == None && IsBlank(password)
      ensures r == Err(PasswordRequired) ==> world == old(world) && budget == old(budget)
      ensures r != Err(PasswordRequired) ==> Did(UserTask(username), r.Ok?, old(world), old(budget), world, budget)
      ensures r.Ok? ==> UserId(world, username) == Some(r.value)
    {
      DoKeeps(UserTask(username), world);
      // find_user_by_username_or_email
      if username in world.handles { return Ok(world.handles[username]); }
      if username in world.emails && world.emails[username] in world.users { return Ok(world.emails[username]); }
      // create_user_with_password
      if IsBlank(password) { return Err(PasswordRequired); }
      var id := world.next;
      var ok := Put(world.(next := id + 1, users := world.users + {id}, handles := world.handles[username := id]));
      return if ok then Ok(id) else Err(Interrupted);
    }

    method EnsureBootstrapDevice(ghost user: string, owner: Id, name: string, publicKey: string, address: string)
      returns (ok: bool)
      requires Valid(world) && UserId(world, user) == Some(owner)
      modifies this
      ensures Did(DeviceTask(user, name, publicKey, address), ok, old(world), old(budget), world, budget)
    {
      DoKeeps(DeviceTask(user, name, publicKey, address), world);
      if world.devices != [] { return true; }
      ok := Put(world.(devices := world.devices + [Device(owner, name, publicKey, address, true)]));
    }

    method EnsureRole(app: Id) returns (r: Option<Id>)
      requires Valid(world) && MANAGEMENT in world.apps && world.apps[MANAGEMENT].id == app
      modifies this
      ensures Did(RoleTask, r.Some?, old(world), old(budget), world, budget)
      ensures r.Some? ==> AdminRole(world) == r
    {
      DoKeeps(RoleTask, world);
      var found := FirstNamed(ListRoles(world, app), ADMIN);
      if found.Some? { return found; }
      CreatedRole(world);
      var row := Row(world.next, app, ADMIN, true);
      var ok := Put(world.(next := world.next + 1, roles := world.roles + [row]));
      return if ok then Some(row.id) else None;
    }

    method EnsurePermission(app: Id) returns (r: Option<Id>)
      requires Valid(world) && MANAGEMENT in world.apps && world.apps[MANAGEMENT].id == app
      modifies this
      ensures Did(PermissionTask, r.Some?, old(world), old(budget), world, budget)
      ensures r.Some? ==> AnyPermission(world) == r && AdminRole(world) == AdminRole(old(world))
    {
      RoleStaysChosen(PermissionTask, world);
      DoKeeps(PermissionTask, world);
      var found := FirstNamed(ListPermissions(world, app), ANY);
      if found.Some? { return found; }
      CreatedPermission(world);
      var row := Row(world.next, app, ANY, true);
      var ok := Put(world.(next := world.next + 1, permissions := world.permissions + [row]));
      return if ok then Some(row.id) else None;
    }

    method EnsureRolePermission(role: Id, permission: Id) returns (ok: bool)
      requires Valid(world) && AdminRole(world) == Some(role) && AnyPermission(world) == Some(permission)
      modifies this
      ensures Did(RolePermissionTask, ok, old(world), old(budget), world, budget)
      ensures AdminRole(world) == Some(role)
    {
      RoleStaysChosen(RolePermissionTask, world);
      DoKeeps(RolePermissionTask, world);
      if (role, permission) in world.rolePermissions {
        assert world.rolePermissions + {(role, permission)} == world.rolePermissions;
        return true;
      }
      ok := Put(world.(rolePermissions := world.rolePermissions + {(role, permission)}));
    }

    method EnsureUserRole(ghost name: string, app: Id, user: Id, role: Id) returns (ok: bool)
      requires Valid(world) && AdminRole(world) == Some(role) && UserId(world, name) == Some(user)
      requires MANAGEMENT in world.apps && world.apps[MANAGEMENT].id == app
      modifies this
      ensures Did(UserRoleTask(name), ok, old(world), old(budget), world, budget)
    {
      DoKeeps(UserRoleTask(name), world);
      if (app, user, role) in world.userRoles {
        assert world.userRoles + {(app, user, role)} == world.userRoles;
        return true;
      }
      ok := Put(world.(userRoles := world.userRoles + {(app, user, role)}));
    }

    /** `ensure_entity_master_key` */
    method EnsureMasterKey(ghost owner: Owner, e: Entity) returns (ok: bool)
      requires Valid(world) && Resolve(world, owner) == Some(e)
      modifies this
      ensures Did(MasterTask(owner), ok, old(world), old(budget), world, budget)
      ensures world.roots == old(world).roots
      ensures ok ==> (e, None) in world.stored
    {
      DoKeeps(MasterTask(owner), world);
      if (e, None) in world.stored { return true; }
      ok := Put(world.(stored := world.stored + {(e, None)}));
    }

    /** `key_repo.create_key` for an entity without an active root key */
    method CreateRootKey(ghost owner: Owner, e: Entity) returns (ok: bool)
      requires Valid(world) && Resolve(world, owner) == Some(e) && e !in world.roots
      modifies this
      ensures Did(RootTask(owner), ok, old(world), old(budget), world, budget)
      ensures ok ==> e in world.roots
    {
      DoKeeps(RootTask(owner), world);
      ok := Put(world.(nextRoot := world.nextRoot + 1, roots := world.roots[e := world.nextRoot]));
    }

    /** `find_active_entity_root_key`, or else a new one */
    method FindOrCreateRootKey(ghost owner: Owner, e: Entity) returns (ok: bool)
      requires Valid(world) && Resolve(world, owner) == Some(e)
      modifies this
      ensures Did(RootTask(owner), ok, old(world), old(budget), world, budget)
      ensures ok ==> e in world.roots
    {
      DoKeeps(RootTask(owner), world);
      if e in world.roots { return true; }
      ok := CreateRootKey(owner, e);
    }

    /** `ensure_derivation_path` for a root key: its parent is the master key, which is stored */
    method EnsureDerivationPath(ghost owner: Owner, e: Entity) returns (ok: bool)
      requires Valid(world) && Resolve(world, owner) == Some(e) && e in world.roots && (e, None) in world.stored
      modifies this
      ensures Did(StoreTask(owner), ok, old(world), old(budget), world, budget)
      ensures ok ==> e in world.roots && (e, Some(world.roots[e])) in world.stored
    {
      DoKeeps(StoreTask(owner), world);
      var path := Some(world.roots[e]);
      if (e, path) in world.stored { return true; }
      ok := Put(world.(stored := world.stored + {(e, path)}));
    }

    /** A new root key and its stored derived key */
    method CreateAndStoreKey(ghost owner: Owner, e: Entity) returns (ok: bool)
      requires Valid(world) && Resolve(world, owner) == Some(e) && e !in world.roots && (e, None) in world.stored
      modifies this
      ensures DidAll([RootTask(owner), StoreTask(owner)], ok, old(world), old(budget), world, budget)
      ensures ok ==> e in world.roots && (e, Some(world.roots[e])) in world.stored
    {
      ghost var w, b := world, budget;
      ok := CreateRootKey(owner, e);
      if !ok { DidNotStart(RootTask(owner), [StoreTask(owner)], w, b, world, budget); return; }
      ghost var w1, b1 := world, budget;
      ResolveKept(w, w1, owner);
      ok := EnsureDerivationPath(owner, e);
      DidTwo(RootTask(owner), StoreTask(owner), ok, w, b, w1, b1, world, budget);
    }

    /** The key part of `create_client` */
    method CreateKeys(ghost owner: Owner, e: Entity) returns (ok: bool)
      requires Valid(world) && Resolve(world, owner) == Some(e) && e !in world.roots
      modifies this
      ensures DidAll(KeyTasks(owner), ok, old(world), old(budget), world, budget)
      ensures ok ==> AllDone(KeyTasks(owner), world)
    {
      ghost var w, b := world, budget;
      ghost var more := [RootTask(owner), StoreTask(owner)];
      MasterFirst(owner);
      ok := EnsureMasterKey(owner, e);
      ghost var w1, b1 := world, budget;
      ResolveKept(w, w1, owner);
      if !ok { DidNotStart(MasterTask(owner), more, w, b, w1, b1); return; }
      DidOne(MasterTask(owner), true, w, b, w1, b1);
      ok := CreateAndStoreKey(owner, e);
      ResolveKept(w1, world, owner);
      if ok { KeysPresent(owner, e, world); }
      DidBoth([MasterTask(owner)], more, ok, w, b, w1, b1, world, budget);
    }

    /** The active root key, or else a new one, and its stored derived key */
    method FindAndStoreKey(ghost owner: Owner, e: Entity) returns (ok: bool)
      requires Valid(world) && Resolve(world, owner) == Some(e) && (e, None) in world.stored
      modifies this
      ensures DidAll([RootTask(owner), StoreTask(owner)], ok, old(world), old(budget), world, budget)
      ensures Done(RootTask(owner), old(world)) && Done(StoreTask(owner), old(world)) ==>
        ok && world == old(world) && budget == old(budget)
    {
      ghost var w, b := world, budget;
      ok := FindOrCreateRootKey(owner, e);
      if !ok { DidNotStart(RootTask(owner), [StoreTask(owner)], w, b, world, budget); return; }
      ghost var w1, b1 := world, budget;
      ResolveKept(w, w1, owner);
      ok := EnsureDerivationPath(owner, e);
      DidTwo(RootTask(owner), StoreTask(owner), ok, w, b, w1, b1, world, budget);
    }

    method EnsureActiveKey(ghost owner: Owner, e: Entity) returns (ok: bool)
      requires Valid(world) && Resolve(world, owner) == Some(e)
      modifies this
      ensures DidAll(KeyTasks(owner), ok, old(world), old(budget), world, budget)
      ensures AllDone(KeyTasks(owner), old(world)) ==> ok && world == old(world) && budget == old(budget)
    {
      ghost var w, b := world, budget;
      ghost var tasks, more := KeyTasks(owner), [RootTask(owner), StoreTask(owner)];
      MasterFirst(owner);
      assert AllDone(tasks, w) ==> Done(tasks[0], w) && Done(tasks[1], w) && Done(tasks[2], w);
      ok := EnsureMasterKey(owner, e);
      ghost var w1, b1 := world, budget;
      ResolveKept(w, w1, owner);
      if !ok { DidNotStart(MasterTask(owner), more, w, b, w1, b1); return; }
      DidOne(MasterTask(owner), true, w, b, w1, b1);
      ok := FindAndStoreKey(owner, e);
      DidBoth([MasterTask(owner)], more, ok, w, b, w1, b1, world, budget);
    }

    /** `create_client` */
    method CreateClient(app: App, spec: ClientSpec, redirects: seq<string>) returns (r: Option<Client>)
      requires Valid(world) && spec.app in world.apps && world.apps[spec.app] == app
      requires spec.clientId !in world.clients && redirects == [spec.uri + "/callback"]
      modifies this
      ensures DidAll(ClientTasks(spec), r.Some?, old(world), old(budget), world, budget)
      ensures r.Some? ==> spec.clientId in world.clients && world.clients[spec.clientId] == r.value
      ensures r.Some? ==> AllDone(KeyTasks(ClientOwner(spec.clientId)), world)
    {
      ghost var w, b := world, budget;
      DoKeeps(ClientTask(spec), world);
      var client := Client(world.next, app.id, spec.clientId, spec.name, spec.uri,
                           spec.scopes, spec.profile, redirects);
      var ok := Put(world.(next := world.next + 1, clients := world.clients[spec.clientId := client]));
      ghost var owner := ClientOwner(spec.clientId);
      if !ok { DidNotStart(ClientTask(spec), KeyTasks(owner), w, b, world, budget); return None; }
      ghost var w1, b1 := world, budget;
      DidOne(ClientTask(spec), true, w, b, w1, b1);
      ok := CreateKeys(owner, ClientEntity(client.id));
      DidBoth([ClientTask(spec)], KeyTasks(owner), ok, w, b, w1, b1, world, budget);
      if !ok { return None; }
      KeysLeaveClients(owner, w1);
      return Some(client);
    }

    method EnsureClient(app: App, spec: ClientSpec) returns (r: Option<Client>)
      requires Valid(world) && spec.app in world.apps && world.apps[spec.app] == app
      modifies this
      ensures DidAll(if spec.clientId in old(world).clients then [ClientTask(spec)] else ClientTasks(spec),
                     r.Some?, old(world), old(budget), world, budget)
      ensures r.Some? ==> spec.clientId in world.clients && world.clients[spec.clientId] == r.value
      ensures r.Some? && spec.clientId !in old(world).clients ==> AllDone(KeyTasks(ClientOwner(spec.clientId)), world)
    {
      ghost var w, b := world, budget;
      var redirects := [spec.uri + "/callback"];
      if spec.clientId in world.clients {
        var client, ok := UpdateClient(app, spec, redirects);
        DidOne(ClientTask(spec), ok, w, b, world, budget);
        return if ok then Some(client) else None;
      }
      r := CreateClient(app, spec, redirects);
    }

    /** The row is written back only if a field was edited. */
    method UpdateClient(app: App, spec: ClientSpec, redirects: seq<string>) returns (client: Client, ok: bool)
      requires Valid(world) && spec.app in world.apps && world.apps[spec.app] == app
      requires spec.clientId in world.clients && redirects == [spec.uri + "/callback"]
      modifies this
      ensures Did(ClientTask(spec), ok, old(world), old(budget), world, budget)
      ensures ok ==> spec.clientId in world.clients && world.clients[spec.clientId] == client
    {
      DoKeeps(ClientTask(spec), world);
      var changed;
      client, changed := EditClient(world.clients[spec.clientId], app.id, spec, redirects);
      ok := true;
      if changed { ok := Put(world.(clients := world.clients[spec.clientId := client])); }
    }

    method EnsureClientWithKey(app: App, spec: ClientSpec) returns (ok: bool)
      requires Valid(world) && spec.app in world.apps && world.apps[spec.app] == app
      modifies this
      ensures DidAll(ClientTasks(spec), ok, old(world), old(budget), world, budget)
    {
      ghost var w, b := world, budget;
      ghost var owner := ClientOwner(spec.clientId);
      var client := EnsureClient(app, spec);
      ghost var w1, b1 := world, budget;
      if client == None {
        if spec.clientId in w.clients { DidFirst([ClientTask(spec)], KeyTasks(owner), w, b, w1, b1); }
        return false;
      }
      ok := EnsureActiveKey(owner, ClientEntity(client.value.id));
      if spec.clientId in w.clients { DidBoth([ClientTask(spec)], KeyTasks(owner), ok, w, b, w1, b1, world, budget); }
    }

    method EnsureOptionalClient(app: App, spec: Option<ClientSpec>) returns (ok: bool)
      requires Valid(world) && (spec.Some? ==> spec.value.app in world.apps && world.apps[spec.value.app] == app)
      modifies this
      ensures DidAll(OptionalTasks(spec), ok, old(world), old(budget), world, budget)
    {
      if spec == None {
        DidNone(world, budget);
        return true;
      }
      ok := EnsureClientWithKey(app, spec.value);
    }

    /** An application and the clients the configuration asks for. */
    method EnsureApplicationWithClients(name: string, uri: string, web: Option<ClientSpec>, desktop: Option<ClientSpec>)
      returns (r: Option<App>)
      requires Valid(world) && (web.Some? ==> web.value.app == uri) && (desktop.Some? ==> desktop.value.app == uri)
      modifies this
      ensures DidAll(ApplicationTasks(name, uri, web, desktop), r.Some?, old(world), old(budget), world, budget)
      ensures r.Some? ==> uri in world.apps && world.apps[uri] == r.value
    {
      ghost var w, b := world, budget;
      ghost var one, two, three := [AppTask(name, uri)], OptionalTasks(web), OptionalTasks(desktop);
      r := EnsureApplication(name, uri);
      DidOne(AppTask(name, uri), r.Some?, w, b, world, budget);
      if r == None { DidFirst(one, two + three, w, b, world, budget); return; }
      ghost var w1, b1 := world, budget;
      var ok := EnsureOptionalClient(r.value, web);
      if !ok {
        DidFirst(two, three, w1, b1, world, budget);
        DidBoth(one, two + three, false, w, b, w1, b1, world, budget);
        return None;
      }
      ghost var w2, b2 := world, budget;
      ok := EnsureOptionalClient(r.value, desktop);
      DidBoth(two, three, ok, w1, b1, w2, b2, world, budget);
      DidBoth(one, two + three, ok, w, b, w1, b1, world, budget);
      if !ok { return None; }
    }

    /** The permission for everything, and the admin role having it. */
    method EnsureAdminPermission(app: Id, role: Id) returns (ok: bool)
      requires Valid(world) && MANAGEMENT in world.apps && world.apps[MANAGEMENT].id == app
      requires AdminRole(world) == Some(role)
      modifies this
      ensures DidAll([PermissionTask, RolePermissionTask], ok, old(world), old(budget), world, budget)
      ensures ok ==> AdminRole(world) == Some(role)
    {
      ghost var w, b := world, budget;
      var permission := EnsurePermission(app);
      if permission == None { DidNotStart(PermissionTask, [RolePermissionTask], w, b, world, budget); return false; }
      ghost var w1, b1 := world, budget;
      ok := EnsureRolePermission(role, permission.value);
      DidTwo(PermissionTask, RolePermissionTask, ok, w, b, w1, b1, world, budget);
    }

    /** The admin role with the permission for everything. */
    method EnsureAdminRole(app: Id) returns (r: Option<Id>)
      requires Valid(world) && MANAGEMENT in world.apps && world.apps[MANAGEMENT].id == app
      modifies this
      ensures DidAll([RoleTask, PermissionTask, RolePermissionTask], r.Some?, old(world), old(budget), world, budget)
      ensures r.Some? ==> AdminRole(world) == r
    {
      ghost var w, b := world, budget;
      ghost var more := [PermissionTask, RolePermissionTask];
      assert [RoleTask] + more == [RoleTask, PermissionTask, RolePermissionTask];
      r := EnsureRole(app);
      ghost var w1, b1 := world, budget;
      if r == None { DidNotStart(RoleTask, more, w, b, w1, b1); return; }
      DidOne(RoleTask, true, w, b, w1, b1);
      var ok := EnsureAdminPermission(app, r.value);
      DidBoth([RoleTask], more, ok, w, b, w1, b1, world, budget);
      if !ok { return None; }
    }

    method EnsureManagementAdminAccess(ghost name: string, user: Id, app: Id) returns (ok: bool)
      requires Valid(world) && UserId(world, name) == Some(user)
      requires MANAGEMENT in world.apps && world.apps[MANAGEMENT].id == app
      modifies this
      ensures DidAll(AccessTasks(name), ok, old(world), old(budget), world, budget)
      ensures ok ==> AdminMet(world, user)
    {
      ghost var w, b := world, budget;
      AccessMeets(name, user, w);
      ghost var three, last := [RoleTask, PermissionTask, RolePermissionTask], [UserRoleTask(name)];
      assert AccessTasks(name) == three + last;
      var role := EnsureAdminRole(app);
      if role == None { DidFirst(three, last, w, b, world, budget); return false; }
      ghost var w1, b1 := world, budget;
      LookupsKept(w, w1);
      ok := EnsureUserRole(name, app, user, role.value);
      DidOne(UserRoleTask(name), ok, w1, b1, world, budget);
      DidBoth(three, last, ok, w, b, w1, b1, world, budget);
    }

    method EnsureIdp(config: Config) returns (r: Option<App>)
      requires Valid(world)
      modifies this
      ensures DidAll(IdpTasks(config), r.Some?, old(world), old(budget), world, budget)
    {
      r := EnsureApplicationWithClients(
        "IdP", "lidp",
        Spec(config.web, "idp-web", "IdP Web", config.idpUrl, Web, "lidp"),
        Spec(config.desktop, "idp-desktop", "IdP Desktop", config.idpUrl, Native, "lidp"));
    }

    method EnsureManagement(config: Config) returns (r: Option<App>)
      requires Valid(world)
      modifies this
      ensures DidAll(ManagementTasks(config), r.Some?, old(world), old(budget), world, budget)
      ensures r.Some? ==> MANAGEMENT in world.apps && world.apps[MANAGEMENT] == r.value
    {
      r := EnsureApplicationWithClients(
        "Management", MANAGEMENT,
        Spec(config.web, "management-web", "Management Web", config.managementUrl, Web, MANAGEMENT),
        Spec(config.desktop, "management-desktop", "Management Desktop", config.managementUrl, Native, MANAGEMENT));
    }

    method EnsureOptionalDevice(input: Input, user: Id, device: Option<Enrolled>) returns (ok: bool)
      requires Valid(world) && UserId(world, input.username) == Some(user)
      modifies this
      ensures DidAll(DeviceTasks(input, device), ok, old(world), old(budget), world, budget)
    {
      ghost var w, b := world, budget;
      if device == None {
        DidNone(world, budget);
        return true;
      }
      ok := EnsureBootstrapDevice(input.username, user, input.deviceName, device.value.publicKey, device.value.address);
      DidOne(DeviceTask(input.username, input.deviceName, device.value.publicKey, device.value.address),
             ok, w, b, world, budget);
    }

    /** Everything about an administrator that exists. */
    method EnsureAdminRights(input: Input, user: Id, device: Option<Enrolled>, app: Id) returns (ok: bool)
      requires Valid(world) && UserId(world, input.username) == Some(user)
      requires MANAGEMENT in world.apps && world.apps[MANAGEMENT].id == app
      modifies this
      ensures DidAll(DeviceTasks(input, device) + (AccessTasks(input.username) + KeyTasks(UserOwner(input.username))),
                     ok, old(world), old(budget), world, budget)
    {
      ghost var w, b := world, budget;
      ghost var one, two, three :=
        DeviceTasks(input, device), AccessTasks(input.username), KeyTasks(UserOwner(input.username));
      ok := EnsureOptionalDevice(input, user, device);
      if !ok { DidFirst(one, two + three, w, b, world, budget); return; }
      ghost var w1, b1 := world, budget;
      LookupsKept(w, w1);
      ok := EnsureManagementAdminAccess(input.username, user, app);
      if !ok {
        DidFirst(two, three, w1, b1, world, budget);
        DidBoth(one, two + three, false, w, b, w1, b1, world, budget);
        return;
      }
      ghost var w2, b2 := world, budget;
      LookupsKept(w1, w2);
      ok := EnsureActiveKey(UserOwner(input.username), UserEntity(user));
      DidBoth(two, three, ok, w1, b1, w2, b2, world, budget);
      DidBoth(one, two + three, ok, w, b, w1, b1, world, budget);
    }

    method EnsureAdmin(input: Input, device: Option<Enrolled>, app: Id) returns (r: Result<Id, SetupError>)
      requires Valid(world) && MANAGEMENT in world.apps && world.apps[MANAGEMENT].id == app
      modifies this
      ensures r == Err(PasswordRequired) ==>
        UserId(world, input.username) == None && IsBlank(input.password) && world == old(world)
      ensures r != Err(PasswordRequired) ==>
        DidAll(AdminTasks(input, device), r.Ok?, old(world), old(budget), world, budget)
      ensures r.Ok? ==> UserId(world, input.username) == Some(r.value)
    {
      ghost var w, b := world, budget;
      ghost var one := [UserTask(input.username)];
      ghost var more :=
        DeviceTasks(input, device) + (AccessTasks(input.username) + KeyTasks(UserOwner(input.username)));
      r := EnsureAdminUser(input.username, input.password);
      if r == Err(PasswordRequired) { return; }
      ghost var w1, b1 := world, budget;
      DidOne(UserTask(input.username), r.Ok?, w, b, w1, b1);
      if r.Err? { DidFirst(one, more, w, b, w1, b1); return; }
      var ok := EnsureAdminRights(input, r.value, device, app);
      DidBoth(one, more, ok, w, b, w1, b1, world, budget);
      LookupsKept(w1, world);
      if !ok { return Err(Interrupted); }
    }

    /** The management application and the administrator. */
    method EnsureManagementAndAdmin(config: Config, input: Input, device: Option<Enrolled>)
      returns (r: Result<Id, SetupError>)
      requires Valid(world)
      modifies this
      ensures r == Err(PasswordRequired) ==>
        UserId(old(world), input.username) == None && IsBlank(input.password) &&
        world == Perform(ManagementTasks(config), old(world)) && Valid(world) && Kept(old(world), world)
      ensures r != Err(PasswordRequired) ==>
        DidAll(ManagementTasks(config) + AdminTasks(input, device), r.Ok?, old(world), old(budget), world, budget)
      ensures r.Ok? ==> UserId(world, input.username) == Some(r.value)
    {
      ghost var w, b := world, budget;
      ghost var two, three := ManagementTasks(config), AdminTasks(input, device);
      var management := EnsureManagement(config);
      ghost var w1, b1 := world, budget;
      if management == None { DidFirst(two, three, w, b, w1, b1); return Err(Interrupted); }
      r := EnsureAdmin(input, device, management.value.id);
      if r == Err(PasswordRequired) {
        LookupsKept(w, w1);
      } else {
        DidBoth(two, three, r.Ok?, w, b, w1, b1, world, budget);
      }
    }

    /** `ensure_system_baseline`: does the whole plan, or a prefix of it when a write fails or
        the administrator would have to be created with a blank password. Enough writes for
        the plan are enough to finish. */
    method EnsureSystemBaseline(config: Config, input: Input, device: Option<Enrolled>)
      returns (r: Result<Id, SetupError>)
      requires Valid(world)
      modifies this
      ensures Valid(world)
      ensures r.Ok? ==>
        world == Perform(Plan(config, input, device), old(world)) && UserId(world, input.username) == Some(r.value)
      ensures r.Err? ==> CutShort(Plan(config, input, device), old(world), world)
      ensures r == Err(Interrupted) ==> old(budget) < |Plan(config, input, device)|
      ensures r == Err(PasswordRequired) ==> UserId(old(world), input.username) == None && IsBlank(input.password)
      ensures r.Ok? ==> Baseline(config, input, device, old(world), world, r.value)
      ensures OnlyBaseline(config, input, old(world), world)
    {
      ghost var w := world;
      r := EnsurePlan(config, input, device);
      if r.Ok? {
        PlanMeets(config, input, device, w);
        PlanFrame(config, input, device, w, Plan(config, input, device));
      } else {
        CutFrame(config, input, device, w, world);
      }
    }

    method EnsurePlan(config: Config, input: Input, device: Option<Enrolled>) returns (r: Result<Id, SetupError>)
      requires Valid(world)
      modifies this
      ensures Valid(world)
      ensures r.Ok? ==>
        world == Perform(Plan(config, input, device), old(world)) && UserId(world, input.username) == Some(r.value)
      ensures r.Err? ==> CutShort(Plan(config, input, device), old(world), world)
      ensures r == Err(Interrupted) ==> old(budget) < |Plan(config, input, device)|
      ensures r == Err(PasswordRequired) ==> UserId(old(world), input.username) == None && IsBlank(input.password)
    {
      ghost var w, b := world, budget;
      ghost var one, two, three := IdpTasks(config), ManagementTasks(config), AdminTasks(input, device);
      var idp := EnsureIdp(config);
      ghost var w1, b1 := world, budget;
      if idp == None { DidFirst(one, two + three, w, b, w1, b1); return Err(Interrupted); }
      LookupsKept(w, w1);
      r := EnsureManagementAndAdmin(config, input, device);
      if r == Err(PasswordRequired) {
        NotYet(one, two, three, w);
      } else {
        DidBoth(one, two + three, r.Ok?, w, b, w1, b1, world, budget);
      }
    }
  }

  lemma CutFrame(config: Config, input: Input, device: Option<Enrolled>, w: World, v: World)
    requires Valid(w) && CutShort(Plan(config, input, device), w, v)
    ensures OnlyBaseline(config, input, w, v)
  {
    var done: seq<Task> :| done <= Plan(config, input, device) && v == Perform(done, w);
    PlanFrame(config, input, device, w, done);
  }

  lemma NotYet(a: seq<Task>, b: seq<Task>, c: seq<Task>, w: World)
    ensures CutShort(a + (b + c), w, Perform(b, Perform(a, w)))
  {
    PerformConcat(a, b, w);
    assert a + b <= a + (b + c);
  }

  lemma KeysPresent(owner: Owner, e: Entity, w: World)
    requires Resolve(w, owner) == Some(e) && (e, None) in w.stored && e in w.roots && (e, Some(w.roots[e])) in w.stored
    ensures AllDone(KeyTasks(owner), w)
  {
  }

  // ---------------------------------------------------------------- what setup promises

  /** What a failed call leaves is one cut-off attempt. */
  lemma FailedIsAttempt(tasks: seq<Task>, w: World, v: World) returns (cut: nat)
    requires CutShort(tasks, w, v)
    ensures cut <= |tasks| && v == Attempts(tasks, [cut], w)
  {
    var done :| done <= tasks && v == Perform(done, w);
    cut := |done|;
    assert tasks[..cut] == done;
    assert Attempts(tasks, [cut], w) == Attempts(tasks, [cut][1..], Perform(done, w)) == v;
  }

  /** After any runs that were cut off anywhere, a run that completes ends exactly where one
      uninterrupted run would have ended, with everything found by the next. */
  lemma SetupResumes(config: Config, input: Input, device: Option<Enrolled>, cuts: seq<nat>, w: World)
    requires Valid(w) && Fits(w)
    ensures var plan := Plan(config, input, device);
            Perform(plan, Attempts(plan, cuts, w)) == Perform(plan, w) && AllDone(plan, Perform(plan, w))
  {
    PlanOrdered(config, input, device);
    PlanCompatible(config, input, device);
    ResumesAlways(Plan(config, input, device), cuts, w);
  }

  /** Each world is what a failed call made of the one before it. */
  ghost predicate FailedCalls(tasks: seq<Task>, worlds: seq<World>) {
    worlds != [] &&
    forall i, j :: 0 <= i < |worlds| && 0 <= j < |worlds| && j == i + 1 ==> CutShort(tasks, worlds[i], worlds[j])
  }

  lemma {:induction false} FailuresForgotten(tasks: seq<Task>, worlds: seq<World>)
    requires FailedCalls(tasks, worlds) && Ordered(tasks) && AllCompatible(tasks)
    requires Valid(worlds[0]) && Fits(worlds[0])
    ensures var last := worlds[|worlds| - 1];
            Valid(last) && Fits(last) && Perform(tasks, last) == Perform(tasks, worlds[0])
  {
    if |worlds| > 1 {
      var before := worlds[..|worlds| - 1];
      FailuresForgotten(tasks, before);
      FailureForgotten(tasks, before[|before| - 1], worlds[|worlds| - 1]);
    }
  }

  lemma FailureForgotten(tasks: seq<Task>, w: World, v: World)
    requires CutShort(tasks, w, v) && Ordered(tasks) && AllCompatible(tasks) && Valid(w) && Fits(w)
    ensures Valid(v) && Fits(v) && Perform(tasks, v) == Perform(tasks, w)
  {
    var cut := FailedIsAttempt(tasks, w, v);
    ResumesAlways(tasks, [cut], w);
    var done :| done <= tasks && v == Perform(done, w);
    PerformKeeps(done, w);
  }

  /** After any list of failed calls, a call that returns Ok leaves the system exactly as one
      call that never failed would have left it. */
  lemma SetupAfterFailures(config: Config, input: Input, device: Option<Enrolled>, worlds: seq<World>, v: World)
    requires FailedCalls(Plan(config, input, device), worlds) && Valid(worlds[0]) && Fits(worlds[0])
    requires v == Perform(Plan(config, input, device), worlds[|worlds| - 1])
    ensures v == Perform(Plan(config, input, device), worlds[0]) && AllDone(Plan(config, input, device), v)
  {
    PlanOrdered(config, input, device);
    PlanCompatible(config, input, device);
    FailuresForgotten(Plan(config, input, device), worlds);
    SetupResumes(config, input, device, [], worlds[0]);
  }

  /** One more run changes nothing exactly when the management lists had room at the start. */
  lemma SetupRepeatsIff(config: Config, input: Input, device: Option<Enrolled>, w: World)
    requires Valid(w)
    ensures var plan := Plan(config, input, device); var v := Perform(plan, w);
            (AllDone(plan, v) <==> Fits(w)) && (Perform(plan, v) == v <==> Fits(w))
  {
    PlanOrdered(config, input, device);
    PlanCompatible(config, input, device);
    AccessPlanned(config, input, device);
    RepeatsIff(Plan(config, input, device), w);
  }

  /** Fewer than a thousand roles and permissions always suffice. */
  lemma FewFit(w: World)
    requires MANAGEMENT in w.apps ==>
      |ActiveOf(w.roles, w.apps[MANAGEMENT].id)| < LIMIT && |ActiveOf(w.permissions, w.apps[MANAGEMENT].id)| < LIMIT
    ensures Fits(w)
  {
    if MANAGEMENT in w.apps {
      BeforeAtMost(ActiveOf(w.roles, w.apps[MANAGEMENT].id), ADMIN);
    }
  }

  lemma {:induction false} BeforeAtMost(rows: seq<Row>, name: string)
    ensures Before(rows, name) <= |rows|
  {
    if rows != [] { BeforeAtMost(rows[1..], name); }
  }

  function Same(n: nat, row: Row): seq<Row> {
    if n == 0 then [] else [row] + Same(n - 1, row)
  }

  lemma {:induction false} AllSame(n: nat, row: Row)
    requires row.active && row.name != ANY
    ensures ActiveOf(Same(n, row), row.app) == Same(n, row) && |Same(n, row)| == n
    ensures FirstNamed(Same(n, row), ANY) == None
    ensures forall i :: 0 <= i < n ==> Same(n, row)[i] == row
  {
    if n > 0 {
      AllSame(n - 1, row);
      assert Same(n, row)[1..] == Same(n - 1, row);
    }
  }

  /** A thousand do not: with that many other permissions the one for everything is created
      past the end of the list, and again by every later run. */
  lemma ThousandDoNot() returns (w: World)
    ensures Valid(w) && w.roles == [] && MANAGEMENT in w.apps
    ensures |ActiveOf(w.permissions, w.apps[MANAGEMENT].id)| == 1000 && !Fits(w)
  {
    var row := Row(0, 0, "read", true);
    AllSame(1000, row);
    var apps := map[MANAGEMENT := App(0, "Management", MANAGEMENT)];
    w := World(1, 0, apps, map[], {}, map[], map[], [], [], Same(1000, row), {}, {}, map[], {});
    assert Take(Same(1000, row), LIMIT) == Same(1000, row);
  }
}
