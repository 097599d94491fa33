/** What a system that was set up has, in terms of its repositories alone: applications, clients
    with their keys, an administrator with role, permission and keys, and the first device. */
module SystemOutcome {
  import opened Text
  import opened NamedRows
  import opened SystemBaseline
  import opened SystemPlan

  /** A master key, an active root key, and the root key's stored private key. */
  predicate KeysMet(w: World, e: Entity) {
    (e, None) in w.stored && e in w.roots && (e, Some(w.roots[e])) in w.stored
  }

  predicate ClientMet(w: World, clientId: string, name: string, uri: string, profile: Profile, app: string) {
    && app in w.apps && clientId in w.clients
    && var c := w.clients[clientId];
       && c.clientId == clientId && c.app == w.apps[app].id && c.name == name && c.uri == uri && c.profile == profile
       && c.scopes == ["openid", "profile", "address", "offline", "storage", "email", "phone"]
       && c.redirects == [uri + "/callback"]
       && KeysMet(w, ClientEntity(c.id))
  }

  predicate IsRow(row: Row, app: Id, name: string) {
    row.app == app && row.name == name && row.active
  }

  /** The user has a role "admin" of the management application that carries its permission "*". */
  predicate AdminMet(w: World, user: Id) {
    "idp-management" in w.apps && var app := w.apps["idp-management"].id;
    exists r, p :: 0 <= r < |w.roles| && 0 <= p < |w.permissions| &&
                   IsRow(w.roles[r], app, "admin") && IsRow(w.permissions[p], app, "*") &&
                   (w.roles[r].id, w.permissions[p].id) in w.rolePermissions &&
                   (app, user, w.roles[r].id) in w.userRoles
  }

  /** The name is the user's, or else the email address of an existing user. */
  predicate IsUser(w: World, name: string, user: Id) {
    if name in w.handles then w.handles[name] == user
    else name in w.emails && w.emails[name] == user && user in w.users
  }

  /** A given device becomes the first one, approved; otherwise devices stay as they were. */
  predicate DeviceMet(input: Input, device: Option<Enrolled>, before: seq<Device>, devices: seq<Device>, user: Id) {
    if device.Some? && before == [] then
      devices == [Device(user, input.deviceName, device.value.publicKey, device.value.address, true)]
    else
      devices == before
  }

  predicate IdpMet(c: Config, w: World) {
    && "lidp" in w.apps && w.apps["lidp"].uri == "lidp"
    && (c.web ==> ClientMet(w, "idp-web", "IdP Web", c.idpUrl, Web, "lidp"))
    && (c.desktop ==> ClientMet(w, "idp-desktop", "IdP Desktop", c.idpUrl, Native, "lidp"))
  }

  predicate ManagementMet(c: Config, w: World) {
    && "idp-management" in w.apps && w.apps["idp-management"].uri == "idp-management"
    && (c.web ==> ClientMet(w, "management-web", "Management Web", c.managementUrl, Web, "idp-management"))
    && (c.desktop ==>
          ClientMet(w, "management-desktop", "Management Desktop", c.managementUrl, Native, "idp-management"))
  }

  /** The administrator exists with role, permission and keys, and the first device is theirs. */
  predicate AdministratorMet(input: Input, device: Option<Enrolled>, before: World, w: World, user: Id) {
    && IsUser(w, input.username, user) && AdminMet(w, user) && KeysMet(w, UserEntity(user))
    && DeviceMet(input, device, before.devices, w.devices, user)
  }

  /** What `ensure_system_baseline` is for. */
  predicate Baseline(c: Config, input: Input, device: Option<Enrolled>, before: World, w: World, user: Id) {
    IdpMet(c, w) && ManagementMet(c, w) && AdministratorMet(input, device, before, w, user)
  }

  // ---------------------------------------------------------------- what later tasks leave alone

  lemma KeptTransitive(w: World, u: World, v: World)
    requires Kept(w, u) && Kept(u, v)
    ensures Kept(w, v)
  {
    LookupsKept(w, u);
  }

  lemma {:induction false} PerformKept(tasks: seq<Task>, w: World)
    requires Valid(w)
    ensures Valid(Perform(tasks, w)) && Kept(w, Perform(tasks, w))
  {
    if tasks == [] {
      RelationKeeps(w, w.devices, w.rolePermissions, w.userRoles);
    } else {
      DoKeeps(tasks[0], w);
      PerformKept(tasks[1..], Do(tasks[0], w));
      KeptTransitive(w, Do(tasks[0], w), Perform(tasks, w));
    }
  }

  lemma ResolveKept(w: World, v: World, owner: Owner)
    requires Kept(w, v) && Resolve(w, owner).Some?
    ensures Resolve(v, owner) == Resolve(w, owner)
  {
  }

  lemma PerformOne(t: Task, w: World)
    ensures Perform([t], w) == Do(t, w)
  {
    assert [t][1..] == [];
  }

  lemma KeysMetKept(w: World, v: World, e: Entity)
    requires KeysMet(w, e) && Kept(w, v)
    ensures KeysMet(v, e)
  {
  }

  lemma AdminMetKept(w: World, v: World, user: Id)
    requires AdminMet(w, user) && Kept(w, v)
    ensures AdminMet(v, user)
  {
    var app := w.apps["idp-management"].id;
    var r, p :| 0 <= r < |w.roles| && 0 <= p < |w.permissions| &&
      IsRow(w.roles[r], app, "admin") && IsRow(w.permissions[p], app, "*") &&
      (w.roles[r].id, w.permissions[p].id) in w.rolePermissions && (app, user, w.roles[r].id) in w.userRoles;
    assert v.roles[r] == w.roles[r] && v.permissions[p] == w.permissions[p];
  }

  predicate NoClient(tasks: seq<Task>, clientId: string) {
    forall i :: 0 <= i < |tasks| ==> !(tasks[i].ClientTask? && tasks[i].spec.clientId == clientId)
  }

  lemma {:induction false} ClientUntouched(tasks: seq<Task>, w: World, clientId: string)
    requires clientId in w.clients && NoClient(tasks, clientId)
    ensures clientId in Perform(tasks, w).clients && Perform(tasks, w).clients[clientId] == w.clients[clientId]
  {
    if tasks != [] {
      OtherClients(clientId, tasks[0], w);
      ClientUntouched(tasks[1..], Do(tasks[0], w), clientId);
    }
  }

  lemma ClientStays(tasks: seq<Task>, w: World, clientId: string, name: string, uri: string, profile: Profile,
                    app: string)
    requires Valid(w) && ClientMet(w, clientId, name, uri, profile, app) && NoClient(tasks, clientId)
    ensures ClientMet(Perform(tasks, w), clientId, name, uri, profile, app)
  {
    PerformKept(tasks, w);
    ClientUntouched(tasks, w, clientId);
    KeysMetKept(w, Perform(tasks, w), ClientEntity(w.clients[clientId].id));
  }

  predicate NoDevice(tasks: seq<Task>) {
    forall i :: 0 <= i < |tasks| ==> !tasks[i].DeviceTask?
  }

  lemma {:induction false} DevicesUntouched(tasks: seq<Task>, w: World)
    requires NoDevice(tasks)
    ensures Perform(tasks, w).devices == w.devices
  {
    if tasks != [] {
      DevicesUntouched(tasks[1..], Do(tasks[0], w));
    }
  }

  // ---------------------------------------------------------------- key tasks

  lemma PerformThree(t0: Task, t1: Task, t2: Task, w: World)
    ensures Perform([t0, t1, t2], w) == Do(t2, Do(t1, Do(t0, w)))
  {
    assert [t0, t1, t2] == [t0] + ([t1] + [t2]);
    PerformConcat([t0], [t1] + [t2], w);
    PerformOne(t0, w);
    PerformConcat([t1], [t2], Do(t0, w));
    PerformOne(t1, Do(t0, w));
    PerformOne(t2, Do(t1, Do(t0, w)));
  }

  lemma MasterMeets(owner: Owner, e: Entity, w: World)
    requires Resolve(w, owner) == Some(e)
    ensures (e, None) in Do(MasterTask(owner), w).stored
  {
  }

  lemma RootMeets(owner: Owner, e: Entity, w: World)
    requires Resolve(w, owner) == Some(e)
    ensures e in Do(RootTask(owner), w).roots
  {
  }

  lemma StoreMeets(owner: Owner, e: Entity, w: World)
    requires Resolve(w, owner) == Some(e) && e in w.roots
    ensures var v := Do(StoreTask(owner), w); v.roots == w.roots && (e, Some(v.roots[e])) in v.stored
  {
  }

  /** Performing the key tasks of an entity gives it its keys. */
  lemma KeysMeet(owner: Owner, e: Entity, w: World)
    requires Valid(w) && Resolve(w, owner) == Some(e)
    ensures KeysMet(Perform(KeyTasks(owner), w), e)
  {
    var w1 := Do(MasterTask(owner), w);
    var w2 := Do(RootTask(owner), w1);
    PerformThree(MasterTask(owner), RootTask(owner), StoreTask(owner), w);
    DoKeeps(MasterTask(owner), w);
    ResolveKept(w, w1, owner);
    MasterMeets(owner, e, w);
    DoKeeps(RootTask(owner), w1);
    ResolveKept(w1, w2, owner);
    RootMeets(owner, e, w1);
    DoKeeps(StoreTask(owner), w2);
    StoreMeets(owner, e, w2);
  }

  lemma KeysLeaveClients(owner: Owner, w: World)
    ensures Perform(KeyTasks(owner), w).clients == w.clients
  {
    PerformThree(MasterTask(owner), RootTask(owner), StoreTask(owner), w);
  }

  // ---------------------------------------------------------------- client and application tasks

  ghost predicate SpecMet(w: World, spec: Option<ClientSpec>) {
    spec.Some? ==>
      ClientMet(w, spec.value.clientId, spec.value.name, spec.value.uri, spec.value.profile, spec.value.app)
  }

  lemma ClientRowMeets(spec: ClientSpec, w: World)
    requires spec.app in w.apps
    ensures var v := Do(ClientTask(spec), w);
            v.apps == w.apps && spec.clientId in v.clients &&
            v.clients[spec.clientId] == MakeClient(v.clients[spec.clientId].id, w.apps[spec.app].id, spec)
  {
  }

  /** Performing the tasks of a client leaves it with its fields and keys. */
  lemma ClientMeets(spec: ClientSpec, w: World)
    requires Valid(w) && spec.app in w.apps && spec.scopes == SCOPES
    ensures SpecMet(Perform(ClientTasks(spec), w), Some(spec))
  {
    var owner, w1 := ClientOwner(spec.clientId), Do(ClientTask(spec), w);
    var v := Perform(KeyTasks(owner), w1);
    PerformConcat([ClientTask(spec)], KeyTasks(owner), w);
    PerformOne(ClientTask(spec), w);
    DoKeeps(ClientTask(spec), w);
    ClientRowMeets(spec, w);
    PerformKept(KeyTasks(owner), w1);
    KeysLeaveClients(owner, w1);
    KeysMeet(owner, ClientEntity(w1.clients[spec.clientId].id), w1);
  }

  lemma OptionalMeets(spec: Option<ClientSpec>, w: World)
    requires Valid(w) && (spec.Some? ==> spec.value.app in w.apps && spec.value.scopes == SCOPES)
    ensures SpecMet(Perform(OptionalTasks(spec), w), spec)
  {
    if spec.Some? { ClientMeets(spec.value, w); }
  }

  lemma OtherClientOnly(spec: Option<ClientSpec>, clientId: string)
    requires spec.Some? ==> spec.value.clientId != clientId
    ensures NoClient(OptionalTasks(spec), clientId)
  {
  }

  lemma SpecStays(tasks: seq<Task>, w: World, spec: Option<ClientSpec>)
    requires Valid(w) && SpecMet(w, spec) && (spec.Some? ==> NoClient(tasks, spec.value.clientId))
    ensures SpecMet(Perform(tasks, w), spec)
  {
    if spec.Some? {
      ClientStays(tasks, w, spec.value.clientId, spec.value.name, spec.value.uri, spec.value.profile, spec.value.app);
    }
  }

  predicate ForApp(spec: Option<ClientSpec>, uri: string) {
    spec.Some? ==> spec.value.app == uri && spec.value.scopes == SCOPES
  }

  lemma TwoClientsMeet(uri: string, web: Option<ClientSpec>, desktop: Option<ClientSpec>, w: World)
    requires Valid(w) && uri in w.apps && ForApp(web, uri) && ForApp(desktop, uri)
    requires web.Some? && desktop.Some? ==> web.value.clientId != desktop.value.clientId
    ensures var v := Perform(OptionalTasks(web) + OptionalTasks(desktop), w); SpecMet(v, web) && SpecMet(v, desktop)
  {
    var one, two := OptionalTasks(web), OptionalTasks(desktop);
    PerformConcat(one, two, w);
    OptionalMeets(web, w);
    PerformKept(one, w);
    OptionalMeets(desktop, Perform(one, w));
    if web.Some? { OtherClientOnly(desktop, web.value.clientId); }
    SpecStays(two, Perform(one, w), web);
  }

  /** Performing the tasks of an application leaves it there, with both clients. */
  lemma ApplicationMeets(name: string, uri: string, web: Option<ClientSpec>, desktop: Option<ClientSpec>, w: World)
    requires Valid(w) && ForApp(web, uri) && ForApp(desktop, uri)
    requires web.Some? && desktop.Some? ==> web.value.clientId != desktop.value.clientId
    ensures var v := Perform(ApplicationTasks(name, uri, web, desktop), w);
            Valid(v) && uri in v.apps && SpecMet(v, web) && SpecMet(v, desktop)
  {
    var one, more := [AppTask(name, uri)], OptionalTasks(web) + OptionalTasks(desktop);
    var w1 := AppThere(name, uri, w);
    PerformConcat(one, more, w);
    TwoClientsMeet(uri, web, desktop, w1);
    PerformKept(more, w1);
  }

  lemma AppThere(name: string, uri: string, w: World) returns (v: World)
    requires Valid(w)
    ensures v == Perform([AppTask(name, uri)], w) && Valid(v) && uri in v.apps
  {
    v := Do(AppTask(name, uri), w);
    PerformOne(AppTask(name, uri), w);
    DoKeeps(AppTask(name, uri), w);
  }

  // ---------------------------------------------------------------- the administrator

  lemma JustCreated(rows: seq<Row>, row: Row)
    requires row.active
    ensures LastNamed(ActiveOf(rows + [row], row.app), row.name) == Some(row.id)
  {
    ActiveAppend(rows, row, row.app);
  }

  lemma CreatedRole(w: World)
    requires MANAGEMENT in w.apps && ListedRole(w) == None
    ensures AdminRole(Write(RoleTask, w)) == Some(w.next)
  {
    JustListed(w.roles, Row(w.next, w.apps[MANAGEMENT].id, ADMIN, true), LIMIT);
  }

  lemma CreatedPermission(w: World)
    requires MANAGEMENT in w.apps && ListedPermission(w) == None
    ensures AnyPermission(Write(PermissionTask, w)) == Some(w.next)
  {
    var app := w.apps[MANAGEMENT].id;
    var row := Row(w.next, app, ANY, true);
    var active := ActiveOf(w.permissions, app);
    JustCreated(w.permissions, row);
    ActiveAppend(w.permissions, row, app);
    FirstAppend(active, row, ANY);
    if |active| < LIMIT {
      assert Take(active + [row], LIMIT) == active + [row];
    } else {
      assert Take(active + [row], LIMIT) == Take(active, LIMIT);
    }
  }

  lemma RoleStaysChosen(t: Task, w: World)
    requires Valid(w) && MANAGEMENT in w.apps && (t.PermissionTask? || t.RolePermissionTask?)
    ensures AdminRole(Do(t, w)) == AdminRole(w)
  {
    var v := Do(t, w);
    assert v.apps == w.apps && v.roles == w.roles;
    assert ListRoles(v, v.apps[MANAGEMENT].id) == ListRoles(w, w.apps[MANAGEMENT].id);
  }

  /** The role and the permission that setup works with are rows of the management application. */
  lemma AdminRoleRow(w: World) returns (r: nat)
    requires AdminRole(w).Some?
    ensures r < |w.roles| && w.roles[r].id == AdminRole(w).value && IsRow(w.roles[r], w.apps[MANAGEMENT].id, ADMIN)
  {
    var app := w.apps[MANAGEMENT].id;
    var active := ActiveOf(w.roles, app);
    var row: Row;
    if ListedRole(w).Some? {
      row := FirstNamedRow(Take(SortByName(active), LIMIT), ADMIN);
      SortSorts(active);
      assert row in SortByName(active);
      assert row in multiset(SortByName(active));
    } else {
      row := LastNamedRow(active, ADMIN);
    }
    r := ActiveRow(w.roles, app, row);
  }

  lemma AnyPermissionRow(w: World) returns (p: nat)
    requires AnyPermission(w).Some?
    ensures p < |w.permissions| && w.permissions[p].id == AnyPermission(w).value
    ensures IsRow(w.permissions[p], w.apps[MANAGEMENT].id, ANY)
  {
    var app := w.apps[MANAGEMENT].id;
    var active := ActiveOf(w.permissions, app);
    var row: Row;
    if ListedPermission(w).Some? {
      row := FirstNamedRow(Take(active, LIMIT), ANY);
      assert row in active;
    } else {
      row := LastNamedRow(active, ANY);
    }
    p := ActiveRow(w.permissions, app, row);
  }

  lemma RoleMeets(w: World)
    requires MANAGEMENT in w.apps
    ensures AdminRole(Do(RoleTask, w)).Some?
  {
    if ListedRole(w) == None { CreatedRole(w); }
  }

  lemma PermissionMeets(w: World)
    requires MANAGEMENT in w.apps
    ensures AnyPermission(Do(PermissionTask, w)).Some?
  {
    if ListedPermission(w) == None { CreatedPermission(w); }
  }

  lemma RolePermissionMeets(w: World)
    requires MANAGEMENT in w.apps && AdminRole(w).Some? && AnyPermission(w).Some?
    ensures (AdminRole(w).value, AnyPermission(w).value) in Do(RolePermissionTask, w).rolePermissions
  {
  }

  lemma UserRoleMeets(name: string, user: Id, w: World)
    requires MANAGEMENT in w.apps && AdminRole(w).Some? && UserId(w, name) == Some(user)
    ensures (w.apps[MANAGEMENT].id, user, AdminRole(w).value) in Do(UserRoleTask(name), w).userRoles
  {
  }

  /** The role and permission a world works with are related. */
  predicate RoleReady(w: World, role: Id) {
    && MANAGEMENT in w.apps && AdminRole(w) == Some(role)
    && exists r, p :: 0 <= r < |w.roles| && 0 <= p < |w.permissions| &&
                      IsRow(w.roles[r], w.apps[MANAGEMENT].id, ADMIN) && w.roles[r].id == role &&
                      IsRow(w.permissions[p], w.apps[MANAGEMENT].id, ANY) &&
                      (role, w.permissions[p].id) in w.rolePermissions
  }

  lemma RelatedReady(w: World)
    requires Valid(w) && MANAGEMENT in w.apps && AdminRole(w).Some? && AnyPermission(w).Some?
    ensures RoleReady(Do(RolePermissionTask, w), AdminRole(w).value)
  {
    var v := Do(RolePermissionTask, w);
    var r := AdminRoleRow(w);
    var p := AnyPermissionRow(w);
    RolePermissionMeets(w);
    RoleStaysChosen(RolePermissionTask, w);
    assert v.apps == w.apps && v.roles == w.roles && v.permissions == w.permissions;
  }

  lemma RolesMeet(w: World)
    requires Valid(w) && MANAGEMENT in w.apps
    ensures var v := Perform([RoleTask, PermissionTask, RolePermissionTask], w);
            Valid(v) && Kept(w, v) && AdminRole(v).Some? && RoleReady(v, AdminRole(v).value)
  {
    PerformThree(RoleTask, PermissionTask, RolePermissionTask, w);
    PerformKept([RoleTask, PermissionTask, RolePermissionTask], w);
    var w1 := Do(RoleTask, w);
    DoKeeps(RoleTask, w);
    RoleMeets(w);
    DoKeeps(PermissionTask, w1);
    PermissionMeets(w1);
    RoleStaysChosen(PermissionTask, w1);
    RelatedReady(Do(PermissionTask, w1));
  }

  lemma ReadyMeets(name: string, user: Id, w: World)
    requires Valid(w) && AdminRole(w).Some? && RoleReady(w, AdminRole(w).value) && UserId(w, name) == Some(user)
    ensures AdminMet(Do(UserRoleTask(name), w), user)
  {
    var v, role, app := Do(UserRoleTask(name), w), AdminRole(w).value, w.apps[MANAGEMENT].id;
    UserRoleMeets(name, user, w);
    assert v.apps == w.apps && v.roles == w.roles && v.permissions == w.permissions;
    assert v.rolePermissions == w.rolePermissions;
    var r, p :| 0 <= r < |w.roles| && 0 <= p < |w.permissions| && IsRow(w.roles[r], app, ADMIN) &&
      w.roles[r].id == role && IsRow(w.permissions[p], app, ANY) && (role, w.permissions[p].id) in w.rolePermissions;
    assert IsRow(v.roles[r], app, "admin") && IsRow(v.permissions[p], app, "*");
  }

  /** Performing the access tasks of a user makes the user an administrator. */
  lemma AccessMeets(name: string, user: Id, w: World)
    requires Valid(w) && MANAGEMENT in w.apps && UserId(w, name) == Some(user)
    ensures AdminMet(Perform(AccessTasks(name), w), user)
  {
    var three := [RoleTask, PermissionTask, RolePermissionTask];
    assert AccessTasks(name) == three + [UserRoleTask(name)];
    PerformConcat(three, [UserRoleTask(name)], w);
    RolesMeet(w);
    var v := Perform(three, w);
    ResolveKept(w, v, UserOwner(name));
    PerformOne(UserRoleTask(name), v);
    ReadyMeets(name, user, v);
  }

  lemma DeviceMeets(input: Input, device: Option<Enrolled>, w: World, user: Id)
    requires UserId(w, input.username) == Some(user)
    ensures DeviceMet(input, device, w.devices, Perform(DeviceTasks(input, device), w).devices, user)
  {
    if device.Some? {
      PerformOne(DeviceTask(input.username, input.deviceName, device.value.publicKey, device.value.address), w);
    }
  }

  lemma UserThere(name: string, w: World) returns (v: World, user: Id)
    requires Valid(w)
    ensures v == Perform([UserTask(name)], w) && Valid(v) && Kept(w, v) && v.devices == w.devices
    ensures UserId(v, name) == Some(user)
  {
    v := Do(UserTask(name), w);
    PerformOne(UserTask(name), w);
    DoKeeps(UserTask(name), w);
    user := UserId(v, name).value;
  }

  lemma UserStays(tasks: seq<Task>, w: World, name: string)
    requires Valid(w) && UserId(w, name).Some?
    ensures Valid(Perform(tasks, w)) && UserId(Perform(tasks, w), name) == UserId(w, name)
    ensures MANAGEMENT in w.apps ==> MANAGEMENT in Perform(tasks, w).apps
  {
    PerformKept(tasks, w);
    LookupsKept(w, Perform(tasks, w));
  }

  lemma AdminStays(tasks: seq<Task>, w: World, user: Id)
    requires Valid(w) && AdminMet(w, user)
    ensures AdminMet(Perform(tasks, w), user)
  {
    PerformKept(tasks, w);
    AdminMetKept(w, Perform(tasks, w), user);
  }

  lemma AccessAndKeysMeet(name: string, w: World, user: Id)
    requires Valid(w) && MANAGEMENT in w.apps && UserId(w, name) == Some(user)
    ensures var v := Perform(AccessTasks(name) + KeyTasks(UserOwner(name)), w);
            AdminMet(v, user) && KeysMet(v, UserEntity(user)) && v.devices == w.devices
  {
    var one, two := AccessTasks(name), KeyTasks(UserOwner(name));
    var w1 := Perform(one, w);
    PerformConcat(one, two, w);
    UserStays(one, w, name);
    AccessMeets(name, user, w);
    AdminStays(two, w1, user);
    KeysMeet(UserOwner(name), UserEntity(user), w1);
    AccessLeavesDevices(name, w);
  }

  lemma AccessLeavesDevices(name: string, w: World)
    ensures Perform(AccessTasks(name) + KeyTasks(UserOwner(name)), w).devices == w.devices
  {
    assert NoDevice(AccessTasks(name) + KeyTasks(UserOwner(name)));
    DevicesUntouched(AccessTasks(name) + KeyTasks(UserOwner(name)), w);
  }

  /** After the user is there: device, access and keys. */
  lemma RightsMeet(input: Input, device: Option<Enrolled>, w: World, user: Id)
    requires Valid(w) && MANAGEMENT in w.apps && UserId(w, input.username) == Some(user)
    ensures var v := Perform(DeviceTasks(input, device) +
                             (AccessTasks(input.username) + KeyTasks(UserOwner(input.username))), w);
            UserId(v, input.username) == Some(user) && AdministratorMet(input, device, w, v, user)
  {
    var one, more := DeviceTasks(input, device), AccessTasks(input.username) + KeyTasks(UserOwner(input.username));
    PerformConcat(one, more, w);
    UserStays(one, w, input.username);
    UserStays(more, Perform(one, w), input.username);
    DeviceMeets(input, device, w, user);
    AccessAndKeysMeet(input.username, Perform(one, w), user);
  }

  lemma AdministratorMeets(input: Input, device: Option<Enrolled>, w: World)
    requires Valid(w) && MANAGEMENT in w.apps
    ensures var v := Perform(AdminTasks(input, device), w);
            UserId(v, input.username).Some? &&
            AdministratorMet(input, device, w, v, UserId(v, input.username).value)
  {
    var one := [UserTask(input.username)];
    var more := DeviceTasks(input, device) + (AccessTasks(input.username) + KeyTasks(UserOwner(input.username)));
    PerformConcat(one, more, w);
    var w1, user := UserThere(input.username, w);
    RightsMeet(input, device, w1, user);
  }

  // ---------------------------------------------------------------- the whole

  lemma AdminHasNoClient(input: Input, device: Option<Enrolled>, clientId: string)
    ensures NoClient(AdminTasks(input, device), clientId)
  {
  }

  lemma ApplicationClients(name: string, uri: string, web: Option<ClientSpec>, desktop: Option<ClientSpec>,
                           clientId: string)
    requires (web.Some? ==> web.value.clientId != clientId) && (desktop.Some? ==> desktop.value.clientId != clientId)
    ensures NoClient(ApplicationTasks(name, uri, web, desktop), clientId)
  {
  }

  lemma ApplicationNoDevice(name: string, uri: string, web: Option<ClientSpec>, desktop: Option<ClientSpec>, w: World)
    ensures Perform(ApplicationTasks(name, uri, web, desktop), w).devices == w.devices
  {
    assert NoDevice(ApplicationTasks(name, uri, web, desktop));
    DevicesUntouched(ApplicationTasks(name, uri, web, desktop), w);
  }

  lemma IdpMeets(c: Config, w: World)
    requires Valid(w)
    ensures Valid(Perform(IdpTasks(c), w)) && IdpMet(c, Perform(IdpTasks(c), w))
  {
    assert |"idp-web"| != |"idp-desktop"|;
    ApplicationMeets("IdP", "lidp", Spec(c.web, "idp-web", "IdP Web", c.idpUrl, Web, "lidp"),
                     Spec(c.desktop, "idp-desktop", "IdP Desktop", c.idpUrl, Native, "lidp"), w);
  }

  lemma ManagementMeets(c: Config, w: World)
    requires Valid(w)
    ensures Valid(Perform(ManagementTasks(c), w)) && ManagementMet(c, Perform(ManagementTasks(c), w))
  {
    assert |"management-web"| != |"management-desktop"|;
    ApplicationMeets("Management", MANAGEMENT,
                     Spec(c.web, "management-web", "Management Web", c.managementUrl, Web, MANAGEMENT),
                     Spec(c.desktop, "management-desktop", "Management Desktop", c.managementUrl, Native,
                          MANAGEMENT), w);
  }

  /** The management tasks are about clients with longer ids. */
  lemma ManagementClients(c: Config, clientId: string)
    requires |clientId| < 14
    ensures NoClient(ManagementTasks(c), clientId)
  {
    assert |"management-web"| == 14 && |"management-desktop"| == 18;
    ApplicationClients("Management", MANAGEMENT,
                       Spec(c.web, "management-web", "Management Web", c.managementUrl, Web, MANAGEMENT),
                       Spec(c.desktop, "management-desktop", "Management Desktop", c.managementUrl, Native, MANAGEMENT),
                       clientId);
  }

  lemma IdpStays(c: Config, tasks: seq<Task>, w: World)
    requires Valid(w) && IdpMet(c, w) && NoClient(tasks, "idp-web") && NoClient(tasks, "idp-desktop")
    ensures IdpMet(c, Perform(tasks, w))
  {
    PerformKept(tasks, w);
    if c.web { ClientStays(tasks, w, "idp-web", "IdP Web", c.idpUrl, Web, "lidp"); }
    if c.desktop { ClientStays(tasks, w, "idp-desktop", "IdP Desktop", c.idpUrl, Native, "lidp"); }
  }

  lemma ManagementStays(c: Config, tasks: seq<Task>, w: World)
    requires Valid(w) && ManagementMet(c, w)
    requires NoClient(tasks, "management-web") && NoClient(tasks, "management-desktop")
    ensures ManagementMet(c, Perform(tasks, w))
  {
    PerformKept(tasks, w);
    if c.web { ClientStays(tasks, w, "management-web", "Management Web", c.managementUrl, Web, "idp-management"); }
    if c.desktop {
      ClientStays(tasks, w, "management-desktop", "Management Desktop", c.managementUrl, Native, "idp-management");
    }
  }

  lemma ApplicationsMeet(c: Config, w: World)
    requires Valid(w)
    ensures var v := Perform(ManagementTasks(c), Perform(IdpTasks(c), w));
            Valid(v) && IdpMet(c, v) && ManagementMet(c, v)
  {
    var w1 := Perform(IdpTasks(c), w);
    IdpMeets(c, w);
    ManagementMeets(c, w1);
    ManagementClients(c, "idp-web");
    ManagementClients(c, "idp-desktop");
    IdpStays(c, ManagementTasks(c), w1);
  }

  lemma ApplicationsLeaveDevices(c: Config, w: World)
    ensures Perform(ManagementTasks(c), Perform(IdpTasks(c), w)).devices == w.devices
  {
    ApplicationNoDevice("IdP", "lidp", Spec(c.web, "idp-web", "IdP Web", c.idpUrl, Web, "lidp"),
                        Spec(c.desktop, "idp-desktop", "IdP Desktop", c.idpUrl, Native, "lidp"), w);
    ApplicationNoDevice("Management", MANAGEMENT,
                        Spec(c.web, "management-web", "Management Web", c.managementUrl, Web, MANAGEMENT),
                        Spec(c.desktop, "management-desktop", "Management Desktop", c.managementUrl, Native,
                             MANAGEMENT),
                        Perform(IdpTasks(c), w));
  }

  /** Performing the whole list leaves the baseline, whatever was there before and however long
      the lists of roles and permissions are. */
  lemma PlanMeets(c: Config, input: Input, device: Option<Enrolled>, w: World)
    requires Valid(w)
    ensures var v := Perform(Plan(c, input, device), w);
            UserId(v, input.username).Some? &&
            Baseline(c, input, device, w, v, UserId(v, input.username).value)
  {
    var one, two, three := IdpTasks(c), ManagementTasks(c), AdminTasks(input, device);
    PerformConcat(one, two + three, w);
    PerformConcat(two, three, Perform(one, w));
    var u := Perform(two, Perform(one, w));
    ApplicationsMeet(c, w);
    ApplicationsLeaveDevices(c, w);
    AdministratorMeets(input, device, u);
    BothStay(c, input, device, u);
  }

  lemma BothStay(c: Config, input: Input, device: Option<Enrolled>, w: World)
    requires Valid(w) && IdpMet(c, w) && ManagementMet(c, w)
    ensures var v := Perform(AdminTasks(input, device), w); Valid(v) && IdpMet(c, v) && ManagementMet(c, v)
  {
    var tasks := AdminTasks(input, device);
    AdminHasNoClient(input, device, "idp-web");
    AdminHasNoClient(input, device, "idp-desktop");
    AdminHasNoClient(input, device, "management-web");
    AdminHasNoClient(input, device, "management-desktop");
    PerformKept(tasks, w);
    IdpStays(c, tasks, w);
    ManagementStays(c, tasks, w);
  }
}
