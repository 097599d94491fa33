/** The list of tasks that setting the system up amounts to, for every configuration: what is
    in it, in which order, and that no two of its tasks disagree. */
module SystemPlan {
  import opened Text
  import opened SystemBaseline

  datatype Config = Config(web: bool, desktop: bool, idpUrl: string, managementUrl: string)

  datatype Input = Input(username: string, password: string, deviceName: string)

  datatype Enrolled = Enrolled(publicKey: string, address: string)

  const SCOPES := ["openid", "profile", "address", "offline", "storage", "email", "phone"]

  // ---------------------------------------------------------------- the list of tasks

  function KeyTasks(owner: Owner): seq<Task> {
    [MasterTask(owner), RootTask(owner), StoreTask(owner)]
  }

  function ClientTasks(spec: ClientSpec): seq<Task> {
    [ClientTask(spec)] + KeyTasks(ClientOwner(spec.clientId))
  }

  function ApplicationTasks(name: string, uri: string, web: Option<ClientSpec>,
                            desktop: Option<ClientSpec>): seq<Task> {
    [AppTask(name, uri)] + (OptionalTasks(web) + OptionalTasks(desktop))
  }

  function OptionalTasks(spec: Option<ClientSpec>): seq<Task> {
    if spec.Some? then ClientTasks(spec.value) else []
  }

  function AccessTasks(user: string): seq<Task> {
    [RoleTask, PermissionTask, RolePermissionTask, UserRoleTask(user)]
  }

  function DeviceTasks(input: Input, device: Option<Enrolled>): seq<Task> {
    if device.Some? then
      [DeviceTask(input.username, input.deviceName, device.value.publicKey, device.value.address)] else []
  }

  function AdminTasks(input: Input, device: Option<Enrolled>): seq<Task> {
    [UserTask(input.username)] + (DeviceTasks(input, device) +
                               (AccessTasks(input.username) + KeyTasks(UserOwner(input.username))))
  }

  function Spec(wanted: bool, clientId: string, name: string, uri: string, profile: Profile,
                app: string): Option<ClientSpec> {
    if wanted then Some(ClientSpec(clientId, name, uri, SCOPES, profile, app)) else None
  }

  function IdpTasks(c: Config): seq<Task> {
    ApplicationTasks("IdP", "lidp",
                     Spec(c.web, "idp-web", "IdP Web", c.idpUrl, Web, "lidp"),
                     Spec(c.desktop, "idp-desktop", "IdP Desktop", c.idpUrl, Native, "lidp"))
  }

  function ManagementTasks(c: Config): seq<Task> {
    ApplicationTasks("Management", MANAGEMENT,
                     Spec(c.web, "management-web", "Management Web", c.managementUrl, Web, MANAGEMENT),
                     Spec(c.desktop, "management-desktop", "Management Desktop", c.managementUrl, Native, MANAGEMENT))
  }

  function Plan(c: Config, input: Input, device: Option<Enrolled>): seq<Task> {
    IdpTasks(c) + (ManagementTasks(c) + AdminTasks(input, device))
  }

  // ---------------------------------------------------------------- the list is well formed

  lemma Associate(a: seq<Task>, b: seq<Task>, c: seq<Task>)
    ensures a + b + c == a + (b + c)
  {
  }

  lemma Associate4(a: seq<Task>, b: seq<Task>, c: seq<Task>, d: seq<Task>, e: seq<Task>)
    ensures a + b + c + d + e == a + (b + (c + (d + e)))
  {
  }

  lemma EmptyLeft(a: seq<Task>)
    ensures [] + a == a
  {
  }

  lemma OrderedConcat(a: seq<Task>, b: seq<Task>)
    requires Ordered(a) && forall i :: 0 <= i < |b| ==> Supports(a + b[..i], b[i])
    ensures Ordered(a + b)
  {
    forall i | 0 <= i < |a + b| ensures Supports((a + b)[..i], (a + b)[i]) {
      if i < |a| {
        assert (a + b)[..i] == a[..i];
      } else {
        assert (a + b)[..i] == a + b[..i - |a|];
      }
    }
  }

  lemma OneOrdered(a: seq<Task>, t: Task)
    requires Ordered(a) && Supports(a, t)
    ensures Ordered(a + [t])
  {
    assert a + [t][..0] == a;
    OrderedConcat(a, [t]);
  }

  lemma KeysOrdered(a: seq<Task>, owner: Owner)
    requires Ordered(a) && HasOwner(a, owner)
    ensures Ordered(a + KeyTasks(owner))
  {
    var b := KeyTasks(owner);
    OneOrdered(a, b[0]);
    OwnerStays(a, [b[0]], owner);
    OneOrdered(a + [b[0]], b[1]);
    OneOrdered(a + [b[0]] + [b[1]], b[2]);
    assert a + [b[0]] + [b[1]] + [b[2]] == a + b;
  }

  lemma OwnerStays(a: seq<Task>, b: seq<Task>, owner: Owner)
    requires HasOwner(a, owner)
    ensures HasOwner(a + b, owner)
  {
    if owner.ClientOwner? {
      var i :| 0 <= i < |a| && a[i].ClientTask? && a[i].spec.clientId == owner.clientId;
      assert (a + b)[i] == a[i];
    }
  }

  lemma AppStays(a: seq<Task>, b: seq<Task>, uri: string)
    requires HasApp(a, uri)
    ensures HasApp(a + b, uri)
  {
    var i :| 0 <= i < |a| && a[i].AppTask? && a[i].uri == uri;
    assert (a + b)[i] == a[i];
  }

  lemma ClientOrdered(a: seq<Task>, spec: Option<ClientSpec>, uri: string)
    requires Ordered(a) && HasApp(a, uri) && (spec.Some? ==> spec.value.app == uri)
    ensures Ordered(a + OptionalTasks(spec)) && HasApp(a + OptionalTasks(spec), uri)
  {
    if spec.Some? {
      var t := ClientTask(spec.value);
      OneOrdered(a, t);
      assert (a + [t])[|a|] == t;
      KeysOrdered(a + [t], ClientOwner(spec.value.clientId));
      assert a + [t] + KeyTasks(ClientOwner(spec.value.clientId)) == a + OptionalTasks(spec);
      AppStays(a, OptionalTasks(spec), uri);
    } else {
      assert a + OptionalTasks(spec) == a;
    }
  }

  lemma ApplicationOrdered(a: seq<Task>, name: string, uri: string, web: Option<ClientSpec>,
                           desktop: Option<ClientSpec>)
    requires Ordered(a) && (web.Some? ==> web.value.app == uri) && (desktop.Some? ==> desktop.value.app == uri)
    ensures Ordered(a + ApplicationTasks(name, uri, web, desktop))
    ensures HasApp(a + ApplicationTasks(name, uri, web, desktop), uri)
  {
    var t := AppTask(name, uri);
    OneOrdered(a, t);
    assert (a + [t])[|a|] == t;
    ClientOrdered(a + [t], web, uri);
    ClientOrdered(a + [t] + OptionalTasks(web), desktop, uri);
    Associate(a + [t], OptionalTasks(web), OptionalTasks(desktop));
    Associate(a, [t], OptionalTasks(web) + OptionalTasks(desktop));
  }

  lemma RoleOrdered(a: seq<Task>)
    requires Ordered(a) && HasApp(a, MANAGEMENT)
    ensures Ordered(a + [RoleTask]) && HasApp(a + [RoleTask], MANAGEMENT)
  {
    OneOrdered(a, RoleTask);
    AppStays(a, [RoleTask], MANAGEMENT);
  }

  lemma PermissionOrdered(a: seq<Task>)
    requires Ordered(a) && HasApp(a, MANAGEMENT)
    ensures Ordered(a + [PermissionTask])
  {
    OneOrdered(a, PermissionTask);
  }

  lemma RolePermissionOrdered(a: seq<Task>)
    requires Ordered(a) && RoleTask in a && PermissionTask in a
    ensures Ordered(a + [RolePermissionTask])
  {
    OneOrdered(a, RolePermissionTask);
  }

  lemma UserRoleOrdered(a: seq<Task>, user: string)
    requires Ordered(a) && RoleTask in a && UserTask(user) in a
    ensures Ordered(a + [UserRoleTask(user)])
  {
    OneOrdered(a, UserRoleTask(user));
  }

  lemma Append4(a: seq<Task>, t: Task, u: Task, v: Task, x: Task)
    ensures a + [t] + [u] + [v] + [x] == a + [t, u, v, x]
  {
  }

  lemma AccessOrdered(a: seq<Task>, user: string)
    requires Ordered(a) && HasApp(a, MANAGEMENT) && UserTask(user) in a
    ensures Ordered(a + AccessTasks(user))
  {
    RoleOrdered(a);
    PermissionOrdered(a + [RoleTask]);
    RolePermissionOrdered(a + [RoleTask] + [PermissionTask]);
    UserRoleOrdered(a + [RoleTask] + [PermissionTask] + [RolePermissionTask], user);
    Append4(a, RoleTask, PermissionTask, RolePermissionTask, UserRoleTask(user));
  }

  lemma UserAndDeviceOrdered(a: seq<Task>, input: Input, device: Option<Enrolled>)
    requires Ordered(a) && HasApp(a, MANAGEMENT)
    ensures var b := a + [UserTask(input.username)] + DeviceTasks(input, device);
            Ordered(b) && HasApp(b, MANAGEMENT) && UserTask(input.username) in b
  {
    var b := a + [UserTask(input.username)];
    OneOrdered(a, UserTask(input.username));
    AppStays(a, [UserTask(input.username)], MANAGEMENT);
    assert b[|a|] == UserTask(input.username);
    var d := DeviceTasks(input, device);
    if device.Some? {
      OneOrdered(b, d[0]);
      assert d == [d[0]];
    } else {
      assert b + d == b;
    }
    AppStays(b, d, MANAGEMENT);
  }

  lemma AdminOrdered(a: seq<Task>, input: Input, device: Option<Enrolled>)
    requires Ordered(a) && HasApp(a, MANAGEMENT)
    ensures Ordered(a + AdminTasks(input, device))
  {
    var user, d := [UserTask(input.username)], DeviceTasks(input, device);
    UserAndDeviceOrdered(a, input, device);
    AccessOrdered(a + user + d, input.username);
    KeysOrdered(a + user + d + AccessTasks(input.username), UserOwner(input.username));
    Associate4(a, user, d, AccessTasks(input.username), KeyTasks(UserOwner(input.username)));
  }

  lemma TwoApplicationsOrdered(first: (string, string, Option<ClientSpec>, Option<ClientSpec>), name: string,
                               web: Option<ClientSpec>, desktop: Option<ClientSpec>,
                               input: Input, device: Option<Enrolled>)
    requires (first.2.Some? ==> first.2.value.app == first.1) && (first.3.Some? ==> first.3.value.app == first.1)
    requires (web.Some? ==> web.value.app == MANAGEMENT) && (desktop.Some? ==> desktop.value.app == MANAGEMENT)
    ensures Ordered(ApplicationTasks(first.0, first.1, first.2, first.3) +
                    (ApplicationTasks(name, MANAGEMENT, web, desktop) + AdminTasks(input, device)))
  {
    var a, b, d :=
      ApplicationTasks(first.0, first.1, first.2, first.3), ApplicationTasks(name, MANAGEMENT, web, desktop),
      AdminTasks(input, device);
    ApplicationOrdered([], first.0, first.1, first.2, first.3);
    EmptyLeft(a);
    ApplicationOrdered(a, name, MANAGEMENT, web, desktop);
    AdminOrdered(a + b, input, device);
    Associate(a, b, d);
  }

  lemma PlanOrdered(c: Config, input: Input, device: Option<Enrolled>)
    ensures Ordered(Plan(c, input, device))
  {
    TwoApplicationsOrdered(("IdP", "lidp",
                            Spec(c.web, "idp-web", "IdP Web", c.idpUrl, Web, "lidp"),
                            Spec(c.desktop, "idp-desktop", "IdP Desktop", c.idpUrl, Native, "lidp")),
                           "Management",
                           Spec(c.web, "management-web", "Management Web", c.managementUrl, Web, MANAGEMENT),
                           Spec(c.desktop, "management-desktop", "Management Desktop",
                                c.managementUrl, Native, MANAGEMENT),
                           input, device);
  }

  lemma ClientsOf(name: string, uri: string, web: Option<ClientSpec>, desktop: Option<ClientSpec>, t: Task)
    requires t in ApplicationTasks(name, uri, web, desktop) && t.ClientTask?
    ensures (web.Some? && t.spec == web.value) || (desktop.Some? && t.spec == desktop.value)
  {
    assert t in OptionalTasks(web) || t in OptionalTasks(desktop);
  }

  /** Client ids in the list tell its client tasks apart. */
  lemma PlanCompatible(c: Config, input: Input, device: Option<Enrolled>)
    ensures AllCompatible(Plan(c, input, device))
  {
    var plan := Plan(c, input, device);
    forall i, j | 0 <= i < |plan| && 0 <= j < |plan| ensures Compatible(plan[i], plan[j]) {
      if plan[i].ClientTask? && plan[j].ClientTask? {
        ClientOfPlan(c, input, device, plan[i]);
        ClientOfPlan(c, input, device, plan[j]);
      }
    }
  }

  lemma ClientOfPlan(c: Config, input: Input, device: Option<Enrolled>, t: Task)
    requires t in Plan(c, input, device) && t.ClientTask?
    ensures |t.spec.clientId| in {7, 11, 14, 18}
    ensures |t.spec.clientId| == 7 ==> t.spec == ClientSpec("idp-web", "IdP Web", c.idpUrl, SCOPES, Web, "lidp")
    ensures |t.spec.clientId| == 11 ==>
      t.spec == ClientSpec("idp-desktop", "IdP Desktop", c.idpUrl, SCOPES, Native, "lidp")
    ensures |t.spec.clientId| == 14 ==>
      t.spec == ClientSpec("management-web", "Management Web", c.managementUrl, SCOPES, Web, MANAGEMENT)
    ensures |t.spec.clientId| == 18 ==>
      t.spec == ClientSpec("management-desktop", "Management Desktop", c.managementUrl, SCOPES, Native, MANAGEMENT)
  {
    assert t !in AdminTasks(input, device);
    if t in IdpTasks(c) {
      ClientsOf("IdP", "lidp",
                Spec(c.web, "idp-web", "IdP Web", c.idpUrl, Web, "lidp"),
                Spec(c.desktop, "idp-desktop", "IdP Desktop", c.idpUrl, Native, "lidp"), t);
    } else {
      ClientsOf("Management", MANAGEMENT,
                Spec(c.web, "management-web", "Management Web", c.managementUrl, Web, MANAGEMENT),
                Spec(c.desktop, "management-desktop", "Management Desktop", c.managementUrl, Native, MANAGEMENT), t);
    }
  }

  lemma AccessPlanned(config: Config, input: Input, device: Option<Enrolled>)
    ensures RoleTask in Plan(config, input, device) && PermissionTask in Plan(config, input, device)
  {
    var access := AccessTasks(input.username);
    assert access[0] == RoleTask && access[1] == PermissionTask;
    assert RoleTask in access && PermissionTask in access;
    InMiddle(DeviceTasks(input, device), access, KeyTasks(UserOwner(input.username)),
             [UserTask(input.username)], RoleTask);
    InMiddle(DeviceTasks(input, device), access, KeyTasks(UserOwner(input.username)),
             [UserTask(input.username)], PermissionTask);
  }

  lemma InMiddle(a: seq<Task>, b: seq<Task>, c: seq<Task>, first: seq<Task>, t: Task)
    requires t in b
    ensures t in first + (a + (b + c))
  {
    assert t in b + c;
    assert t in a + (b + c);
  }
}
