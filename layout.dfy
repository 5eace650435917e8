/** The side menu of the application shell: a fixed table of pages with the
    roles allowed to see each, filtered by the signed-in user's role. */
module Layout {
  import opened Domain
  import Seqs

  datatype Page = DashboardPage | ProdutosPage | UsuariosPage | EntregasPage | EmpresasPage

  datatype MenuItem = MenuItem(path: string, caption: string, page: Page, roles: seq<Role>)

  const DashboardItem := MenuItem("/", "Dashboard", DashboardPage, [Master, Admin, Entregador])
  const ProdutosItem := MenuItem("/produtos", "Produtos", ProdutosPage, [Master, Admin])
  const UsuariosItem := MenuItem("/usuarios", "Usuários", UsuariosPage, [Master, Admin])
  const EntregasItem := MenuItem("/entregas", "Entregas", EntregasPage, [Master, Admin])
  const EmpresasItem := MenuItem("/empresas", "Empresas", EmpresasPage, [Master])

  /** `menuItems`, in display order. */
  const MenuItems: seq<MenuItem> := [DashboardItem, ProdutosItem, UsuariosItem, EntregasItem, EmpresasItem]

  /** `item.roles.includes(user?.tipo_usuario)`: a missing role is never included. */
  predicate Allowed(item: MenuItem, role: Option<Role>) {
    role.Some? && role.value in item.roles
  }

  /** `filteredMenuItems`: the subsequence of the table whose role list
      contains the user's role. */
  function VisibleMenu(role: Option<Role>): (r: seq<MenuItem>)
    ensures Seqs.IsSubseq(r, MenuItems)
    ensures forall it :: it in r <==> it in MenuItems && role.Some? && role.value in it.roles
  {
    ShownItemsSpec(MenuItems, role);
    ShownItems(MenuItems, role)
  }

  /** `items.filter(item => item.roles.includes(role))`, unrolled one item at a
      time so that the concrete menu lemmas below evaluate it directly;
      `ShownItemsIsFilter` shows it is `Seqs.Filter` by `Allowed`. */
  function ShownItems(items: seq<MenuItem>, role: Option<Role>): seq<MenuItem> {
    if items == [] then []
    else Keep(items[0], role) + ShownItems(items[1..], role)
  }

  function Keep(it: MenuItem, role: Option<Role>): seq<MenuItem> {
    if Allowed(it, role) then [it] else []
  }

  lemma {:induction false} ShownItemsSpec(items: seq<MenuItem>, role: Option<Role>)
    ensures Seqs.IsSubseq(ShownItems(items, role), items)
    ensures forall it :: it in ShownItems(items, role) <==> it in items && Allowed(it, role)
  {
    if items != [] {
      ShownItemsSpec(items[1..], role);
      assert forall it :: it in items <==> it == items[0] || it in items[1..];
      var rest := ShownItems(items[1..], role);
      if Allowed(items[0], role) {
        assert ShownItems(items, role) == [items[0]] + rest;
        assert ([items[0]] + rest)[1..] == rest;
      } else {
        assert ShownItems(items, role) == rest;
        if rest != [] {
          assert rest[0] != items[0];
        }
      }
    }
  }

  function AllowedFn(role: Option<Role>): MenuItem -> bool {
    (it: MenuItem) => Allowed(it, role)
  }

  /** The unrolled filter is the shared `filter`. */
  lemma {:induction false} ShownItemsIsFilter(items: seq<MenuItem>, role: Option<Role>)
    ensures ShownItems(items, role) == Seqs.Filter(items, AllowedFn(role))
  {
    if items != [] {
      ShownItemsIsFilter(items[1..], role);
    }
  }

  lemma ShownItemsCons(x: MenuItem, t: seq<MenuItem>, role: Option<Role>)
    ensures ShownItems([x] + t, role) == Keep(x, role) + ShownItems(t, role)
  {
    assert ([x] + t)[1..] == t;
  }

  /** The table unrolled: each item is kept on its own. */
  lemma ShownItemsUnrolled(role: Option<Role>)
    ensures ShownItems(MenuItems, role) ==
      Keep(DashboardItem, role) + Keep(ProdutosItem, role) + Keep(UsuariosItem, role)
      + Keep(EntregasItem, role) + Keep(EmpresasItem, role)
  {
    ShownItemsCons(EmpresasItem, [], role);
    ShownItemsCons(EntregasItem, [EmpresasItem], role);
    ShownItemsCons(UsuariosItem, [EntregasItem, EmpresasItem], role);
    ShownItemsCons(ProdutosItem, [UsuariosItem, EntregasItem, EmpresasItem], role);
    ShownItemsCons(DashboardItem, [ProdutosItem, UsuariosItem, EntregasItem, EmpresasItem], role);
    assert [EmpresasItem] == [EmpresasItem] + [];
    assert [EntregasItem, EmpresasItem] == [EntregasItem] + [EmpresasItem];
    assert [UsuariosItem, EntregasItem, EmpresasItem] == [UsuariosItem] + [EntregasItem, EmpresasItem];
    assert [ProdutosItem, UsuariosItem, EntregasItem, EmpresasItem] == [ProdutosItem] + [UsuariosItem, EntregasItem, EmpresasItem];
    assert MenuItems == [DashboardItem] + [ProdutosItem, UsuariosItem, EntregasItem, EmpresasItem];
  }

  lemma MenuItemsSplit()
    ensures MenuItems == [DashboardItem] + [ProdutosItem] + [UsuariosItem] + [EntregasItem] + [EmpresasItem]
  {
  }

  /** A master sees the whole menu. */
  lemma MenuForMaster()
    ensures VisibleMenu(Some(Master)) == MenuItems
  {
    var role := Some(Master);
    ShownItemsUnrolled(role);
    MenuItemsSplit();
    assert Keep(DashboardItem, role) == [DashboardItem];
    assert Keep(ProdutosItem, role) == [ProdutosItem];
    assert Keep(UsuariosItem, role) == [UsuariosItem];
    assert Keep(EntregasItem, role) == [EntregasItem];
    assert Keep(EmpresasItem, role) == [EmpresasItem];
  }

  /** An admin sees everything but Empresas. */
  lemma MenuForAdmin()
    ensures VisibleMenu(Some(Admin)) == [DashboardItem, ProdutosItem, UsuariosItem, EntregasItem]
  {
    var role := Some(Admin);
    ShownItemsUnrolled(role);
    assert Keep(DashboardItem, role) == [DashboardItem];
    assert Keep(ProdutosItem, role) == [ProdutosItem];
    assert Keep(UsuariosItem, role) == [UsuariosItem];
    assert Keep(EntregasItem, role) == [EntregasItem];
    assert Keep(EmpresasItem, role) == [];
    assert [DashboardItem] + [ProdutosItem] + [UsuariosItem] + [EntregasItem] + []
        == [DashboardItem, ProdutosItem, UsuariosItem, EntregasItem];
  }

  /** A deliverer sees exactly one item, Dashboard. */
  lemma MenuForEntregador()
    ensures VisibleMenu(Some(Entregador)) == [DashboardItem]
  {
    var role := Some(Entregador);
    ShownItemsUnrolled(role);
    assert Keep(DashboardItem, role) == [DashboardItem];
    assert Keep(ProdutosItem, role) == [];
    assert Keep(UsuariosItem, role) == [];
    assert Keep(EntregasItem, role) == [];
    assert Keep(EmpresasItem, role) == [];
  }

  /** A missing or unknown role sees no item. */
  lemma MenuForNoRole(role: Option<Role>)
    requires role.None? || (role.value.OtherRole? && CanonicalRole(role.value))
    ensures VisibleMenu(role) == []
  {
    ShownItemsUnrolled(role);
    assert Keep(DashboardItem, role) == [];
    assert Keep(ProdutosItem, role) == [];
    assert Keep(UsuariosItem, role) == [];
    assert Keep(EntregasItem, role) == [];
    assert Keep(EmpresasItem, role) == [];
  }

  /** Read at the level of the `tipo_usuario` string: a user whose role is
      spelled "master" sees the whole menu. */
  lemma MenuForMasterName(user: Option<Usuario>)
    requires user.Some? && RoleName(user.value.tipo_usuario) == "master"
    ensures VisibleMenu(RoleOf(user)) == MenuItems
  {
    RoleRoundTrip(user.value.tipo_usuario);
    MenuForMaster();
  }

  /** Dashboard is shown to master, admin and entregador, and to nobody else. */
  lemma DashboardShownTo(role: Option<Role>)
    ensures DashboardItem in VisibleMenu(role) <==> role in {Some(Master), Some(Admin), Some(Entregador)}
  {
    assert DashboardItem in MenuItems;
  }

  /** Empresas is shown only to master. */
  lemma EmpresasShownOnlyToMaster(role: Option<Role>)
    ensures EmpresasItem in VisibleMenu(role) <==> role == Some(Master)
  {
    assert EmpresasItem in MenuItems;
  }
}
