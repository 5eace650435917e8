/** The users page: the body of the create/update request, the search filter,
    the guards on a card's edit and delete buttons, the role options of the
    form and the role badge. */
module Usuarios {
  import opened Domain
  import Seqs
  import Text

  /** The form object, keyed by field name (`nome`, `email`, `senha`,
      `tipo_usuario`, `empresa_id`). */
  type FormData = map<string, string>

  const Senha := "senha"

  /** The request `handleSubmit` sends. */
  datatype UsuarioRequest =
    | CreateUsuario(body: FormData)
    | UpdateUsuario(id: int, body: FormData)

  /** `!formData.senha`: a missing or empty password. */
  function BlankPassword(form: FormData): (blank: bool)
    ensures !blank <==> Senha in form && |form[Senha]| > 0
  {
    Senha !in form || form[Senha] == ""
  }

  /** The payload: a copy of the form, from which `senha` is deleted when an
      existing user is edited with a blank password. */
  method SubmitPayload(form: FormData, editing: Option<Usuario>) returns (data: FormData)
    ensures Senha in data <==> Senha in form && (editing.None? || form[Senha] != "")
    ensures forall k :: k in data ==> k in form && data[k] == form[k]
    ensures forall k :: k in form && k != Senha ==> k in data
    ensures editing.None? ==> data == form
  {
    data := form;
    if editing.Some? && BlankPassword(form) {
      data := data - {Senha};
    }
  }

  /** `PUT /usuarios/{id}` when editing, `POST /usuarios` otherwise. */
  method SubmitRequest(form: FormData, editing: Option<Usuario>) returns (req: UsuarioRequest)
    ensures editing.None? ==> req == CreateUsuario(form)
    ensures editing.Some? ==> req.UpdateUsuario? && req.id == editing.value.id
    ensures editing.Some? ==> (Senha in req.body <==> !BlankPassword(form))
    ensures forall k :: k in req.body ==> k in form && req.body[k] == form[k]
    ensures forall k :: k in form && k != Senha ==> k in req.body
  {
    var data := SubmitPayload(form, editing);
    if editing.Some? {
      req := UpdateUsuario(editing.value.id, data);
    } else {
      req := CreateUsuario(data);
    }
  }

  /** `filteredUsuarios`: name or e-mail contains the term, ignoring case. */
  predicate UsuarioMatches(u: Usuario, term: string) {
    Text.Matches(u.nome, term) || Text.Matches(u.email, term)
  }

  function FilteredUsuarios(us: seq<Usuario>, term: string): (r: seq<Usuario>)
    ensures Seqs.IsSubseq(r, us)
    ensures forall u ::
              multiset(r)[u] == (if Text.Matches(u.nome, term) || Text.Matches(u.email, term) then multiset(us)[u] else 0)
  {
    Seqs.Filter(us, (u: Usuario) => UsuarioMatches(u, term))
  }

  /** An empty search keeps every user. */
  lemma EmptySearchKeepsAll(us: seq<Usuario>)
    ensures FilteredUsuarios(us, "") == us
  {
    var p := (u: Usuario) => UsuarioMatches(u, "");
    forall i | 0 <= i < |us| ensures p(us[i]) {
      Text.MatchesEmptyTerm(us[i].nome);
    }
    Seqs.FilterKeepsAll(us, p);
  }

  /** The edit button of a card is disabled on the signed-in master's own card. */
  function EditDisabled(u: Usuario, user: Option<Usuario>): (disabled: bool)
    ensures disabled <==> user.Some? && u.id == user.value.id && u.tipo_usuario == Master
  {
    match user
    case None => false
    case Some(me) => u.id == me.id && u.tipo_usuario == Master
  }

  /** The delete button of a card is disabled on the signed-in user's own card. */
  function DeleteDisabled(u: Usuario, user: Option<Usuario>): (disabled: bool)
    ensures disabled <==> user.Some? && u.id == user.value.id
  {
    match user
    case None => false
    case Some(me) => u.id == me.id
  }

  /** Where editing is blocked, deleting is too; the converse fails only on a
      non-master's own card. */
  lemma EditGuardWithinDeleteGuard(u: Usuario, user: Option<Usuario>)
    ensures EditDisabled(u, user) ==> DeleteDisabled(u, user)
    ensures DeleteDisabled(u, user) && !EditDisabled(u, user) ==> u.tipo_usuario != Master
  {
  }

  /** The entries of the role selector: `master` for a master only, then
      `admin` and `entregador` for everyone. */
  function RoleOptions(user: Option<Usuario>): (r: seq<Role>)
    ensures Master in r <==> IsRole(user, Master)
    ensures Admin in r && Entregador in r
    ensures forall i :: 0 <= i < |r| ==> !r[i].OtherRole?
    ensures |r| == if IsRole(user, Master) then 3 else 2
  {
    (if IsRole(user, Master) then [Master] else []) + [Admin, Entregador]
  }

  /** `getTipoUsuarioBadge`: an unknown role gets the `entregador` configuration. */
  function RoleBadge(r: Role): (b: BadgeConfig)
    ensures r.OtherRole? ==> b == BadgeConfig(Secondary, "Entregador")
    ensures b.variant == Destructive <==> r == Master
    ensures b.variant == DefaultVariant <==> r == Admin
    ensures b.variant == Secondary <==> r == Entregador || r.OtherRole?
  {
    match r
    case Master => BadgeConfig(Destructive, "Master")
    case Admin => BadgeConfig(DefaultVariant, "Admin")
    case Entregador => BadgeConfig(Secondary, "Entregador")
    case OtherRole(_) => BadgeConfig(Secondary, "Entregador")
  }
}
