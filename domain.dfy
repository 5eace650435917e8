/** The entities the pages receive from the back end, and the two string
    enumerations they branch on: a delivery's `status` and a user's
    `tipo_usuario`. Both arrive as strings; values other than the known ones are
    kept as `Other…(name)`. */
module Domain {

  datatype Option<+T> = None | Some(value: T)

  function OrEmpty(s: Option<string>): string {
    match s
    case None => ""
    case Some(v) => v
  }

  // ---------------------------------------------------------------- statuses

  datatype Status = Pendente | EmTransito | Entregue | Cancelada | OtherStatus(name: string)

  const StatusNames: seq<string> := ["pendente", "em_transito", "entregue", "cancelada"]

  function StatusName(st: Status): string {
    match st
    case Pendente => "pendente"
    case EmTransito => "em_transito"
    case Entregue => "entregue"
    case Cancelada => "cancelada"
    case OtherStatus(n) => n
  }

  /** Reads a status string as sent by the back end. */
  function ParseStatus(s: string): (st: Status)
    ensures StatusName(st) == s
    ensures st.OtherStatus? <==> s !in StatusNames
  {
    if s == "pendente" then Pendente
    else if s == "em_transito" then EmTransito
    else if s == "entregue" then Entregue
    else if s == "cancelada" then Cancelada
    else OtherStatus(s)
  }

  /** A status value as `ParseStatus` produces it. */
  predicate CanonicalStatus(st: Status) {
    st.OtherStatus? ==> st.name !in StatusNames
  }

  /** A status as `ParseStatus` yields it: the type of a delivery's `status`. */
  type ParsedStatus = st: Status | CanonicalStatus(st) witness Pendente

  lemma {:induction false} StatusRoundTrip(st: Status)
    requires CanonicalStatus(st)
    ensures ParseStatus(StatusName(st)) == st
  {
    match st
    case OtherStatus(n) =>
      assert n != "pendente" && n != "em_transito" && n != "entregue" && n != "cancelada" by {
        assert StatusNames[0] == "pendente" && StatusNames[1] == "em_transito";
        assert StatusNames[2] == "entregue" && StatusNames[3] == "cancelada";
      }
    case _ =>
  }

  /** On canonical values, comparing statuses is comparing their strings, as
      the source's `===` does. */
  lemma StatusEqualityIsNameEquality(a: Status, b: Status)
    requires CanonicalStatus(a) && CanonicalStatus(b)
    ensures a == b <==> StatusName(a) == StatusName(b)
  {
    if StatusName(a) == StatusName(b) {
      StatusRoundTrip(a);
      StatusRoundTrip(b);
    }
  }

  // ------------------------------------------------------------------- roles

  datatype Role = Master | Admin | Entregador | OtherRole(name: string)

  const RoleNames: seq<string> := ["master", "admin", "entregador"]

  function RoleName(r: Role): string {
    match r
    case Master => "master"
    case Admin => "admin"
    case Entregador => "entregador"
    case OtherRole(n) => n
  }

  /** Reads a `tipo_usuario` string. */
  function ParseRole(s: string): (r: Role)
    ensures RoleName(r) == s
    ensures r.OtherRole? <==> s !in RoleNames
  {
    if s == "master" then Master
    else if s == "admin" then Admin
    else if s == "entregador" then Entregador
    else OtherRole(s)
  }

  predicate CanonicalRole(r: Role) {
    r.OtherRole? ==> r.name !in RoleNames
  }

  /** A role as `ParseRole` yields it: the type of a user's `tipo_usuario`. */
  type ParsedRole = r: Role | CanonicalRole(r) witness Master

  lemma {:induction false} RoleRoundTrip(r: Role)
    requires CanonicalRole(r)
    ensures ParseRole(RoleName(r)) == r
  {
    match r
    case OtherRole(n) =>
      assert n != "master" && n != "admin" && n != "entregador" by {
        assert RoleNames[0] == "master" && RoleNames[1] == "admin" && RoleNames[2] == "entregador";
      }
    case _ =>
  }

  lemma RoleEqualityIsNameEquality(a: Role, b: Role)
    requires CanonicalRole(a) && CanonicalRole(b)
    ensures a == b <==> RoleName(a) == RoleName(b)
  {
    if RoleName(a) == RoleName(b) {
      RoleRoundTrip(a);
      RoleRoundTrip(b);
    }
  }

  // ---------------------------------------------------------------- entities

  /** A delivery as listed by the back end. Optional text fields are the ones
      the pages read with `|| ''`. */
  datatype Entrega = Entrega(
    id: int,
    produto_id: int,
    quantidade: int,
    descricao: Option<string>,
    cliente: Option<string>,
    produto_descricao: Option<string>,
    data: string,
    status: ParsedStatus,
    entregador_id: Option<int>)

  /** A user; also the shape of the signed-in user the pages read. */
  datatype Usuario = Usuario(
    id: int,
    nome: string,
    email: string,
    tipo_usuario: ParsedRole,
    empresa_id: int)

  datatype Produto = Produto(id: int, descricao: string, estoque: int, empresa_id: int)

  datatype Empresa = Empresa(
    id: int,
    cnpj_cpf: string,
    razao_social: string,
    endereco: string,
    logo: string)

  /** The role of the signed-in user, `user?.tipo_usuario`. */
  function RoleOf(user: Option<Usuario>): Option<Role> {
    match user
    case None => None
    case Some(u) => Some(u.tipo_usuario)
  }

  predicate IsRole(user: Option<Usuario>, r: Role) {
    user.Some? && user.value.tipo_usuario == r
  }

  // ------------------------------------------------------------------ badges

  /** The visual variants of the badge component. */
  datatype Variant = DefaultVariant | Secondary | Success | Destructive

  /** The part of a badge configuration that is data (the icon is left out; `caption` is the source's `label`). */
  datatype BadgeConfig = BadgeConfig(variant: Variant, caption: string)
}
