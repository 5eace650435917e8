# Delivery management front end — decision rules in Dafny

The application is a React front end for managing deliveries (*entregas*),
products (*produtos*), users (*usuários*) and companies (*empresas*). Its pages
hold a set of small decision rules, and this project states them as Dafny
definitions and proves them:

- **Dashboard.** The per-status counter fold run after each fetch. The
  "Pendentes" and "Entregues" tabs, where a deliverer (*entregador*) sees only
  their own delivered entries, at most ten of which are listed. The
  confirm-delivery request. The status badge.
- **Side menu.** A fixed table of pages and the roles allowed to see each,
  filtered by the signed-in user's role.
- **Deliveries page.** The search-plus-status filter, the per-status groups
  behind the tabs, the rule that disables delete on a delivered card, and the
  list of deliverers.
- **Companies page.** The CPF/CNPJ display mask (strip non-digits, then apply
  an 11- or 14-digit pattern), the company search, the 14-digit trigger of the
  registry lookup, and the master-only gate.
- **New-delivery form.** A class holding the list of product lines, with
  methods for adding and removing lines, the quantity stepper clamped at 1,
  and the request body built on submit.
- **Users page.** The submit body, which drops `senha` when a user is edited
  with a blank password. The self-edit and self-delete guards, the role
  options, the role badge and the search.
- **Products page.** The search, the three stock tiers, and the submit body
  whose `empresa_id` is always the signed-in user's.

Modules:

| Module | Contents |
|---|---|
| `Seqs` | A generic `filter`, characterised by subsequence, multiset and count. |
| `Text` | ASCII `toLowerCase`, `includes`, and stripping non-digits. |
| `Domain` | The records, the status and role enumerations with their string round trip, and badge configurations. |
| `Dashboard`, `Layout`, `Entregas`, `Empresas`, `NovaEntrega`, `Usuarios`, `Produtos` | One module per page or component. |

Statuses and roles arrive as strings. Strings other than the known ones are
kept as `OtherStatus(name)` and `OtherRole(name)`.

The stats fold is written as the source writes it: `acc.total++` followed by
`acc[entrega.status]++`. One might expect `total` to equal the sum of the four
per-status counters. The code differs in one case: a delivery whose status
string is `"total"` increments `total` twice. `ComputeStats` states the code's
behaviour. `TotalIsSumOfCounters` proves that equality when every status is
one of the four known ones.

The deliveries page's own badge table has no entry for `em_transito`, so that
status falls back to the `pendente` badge there (`Entregas.StatusBadge`). The
dashboard has an entry for it (`Dashboard.StatusBadge`).

## Model

| member | source | states |
|---|---|---|
| Seqs.Filter | src/pages/Dashboard.jsx:161-167 | `filter` returns an order-preserving subsequence whose elements all pass the predicate. Each value occurs as often as in the input if it passes, otherwise not at all. The length is the count of passing elements. |
| Seqs.FilterFusion | src/pages/Entregas.jsx:221-243 | Filtering by `p` and then by `q` is filtering once by "`p` and `q`". |
| Seqs.FilterConcat | src/pages/Empresas.jsx:129 | Filtering distributes over concatenation. |
| Seqs.Take | src/pages/Dashboard.jsx:363 | `slice(0, n)` has length `min(n, len)` and is a prefix. |
| Text.LowerChar | src/pages/Entregas.jsx:122 | An ASCII capital letter maps to its lower-case letter (+32). Every other character is unchanged. No upper case remains. |
| Text.ToLower | src/pages/Entregas.jsx:122 | `toLowerCase` keeps the length and leaves no upper-case letter. Each capital letter becomes the letter 32 code points above it, and every other character stays in place. |
| Text.Matches | src/pages/Entregas.jsx:122-124 | `field.toLowerCase().includes(term.toLowerCase())` holds iff the lower-cased term occurs at some position of the lower-cased field. |
| Text.ContainsAt | src/pages/Entregas.jsx:122 | `includes` holds iff the needle occurs at some index of the haystack. |
| Text.MatchesEmptyTerm | src/pages/Entregas.jsx:122-124 | An empty search term matches every field. |
| Text.Digits | src/pages/Empresas.jsx:129 | `replace(/\D/g, '')` keeps exactly the digit characters, in order, with their multiplicities. |
| Text.DigitsConcat | src/pages/Empresas.jsx:129 | Removing non-digits from a concatenation removes them from each part. |
| Text.DigitsOfDigits | src/pages/Empresas.jsx:129 | A digit string is unchanged by the removal. |
| Domain.ParseStatus | src/pages/Dashboard.jsx:117-122 | Reading a status string and printing it back gives the string. The result is `OtherStatus` iff the string is not one of the four known names. |
| Domain.StatusRoundTrip | src/pages/Dashboard.jsx:117-122 | Parsing the name of a canonical status gives that status back. |
| Domain.StatusEqualityIsNameEquality | src/pages/Dashboard.jsx:161 | Comparing canonical statuses is comparing their strings, as `===` does. |
| Domain.ParseRole | src/components/Layout.jsx:28-32 | Same as `ParseStatus`, for `tipo_usuario`. |
| Domain.RoleRoundTrip | src/components/Layout.jsx:28-32 | Parsing the name of a canonical role gives that role back. |
| Domain.RoleEqualityIsNameEquality | src/components/Layout.jsx:36 | Comparing canonical roles is comparing their strings. |
| Dashboard.CountStatus | src/pages/Dashboard.jsx:55 | The reference count of deliveries with a given status is at most the list length. |
| Dashboard.CountStatusSnoc | src/pages/Dashboard.jsx:53-56 | Appending a delivery adds one to the count of its own status only. |
| Dashboard.ComputeStats | src/pages/Dashboard.jsx:53-63 | Each of the four counters starts at 0 and ends equal to the number of deliveries with that status. `total` ends as the list length plus the number of deliveries whose status string is `"total"`. |
| Dashboard.TotalIsSumOfCounters | src/pages/Dashboard.jsx:53-63 | If every status is one of the four known ones, no delivery hits the `total` key and the list length is the sum of the four counts. |
| Dashboard.TotalIsLength | src/pages/Dashboard.jsx:53-55 | `total` equals the list length iff no status is spelled `"total"`. |
| Dashboard.Pendentes | src/pages/Dashboard.jsx:161 | The pending list is exactly the `pendente` deliveries, in order, with their count. |
| Dashboard.Entregues | src/pages/Dashboard.jsx:162-167 | For an `entregador`, the delivered list is the `entregue` deliveries assigned to that user. For everyone else it is all `entregue` deliveries. Both are in order, and neither is longer than the `entregue` count. |
| Dashboard.ListedEntregues | src/pages/Dashboard.jsx:363 | The listed entries are the first `min(10, n)` entries of the delivered list. |
| Dashboard.FindFrom | src/pages/Dashboard.jsx:75 | `find` returns the first index with the id, or reports that no index has it. |
| Dashboard.ConfirmarEntrega | src/pages/Dashboard.jsx:73-86 | No request is sent iff no delivery has the id (or there is no signed-in user). Otherwise the PUT goes to that id. Its body has status `entregue` and `entregador_id` = user id, and the other fields are copied from the first delivery with the id. |
| Dashboard.StatusBadge | src/pages/Dashboard.jsx:116-124 | An unrecognised status gets the `pendente` configuration. Each of the four known statuses gets its own variant and caption (`Pendente`, `Em Trânsito`, `Entregue`, `Cancelada`). Each variant corresponds to exactly one status group. |
| Layout.VisibleMenu | src/components/Layout.jsx:35-37 | The visible menu is a subsequence of the table. An item is in it iff the user's role is in the item's role list. |
| Layout.ShownItemsSpec | src/components/Layout.jsx:35-37 | The role filter over any item list is a subsequence, and its membership is "allowed". |
| Layout.ShownItemsIsFilter | src/components/Layout.jsx:35-37 | The unrolled menu filter equals the shared `filter` by "the role is in the item's list". |
| Layout.MenuForMaster | src/components/Layout.jsx:27-37 | A master sees the whole menu, in order. |
| Layout.MenuForAdmin | src/components/Layout.jsx:27-37 | An admin sees Dashboard, Produtos, Usuários and Entregas. |
| Layout.MenuForEntregador | src/components/Layout.jsx:28-32 | An entregador sees exactly one item, Dashboard. |
| Layout.MenuForNoRole | src/components/Layout.jsx:36 | A missing role, or a role string other than the three known ones, sees no item. |
| Layout.MenuForMasterName | src/components/Layout.jsx:35-37 | A user whose `tipo_usuario` string is `"master"` sees the whole menu. |
| Layout.DashboardShownTo | src/components/Layout.jsx:28 | Dashboard is shown iff the role is master, admin or entregador. |
| Layout.EmpresasShownOnlyToMaster | src/components/Layout.jsx:32 | Empresas is shown iff the role is master. |
| Entregas.FilteredEntregas | src/pages/Entregas.jsx:120-129 | A delivery is kept iff (a) one of `produto_descricao`, `cliente`, `descricao` (missing = `""`) contains the term, ignoring case, and (b) the filter is "all" or equals its status. The result is a subsequence. |
| Entregas.EmptySearchKeepsAll | src/pages/Entregas.jsx:120-129 | An empty term with filter "all" keeps every delivery. |
| Entregas.ByStatus | src/pages/Entregas.jsx:132-134 | One status group holds exactly the deliveries of that status, in order. |
| Entregas.EntregasPorStatus | src/pages/Entregas.jsx:131-135 | Each group holds exactly the deliveries of its status. The groups are pairwise disjoint and their sizes sum to at most the list length. |
| Entregas.TabIsStatusFilter | src/pages/Entregas.jsx:221-243 | A status tab, built as its `entregasPorStatus` group filtered by the term, equals the main list with the selector set to that status. |
| Entregas.TabEntregas | src/pages/Entregas.jsx:221-243 | A tab lists, in their original order, exactly the deliveries of its status that match the term. |
| Entregas.DeleteDisabled | src/pages/Entregas.jsx:295 | The trash button is disabled iff the status string is `"entregue"`. |
| Entregas.DeleteDisabledIffInEntregueGroup | src/pages/Entregas.jsx:295 | Delete is disabled iff the delivery is `entregue`, that is, iff it is in the delivered group. |
| Entregas.Entregadores | src/pages/Entregas.jsx:56 | The deliverer list keeps exactly the users of role `entregador`, in order. |
| Entregas.StatusBadge | src/pages/Entregas.jsx:91-98 | Without an `em_transito` entry, every status other than `entregue` and `cancelada` gets the `pendente` configuration. `entregue` and `cancelada` get their own variant and caption. |
| Empresas.FirstDigitRun | src/pages/Empresas.jsx:133-136 | The unanchored pattern matches at the leftmost position where enough digits in a row start, or nowhere. |
| Empresas.FirstRunInDigits | src/pages/Empresas.jsx:129-136 | On a digit string the pattern matches at 0 when the string is long enough, and nowhere otherwise. |
| Empresas.ReplaceInDigits | src/pages/Empresas.jsx:133-136 | On the digit string the non-global `replace` rewrites the first block and keeps the tail. A string shorter than the block is unchanged. |
| Empresas.PunctuateKeepsDigits | src/pages/Empresas.jsx:133-136 | A mask only inserts separators: length 14 (CPF) or 18 (CNPJ), the same digits in order, and nothing but digits, `.`, `/`, `-`. |
| Empresas.CpfLayout | src/pages/Empresas.jsx:133 | The CPF replacement is `ddd.ddd.ddd-dd`. |
| Empresas.CnpjLayout | src/pages/Empresas.jsx:136 | The CNPJ replacement is `dd.ddd.ddd/dddd-dd`. |
| Empresas.MaskKeepsDigits | src/pages/Empresas.jsx:131-137 | Applying either pattern to a digit string keeps its digits and adds only separators. |
| Empresas.Punctuate | src/pages/Empresas.jsx:133-136 | The replacement adds 3 separators for a CPF (`.` at 3 and 7, `-` at 11) and 4 for a CNPJ (`.` at 2 and 6, `/` at 10, `-` at 15). The first and last digits stay at the ends. |
| Empresas.ReplaceFirst | src/pages/Empresas.jsx:133-136 | With no run of digits as long as the pattern, the string comes back unchanged. Otherwise the text before the leftmost run and the text after it are kept, and the run is replaced by its punctuated form. |
| Empresas.FormatCnpjCpf | src/pages/Empresas.jsx:127-138 | The result's length is the input's digit count plus the separators inserted: 3 for exactly 11 digits, 4 for 14 or more, none for any other count. |
| Empresas.FormatKeepsDigits | src/pages/Empresas.jsx:127-138 | The digits of `formatCnpjCpf(v)`, in order, are those of `v`. Every other character is `.`, `/` or `-`. |
| Empresas.FormatCpf | src/pages/Empresas.jsx:131-133 | Exactly 11 digits give `ddd.ddd.ddd-dd`, 14 characters. |
| Empresas.FormatCnpj | src/pages/Empresas.jsx:134-136 | Exactly 14 digits give `dd.ddd.ddd/dddd-dd`, 18 characters. |
| Empresas.FormatUnmasked | src/pages/Empresas.jsx:129-136 | Fewer than 11 digits, or 12 or 13, give the bare digit string. |
| Empresas.FormatLong | src/pages/Empresas.jsx:134-136 | More than 14 digits: the first 14 are masked and the rest follows unpunctuated. |
| Empresas.OnCnpjCpfInput | src/pages/Empresas.jsx:211-218 | The field keeps the raw text. The registry is queried iff the text has exactly 14 digits, and then with those digits. |
| Empresas.FilteredEmpresas | src/pages/Empresas.jsx:140-143 | A company is kept iff its `razao_social` contains the term ignoring case, or its raw `cnpj_cpf` contains the term as typed. |
| Empresas.AccessDenied | src/pages/Empresas.jsx:146 | Every user but a master, including no user, gets the access-denied view. |
| NovaEntrega.SpliceStart | src/pages/NovaEntrega.jsx:52 | `splice`'s start index: in-range indices are kept, negative ones count from the end clamped at 0, and large ones clamp to the length. |
| NovaEntrega.RemovedAt | src/pages/NovaEntrega.jsx:50-54 | Removing at an index below the length shortens the list by one. An index past the end changes nothing. |
| NovaEntrega.RemovedAtValid | src/pages/NovaEntrega.jsx:50-54 | At a valid index exactly that element goes. Earlier ones stay in place, later ones move down by one, and the multiset loses just that element. |
| NovaEntrega.RemovedAtSubset | src/pages/NovaEntrega.jsx:50-54 | A removal introduces no new element. |
| NovaEntrega.RemoveLastAdded | src/pages/NovaEntrega.jsx:43-54 | Removing the line just appended restores the list. |
| NovaEntrega.NovaEntregaForm.constructor | src/pages/NovaEntrega.jsx:22-26 | The initial state: no lines, no selection, quantity 1, empty texts. Both the add and the submit buttons start disabled. |
| NovaEntrega.NovaEntregaForm.AddDisabled | src/pages/NovaEntrega.jsx:167 | The add button is enabled iff nothing is being submitted, a product is selected and the quantity is at least 1. |
| NovaEntrega.NovaEntregaForm.SubmitDisabled | src/pages/NovaEntrega.jsx:218 | The submit button is enabled iff nothing is being submitted and there is at least one line. |
| NovaEntrega.NovaEntregaForm.Select | src/pages/NovaEntrega.jsx:121-125 | Selects (or clears) the product and changes nothing else. |
| NovaEntrega.NovaEntregaForm.SetQuantity | src/pages/NovaEntrega.jsx:134 | Sets the typed quantity and changes nothing else. |
| NovaEntrega.NovaEntregaForm.SetCliente | src/pages/NovaEntrega.jsx:208 | Sets `cliente` and changes nothing else. |
| NovaEntrega.NovaEntregaForm.SetDescricao | src/pages/NovaEntrega.jsx:106 | Sets `descricao` and changes nothing else. |
| NovaEntrega.NovaEntregaForm.DecrementQuantity | src/pages/NovaEntrega.jsx:145 | The minus button lowers the quantity by one but never below 1. |
| NovaEntrega.NovaEntregaForm.IncrementQuantity | src/pages/NovaEntrega.jsx:155 | The plus button adds one. |
| NovaEntrega.NovaEntregaForm.AddProduto | src/pages/NovaEntrega.jsx:43-48 | With nothing selected nothing changes. Otherwise exactly one line `{produto_id, quantidade}` is appended, and the selection is reset to none and the quantity to 1. Called only when the add button is enabled (line 167), every line's quantity stays at least 1. |
| NovaEntrega.NovaEntregaForm.RemoveProduto | src/pages/NovaEntrega.jsx:50-54 | The list becomes the spliced copy. A valid index removes exactly that line. Positive quantities stay positive. |
| NovaEntrega.NovaEntregaForm.BuildPayload | src/pages/NovaEntrega.jsx:62-76 | `produtos` is the line list in order, status is `pendente`, and the texts and date are copied. Top-level `produto_id` and `quantidade` are set iff there is exactly one line, and then equal its fields. When the submit button is enabled, the body has at least one line. |
| NovaEntrega.NovaEntregaForm.CloseSuccessDialog | src/pages/NovaEntrega.jsx:225-231 | Closing the dialog clears the lines, `cliente` and `descricao`, and keeps the selection and the quantity. Submit is disabled afterwards. |
| Usuarios.SubmitPayload | src/pages/Usuarios.jsx:74-81 | The body has `senha` iff the form has it and the user is new or the password is not blank. Every key kept has the form's value, and every other key is kept. When creating, the body is the form. |
| Usuarios.BlankPassword | src/pages/Usuarios.jsx:79 | `!formData.senha` holds iff `senha` is missing or the empty string. |
| Usuarios.SubmitRequest | src/pages/Usuarios.jsx:74-87 | Editing gives a PUT to the edited id, with `senha` iff the password is not blank. Creating gives a POST of the form. Every key of the body comes from the form with its value, and every form key other than `senha` is sent. |
| Usuarios.FilteredUsuarios | src/pages/Usuarios.jsx:151-154 | A user is kept iff `nome` or `email` contains the term, ignoring case. The result is a subsequence. |
| Usuarios.EmptySearchKeepsAll | src/pages/Usuarios.jsx:151-154 | An empty term keeps every user. |
| Usuarios.EditDisabled | src/pages/Usuarios.jsx:346 | Edit is disabled iff the card is the signed-in user's own and that user is a master. |
| Usuarios.DeleteDisabled | src/pages/Usuarios.jsx:354 | Delete is disabled iff the card is the signed-in user's own. |
| Usuarios.EditGuardWithinDeleteGuard | src/pages/Usuarios.jsx:346-354 | A disabled edit implies a disabled delete. The converse fails only on a non-master's own card. |
| Usuarios.RoleOptions | src/pages/Usuarios.jsx:253-257 | `master` is offered iff the signed-in user is a master. `admin` and `entregador` are always offered, and no unknown role is. |
| Usuarios.RoleBadge | src/pages/Usuarios.jsx:134-141 | An unknown role gets the `entregador` configuration. Each variant corresponds to its roles. |
| Produtos.FilteredProdutos | src/pages/Produtos.jsx:127-129 | A product is kept iff its `descricao` contains the term, ignoring case. The result is a subsequence. |
| Produtos.EmptySearchKeepsAll | src/pages/Produtos.jsx:127-129 | An empty term keeps every product, in order. |
| Produtos.StockVariant | src/pages/Produtos.jsx:329 | Stock above 10 gives `success`, 1 to 10 gives `secondary`, 0 or less gives `destructive`. Exactly one tier applies. |
| Produtos.SubmitPayload | src/pages/Produtos.jsx:61-67 | `empresa_id` is the signed-in user's `empresa_id` (absent without a user), whatever the form holds. The other fields come from the form. |
| Produtos.EmpresaIdIgnoresForm | src/pages/Produtos.jsx:61-67 | Two forms that differ only in `empresa_id` send the same body. |
| Produtos.SubmitRequest | src/pages/Produtos.jsx:69-73 | A PUT to the edited product's id when editing, otherwise a POST, with the body above. |

## Left out

- HTTP: every axios call, the `api` service, refetching after a change, and the error messages shown on failure. Only the requests as values are modelled: the confirm PUT, and the users' and products' create/update requests. The companies page's create/update request is a plain PUT/POST of the form and is not modelled.
- The third-party CNPJ registry call and how its answer fills the form. `Empresas.OnCnpjCpfInput` only records that the call is made and with which digits.
- Rendering, hooks, dialogs, navigation and the `isSubmitting` toggling. The disabled predicates take `isSubmitting` as a parameter.
- Currency, price totals, markup, `Date` and locale formatting. The submit time of a new delivery is a parameter of `BuildPayload`.
- `src/App.jsx`, `src/pages/Login.jsx`, `src/pages/Relatorios.jsx`, `start.js` and `vite.config.js`: no page logic. Route guards and the authentication context are not part of this model.
- Ordering and races between asynchronous requests.
- Text.ToLower: only the ASCII letters A–Z are lower-cased. JavaScript's full Unicode `toLowerCase` is not modelled.
- Dashboard.ComputeStats: a status string other than the known ones or `"total"` only adds a key holding `NaN` to the accumulator. That key is not represented.
- Dashboard.StatusBadge: a status spelled like an inherited object property (`toString`, `__proto__`) would find a non-badge value in the configuration object. Such names are treated as unknown statuses. The same holds for Entregas.StatusBadge and Usuarios.RoleBadge.
- Dashboard.ConfirmarEntrega: `user.id` read on a missing user throws inside the `try`. The model gives "no request", which is the observable outcome.
- Produtos.SubmitPayload: `preco_custo`, `preco_venda` and `estoque` keep their text. `parseFloat` and `parseInt` are not modelled.
- NovaEntrega.NovaEntregaForm.BuildPayload: quantities are modelled as unbounded integers, so `parseInt` of a quantity is the quantity itself. In JavaScript that holds only below 1e21, where the number's text is not in exponent form. Above 2^53 a JavaScript number also loses precision, so that `+1` on the stepper can leave it unchanged. Neither limit is modelled, and neither is a fractional or `NaN` value from `Number(...)` on the quantity input.
- Usuarios.SubmitPayload: form values are strings. The initial `empresa_id` may be a number in the source.
- Entregas: the tab contents' search is modelled, but the tabs' rendering and the status-change handler, which is a network call, are not.
