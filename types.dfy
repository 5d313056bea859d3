/** The entities of the laundry dashboard: order lifecycle states, service
    variants, orders, expenses and users. */
module Types {

  datatype Option<T> = None | Some(value: T)

  /** The four lifecycle states, declared in lifecycle order. */
  datatype OrderStatus = Pending | Processing | Completed | PickedUp

  /** Position of a status in the declared lifecycle order. */
  function Rank(s: OrderStatus): (r: nat)
    ensures r <= 3
    ensures r == 0 <==> s == Pending
    ensures r == 3 <==> s == PickedUp
  {
    match s
    case Pending => 0
    case Processing => 1
    case Completed => 2
    case PickedUp => 3
  }

  /** The string value each status enum member carries. */
  function StatusTag(s: OrderStatus): string
  {
    match s
    case Pending => "PENDING"
    case Processing => "PROCESSING"
    case Completed => "COMPLETED"
    case PickedUp => "PICKED_UP"
  }

  /** Rank is a bijection onto 0..3: exactly four states, in order. */
  lemma RankInjective(s: OrderStatus, t: OrderStatus)
    ensures Rank(s) == Rank(t) <==> s == t
  {
  }

  lemma StatusTagInjective(s: OrderStatus, t: OrderStatus)
    ensures StatusTag(s) == StatusTag(t) <==> s == t
  {
  }

  datatype ServiceType = WashFold | WashIron | IronOnly | DryClean

  /** The display string each service variant carries; the PROCESSING
      message and the intake form's select use it. */
  function ServiceTag(st: ServiceType): string
  {
    match st
    case WashFold => "Cuci Lipat"
    case WashIron => "Cuci Setrika"
    case IronOnly => "Setrika Saja"
    case DryClean => "Dry Clean"
  }

  /** The intake form's select hands back a tag string, cast to the enum. */
  function ServiceFromTag(s: string): (r: Option<ServiceType>)
    ensures r.Some? ==> ServiceTag(r.value) == s
  {
    if s == "Cuci Lipat" then Some(WashFold)
    else if s == "Cuci Setrika" then Some(WashIron)
    else if s == "Setrika Saja" then Some(IronOnly)
    else if s == "Dry Clean" then Some(DryClean)
    else None
  }

  /** Every variant's tag reads back as that variant, so tags are distinct. */
  lemma ServiceTagRoundTrip(st: ServiceType)
    ensures ServiceFromTag(ServiceTag(st)) == Some(st)
  {
  }

  lemma ServiceTagInjective(a: ServiceType, b: ServiceType)
    ensures ServiceTag(a) == ServiceTag(b) <==> a == b
  {
    ServiceTagRoundTrip(a);
    ServiceTagRoundTrip(b);
  }

  /** An order record. Times are whole hours; `waStatus` is read by the
      order list and the dashboard although the record type does not
      declare it, so it is optional here. */
  datatype Order = Order(
    id: string,
    customerName: string,
    phoneNumber: string,
    weight: real,
    serviceType: ServiceType,
    totalPrice: real,
    status: OrderStatus,
    createdAt: int,
    estimatedCompletion: int,
    waStatus: Option<string>)

  /** What the intake form hands to the app: an order without id,
      creation time and status. */
  datatype OrderDraft = OrderDraft(
    customerName: string,
    phoneNumber: string,
    weight: real,
    serviceType: ServiceType,
    totalPrice: real,
    estimatedCompletion: int)

  datatype Expense = Expense(
    id: string,
    category: string,
    amount: real,
    description: string,
    date: int)

  /** What the expense form hands to the app: an expense without id and date. */
  datatype ExpenseDraft = ExpenseDraft(category: string, amount: real, description: string)

  datatype Role = Admin | Staff

  function RoleTag(r: Role): string
  {
    match r
    case Admin => "admin"
    case Staff => "staff"
  }

  lemma RoleTagInjective(a: Role, b: Role)
    ensures RoleTag(a) == RoleTag(b) <==> a == b
  {
  }

  datatype User = User(username: string, role: Role)
}
