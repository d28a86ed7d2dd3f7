/** The records of the requisition workflow and of the finance module.
    Money is `real` (exact arithmetic), calendar days are abstract day
    numbers, instants (creation and request timestamps) are abstract ints. */
module Types {

  datatype Option<T> = None | Some(value: T) {
    function GetOr(default: T): T {
      match this
      case Some(v) => v
      case None => default
    }
  }

  /** A calendar day, as a day number counted from 1970-01-01. */
  type Day = int
  /** A calendar month, as `year * 12 + month`. */
  type MonthKey = int
  /** A point in time (an ISO timestamp in the application). */
  type Instant = int

  /** A JavaScript optional string is "truthy" when present and non-empty. */
  predicate IsSet(s: Option<string>) {
    s.Some? && s.value != ""
  }

  datatype OrderStatus = PendingQuotes | ReadyForApproval | Approved | Rejected | Delivered

  datatype MaterialItem = MaterialItem(
    id: string,
    name: string,
    quantity: real,
    unit: string,
    category: Option<string>)

  datatype ItemQuoteEntry = ItemQuoteEntry(itemId: string, unitPrice: real)

  datatype OrderQuote = OrderQuote(
    id: string,
    supplierId: string,
    totalPrice: real,
    deliveryDays: int,
    isSelected: bool,
    justification: Option<string>,
    paymentMethod: Option<string>,
    observations: Option<string>,
    isFreightIncluded: bool,
    freightCost: Option<real>,
    billingTerms: Option<string>,
    itemPrices: seq<ItemQuoteEntry>)

  /** A material requisition. */
  datatype MaterialOrder = MaterialOrder(
    id: string,
    projectId: string,
    requestDate: Instant,
    status: OrderStatus,
    requestedBy: string,
    items: seq<MaterialItem>,
    orderQuotes: seq<OrderQuote>)

  datatype ProjectStatus = InProgress | Completed | Planning

  datatype Project = Project(
    id: string,
    name: string,
    clientId: string,
    budget: real,
    startDate: Day,
    status: ProjectStatus)

  datatype Supplier = Supplier(
    id: string,
    name: string,
    category: string,
    email: string,
    phone: string,
    document: string,
    contactPerson: Option<string>,
    website: Option<string>,
    rating: real)

  datatype Material = Material(
    id: string,
    name: string,
    category: string,
    unit: string,
    description: Option<string>,
    minStock: Option<real>)

  datatype Client = Client(id: string, name: string, email: string, phone: string, document: string)

  datatype PaymentStatus = Pending | Paid | Overdue | Cancelled

  /** The six expense categories ('Materiais', 'Serviços', 'Administrativo',
      'Mão de Obra', 'Equipamentos', 'Outros'). */
  datatype TransactionCategory = Materiais | Servicos | Administrativo | MaoDeObra | Equipamentos | Outros

  const AllCategories: seq<TransactionCategory> :=
    [Materiais, Servicos, Administrativo, MaoDeObra, Equipamentos, Outros]

  datatype AccountPayable = AccountPayable(
    id: string,
    orderId: Option<string>,
    projectId: string,
    supplierId: string,
    description: string,
    amount: real,
    dueDate: Day,
    status: PaymentStatus,
    paymentMethod: Option<string>,
    paymentDate: Option<Day>,
    category: TransactionCategory,
    billingTerms: Option<string>,
    observations: Option<string>,
    createdAt: Instant,
    createdBy: string)

  datatype AccountReceivable = AccountReceivable(
    id: string,
    projectId: string,
    clientId: string,
    description: string,
    amount: real,
    dueDate: Day,
    status: PaymentStatus,
    paymentMethod: Option<string>,
    paymentDate: Option<Day>,
    createdAt: Instant,
    createdBy: string,
    installmentNumber: int,
    totalInstallments: int)

  /** The payment form shared by both ledgers' "mark as paid" dialogs. */
  datatype PaymentData = PaymentData(paymentDate: Day, paymentMethod: string)

  /** The filter selects of the ledgers: 'all' or one value. */
  datatype Choice<T(==)> = All | Only(value: T) {
    predicate Admits(x: T) {
      match this
      case All => true
      case Only(v) => v == x
    }
  }
}
