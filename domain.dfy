/** The records of the application. The camelCase records are those the
    in-memory contract store holds (src/types/index.ts); the snake_case rows
    are those the dashboard, clustering and comparison views read from the
    backend schema (src/integrations/supabase/types.ts). Dates are
    milliseconds since the epoch, as `Date.getTime()` gives them. */
module Domain {
  import opened Text

  // Enumerations of the schema.
  datatype DocumentType = Commission | Service | License
  datatype ContractStatus = Active | Expiring | Expired
  datatype RiskLevel = Low | Medium | High
  datatype AlertType = ExpiryAlert | RiskAlert | UpdateAlert
  datatype Severity = LowSeverity | MediumSeverity | HighSeverity

  /** A change classification as the comparison view produces it; the
      schema's own `change_type` enumeration lacks `Changed`. */
  datatype ChangeType = Improvement | Neutral | Concern | Changed

  datatype Sender = UserSender | AiSender

  datatype UserRole = DistributorHead | StoreIncharge | Salesperson

  datatype KeyTerms = KeyTerms(
    margin: Option<string>,
    paymentTerms: Option<string>,
    slaTime: Option<string>,
    territory: Option<string>,
    exclusivity: Option<bool>,
    minimumOrderQuantity: Option<string>,
    warrantyPeriod: Option<string>)

  datatype ContractChange = ContractChange(
    field: string,
    oldValue: string,
    newValue: string,
    changeType: ChangeType)

  datatype Contract = Contract(
    id: string,
    fileName: string,
    brand: string,
    series: string,
    model: string,
    version: string,
    uploadDate: int,
    expiryDate: int,
    status: ContractStatus,
    uploadedBy: string,
    fileSize: string,
    documentType: DocumentType,
    keyTerms: Option<KeyTerms>,
    riskLevel: Option<RiskLevel>,
    changes: Option<seq<ContractChange>>)

  datatype ChatMessage = ChatMessage(
    id: string,
    content: string,
    sender: Sender,
    timestamp: int,
    contractId: Option<string>,
    highlightedClause: Option<string>)

  datatype Alert = Alert(
    id: string,
    alertType: AlertType,
    severity: Severity,
    title: string,
    description: string,
    contractId: string,
    date: int,
    isRead: bool)

  datatype User = User(
    id: string,
    username: string,
    role: UserRole,
    name: string,
    email: string,
    avatar: Option<string>,
    department: Option<string>,
    location: Option<string>)

  // Rows of the backend schema.

  datatype ContractRow = ContractRow(
    id: string,
    brandId: Option<string>,
    seriesId: Option<string>,
    fileName: string,
    model: Option<string>,
    version: string,
    documentType: DocumentType,
    status: Option<ContractStatus>,
    expiryDate: string,
    margin: Option<string>,
    paymentTerms: Option<string>,
    slaTime: Option<string>,
    territory: Option<string>,
    exclusivity: Option<bool>,
    minimumOrderQuantity: Option<string>,
    warrantyPeriod: Option<string>,
    riskLevel: Option<RiskLevel>)

  datatype AlertRow = AlertRow(
    id: string,
    contractId: Option<string>,
    title: string,
    description: Option<string>,
    alertType: AlertType,
    severity: Severity,
    isRead: Option<bool>)

  datatype BrandRow = BrandRow(id: string, name: string)

  datatype SeriesRow = SeriesRow(
    id: string,
    brandId: Option<string>,
    name: string,
    description: Option<string>)
}
