/** The client-side records the CRM front end exchanges with its backend:
    segment rules, campaigns and customers. */
module Types {

  datatype Option<+T> = None | Some(value: T)

  /** The customer attribute a rule compares. */
  datatype Field = TotalSpent | OrderCount | LastOrderDate | DaysInactive
  {
    /** The string tag the field carries on the wire. */
    function Name(): (s: string)
      ensures |s| > 0
    {
      match this
      case TotalSpent => "totalSpent"
      case OrderCount => "orderCount"
      case LastOrderDate => "lastOrderDate"
      case DaysInactive => "daysInactive"
    }
  }

  /** The comparison a rule applies; the record type admits all six. */
  datatype Operator = Gt | Gte | Lt | Lte | Eq | Neq
  {
    function Name(): (s: string)
      ensures |s| > 0
    {
      match this
      case Gt => "gt"
      case Gte => "gte"
      case Lt => "lt"
      case Lte => "lte"
      case Eq => "eq"
      case Neq => "neq"
    }
  }

  /** How a rule is joined to the rules before it. */
  datatype LogicalOperator = And | Or

  /** A rule value is either a string (what an input box yields) or a number. */
  datatype RuleValue = Text(text: string) | Num(number: real)

  datatype SegmentRule = SegmentRule(
    id: Option<string>,
    field: Field,
    operator: Operator,
    value: RuleValue,
    logicalOperator: Option<LogicalOperator>)

  datatype CampaignStatus = Pending | Running | Completed | Failed

  datatype Campaign = Campaign(
    id: string,
    name: string,
    segmentId: string,
    status: CampaignStatus,
    audienceSize: int,
    sentCount: int,
    failedCount: int,
    createdAt: string,
    updatedAt: string,
    segmentName: Option<string>)

  /** The customer record as the recent-customers list receives it. */
  datatype Customer = Customer(
    id: string,
    name: string,
    email: string,
    phone: Option<string>,
    totalSpent: real,
    orderCount: int,
    createdAt: string)
}
