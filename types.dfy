/** Shared value types of the dashboard: the records of src/types/index.ts
    (declared a second time, identically, in src/lib/store.ts) and the
    optional value that stands for TypeScript's `T | null` / `T?`. */
module Types {

  /** `T | null`, `T | undefined` and an optional property `x?: T`. */
  datatype Option<+T> = None | Some(value: T) {
    function GetOr(default: T): T {
      match this
      case Some(v) => v
      case None => default
    }
  }

  /** `User["role"]`: the string union "Admin" | "Broker". */
  datatype Role = Admin | Broker

  /** The user record stored in the session; `name` is the display name. */
  datatype User = User(id: string, username: string, role: Role, name: string)

  /** A borrower application. The optional properties of the TypeScript
      interface are `Option`s; the amounts are whole numbers in the data. */
  datatype Borrower = Borrower(
    id: string,
    name: string,
    loanType: string,
    amount: int,
    status: string,
    email: Option<string>,
    phone: Option<string>,
    loanAmount: Option<int>,
    employment: Option<string>,
    income: Option<int>,
    existingLoan: Option<int>,
    creditScore: Option<int>,
    sourceOfFunds: Option<string>,
    riskSignal: Option<string>,
    aiFlags: Option<seq<string>>)

  datatype BrokerInfo = BrokerInfo(name: string, deals: int, approvalRate: string, pending: int)

  /** The pipeline tab, the string union "new" | "in_review" | "approved". */
  datatype Tab = New | InReview | Approved

  /** The three buckets of borrowers, keyed by pipeline stage. */
  datatype Buckets = Buckets(newBucket: seq<Borrower>, inReviewBucket: seq<Borrower>, approvedBucket: seq<Borrower>) {
    /** `borrowers[tab]` */
    function Get(tab: Tab): seq<Borrower> {
      match tab
      case New => newBucket
      case InReview => inReviewBucket
      case Approved => approvedBucket
    }
  }

  const EmptyBuckets := Buckets([], [], [])

  /** The badge colour picked by the two status-colour switches. */
  datatype Color = Blue | Yellow | Green | Gray
}
