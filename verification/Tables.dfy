// The accounting tables of one organization. A row's id is its position in the
// table, amounts are whole cents, and a date is the number yyyymmdd.
module Tables {

  type Id = nat
  type Cents = int
  type Date = nat

  const FIRST_DATE: Date := 10101              // DATE '0001-01-01'
  const MAX_SAFE_CENTS: Cents := 9007199254740991

  datatype Option<+T> = None | Some(value: T)

  datatype Side = Debit | Credit

  datatype Account = Account(kind: string, normal: Option<Side>, normalIsExplicit: bool,
                             isLocked: bool, isActive: bool, directPosting: bool, currency: Option<string>)

  // sameIdAs is the account whose id equals this bank row's own id, if there is one.
  datatype Bank = Bank(ledger: Option<Id>, sameIdAs: Option<Id>, reconciledThrough: Option<Date>,
                       currency: string, isActive: bool, isArchived: bool)

  datatype Session = Session(bank: Id, endDate: Date, completed: bool)

  // month is yyyymm; isLocked is the column only the banking services look at.
  datatype PeriodLock = PeriodLock(statusActive: bool, lockDate: Option<Date>, isLocked: bool, month: nat)

  datatype Line = Line(account: Id, debit: Cents, credit: Cents,
                       project: Option<Id>, customer: Option<Id>, vendor: Option<Id>)

  datatype JournalStatus = Draft | Posted | Withdrawn

  datatype Journal = Journal(number: string, date: Date, status: JournalStatus, lines: seq<Line>,
                             reversalOf: Option<Id>, reversedBy: Option<Id>)

  // A journal line is named by its journal and its place in it.
  datatype LineRef = LineRef(journal: Id, index: nat)

  datatype Direction = Inflow | Outflow | UnknownDirection

  datatype StatementStatus =
    | Unmatched | PartiallyMatched | Matched
    | Reconciled | Suggested | Ignored | NeedsReview | PossibleDuplicate | ToReview | Recognized
    | ConfirmedDuplicate | ProvenArtifact

  datatype Statement = Statement(bank: Id, date: Date, amount: Cents, direction: Direction, currency: string,
                                 importCompleted: bool, hasDisposition: bool, isIgnored: bool,
                                 status: StatementStatus)

  // The document a match row names (accounting_transaction_type and _id).
  datatype Source =
    | PaymentReceived(id: Id) | PaymentMade(id: Id) | Expense(id: Id)
    | CustomerRefund(id: Id) | VendorRefund(id: Id) | Transfer(id: Id)
    | JournalSource(id: Id) | Canonical(id: Id) | OtherSource(id: Id)

  datatype AllocationState = Active | Unallocated | Legacy | ReversedAllocation
  datatype IdentityState = Verified | LegacyUnresolved
  datatype Origin = CanonicalAllocation | LegacyVerified | StatementCreation | LegacyMatch
  datatype MatchStatus = MatchedStatus | RejectedStatus | ReversedStatus | UnmatchedStatus | PendingStatus

  datatype Match = Match(statement: Id, source: Source, amount: Cents, status: MatchStatus,
                         journal: Option<Id>, line: Option<LineRef>,
                         identity: IdentityState, origin: Origin, state: AllocationState,
                         bank: Option<Id>, createdFromBank: bool)

  datatype Books = Books(
    recoveryLocked: bool, baseCurrency: string,
    accounts: seq<Account>, balances: seq<Cents>,
    banks: seq<Bank>, bankBalances: seq<Cents>, sessions: seq<Session>,
    locks: seq<PeriodLock>, projects: set<Id>, customers: set<Id>, vendors: set<Id>,
    journals: seq<Journal>, statements: seq<Statement>, matches: seq<Match>,
    sourceJournals: map<Source, Id>)

  // The live tables. A service method is one transaction on them.
  class Database {
    var recoveryLocked: bool
    var baseCurrency: string
    var accounts: seq<Account>
    var balances: seq<Cents>
    var banks: seq<Bank>
    var bankBalances: seq<Cents>
    var sessions: seq<Session>
    var locks: seq<PeriodLock>
    var projects: set<Id>
    var customers: set<Id>
    var vendors: set<Id>
    var journals: seq<Journal>
    var statements: seq<Statement>
    var matches: seq<Match>
    var sourceJournals: map<Source, Id>

    function Snapshot(): Books
      reads this
    {
      Books(recoveryLocked, baseCurrency, accounts, balances, banks, bankBalances, sessions,
            locks, projects, customers, vendors, journals, statements, matches, sourceJournals)
    }
  }
}
