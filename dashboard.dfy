/** The dashboard home page: the greeting chosen by the hour of the day and the summary
    state, which starts empty and which `loadEmptyData` sets to a fixed empty summary
    under a generic user name. */
module Dashboard {
  import opened Common
  import Auth
  import Finances

  const Morning: string := "Bom dia"
  const Afternoon: string := "Boa tarde"
  const Evening: string := "Boa noite"

  /** `getGreeting`, given the hour that `new Date().getHours()` reads. */
  function GetGreeting(hour: int): (g: string)
    ensures g in {Morning, Afternoon, Evening}
    ensures g == Morning <==> hour < 12
    ensures g == Afternoon <==> 12 <= hour < 18
    ensures g == Evening <==> hour >= 18
  {
    if hour < 12 then Morning
    else if hour < 18 then Afternoon
    else Evening
  }

  /** The greeting changes only when the clock passes noon and six in the evening. */
  lemma GreetingChangesAt(hour: int)
    ensures GetGreeting(hour) != GetGreeting(hour + 1) <==> hour == 11 || hour == 17
  {
  }

  /** A recent transaction as the summary lists it; amounts are integer cents and dates
      day numbers. */
  datatype Transaction = Transaction(id: string, kind: Finances.FinanceType, amount: int,
                                     description: Option<string>, category: string, date: int)

  datatype FinanceSummary = FinanceSummary(balance: int, income: int, expenses: int)
  datatype CategoryTotal = CategoryTotal(name: string, value: int)
  datatype HealthSummary = HealthSummary(waterToday: int, lastSleep: Option<int>)
  datatype TagCount = TagCount(tag: string, count: int)
  datatype AcademicSummary = AcademicSummary(totalDocs: int, tagCounts: seq<TagCount>)
  datatype NextEvent = NextEvent(id: string, title: string, start: int, googleEventId: Option<string>)
  datatype ScheduleSummary = ScheduleSummary(upcomingEvents: int, syncedEvents: int, nextEvents: seq<NextEvent>)

  datatype DashboardSummary = DashboardSummary(
    finances: FinanceSummary,
    expensesByCategory: seq<CategoryTotal>,
    recentTransactions: seq<Transaction>,
    health: HealthSummary,
    academic: AcademicSummary,
    schedule: ScheduleSummary,
    userName: Option<string>)

  /** The name `loadEmptyData` shows. */
  const GenericUserName: string := "Usuário"

  /** Every number of the summary is 0, every list is empty and no sleep is known. */
  predicate IsEmpty(s: DashboardSummary) {
    && s.finances == FinanceSummary(0, 0, 0)
    && s.expensesByCategory == []
    && s.recentTransactions == []
    && s.health.waterToday == 0 && s.health.lastSleep.None?
    && s.academic.totalDocs == 0 && s.academic.tagCounts == []
    && s.schedule.upcomingEvents == 0 && s.schedule.syncedEvents == 0 && s.schedule.nextEvents == []
  }

  /** The empty summary under a given name. */
  function EmptySummary(userName: Option<string>): (s: DashboardSummary)
    ensures IsEmpty(s) && s.userName == userName
  {
    DashboardSummary(FinanceSummary(0, 0, 0), [], [], HealthSummary(0, None),
                     AcademicSummary(0, []), ScheduleSummary(0, 0, []), userName)
  }

  /** Two empty summaries differ at most in the name. */
  lemma EmptyIsUnique(s: DashboardSummary)
    requires IsEmpty(s)
    ensures s == EmptySummary(s.userName)
  {
  }

  class DashboardPage {
    var summary: DashboardSummary
    var loading: bool

    /** The initial state: loading, an empty summary and no user name. */
    constructor ()
      ensures loading && IsEmpty(summary) && summary.userName.None?
    {
      summary := EmptySummary(None);
      loading := true;
    }

    /** `loadEmptyData`: whatever the user and the date range, the summary becomes the
        empty one under the generic name and loading ends. The new state does not
        depend on the old one, so running it again changes nothing. */
    method LoadEmptyData(user: Option<Auth.User>, from: int, to: int)
      modifies this
      ensures !loading
      ensures IsEmpty(summary) && summary.userName == Some(GenericUserName)
    {
      summary := EmptySummary(Some(GenericUserName));
      loading := false;
    }
  }
}
