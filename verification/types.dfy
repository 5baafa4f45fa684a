/** The records shared by the core: tasks, calendar events, insights, chat
    messages, and the daily briefing that groups the first three with a
    summary. */
module Types {

  /** Where a task was found. */
  datatype Source = Email | WhatsApp | Manual

  /** An actionable item; only `isCompleted` ever changes, by id. */
  datatype Task = Task(id: string, text: string, isCompleted: bool, source: Source)

  /** A scheduled event; `time` is free text such as "Tomorrow at 10:00 AM". */
  datatype CalendarEvent = CalendarEvent(id: string, time: string, title: string, participants: seq<string>)

  datatype Category = Strategic | Productivity | Personal

  datatype Insight = Insight(id: string, text: string, category: Category)

  datatype Role = UserRole | ModelRole

  /** One entry of the chat transcript. */
  datatype ChatMessage = ChatMessage(role: Role, text: string)

  /** The daily briefing (`DashboardData`), stored per user and day. */
  datatype DashboardData = DashboardData(
    summary: string,
    tasks: seq<Task>,
    events: seq<CalendarEvent>,
    insights: seq<Insight>)

  /** The signed-in identity; only its `uid` is used. */
  datatype User = User(uid: string)
}
