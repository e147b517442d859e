/** The sixteen tools the server registers. Each builds one `Command` from
    its parameters and hands it to `run_command`. */
module Tools {
  import opened Text
  import opened Decimal
  import opened Commands
  import opened Invocation

  /** One call of a registered tool, with its declared parameters. */
  datatype ToolCall =
    | SendMessage(name: string, message: string)
    | PhoneCall(name: string)
    | FacetimeCall(name: string)
    | SendEmail(name: string, message: string, subject: string)
    | ListContacts
    | ListPastCalendarEvents(number: int, unit: string)
    | ListFutureCalendarEvents(number: int, unit: string)
    | ListTodayCalendarEvents
    | CreateCalendarEvent(title: string, startTime: string, endTime: string)
    | ListReminders
    | AddReminder(reminderName: string, listName: string)
    | GetCurrentWeather
    | GetWeatherForecast
    | SetAlarm(alarmName: string, time: string)
    | DeleteAlarm(alarmName: string)
    | ListAlarms

  /** The name each tool is registered under. */
  function ToolName(call: ToolCall): string {
    match call
    case SendMessage(_, _) => "sendMessage"
    case PhoneCall(_) => "phoneCall"
    case FacetimeCall(_) => "facetimeCall"
    case SendEmail(_, _, _) => "sendEmail"
    case ListContacts => "listContacts"
    case ListPastCalendarEvents(_, _) => "listPastCalendarEvents"
    case ListFutureCalendarEvents(_, _) => "listFutureCalendarEvents"
    case ListTodayCalendarEvents => "listTodayCalendarEvents"
    case CreateCalendarEvent(_, _, _) => "createCalendarEvent"
    case ListReminders => "listReminders"
    case AddReminder(_, _) => "addReminder"
    case GetCurrentWeather => "getCurrentWeather"
    case GetWeatherForecast => "getWeatherForecast"
    case SetAlarm(_, _) => "setAlarm"
    case DeleteAlarm(_) => "deleteAlarm"
    case ListAlarms => "listAlarms"
  }

  /** The tool's parameters in declared order, as text: a number becomes
      its decimal form. */
  function Params(call: ToolCall): (ps: seq<string>)
    ensures |ps| <= 3
  {
    match call
    case SendMessage(name, message) => [name, message]
    case PhoneCall(name) => [name]
    case FacetimeCall(name) => [name]
    case SendEmail(name, message, subject) => [name, message, subject]
    case ListContacts => []
    case ListPastCalendarEvents(number, unit) => [IntToString(number), unit]
    case ListFutureCalendarEvents(number, unit) => [IntToString(number), unit]
    case ListTodayCalendarEvents => []
    case CreateCalendarEvent(title, startTime, endTime) => [title, startTime, endTime]
    case ListReminders => []
    case AddReminder(reminderName, listName) => [reminderName, listName]
    case GetCurrentWeather => []
    case GetWeatherForecast => []
    case SetAlarm(alarmName, time) => [alarmName, time]
    case DeleteAlarm(alarmName) => [alarmName]
    case ListAlarms => []
  }

  /** Slot `i` of a positional argument list: the `i`-th argument when
      there is one, the placeholder otherwise. */
  function SlotValue(ps: seq<string>, i: nat): string {
    if i < |ps| then ps[i] else Placeholder
  }

  /** The `Command` each tool body constructs: the tool's name, then its
      parameters in declared order, then placeholders for the slots left over. */
  function ToCommand(call: ToolCall): (c: Command)
    ensures c.operation == ToolName(call)
    ensures c.arg1 == SlotValue(Params(call), 0)
    ensures c.arg2 == SlotValue(Params(call), 1)
    ensures c.arg3 == SlotValue(Params(call), 2)
  {
    match call
    case SendMessage(name, message) => Command("sendMessage", name, message)
    case PhoneCall(name) => Command("phoneCall", name)
    case FacetimeCall(name) => Command("facetimeCall", name)
    case SendEmail(name, message, subject) => Command("sendEmail", name, message, subject)
    case ListContacts => Command("listContacts")
    case ListPastCalendarEvents(number, unit) => Command("listPastCalendarEvents", IntToString(number), unit)
    case ListFutureCalendarEvents(number, unit) => Command("listFutureCalendarEvents", IntToString(number), unit)
    case ListTodayCalendarEvents => Command("listTodayCalendarEvents")
    case CreateCalendarEvent(title, startTime, endTime) => Command("createCalendarEvent", title, startTime, endTime)
    case ListReminders => Command("listReminders")
    case AddReminder(reminderName, listName) => Command("addReminder", reminderName, listName)
    case GetCurrentWeather => Command("getCurrentWeather")
    case GetWeatherForecast => Command("getWeatherForecast")
    case SetAlarm(alarmName, time) => Command("setAlarm", alarmName, time)
    case DeleteAlarm(alarmName) => Command("deleteAlarm", alarmName)
    case ListAlarms => Command("listAlarms")
  }

  /** A tool's body: run its command through the engine. Every tool returns
      a non-empty string, which starts with the error marker whenever the
      engine failed. */
  function Handle(call: ToolCall, engine: string -> Outcome): (r: string)
    ensures r != ""
    ensures engine(Payload(ToCommand(call))).exitStatus != 0 ==> StartsWith(r, ErrorMarker)
  {
    RunCommand(ToCommand(call), engine)
  }

  /** The calendar-listing tools send `str(number)` in the first slot, which
      reads back as the number, then the unit, then one placeholder. */
  lemma CalendarNumberEncoding(call: ToolCall)
    requires call.ListPastCalendarEvents? || call.ListFutureCalendarEvents?
    ensures IsDecimalLiteral(ToCommand(call).arg1)
    ensures ParseInt(ToCommand(call).arg1) == call.number
    ensures ToCommand(call).arg2 == call.unit
    ensures ToCommand(call).arg3 == Placeholder
  {
    ParseIntToString(call.number);
  }

  /** A tool whose parameters are newline-free sends a payload that splits
      into exactly four lines: its name and its parameters, padded with
      placeholders. */
  lemma PayloadLines(call: ToolCall)
    requires FreeOf(Params(call), '\n')
    ensures Split(Payload(ToCommand(call)), '\n') == [ToolName(call)]
      + [SlotValue(Params(call), 0), SlotValue(Params(call), 1), SlotValue(Params(call), 2)]
    ensures |Split(Payload(ToCommand(call)), '\n')| == 4
  {
    SlotsFreeOfNewlines(call);
    PayloadRoundTrip(ToCommand(call));
  }

  lemma ToolNameFreeOfNewline(call: ToolCall)
    ensures '\n' !in ToolName(call)
  {
  }

  lemma SlotsFreeOfNewlines(call: ToolCall)
    requires FreeOf(Params(call), '\n')
    ensures NoNewlines(ToCommand(call))
  {
    var ps := Params(call);
    ToolNameFreeOfNewline(call);
    assert forall i: nat :: '\n' !in SlotValue(ps, i);
  }

  /** Two different calls never build the same command. */
  lemma ToCommandInjective(a: ToolCall, b: ToolCall)
    requires ToCommand(a) == ToCommand(b)
    ensures a == b
  {
    match a
    case ListPastCalendarEvents(n, _) =>
      if b.ListPastCalendarEvents? { IntToStringInjective(n, b.number); }
    case ListFutureCalendarEvents(n, _) =>
      if b.ListFutureCalendarEvents? { IntToStringInjective(n, b.number); }
    case _ =>
  }

  /** With newline-free parameters the payload alone determines the call. */
  lemma PayloadIdentifiesCall(a: ToolCall, b: ToolCall)
    requires FreeOf(Params(a), '\n') && FreeOf(Params(b), '\n')
    requires Payload(ToCommand(a)) == Payload(ToCommand(b))
    ensures a == b
  {
    SlotsFreeOfNewlines(a);
    SlotsFreeOfNewlines(b);
    PayloadInjective(ToCommand(a), ToCommand(b));
    ToCommandInjective(a, b);
  }

  lemma ExampleSendEmail()
    ensures Slots(ToCommand(SendEmail("Alice", "Hi", "Subject"))) == ["sendEmail", "Alice", "Hi", "Subject"]
  {
  }

  /** A message with one line break, such as `sendMessage("Bob", "hi\nthere")`,
      reaches the engine as five lines instead of four: the message is read as
      two slots and the placeholder becomes a fifth line. */
  lemma NewlineInMessage(name: string, before: string, after: string)
    requires '\n' !in name && '\n' !in before && '\n' !in after
    ensures |Split(Payload(ToCommand(SendMessage(name, before + "\n" + after))), '\n')| == 5
  {
    var message := before + "\n" + after;
    PayloadLineCount(ToCommand(SendMessage(name, message)));
    ToolNameFreeOfNewline(SendMessage(name, message));
    assert multiset(message) == multiset(before) + multiset{'\n'} + multiset(after);
  }

  lemma ExampleListContacts()
    ensures Slots(ToCommand(ListContacts)) == ["listContacts", " ", " ", " "]
    ensures Payload(ToCommand(ListContacts)) == "listContacts" + "\n \n \n "
  {
    OmittedSlotsArePlaceholders("listContacts");
  }
}
