/**
 * ThreadMessage of simulation.py, the dictionary process_messages builds
 * from it, and the log line it chooses for it. The source passes the
 * thread type, action and status as strings drawn from fixed sets
 * ('reader'/'writer'; 'enter', 'read', 'write', 'exit', 'wait';
 * 'active', 'waiting', 'completed'); here they are datatypes, and the
 * dictionary holds their string names. The timestamp (`time.time()`) is
 * given from outside.
 */
module Messages {
  import opened Optional
  import opened Decimal

  datatype Role = Reader | Writer
  datatype Action = Enter | Read | Write | Exit | Wait
  datatype Status = Active | Waiting | Completed

  function RoleText(r: Role): string {
    match r
    case Reader => "reader"
    case Writer => "writer"
  }

  function ActionText(a: Action): string {
    match a
    case Enter => "enter"
    case Read => "read"
    case Write => "write"
    case Exit => "exit"
    case Wait => "wait"
  }

  function StatusText(s: Status): string {
    match s
    case Active => "active"
    case Waiting => "waiting"
    case Completed => "completed"
  }

  function ParseRole(s: string): (r: Option<Role>)
    ensures r.Some? ==> RoleText(r.value) == s
  {
    if s == "reader" then Some(Reader) else if s == "writer" then Some(Writer) else None
  }

  function ParseAction(s: string): (r: Option<Action>)
    ensures r.Some? ==> ActionText(r.value) == s
  {
    if s == "enter" then Some(Enter) else if s == "read" then Some(Read)
    else if s == "write" then Some(Write) else if s == "exit" then Some(Exit)
    else if s == "wait" then Some(Wait) else None
  }

  function ParseStatus(s: string): (r: Option<Status>)
    ensures r.Some? ==> StatusText(r.value) == s
  {
    if s == "active" then Some(Active) else if s == "waiting" then Some(Waiting)
    else if s == "completed" then Some(Completed) else None
  }

  /** Every name is read back as what it names. */
  lemma ParseText(r: Role, a: Action, s: Status)
    ensures ParseRole(RoleText(r)) == Some(r)
    ensures ParseAction(ActionText(a)) == Some(a)
    ensures ParseStatus(StatusText(s)) == Some(s)
  {
  }

  datatype ThreadMessage = ThreadMessage(
    threadType: Role,
    threadId: int,
    action: Action,
    status: Status,
    data: Option<string>,
    timestamp: real)

  /** The values a message dictionary holds. */
  datatype Value = Str(s: string) | Int(i: int) | Real(r: real) | NoneValue

  type MessageDict = map<string, Value>

  const MessageKeys := {"thread_type", "thread_id", "action", "status", "data", "timestamp"}

  function DataValue(data: Option<string>): Value {
    match data
    case Some(s) => Str(s)
    case None => NoneValue
  }

  /** The dictionary process_messages emits for a message (simulation.py:337-344). */
  function ToDict(m: ThreadMessage): (d: MessageDict)
    ensures d.Keys == MessageKeys
  {
    map["thread_type" := Str(RoleText(m.threadType)), "thread_id" := Int(m.threadId),
        "action" := Str(ActionText(m.action)), "status" := Str(StatusText(m.status)),
        "data" := DataValue(m.data), "timestamp" := Real(m.timestamp)]
  }

  /** Reading a message back from a dictionary; None when a field is missing or not a valid value. */
  function FromDict(d: MessageDict): Option<ThreadMessage> {
    if && "thread_type" in d && d["thread_type"].Str? && ParseRole(d["thread_type"].s).Some?
       && "thread_id" in d && d["thread_id"].Int?
       && "action" in d && d["action"].Str? && ParseAction(d["action"].s).Some?
       && "status" in d && d["status"].Str? && ParseStatus(d["status"].s).Some?
       && "data" in d && (d["data"].Str? || d["data"].NoneValue?)
       && "timestamp" in d && d["timestamp"].Real?
    then
      var data := if d["data"].Str? then Some(d["data"].s) else None;
      Some(ThreadMessage(ParseRole(d["thread_type"].s).value, d["thread_id"].i,
                         ParseAction(d["action"].s).value, ParseStatus(d["status"].s).value,
                         data, d["timestamp"].r))
    else None
  }

  /** The dictionary carries all six fields unchanged. */
  lemma DictRoundTrip(m: ThreadMessage)
    ensures FromDict(ToDict(m)) == Some(m)
  {
    var d := ToDict(m);
    ParseText(m.threadType, m.action, m.status);
    assert d["thread_type"] == Str(RoleText(m.threadType));
    assert d["action"] == Str(ActionText(m.action));
    assert d["status"] == Str(StatusText(m.status));
    assert d["data"] == DataValue(m.data);
  }

  predicate IsLetter(c: char) {
    'a' <= c <= 'z' || 'A' <= c <= 'Z'
  }

  function Upper(c: char): char {
    if 'a' <= c <= 'z' then (c as int - 32) as char else c
  }

  function Lower(c: char): char {
    if 'A' <= c <= 'Z' then (c as int + 32) as char else c
  }

  /** `str.title()` on ASCII text: a letter is upper case after a non-letter, lower case after a letter. */
  function Title(s: string): (t: string)
    ensures |t| == |s|
  {
    TitleAfter(s, false)
  }

  function TitleAfter(s: string, afterLetter: bool): (t: string)
    ensures |t| == |s|
    ensures forall i :: 0 <= i < |s| ==> (IsLetter(t[i]) <==> IsLetter(s[i]))
  {
    if s == [] then []
    else
      var c := s[0];
      var d := if !IsLetter(c) then c else if afterLetter then Lower(c) else Upper(c);
      [d] + TitleAfter(s[1..], IsLetter(c))
  }

  /** Title case of a lower-case word capitalises its first letter only. */
  lemma {:induction false} TitleOfLowerWord(s: string)
    requires |s| >= 1 && forall i :: 0 <= i < |s| ==> 'a' <= s[i] <= 'z'
    ensures Title(s) == [Upper(s[0])] + s[1..]
  {
    LowerRunUnchanged(s[1..]);
  }

  lemma {:induction false} LowerRunUnchanged(s: string)
    requires forall i :: 0 <= i < |s| ==> 'a' <= s[i] <= 'z'
    ensures TitleAfter(s, true) == s
    decreases |s|
  {
    if s != [] {
      LowerRunUnchanged(s[1..]);
    }
  }

  /** The capitalised role, as log lines show it. */
  function RoleTitle(r: Role): string {
    match r
    case Reader => "Reader"
    case Writer => "Writer"
  }

  lemma TitleOfRole(r: Role)
    ensures Title(RoleText(r)) == RoleTitle(r)
  {
    TitleOfLowerWord(RoleText(r));
    assert Upper('r') == 'R' && Upper('w') == 'W';
  }

  datatype Level = Debug | Info | Warning | Error

  datatype LogLine = LogLine(text: string, level: Level)

  /**
   * The log line process_messages writes for a message
   * (simulation.py:350-356): only reads and writes are logged, at DEBUG
   * while active and at INFO otherwise.
   */
  function LogFor(m: ThreadMessage): (r: Option<LogLine>)
    ensures r.Some? <==> m.action == Read || m.action == Write
    ensures r.Some? ==> (r.value.level == Debug <==> m.status == Active)
    ensures r.Some? ==> (r.value.level == Info <==> m.status != Active)
  {
    if m.action == Read || m.action == Write then
      var level := if m.status == Active then Debug else Info;
      Some(LogLine(Title(RoleText(m.threadType)) + " " + IntToString(m.threadId) + " "
                   + ActionText(m.action) + " " + StatusText(m.status), level))
    else None
  }

  /** The text of such a line, e.g. `Reader 3 read active`. */
  lemma LogText(m: ThreadMessage)
    requires m.action == Read || m.action == Write
    ensures LogFor(m).value.text
            == RoleTitle(m.threadType) + " " + IntToString(m.threadId) + " "
               + ActionText(m.action) + " " + StatusText(m.status)
  {
    TitleOfRole(m.threadType);
  }
}
