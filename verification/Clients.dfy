/** A client of either language, as the rest of the system sees it. */
module Clients {
  import opened Wrappers
  import opened JsonValues
  import opened CallTable
  import opened ReplyStreams
  import opened Envelope
  import Ts = RedisClient
  import Py = PythonClient

  datatype Client = TypeScriptClient(ts: Ts.Client) | PythonClient(py: Py.Client)

  datatype Move = TypeScriptMove(ts: Ts.ClientStep) | PythonMove(py: Py.ClientStep)

  function NewClient(lang: Language): Client {
    if lang.TypeScript? then TypeScriptClient(Ts.NEW_CLIENT) else PythonClient(Py.NEW_CLIENT)
  }

  function LanguageOf(c: Client): Language {
    if c.TypeScriptClient? then TypeScript else Python
  }

  /** The calls that the client has sent, and what their callers got. */
  function Calls(c: Client): map<string, CallState> {
    match c
    case TypeScriptClient(ts) => ts.table.calls
    case PythonClient(py) => Py.States(py.table)
  }

  function CursorOf(c: Client): Cursor {
    match c
    case TypeScriptClient(ts) => ts.cursor
    case PythonClient(py) => py.cursor
  }

  predicate IsStarted(c: Client) {
    match c
    case TypeScriptClient(ts) => ts.state.Started?
    case PythonClient(py) => py.state.Started?
  }

  /** Some `stop` has emptied the table, so its DEL may reach the stream. */
  predicate MayDelete(c: Client) {
    match c
    case TypeScriptClient(ts) => ts.ending > 0
    case PythonClient(py) => py.stage.Ended?
  }

  predicate CanMove(c: Client, move: Move) {
    match c
    case TypeScriptClient(ts) => move.TypeScriptMove? && Ts.CanStep(ts, move.ts)
    case PythonClient(py) => move.PythonMove? && Py.CanStep(py, move.py)
  }

  function MoveOf(c: Client, s: ReplyStream, move: Move): Client
    requires CanMove(c, move)
  {
    match c
    case TypeScriptClient(ts) => TypeScriptClient(Ts.StepClient(ts, s, move.ts))
    case PythonClient(py) => PythonClient(Py.StepClient(py, s, move.py))
  }

  /** The call that a move sends, if it sends one. */
  function SentCall(move: Move): Option<string> {
    match move
    case TypeScriptMove(step) => if step.SendOut? then Some(step.id) else None
    case PythonMove(step) => if step.SendOut? then Some(step.id) else None
  }

  function Sent(move: Move): set<string> {
    if SentCall(move).Some? then {SentCall(move).value} else {}
  }

  /** Table and cursor are exact, each in the way of its language. */
  ghost predicate ClientInv(c: Client, s: ReplyStream) {
    match c
    case TypeScriptClient(ts) => Ts.ClientInv(ts, s)
    case PythonClient(py) => Py.ClientInv(py, s)
  }

  lemma NewClientIsSound(lang: Language, s: ReplyStream)
    requires ValidStream(s)
    ensures ClientInv(NewClient(lang), s) && Calls(NewClient(lang)) == map[] && LanguageOf(NewClient(lang)) == lang
  {
  }

  lemma StreamGrowthKeepsClient(c: Client, s: ReplyStream, t: ReplyStream)
    requires ClientInv(c, s) && s.items <= t.items && s.trimmed <= t.trimmed <= |t.items|
    ensures ClientInv(c, t)
  {
    match c {
      case TypeScriptClient(ts) => StreamGrowthKeepsCursor(ts.cursor, s, t);
      case PythonClient(py) => Py.StreamGrowthKeepsClient(py, s, t);
    }
  }

  /** In both languages every step keeps the client sound and closes a call once, with a reply only from the stream. */
  lemma MoveIsSound(c: Client, s: ReplyStream, move: Move)
    requires ClientInv(c, s) && CanMove(c, move)
    ensures ClientInv(MoveOf(c, s, move), s)
    ensures CallsMove(Calls(c), Calls(MoveOf(c, s, move)), s, Sent(move))
  {
    match c {
      case TypeScriptClient(ts) => Ts.ClientStepIsSound(ts, s, move.ts);
      case PythonClient(py) => Py.ClientStepIsSound(py, s, move.py);
    }
  }

  /** A client may delete its reply stream from the moment some `stop` has emptied its table. */
  lemma DrainAllowsDeletion(c: Client, s: ReplyStream, move: Move)
    requires CanMove(c, move) && move in {TypeScriptMove(Ts.DrainPending), PythonMove(Py.Drain)}
    ensures MayDelete(MoveOf(c, s, move))
  {
  }

  /** Not before: in TypeScript there has been a drain, in Python the table is empty for good. */
  lemma DeletionFollowsDrain(states: seq<Ts.Client>, streams: seq<ReplyStream>, steps: seq<Ts.ClientStep>, j: nat)
    returns (d: nat)
    requires Ts.IsClientRun(states, streams, steps) && j < |states| && MayDelete(TypeScriptClient(states[j]))
    ensures d < j && steps[d].DrainPending?
  {
    d := Ts.EndingFollowsDrain(states, streams, steps, j);
  }
}
