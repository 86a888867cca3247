// Saving the selected mainline snapshot as a payload and restoring it.

module SnapshotPersistence {
  import opened Wrappers
  import opened MainlineSnapshot

  /** A payload as it is read: a field that is absent reads as undefined. */
  type Payload = Name -> Value

  /** What restoring takes from its surroundings: the current time, how a numeral is read, and how a
      text is trimmed. */
  datatype Env = Env(now: string, parseNumber: string -> Option<real>, trim: string -> string)

  // ---------------------------------------------------------------------------
  // Reading values
  // ---------------------------------------------------------------------------

  predicate IsSpace(c: char) {
    c == ' ' || c == '\t' || c == '\n' || c == '\r' || c == '\U{000B}' || c == '\U{000C}'
    || c == '\U{00A0}' || c == '\U{FEFF}' || c == '\U{1680}' || '\U{2000}' <= c <= '\U{200A}'
    || c == '\U{2028}' || c == '\U{2029}' || c == '\U{202F}' || c == '\U{205F}' || c == '\U{3000}'
  }

  function TrimStart(s: string): string {
    if s != "" && IsSpace(s[0]) then TrimStart(s[1..]) else s
  }

  function TrimEnd(s: string): string {
    if s != "" && IsSpace(s[|s| - 1]) then TrimEnd(s[..|s| - 1]) else s
  }

  function Trim(s: string): string {
    TrimEnd(TrimStart(s))
  }

  /** A text that reading leaves as it is. */
  predicate Clean(env: Env, s: string) {
    s != "" && env.trim(s) == s
  }

  /** Trimming takes white space off both ends, and all of it. */
  lemma {:induction false} TrimStartTakes(s: string)
    ensures |TrimStart(s)| <= |s| && s[|s| - |TrimStart(s)|..] == TrimStart(s)
    ensures forall i :: 0 <= i < |s| - |TrimStart(s)| ==> IsSpace(s[i])
    ensures TrimStart(s) != "" ==> !IsSpace(TrimStart(s)[0])
    decreases |s|
  {
    if s != "" && IsSpace(s[0]) {
      TrimStartTakes(s[1..]);
      assert forall i :: 1 <= i < |s| - |TrimStart(s)| ==> s[i] == s[1..][i - 1];
    }
  }

  lemma {:induction false} TrimEndTakes(s: string)
    ensures |TrimEnd(s)| <= |s| && s[..|TrimEnd(s)|] == TrimEnd(s)
    ensures forall i :: |TrimEnd(s)| <= i < |s| ==> IsSpace(s[i])
    ensures TrimEnd(s) != "" ==> !IsSpace(TrimEnd(s)[|TrimEnd(s)| - 1])
    decreases |s|
  {
    if s != "" && IsSpace(s[|s| - 1]) {
      TrimEndTakes(s[..|s| - 1]);
    }
  }

  /** What is trimmed off is white space only, and what is left neither begins nor ends with any. */
  lemma TrimTakesSpace(s: string)
    ensures exists a, b :: s == a + Trim(s) + b && (forall c :: c in a ==> IsSpace(c)) && (forall c :: c in b ==> IsSpace(c))
    ensures Trim(s) != "" ==> !IsSpace(Trim(s)[0]) && !IsSpace(Trim(s)[|Trim(s)| - 1])
  {
    var t := TrimStart(s);
    TrimStartTakes(s);
    TrimEndTakes(t);
    var a, b := s[..|s| - |t|], t[|Trim(s)|..];
    Around(s, a, t, Trim(s), b);
  }

  lemma Around(s: string, a: string, t: string, trimmed: string, b: string)
    requires s == a + t && t == trimmed + b
    ensures s == a + trimmed + b
  {
  }

  predicate CleanOption(env: Env, o: Option<string>) {
    o.Some? ==> Clean(env, o.value)
  }

  lemma {:induction false} TrimStartShape(s: string)
    ensures TrimStart(s) != "" ==> !IsSpace(TrimStart(s)[0])
    decreases |s|
  {
    if s != "" && IsSpace(s[0]) {
      TrimStartShape(s[1..]);
    }
  }

  lemma {:induction false} TrimEndShape(s: string)
    ensures TrimEnd(s) != "" ==> !IsSpace(TrimEnd(s)[|TrimEnd(s)| - 1]) && TrimEnd(s)[0] == s[0]
    decreases |s|
  {
    if s != "" && IsSpace(s[|s| - 1]) {
      TrimEndShape(s[..|s| - 1]);
    }
  }

  /** Trimming is done once and for all. */
  lemma TrimIsStable(s: string)
    ensures Trim(Trim(s)) == Trim(s)
  {
    TrimStartShape(s);
    TrimEndShape(TrimStart(s));
  }

  /** Trimming twice is trimming once. */
  ghost predicate Stable(env: Env) {
    forall s :: env.trim(env.trim(s)) == env.trim(s)
  }

  function StringOf(env: Env, v: Value): (r: Option<string>)
    ensures Stable(env) ==> CleanOption(env, r)
  {
    if v.Str? && env.trim(v.text) != "" then Some(env.trim(v.text)) else None
  }

  function NumberOf(env: Env, v: Value): Option<real> {
    match v
    case Num(n) => Some(n)
    case Str(s) => if env.trim(s) != "" then env.parseNumber(s) else None
    case _ => None
  }

  function FlagOf(v: Value): Option<bool> {
    if v.Flag? then Some(v.flag) else None
  }

  function ItemsOf(v: Value): seq<Value> {
    if v.List? then v.items else []
  }

  /** Anything but an object reads as the empty object. */
  function ObjectOf(v: Value): Value {
    if v.Obj? then v else Obj(map[], map[])
  }

  function FieldOf(v: Value, name: Name): Value {
    if v.Obj? && name in v.fields then v.fields[name] else Undefined
  }

  predicate IsEmptyObject(v: Value) {
    v.Obj? && v.fields == map[] && v.entries == map[]
  }

  predicate IsTruthy(v: Value) {
    match v
    case Undefined => false
    case Null => false
    case Str(s) => s != ""
    case Num(n) => n != 0.0
    case Flag(b) => b
    case List(_) => true
    case Obj(_, _) => true
  }

  function First<T>(a: Option<T>, b: Option<T>): Option<T> {
    if a.Some? then a else b
  }

  /** Reading a text under either spelling. */
  function TextOf(env: Env, p: Payload, f: Field): (r: Option<string>)
    ensures Stable(env) ==> CleanOption(env, r)
  {
    First(StringOf(env, p(Camel(f))), StringOf(env, p(Snake(f))))
  }

  function TurnText(env: Env, v: Value, f: Field): (r: Option<string>)
    ensures Stable(env) ==> CleanOption(env, r)
  {
    First(StringOf(env, FieldOf(v, Camel(f))), StringOf(env, FieldOf(v, Snake(f))))
  }

  function NumberField(env: Env, p: Payload, f: Field): Option<real> {
    First(NumberOf(env, p(Camel(f))), NumberOf(env, p(Snake(f))))
  }

  /** The camel-case value unless it is undefined or null. */
  function Coalesced(p: Payload, f: Field): Value {
    if p(Camel(f)) == Undefined || p(Camel(f)) == Null then p(Snake(f)) else p(Camel(f))
  }

  // ---------------------------------------------------------------------------
  // Vocabulary
  // ---------------------------------------------------------------------------

  function StatusName(s: SnapshotStatus): string {
    match s
    case StatusStarting => "starting" case StatusRunning => "running" case StatusReconnecting => "reconnecting"
    case StatusSettled => "settled" case StatusWaitingUser => "waiting_user" case StatusBlocked => "blocked"
    case StatusClosed => "closed" case StatusCancelled => "cancelled" case StatusFailed => "failed"
    case StatusUnrecoverable => "unrecoverable"
  }

  function ReadStatus(s: string): SnapshotStatus {
    if s == "starting" then StatusStarting
    else if s == "reconnecting" then StatusReconnecting
    else if s == "running" || s == "queued" || s == "waiting" || s == "stopping" then StatusRunning
    else if s == "settled" || s == "done" || s == "completed" || s == "complete" || s == "success" || s == "idle" then StatusSettled
    else if s == "waiting_user" then StatusWaitingUser
    else if s == "blocked" then StatusBlocked
    else if s == "cancelled" || s == "canceled" then StatusCancelled
    else if s == "closed" then StatusClosed
    else if s == "failed" || s == "failure" || s == "error" || s == "interrupted" then StatusFailed
    else if s == "unrecoverable" then StatusUnrecoverable
    else StatusRunning
  }

  function MainlineName(s: MainlineState): string {
    match s
    case MainlineNone => "none" case MainlineStarting => "starting" case MainlineExecuting => "executing"
    case MainlineWaitingUser => "waiting_user" case MainlineSettled => "settled" case MainlineClosed => "closed"
    case MainlineCancelled => "cancelled" case MainlineFailed => "failed" case MainlineBlocked => "blocked"
    case MainlineUnrecoverable => "unrecoverable"
  }

  function ReadMainline(s: string): Option<MainlineState> {
    if s == "none" then Some(MainlineNone) else if s == "starting" then Some(MainlineStarting)
    else if s == "executing" then Some(MainlineExecuting) else if s == "waiting_user" then Some(MainlineWaitingUser)
    else if s == "settled" then Some(MainlineSettled) else if s == "closed" then Some(MainlineClosed)
    else if s == "cancelled" then Some(MainlineCancelled) else if s == "failed" then Some(MainlineFailed)
    else if s == "blocked" then Some(MainlineBlocked) else if s == "unrecoverable" then Some(MainlineUnrecoverable)
    else None
  }

  function ActivationName(s: ActivationState): string {
    match s
    case ActivationNone => "none" case ActivationQueued => "queued" case ActivationDispatched => "dispatched"
    case ActivationRunning => "running" case ActivationWaitingServer => "waiting_server"
    case ActivationWaitingUser => "waiting_user" case ActivationCompleted => "completed"
    case ActivationFailed => "failed" case ActivationCancelled => "cancelled" case ActivationBlocked => "blocked"
  }

  function ReadActivation(s: string): Option<ActivationState> {
    if s == "none" then Some(ActivationNone) else if s == "queued" then Some(ActivationQueued)
    else if s == "dispatched" then Some(ActivationDispatched) else if s == "running" then Some(ActivationRunning)
    else if s == "waiting_server" then Some(ActivationWaitingServer) else if s == "waiting_user" then Some(ActivationWaitingUser)
    else if s == "completed" then Some(ActivationCompleted) else if s == "failed" then Some(ActivationFailed)
    else if s == "cancelled" then Some(ActivationCancelled) else if s == "blocked" then Some(ActivationBlocked)
    else None
  }

  function BindingName(s: BindingStatus): string {
    match s
    case BindingNone => "none" case BindingPending => "pending" case BindingActive => "active"
    case BindingClosed => "closed" case BindingDeleted => "deleted"
  }

  function ReadBinding(s: string): Option<BindingStatus> {
    if s == "none" then Some(BindingNone) else if s == "pending" then Some(BindingPending)
    else if s == "active" then Some(BindingActive) else if s == "closed" then Some(BindingClosed)
    else if s == "deleted" then Some(BindingDeleted) else None
  }

  function ProjectionName(s: ProjectionState): string {
    match s
    case ProjectionLive => "live" case ProjectionRecovered => "recovered" case ProjectionDrained => "drained"
    case ProjectionUnavailable => "unavailable" case ProjectionNonrecoverable => "nonrecoverable"
  }

  function ReadProjection(s: string): Option<ProjectionState> {
    if s == "live" then Some(ProjectionLive) else if s == "recovered" then Some(ProjectionRecovered)
    else if s == "drained" then Some(ProjectionDrained) else if s == "unavailable" then Some(ProjectionUnavailable)
    else if s == "nonrecoverable" then Some(ProjectionNonrecoverable) else None
  }

  function TransportName(s: TransportState): string {
    match s
    case TransportDisconnected => "disconnected" case TransportConnecting => "connecting"
    case TransportStreaming => "streaming" case TransportReconnecting => "reconnecting"
    case TransportClosed => "closed" case TransportError => "error"
  }

  function ReadTransport(s: string): Option<TransportState> {
    if s == "disconnected" then Some(TransportDisconnected) else if s == "connecting" then Some(TransportConnecting)
    else if s == "streaming" then Some(TransportStreaming) else if s == "reconnecting" then Some(TransportReconnecting)
    else if s == "closed" then Some(TransportClosed) else if s == "error" then Some(TransportError) else None
  }

  /** Trimming leaves the vocabulary alone. */
  ghost predicate KeepsNames(env: Env) {
    && (forall x :: Clean(env, StatusName(x))) && (forall x :: Clean(env, MainlineName(x)))
    && (forall x :: Clean(env, ActivationName(x))) && (forall x :: Clean(env, BindingName(x)))
    && (forall x :: Clean(env, ProjectionName(x))) && (forall x :: Clean(env, TransportName(x)))
  }

  /** What the proofs need of the surroundings; white-space trimming has it. */
  ghost predicate Sound(env: Env) {
    Stable(env) && KeepsNames(env) && Clean(env, env.now)
  }

  predicate Tight(s: string) {
    s != "" && !IsSpace(s[0]) && !IsSpace(s[|s| - 1])
  }

  lemma StatusNameIsTight(x: SnapshotStatus)
    ensures Tight(StatusName(x))
  {
  }

  lemma MainlineNameIsTight(x: MainlineState)
    ensures Tight(MainlineName(x))
  {
  }

  lemma ActivationNameIsTight(x: ActivationState)
    ensures Tight(ActivationName(x))
  {
  }

  lemma BindingNameIsTight(x: BindingStatus)
    ensures Tight(BindingName(x))
  {
  }

  lemma ProjectionNameIsTight(x: ProjectionState)
    ensures Tight(ProjectionName(x))
  {
  }

  lemma TransportNameIsTight(x: TransportState)
    ensures Tight(TransportName(x))
  {
  }

  lemma TightIsClean(env: Env, s: string)
    requires env.trim == Trim && Tight(s)
    ensures Clean(env, s)
  {
  }

  lemma TrimmingKeepsNames(env: Env)
    requires env.trim == Trim
    ensures KeepsNames(env)
  {
    forall x ensures Clean(env, StatusName(x)) { StatusNameIsTight(x); TightIsClean(env, StatusName(x)); }
    forall x ensures Clean(env, MainlineName(x)) { MainlineNameIsTight(x); TightIsClean(env, MainlineName(x)); }
    forall x ensures Clean(env, ActivationName(x)) { ActivationNameIsTight(x); TightIsClean(env, ActivationName(x)); }
    forall x ensures Clean(env, BindingName(x)) { BindingNameIsTight(x); TightIsClean(env, BindingName(x)); }
    forall x ensures Clean(env, ProjectionName(x)) { ProjectionNameIsTight(x); TightIsClean(env, ProjectionName(x)); }
    forall x ensures Clean(env, TransportName(x)) { TransportNameIsTight(x); TightIsClean(env, TransportName(x)); }
  }

  lemma TrimmingIsSound(env: Env)
    requires env.trim == Trim && Tight(env.now)
    ensures Sound(env)
  {
    TrimmingKeepsNames(env);
    TightIsClean(env, env.now);
    forall s ensures env.trim(env.trim(s)) == env.trim(s) {
      TrimIsStable(s);
    }
  }

  lemma StatusNameReads(s: SnapshotStatus)
    ensures ReadStatus(StatusName(s)) == s
  {
  }

  lemma MainlineNameReads(s: MainlineState)
    ensures ReadMainline(MainlineName(s)) == Some(s)
  {
  }

  lemma ActivationNameReads(s: ActivationState)
    ensures ReadActivation(ActivationName(s)) == Some(s)
  {
  }

  lemma BindingNameReads(s: BindingStatus)
    ensures ReadBinding(BindingName(s)) == Some(s)
  {
  }

  lemma ProjectionNameReads(s: ProjectionState)
    ensures ReadProjection(ProjectionName(s)) == Some(s)
  {
  }

  lemma TransportNameReads(s: TransportState)
    ensures ReadTransport(TransportName(s)) == Some(s)
  {
  }
}
